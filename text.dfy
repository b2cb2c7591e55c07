/**
  Python string builtins used by the request validators and the colour codec:
  `str.lstrip(ch)`, slicing `s[i:j]`, `str.split(sep)`, `int(s, base)` for bases 10
  and 16 with the white space it skips, and the `'{:02x}'` format.
*/
module Text {
  import opened Builtins

  /**
    The white space `int()` skips around a literal: the characters for which Python's
    `str.isspace()` holds, except the ASCII separators U+001C..U+001F, which CPython's
    `int()` keeps because they are not C white space.
  */
  predicate IsSpace(c: char)
  {
    c == ' ' || ('\t' <= c <= '\r') || c == '\U{85}' || c == '\U{a0}'
    || c == '\U{1680}' || ('\U{2000}' <= c <= '\U{200a}') || c == '\U{2028}' || c == '\U{2029}'
    || c == '\U{202f}' || c == '\U{205f}' || c == '\U{3000}'
  }

  function LStrip(s: string): (r: string)
    ensures |r| <= |s| && r == s[|s| - |r|..]
    ensures r == [] || !IsSpace(r[0])
  {
    if s != [] && IsSpace(s[0]) then LStrip(s[1..]) else s
  }

  function RStrip(s: string): (r: string)
    ensures |r| <= |s| && r == s[..|r|]
    ensures r == [] || !IsSpace(r[|r| - 1])
  {
    if s != [] && IsSpace(s[|s| - 1]) then RStrip(s[..|s| - 1]) else s
  }

  /**
    `int()`'s removal of surrounding white space: what is left neither starts nor ends
    with white space, and a string without white space at either end is left as it is.
  */
  function Strip(s: string): (r: string)
    ensures |r| <= |s|
    ensures r == [] || (!IsSpace(r[0]) && !IsSpace(r[|r| - 1]))
    ensures s == [] || (!IsSpace(s[0]) && !IsSpace(s[|s| - 1])) ==> r == s
  {
    RStrip(LStrip(s))
  }

  /** `s.lstrip(c)`: every leading c is removed. */
  function LStripChar(s: string, c: char): (r: string)
    ensures |r| <= |s| && r == s[|s| - |r|..]
    ensures r == [] || r[0] != c
    ensures forall i :: 0 <= i < |s| - |r| ==> s[i] == c
  {
    if s != [] && s[0] == c then LStripChar(s[1..], c) else s
  }

  /** Python slicing `s[i:j]` with non-negative bounds, which clamps instead of failing. */
  function Slice<T>(s: seq<T>, i: nat, j: nat): (r: seq<T>)
    ensures i <= j <= |s| ==> r == s[i..j]
    ensures |r| <= |s|
  {
    var a := if i < |s| then i else |s|;
    var b := if j < |s| then j else |s|;
    if a <= b then s[a..b] else []
  }

  /** `s.split(sep)` for a one-character separator: always at least one part. */
  function Split(s: string, sep: char): (parts: seq<string>)
    ensures |parts| >= 1
  {
    if s == [] then [""]
    else
      var rest := Split(s[1..], sep);
      if s[0] == sep then [""] + rest else [[s[0]] + rest[0]] + rest[1..]
  }

  /** Joining the parts back with the separator gives the original string, and no part holds the separator. */
  lemma {:induction false} SplitJoin(s: string, sep: char)
    ensures Join(Split(s, sep), sep) == s
    ensures forall i, k :: 0 <= i < |Split(s, sep)| && 0 <= k < |Split(s, sep)[i]| ==> Split(s, sep)[i][k] != sep
  {
    if s != [] {
      SplitJoin(s[1..], sep);
      var rest := Split(s[1..], sep);
      if s[0] == sep {
        assert Join([""] + rest, sep) == "" + [sep] + Join(rest, sep);
      } else {
        if |rest| == 1 {
          assert Join([[s[0]] + rest[0]], sep) == [s[0]] + rest[0];
        } else {
          assert [[s[0]] + rest[0]] + rest[1..] == [[s[0]] + rest[0]] + rest[1..];
          assert Join(rest, sep) == rest[0] + [sep] + Join(rest[1..], sep);
        }
      }
    }
  }

  function Join(parts: seq<string>, sep: char): string
    requires |parts| >= 1
  {
    if |parts| == 1 then parts[0] else parts[0] + [sep] + Join(parts[1..], sep)
  }

  /** Splitting `a + sep + b`, where neither a nor b holds sep, gives exactly [a, b]. */
  lemma {:induction false} SplitTwo(a: string, b: string, sep: char)
    requires forall k :: 0 <= k < |a| ==> a[k] != sep
    requires forall k :: 0 <= k < |b| ==> b[k] != sep
    ensures Split(a + [sep] + b, sep) == [a, b]
  {
    if a == [] {
      assert a + [sep] + b == [sep] + b;
      assert ([sep] + b)[1..] == b;
      SplitNone(b, sep);
    } else {
      SplitTwo(a[1..], b, sep);
      assert (a + [sep] + b)[1..] == a[1..] + [sep] + b;
      assert [a[0]] + a[1..] == a;
    }
  }

  lemma {:induction false} SplitNone(s: string, sep: char)
    requires forall k :: 0 <= k < |s| ==> s[k] != sep
    ensures Split(s, sep) == [s]
  {
    if s != [] {
      SplitNone(s[1..], sep);
      assert [s[0]] + s[1..] == s;
    }
  }

  /**
    The value of a digit character in bases up to 36 (`0-9`, then letters of either case).
    Only ASCII digits are covered: the other Unicode decimal digits `int()` takes are not.
  */
  function DigitValue(c: char): nat
  {
    if '0' <= c <= '9' then (c - '0') as nat
    else if 'a' <= c <= 'z' then (c - 'a') as nat + 10
    else if 'A' <= c <= 'Z' then (c - 'A') as nat + 10
    else 36
  }

  predicate IsDigit(c: char, base: nat)
  {
    DigitValue(c) < base
  }

  /** Digits with single underscores allowed between them, as `int()` accepts. */
  predicate ValidDigits(v: string, base: nat)
  {
    && |v| > 0
    && IsDigit(v[0], base)
    && forall i {:trigger v[i]} :: 0 <= i < |v| ==> IsDigit(v[i], base) || (v[i] == '_' && i + 1 < |v| && IsDigit(v[i + 1], base))
  }

  function DigitsValue(v: string, base: nat): nat
  {
    if v == [] then 0
    else if v[|v| - 1] == '_' then DigitsValue(v[..|v| - 1], base)
    else DigitsValue(v[..|v| - 1], base) * base + DigitValue(v[|v| - 1])
  }

  /** `int(s, 16)` accepts an optional `0x`/`0X` prefix, itself optionally followed by one underscore. */
  function DropHexPrefix(u: string): (r: string)
    ensures |r| <= |u| && r == u[|u| - |r|..]
  {
    if |u| >= 2 && u[0] == '0' && (u[1] == 'x' || u[1] == 'X')
    then (if |u| >= 3 && u[2] == '_' then u[3..] else u[2..])
    else u
  }

  /** CPython's default `sys.int_max_str_digits`: the most digits `int()` converts in a base that is not a power of two. */
  const MaxStrDigits: nat := 4300

  /** The digits of a digit string, underscores not counted. */
  function DigitCount(v: string): (r: nat)
    ensures r <= |v|
  {
    if v == [] then 0 else (if v[0] == '_' then 0 else 1) + DigitCount(v[1..])
  }

  /** A run of digits (no underscores) counts every character. */
  lemma {:induction false} DigitCountNoUnderscore(v: string)
    requires forall i :: 0 <= i < |v| ==> v[i] != '_'
    ensures DigitCount(v) == |v|
  {
    if v != [] {
      DigitCountNoUnderscore(v[1..]);
    }
  }

  /**
    Python's `int(s, base)` for base 10 or 16: surrounding white space, one optional
    sign, (base 16) an optional prefix, then ASCII digits with single underscores between
    them; any other string of ASCII characters is a ValueError (None). Nothing without a
    digit of the base is accepted. The limit on decimal digits is added by `ParseDecimal`.
  */
  function ParseInt(s: string, base: nat): (r: Option<int>)
    requires base == 10 || base == 16
    ensures r.Some? ==> exists k :: 0 <= k < |s| && IsDigit(s[k], base)
  {
    var t := Strip(s);
    var digits := DigitsPart(t, base);
    if ValidDigits(digits, base)
    then
      DigitWitness(s, base);
      Some(if |t| > 0 && t[0] == '-' then -(DigitsValue(digits, base) as int) else DigitsValue(digits, base))
    else None
  }

  /**
    `int(s)` in base 10: as `ParseInt`, except that more than `MaxStrDigits` digits,
    leading zeros included, is a ValueError. Base 16 is a power of two and has no limit.
  */
  function ParseDecimal(s: string): (r: Option<int>)
    ensures r.Some? ==> r == ParseInt(s, 10) && DigitCount(DigitsPart(Strip(s), 10)) <= MaxStrDigits
    ensures DigitCount(DigitsPart(Strip(s), 10)) <= MaxStrDigits ==> r == ParseInt(s, 10)
  {
    if DigitCount(DigitsPart(Strip(s), 10)) > MaxStrDigits then None else ParseInt(s, 10)
  }

  /** The digits `int()` reads in a stripped literal: after the sign and, in base 16, the prefix. */
  function DigitsPart(t: string, base: nat): (digits: string)
    ensures |digits| <= |t| && digits == t[|t| - |digits|..]
    ensures |t| > 0 && (t[0] == '-' || t[0] == '+') ==> |digits| < |t|
  {
    var unsigned := if |t| > 0 && (t[0] == '-' || t[0] == '+') then t[1..] else t;
    if base == 16 then DropHexPrefix(unsigned) else unsigned
  }

  /** More than `MaxStrDigits` decimal digits, leading zeros included, are refused. */
  lemma TooManyDigits(s: string)
    requires forall i :: 0 <= i < |s| ==> '0' <= s[i] <= '9'
    requires |s| > MaxStrDigits
    ensures ParseDecimal(s) == None
  {
    assert !IsSpace(s[0]) && !IsSpace(s[|s| - 1]);
    assert Strip(s) == s;
    assert DigitsPart(s, 10) == s;
    DigitCountNoUnderscore(s);
  }

  /** Digits `int()` accepts are characters of the string itself. */
  lemma DigitWitness(s: string, base: nat)
    requires ValidDigits(DigitsPart(Strip(s), base), base)
    ensures exists k :: 0 <= k < |s| && IsDigit(s[k], base)
  {
    var t := Strip(s);
    var digits := DigitsPart(t, base);
    StripWithin(s);
    assert digits[0] == t[|t| - |digits|] == s[|s| - |LStrip(s)| + |t| - |digits|];
  }

  /** What `int()` keeps of s is the stretch of s after the leading white space. */
  lemma StripWithin(s: string)
    ensures |s| - |LStrip(s)| + |Strip(s)| <= |s|
    ensures Strip(s) == s[|s| - |LStrip(s)|..|s| - |LStrip(s)| + |Strip(s)|]
  {
  }

  /** `int(s, 16)` of at most two characters, as `from_hex` slices them: within -15..255, and never of "". */
  lemma ParseShortHex(s: string)
    requires |s| <= 2
    ensures ParseInt(s, 16).Some? ==> -15 <= ParseInt(s, 16).value <= 255
    ensures s == [] ==> ParseInt(s, 16) == None
  {
    var t := Strip(s);
    var digits := DigitsPart(t, 16);
    if ValidDigits(digits, 16) {
      ShortDigitsValue(digits);
    }
  }

  /** Each character of an accepted digit string is a digit, or an underscore with more to follow. */
  lemma ValidDigitAt(v: string, base: nat, i: nat)
    requires ValidDigits(v, base) && i < |v|
    ensures IsDigit(v[i], base) || (v[i] == '_' && i + 1 < |v|)
  {
  }

  /** One hexadecimal digit is at most 15, two at most 255. */
  lemma ShortDigitsValue(v: string)
    requires ValidDigits(v, 16) && |v| <= 2
    ensures DigitsValue(v, 16) <= (if |v| == 1 then 15 else 255)
  {
    assert v[..|v| - 1] == v[..|v| - 1];
    if |v| == 1 {
      assert v[..0] == [];
    } else {
      ValidDigitAt(v, 16, 1);
      assert v[..1] == [v[0]];
      assert DigitsValue([v[0]], 16) == DigitValue(v[0]) <= 15;
    }
  }

  /** Lower-case hexadecimal digit for 0..15. */
  function HexDigit(d: nat): (c: char)
    requires d < 16
    ensures DigitValue(c) == d
    ensures '0' <= c <= '9' || 'a' <= c <= 'f'
  {
    if d < 10 then ('0' as int + d) as char else ('a' as int + d - 10) as char
  }

  /** The minimal lower-case hexadecimal spelling of n (Python `'{:x}'`). */
  function Hex(n: nat): (r: string)
    ensures |r| >= 1
    ensures forall k :: 0 <= k < |r| ==> '0' <= r[k] <= '9' || 'a' <= r[k] <= 'f'
  {
    if n < 16 then [HexDigit(n)] else Hex(n / 16) + [HexDigit(n % 16)]
  }

  /**
    Python `'{:02x}'.format(x)`: zero-padded to width two, a negative value keeping its
    sign; a component in 0..255 is exactly its two lower-case hexadecimal digits.
  */
  function Format02x(x: int): (r: string)
    ensures |r| >= 2
    ensures 0 <= x < 256 ==> r == [HexDigit(x / 16), HexDigit(x % 16)]
  {
    if x < 0 then "-" + Hex(-x)
    else if x < 16 then
      assert Hex(x) == [HexDigit(x)] && HexDigit(0) == '0';
      "0" + Hex(x)
    else
      assert x < 256 ==> Hex(x / 16) == [HexDigit(x / 16)];
      Hex(x)
  }

  /** An unsigned, unspaced, unprefixed digit string parses to its digits' value. */
  lemma ParsePlainDigits(s: string, base: nat)
    requires base == 10 || base == 16
    requires ValidDigits(s, base)
    requires !IsSpace(s[0]) && !IsSpace(s[|s| - 1])
    requires s[0] != '-' && s[0] != '+'
    requires base == 16 ==> DropHexPrefix(s) == s
    ensures ParseInt(s, base) == Some(DigitsValue(s, base) as int)
  {
  }

  /** `int(d1 + d0, 16)` for two hexadecimal digits is `16*d1 + d0`. */
  lemma ParseTwoHexDigits(x: int)
    requires 0 <= x < 256
    ensures ParseInt([HexDigit(x / 16), HexDigit(x % 16)], 16) == Some(x)
  {
    var s := [HexDigit(x / 16), HexDigit(x % 16)];
    assert IsDigit(s[0], 16) && IsDigit(s[1], 16);
    assert ValidDigits(s, 16);
    assert s[..1] == [s[0]];
    assert DigitsValue([s[0]], 16) == DigitValue(s[0]);
    assert DigitsValue(s, 16) == DigitsValue([s[0]], 16) * 16 + DigitValue(s[1]);
    assert DigitsValue(s, 16) == x;
    assert s[1] != 'x' && s[1] != 'X';
    assert DropHexPrefix(s) == s;
    ParsePlainDigits(s, 16);
  }

  /** `k in s` for strings: k occurs somewhere in s. */
  predicate HasSubstring(s: string, k: string)
    decreases |s|
  {
    |k| <= |s| && (s[..|k|] == k || HasSubstring(s[1..], k))
  }
}
