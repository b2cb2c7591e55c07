/**
  The handful of Python list and number builtins the modelled code relies on:
  `max(lo, min(hi, x))` clamping, list repetition `xs * n`, `range(start, stop, step)`,
  `sum`/`mean` over sequences, and `collections.deque(maxlen=…).append`.
*/
module Builtins {

  datatype Option<T> = None | Some(value: T)

  /** `max(lo, min(hi, x))` (also `np.clip` on a scalar). */
  function Clamp(x: int, lo: int, hi: int): (r: int)
    requires lo <= hi
    ensures lo <= r <= hi
    ensures lo <= x <= hi ==> r == x
    ensures x < lo ==> r == lo
    ensures hi < x ==> r == hi
  {
    if x < lo then lo else if hi < x then hi else x
  }

  /**
    The same clamp on real numbers (Python floats without NaN). Dafny has no ordering shared
    by `int` and `real`, so a single definition generic over both cannot compare its
    arguments; the integer and the float call sites each get their own copy.
  */
  function ClampReal(x: real, lo: real, hi: real): (r: real)
    requires lo <= hi
    ensures lo <= r <= hi
    ensures lo <= x <= hi ==> r == x
    ensures x < lo ==> r == lo
    ensures hi < x ==> r == hi
  {
    if x < lo then lo else if hi < x then hi else x
  }

  /** Python's list repetition `s * n`. */
  function Repeat<T>(s: seq<T>, n: nat): seq<T>
  {
    if n == 0 then [] else s + Repeat(s, n - 1)
  }

  lemma {:induction false} RepeatLength<T>(s: seq<T>, n: nat)
    ensures |Repeat(s, n)| == |s| * n
  {
    if n > 0 {
      RepeatLength(s, n - 1);
    }
  }

  /** Byte j of copy i in `s * n` is byte j of s. */
  lemma {:induction false} RepeatAt<T>(s: seq<T>, n: nat, i: nat, j: nat)
    requires i < n && j < |s|
    ensures |Repeat(s, n)| == |s| * n
    ensures i * |s| + j < |Repeat(s, n)|
    ensures Repeat(s, n)[i * |s| + j] == s[j]
  {
    RepeatLength(s, n);
    assert |s| * n == |s| + |s| * (n - 1);
    if i > 0 {
      RepeatAt(s, n - 1, i - 1, j);
      assert i * |s| + j == |s| + ((i - 1) * |s| + j);
    }
  }

  /** `s * (n + 1) == (s * n) + s`: repetition can also grow at the back. */
  lemma {:induction false} RepeatSnoc<T>(s: seq<T>, n: nat)
    ensures Repeat(s, n + 1) == Repeat(s, n) + s
  {
    if n > 0 {
      RepeatSnoc(s, n - 1);
    }
  }

  /** Every element of `[x] * n` is x. */
  lemma {:induction false} RepeatSingle<T>(x: T, n: nat)
    ensures |Repeat([x], n)| == n
    ensures forall k :: 0 <= k < n ==> Repeat([x], n)[k] == x
  {
    if n > 0 {
      RepeatSingle(x, n - 1);
    }
  }

  /** `list(range(start, stop, step))` for a non-zero step. */
  function Range(start: int, stop: int, step: int): (r: seq<int>)
    requires step != 0
    decreases if step > 0 then stop - start else start - stop
  {
    if (step > 0 && start < stop) || (step < 0 && start > stop)
    then [start] + Range(start + step, stop, step)
    else []
  }

  /** Element k of `range(start, stop, step)` is `start + k*step`, and it lies strictly before `stop`. */
  lemma {:induction false} RangeAt(start: int, stop: int, step: int, k: nat)
    requires step != 0
    requires k < |Range(start, stop, step)|
    ensures Range(start, stop, step)[k] == start + k * step
    ensures step > 0 ==> start <= Range(start, stop, step)[k] < stop
    ensures step < 0 ==> stop < Range(start, stop, step)[k] <= start
    decreases k
  {
    if k > 0 {
      RangeAt(start + step, stop, step, k - 1);
    }
  }

  /** The deque `append` with a `maxlen`: the oldest entries fall off the front. */
  function AppendBounded<T>(q: seq<T>, x: T, maxlen: nat): (r: seq<T>)
    ensures |q| <= maxlen ==> |r| == if |q| < maxlen then |q| + 1 else maxlen
    ensures |r| <= maxlen || |r| == |q| + 1
    ensures maxlen > 0 ==> |r| > 0 && r[|r| - 1] == x
    ensures r == (q + [x])[|q| + 1 - |r|..]
  {
    var s := q + [x];
    if |s| > maxlen then s[|s| - maxlen..] else s
  }

  /** Appending to a deque that is within its bound keeps it within its bound. */
  lemma {:induction false} AppendBoundedKeepsBound<T>(qs: seq<T>, xs: seq<T>, maxlen: nat)
    requires |qs| <= maxlen
    ensures |AppendAll(qs, xs, maxlen)| <= maxlen
    decreases |xs|
  {
    if xs != [] {
      AppendBoundedKeepsBound(AppendBounded(qs, xs[0], maxlen), xs[1..], maxlen);
    }
  }

  /** Appending the elements of xs one by one. */
  function AppendAll<T>(q: seq<T>, xs: seq<T>, maxlen: nat): seq<T>
    decreases |xs|
  {
    if xs == [] then q else AppendAll(AppendBounded(q, xs[0], maxlen), xs[1..], maxlen)
  }

  function Sum(s: seq<real>): real
  {
    if s == [] then 0.0 else Sum(s[..|s| - 1]) + s[|s| - 1]
  }

  lemma {:induction false} SumAppend(a: seq<real>, b: seq<real>)
    ensures Sum(a + b) == Sum(a) + Sum(b)
    decreases |b|
  {
    if b == [] {
      assert a + b == a;
    } else {
      var ab := a + b;
      assert ab[..|ab| - 1] == a + b[..|b| - 1];
      assert ab[|ab| - 1] == b[|b| - 1];
      SumAppend(a, b[..|b| - 1]);
      assert Sum(ab) == Sum(ab[..|ab| - 1]) + ab[|ab| - 1];
    }
  }

  /** `np.mean` of a non-empty sequence. */
  function Mean(s: seq<real>): real
    requires |s| > 0
  {
    Sum(s) / (|s| as real)
  }

  /** A constant sequence sums to its length times the constant. */
  lemma {:induction false} SumConstant(s: seq<real>, c: real)
    requires forall i :: 0 <= i < |s| ==> s[i] == c
    ensures Sum(s) == (|s| as real) * c
  {
    if s != [] {
      SumConstant(s[..|s| - 1], c);
    }
  }

  /** The mean of a non-empty constant sequence is that constant. */
  lemma MeanConstant(s: seq<real>, c: real)
    requires |s| > 0
    requires forall i :: 0 <= i < |s| ==> s[i] == c
    ensures Mean(s) == c
  {
    SumConstant(s, c);
  }

  /** A sum of values within [lo, hi] lies within [|s|·lo, |s|·hi]. */
  lemma {:induction false} SumBounds(s: seq<real>, lo: real, hi: real)
    requires forall i :: 0 <= i < |s| ==> lo <= s[i] <= hi
    ensures (|s| as real) * lo <= Sum(s) <= (|s| as real) * hi
  {
    if s != [] {
      SumBounds(s[..|s| - 1], lo, hi);
    }
  }

  /** The mean of values within [lo, hi] lies within [lo, hi]. */
  lemma MeanBounds(s: seq<real>, lo: real, hi: real)
    requires |s| > 0
    requires forall i :: 0 <= i < |s| ==> lo <= s[i] <= hi
    ensures lo <= Mean(s) <= hi
  {
    SumBounds(s, lo, hi);
    var n := |s| as real;
    assert n * lo <= Sum(s) <= n * hi;
    assert Sum(s) / n * n == Sum(s);
  }

  /** Scaling every element scales the sum. */
  lemma {:induction false} SumScale(s: seq<real>, t: seq<real>, k: real)
    requires |t| == |s|
    requires forall i :: 0 <= i < |s| ==> t[i] == k * s[i]
    ensures Sum(t) == k * Sum(s)
  {
    if s != [] {
      SumScale(s[..|s| - 1], t[..|t| - 1], k);
    }
  }

  /** Concatenation of a list of lists (`sum(chunks, [])`). */
  function Flatten<T>(xss: seq<seq<T>>): seq<T>
  {
    if xss == [] then [] else Flatten(xss[..|xss| - 1]) + xss[|xss| - 1]
  }

  lemma {:induction false} FlattenAppend<T>(a: seq<seq<T>>, b: seq<seq<T>>)
    ensures Flatten(a + b) == Flatten(a) + Flatten(b)
    decreases |b|
  {
    if b == [] {
      assert a + b == a;
    } else {
      var ab := a + b;
      assert ab[..|ab| - 1] == a + b[..|b| - 1];
      assert ab[|ab| - 1] == b[|b| - 1];
      FlattenAppend(a, b[..|b| - 1]);
      assert Flatten(ab) == Flatten(ab[..|ab| - 1]) + ab[|ab| - 1];
    }
  }

  lemma FlattenCons<T>(x: seq<T>, xs: seq<seq<T>>)
    ensures Flatten([x] + xs) == x + Flatten(xs)
  {
    FlattenAppend([x], xs);
    assert Flatten([x]) == Flatten([]) + x;
  }

  /** Concatenation is associative; stated once so that send loops can regroup their logs. */
  lemma AppendAssoc<T>(a: seq<T>, b: seq<T>, c: seq<T>)
    ensures (a + b) + c == a + (b + c)
  {
  }

  /** A slice within the left operand of a concatenation is a slice of that operand. */
  lemma SliceAppendLeft<T>(a: seq<T>, b: seq<T>, lo: nat, hi: nat)
    requires lo <= hi <= |a|
    ensures (a + b)[lo..hi] == a[lo..hi]
  {
  }

  /** The slice just past the left operand of a concatenation is the right operand. */
  lemma SliceAppendRight<T>(a: seq<T>, b: seq<T>)
    ensures (a + b)[|a|..|a| + |b|] == b
  {
  }

  /** The remainder is the only r in [0, n) with a = q·n + r. */
  lemma ModUnique(a: int, n: int, q: int, r: int)
    requires n > 0 && 0 <= r < n && a == q * n + r
    ensures a % n == r
  {
    var d := q - a / n;
    assert d * n == a % n - r by {
      assert a == (a / n) * n + a % n;
      assert d * n == q * n - (a / n) * n;
    }
  }

  /** The quotient is the only q with a = q·n + r for some r in [0, n). */
  lemma DivUnique(a: int, n: int, q: int, r: int)
    requires n > 0 && 0 <= r < n && a == q * n + r
    ensures a / n == q
  {
    ModUnique(a, n, q, r);
    assert (a / n) * n + r == q * n + r;
    assert (a / n - q) * n == 0;
  }
}
