/**
  The structural parts of the audio-reactive visualizer: the memo cache, resizing by
  linear interpolation, the rolling sample window and its silence gate and
  power-of-two padding, and the mirror/scroll/shift shape of the effects.

  Values are exact reals (the source uses float64 and float32). The numeric kernels
  (FFT, Hamming window, mel projection, Gaussian blur, percentile, the exponential
  filters of the `dsp` module) are not part of this model: their results are
  parameters, and the blur is an arbitrary length-preserving function.
*/
module Visualization {
  import opened Builtins
  import opened Bits

  /** `memoize`: a dictionary from argument tuples to results in front of a pure function. */
  class Memo<K(==), V> {
    const fn: K -> V
    var memo: map<K, V>
    /** How many times the wrapped function has been evaluated. */
    var calls: nat

    /** Every cached value is the function's value, and each evaluation added one entry. */
    ghost predicate Valid()
      reads this
    {
      && (forall args :: args in memo ==> memo[args] == fn(args))
      && calls == |memo.Keys|
    }

    constructor (fn: K -> V)
      ensures this.fn == fn && memo == map[] && calls == 0
      ensures Valid()
    {
      this.fn := fn;
      memo := map[];
      calls := 0;
    }

    /**
      `wrapper(*args)`: a repeated argument returns the cached value and evaluates
      nothing; a new argument evaluates once and adds exactly one entry.
    */
    method Call(args: K) returns (rv: V)
      requires Valid()
      modifies this
      ensures Valid()
      ensures rv == fn(args)
      ensures args in old(memo) ==> rv == old(memo)[args] && memo == old(memo) && calls == old(calls)
      ensures args !in old(memo) ==> memo == old(memo)[args := rv] && calls == old(calls) + 1
    {
      if args in memo {
        rv := memo[args];
      } else {
        rv := fn(args);
        assert memo[args := rv].Keys == memo.Keys + {args};
        memo := memo[args := rv];
        calls := calls + 1;
      }
    }
  }

  /** `np.linspace(0, 1, size)` in exact arithmetic. */
  function Linspace01(size: nat): (xs: seq<real>)
    ensures |xs| == size
    ensures size >= 1 ==> xs[0] == 0.0
    ensures size >= 2 ==> xs[size - 1] == 1.0
    ensures forall i :: 0 <= i < size ==> 0.0 <= xs[i] <= 1.0
  {
    if size == 1 then [0.0]
    else seq(size, i requires 0 <= i < size => Fraction(i, size - 1))
  }

  /** i/n for 0 <= i <= n: a value in [0, 1], 0 at i = 0 and 1 at i = n. */
  function Fraction(i: nat, n: nat): (r: real)
    requires 0 < n && i <= n
    ensures 0.0 <= r <= 1.0
    ensures i == 0 ==> r == 0.0
    ensures i == n ==> r == 1.0
  {
    (i as real) / (n as real)
  }

  /** The grid is evenly spaced, so it is strictly increasing. */
  lemma LinspaceIncreasing(size: nat, i: nat, j: nat)
    requires i < j < size
    ensures Linspace01(size)[i] < Linspace01(size)[j]
  {
    var d := (size - 1) as real;
    assert Linspace01(size)[j] - Linspace01(size)[i] == ((j - i) as real) / d;
  }

  /**
    From segment j on, the first segment `[xp[k], xp[k + 1])` that holds x: every
    segment skipped ends at or before x.
  */
  function SegmentIndex(x: real, xp: seq<real>, j: nat): (k: nat)
    requires j + 1 < |xp|
    requires xp[j] <= x < xp[|xp| - 1]
    ensures j <= k && k + 1 < |xp| && xp[k] <= x < xp[k + 1]
    ensures forall m :: j < m <= k ==> xp[m] <= x
    decreases |xp| - j
  {
    if x < xp[j + 1] then j else SegmentIndex(x, xp, j + 1)
  }

  /**
    `np.interp(x, xp, fp)` inside the grid: the point at x of the chord over the
    segment that holds x.
  */
  function Segment(x: real, xp: seq<real>, fp: seq<real>, j: nat): (y: real)
    requires |xp| == |fp| && j + 1 < |xp|
    requires xp[j] <= x < xp[|xp| - 1]
    ensures var k := SegmentIndex(x, xp, j);
      y == Lerp(fp[k], fp[k + 1], (x - xp[k]) / (xp[k + 1] - xp[k]))
  {
    var k := SegmentIndex(x, xp, j);
    SlopeForm(fp[k], fp[k + 1], x - xp[k], xp[k + 1] - xp[k]);
    (fp[k + 1] - fp[k]) / (xp[k + 1] - xp[k]) * (x - xp[k]) + fp[k]
  }

  /** numpy's slope form `slope * (x - xp[j]) + fp[j]` is the point a fraction u/d along the chord. */
  lemma SlopeForm(a: real, b: real, u: real, d: real)
    requires d != 0.0
    ensures (b - a) / d * u + a == Lerp(a, b, u / d)
  {
    assert (b - a) / d * u == u / d * (b - a);
  }

  /**
    `np.interp(x, xp, fp)`: the first value at or left of the grid, the last value right
    of it, and in between the point at x of the chord over a segment holding x.
  */
  function Interp(x: real, xp: seq<real>, fp: seq<real>): (y: real)
    requires |xp| == |fp| > 0
    ensures x <= xp[0] ==> y == fp[0]
    ensures xp[0] < x && xp[|xp| - 1] <= x ==> y == fp[|fp| - 1]
    ensures xp[0] < x < xp[|xp| - 1] ==> var k := SegmentIndex(x, xp, 0);
      y == Lerp(fp[k], fp[k + 1], (x - xp[k]) / (xp[k + 1] - xp[k]))
  {
    if x <= xp[0] then fp[0]
    else if x >= xp[|xp| - 1] then fp[|fp| - 1]
    else Segment(x, xp, fp, 0)
  }

  /** The point a fraction t of the way from a to b. */
  function Lerp(a: real, b: real, t: real): real
  {
    a + t * (b - a)
  }

  /** A point on the chord between a and b lies between them. */
  lemma LerpBetween(a: real, b: real, t: real, lo: real, hi: real)
    requires lo <= a <= hi && lo <= b <= hi && 0.0 <= t <= 1.0
    ensures lo <= Lerp(a, b, t)
    ensures Lerp(a, b, t) <= hi
  {
    if a <= b {
      LerpRising(a, b, t);
    } else {
      LerpFalling(a, b, t);
    }
  }

  lemma LerpRising(a: real, b: real, t: real)
    requires a <= b && 0.0 <= t <= 1.0
    ensures a <= Lerp(a, b, t) <= b
  {
    MulMonotonic(b - a, 0.0, t);
    MulMonotonic(b - a, t, 1.0);
  }

  lemma LerpFalling(a: real, b: real, t: real)
    requires b < a && 0.0 <= t <= 1.0
    ensures b <= Lerp(a, b, t) <= a
  {
    MulMonotonic(a - b, 0.0, t);
    MulMonotonic(a - b, t, 1.0);
  }

  lemma MulMonotonic(c: real, x: real, y: real)
    requires 0.0 <= c && x <= y
    ensures c * x <= c * y
  {
    assert c * y - c * x == c * (y - x);
  }

  lemma SegmentWithin(x: real, xp: seq<real>, fp: seq<real>, j: nat, lo: real, hi: real)
    requires |xp| == |fp| && j + 1 < |xp|
    requires xp[j] <= x < xp[|xp| - 1]
    requires forall k :: 0 <= k < |fp| ==> lo <= fp[k] <= hi
    ensures lo <= Segment(x, xp, fp, j) <= hi
  {
    var k := SegmentIndex(x, xp, j);
    UnitFraction(x - xp[k], xp[k + 1] - xp[k]);
    LerpBetween(fp[k], fp[k + 1], (x - xp[k]) / (xp[k + 1] - xp[k]), lo, hi);
  }

  /** A part of a positive whole is a fraction in [0, 1]. */
  lemma UnitFraction(a: real, d: real)
    requires 0.0 <= a < d
    ensures 0.0 <= a / d <= 1.0
  {
    assert a / d * d == a;
  }

  /** Linear interpolation never leaves the range of the sample values. */
  lemma InterpWithin(x: real, xp: seq<real>, fp: seq<real>, lo: real, hi: real)
    requires |xp| == |fp| > 0
    requires forall k :: 0 <= k < |fp| ==> lo <= fp[k] <= hi
    ensures lo <= Interp(x, xp, fp) <= hi
  {
    if xp[0] < x < xp[|xp| - 1] {
      SegmentWithin(x, xp, fp, 0, lo, hi);
    }
  }

  /**
    `interpolate(y, new_length)`: y itself when it already has the length, otherwise
    `np.interp` from the old normalized grid onto the new one. numpy refuses an empty
    grid of sample points (ValueError, None here).
  */
  function Interpolate(y: seq<real>, newLength: nat): (z: Option<seq<real>>)
    ensures |y| == newLength ==> z == Some(y)
    ensures z.None? <==> |y| == 0 && newLength > 0
    ensures z.Some? ==> |z.value| == newLength
  {
    if |y| == newLength then Some(y)
    else if |y| == 0 then None
    else
      var xOld := Linspace01(|y|);
      var xNew := Linspace01(newLength);
      Some(seq(newLength, i requires 0 <= i < newLength => Interp(xNew[i], xOld, y)))
  }

  /** Resizing keeps the end samples at the ends and every value within the input's range. */
  lemma InterpolateShape(y: seq<real>, newLength: nat, lo: real, hi: real)
    requires |y| > 0
    requires forall k :: 0 <= k < |y| ==> lo <= y[k] <= hi
    ensures Interpolate(y, newLength).Some?
    ensures forall i :: 0 <= i < newLength ==> lo <= Interpolate(y, newLength).value[i] <= hi
    ensures newLength >= 2 ==> Interpolate(y, newLength).value[0] == y[0]
    ensures newLength >= 2 ==> Interpolate(y, newLength).value[newLength - 1] == y[|y| - 1]
  {
    if |y| != newLength {
      var xOld := Linspace01(|y|);
      var xNew := Linspace01(newLength);
      var z := Interpolate(y, newLength).value;
      forall i | 0 <= i < newLength
        ensures lo <= z[i] <= hi
      {
        InterpWithin(xNew[i], xOld, y, lo, hi);
      }
    }
  }

  /**
    `interpolate` with the normalized grids fetched through the memoized
    `_normalized_linspace`: the cache changes nothing about the result.
  */
  method InterpolateCached(linspace: Memo<nat, seq<real>>, y: seq<real>, newLength: nat) returns (z: Option<seq<real>>)
    requires linspace.fn == Linspace01 && linspace.Valid()
    modifies linspace
    ensures linspace.Valid()
    ensures z == Interpolate(y, newLength)
  {
    if |y| == newLength {
      return Some(y);
    }
    var xOld := linspace.Call(|y|);
    var xNew := linspace.Call(newLength);
    if |y| == 0 {
      return None;
    }
    z := Some(seq(newLength, i requires 0 <= i < newLength => Interp(xNew[i], xOld, y)));
  }

  /** `audio_samples / 2.0**15`: 16-bit samples scaled into [-1, 1). */
  function Normalize(samples: seq<int>): (y: seq<real>)
    ensures |y| == |samples|
    ensures forall i :: 0 <= i < |y| ==> y[i] * 32768.0 == samples[i] as real
  {
    seq(|samples|, i requires 0 <= i < |samples| => (samples[i] as real) / 32768.0)
  }

  /** The fixed-depth window `y_roll`: one row of `samples_per_frame` samples per past frame. */
  class RollingWindow {
    const samplesPerFrame: nat
    const rows: array<seq<real>>

    ghost predicate Valid()
      reads this, rows
    {
      forall k :: 0 <= k < rows.Length ==> |rows[k]| == samplesPerFrame
    }

    /** `initial` stands for the random start-up contents. */
    constructor (initial: seq<seq<real>>, samplesPerFrame: nat)
      requires forall k :: 0 <= k < |initial| ==> |initial[k]| == samplesPerFrame
      ensures this.samplesPerFrame == samplesPerFrame && rows[..] == initial && fresh(rows)
      ensures Valid()
    {
      this.samplesPerFrame := samplesPerFrame;
      rows := new seq<real>[|initial|](k requires 0 <= k < |initial| => initial[k]);
    }

    /**
      `y_roll[:-1] = y_roll[1:]; y_roll[-1, :] = y`: every row moves up one, the oldest
      falls off and the new block becomes the last row. A single sample is broadcast
      across the row; any other length is a shape error raised after the shift, and an
      empty window cannot take the assignment at all.
    */
    method Push(y: seq<real>) returns (ok: bool)
      requires Valid()
      modifies rows
      ensures Valid()
      ensures ok <==> rows.Length > 0 && (|y| == samplesPerFrame || |y| == 1)
      ensures rows[..] == PushRows(old(rows[..]), y, samplesPerFrame)
    {
      var n := rows.Length;
      if n == 0 {
        return false;
      }
      var k := 0;
      while k < n - 1
        invariant 0 <= k <= n - 1
        invariant forall m :: 0 <= m < k ==> rows[m] == old(rows[m + 1])
        invariant forall m :: k <= m < n ==> rows[m] == old(rows[m])
      {
        rows[k] := rows[k + 1];
        k := k + 1;
      }
      assert rows[..n - 1] == old(rows[1..]);
      if |y| == samplesPerFrame {
        rows[n - 1] := y;
        ok := true;
      } else if |y| == 1 {
        RepeatSingle(y[0], samplesPerFrame);
        rows[n - 1] := Repeat([y[0]], samplesPerFrame);
        ok := true;
      } else {
        ok := false;
      }
    }
  }

  /** The window's rows after a push of block y into rows of the given width. */
  function PushRows(rows: seq<seq<real>>, y: seq<real>, width: nat): seq<seq<real>>
  {
    if rows == [] then rows
    else
      var last := if |y| == width then y else if |y| == 1 then Repeat([y[0]], width) else rows[|rows| - 1];
      rows[1..] + [last]
  }

  /**
    A push keeps the depth and the row width, so the flattened window always holds
    depth × width samples; a block of the right width becomes the newest row and the
    oldest row is gone.
  */
  lemma PushKeepsShape(rows: seq<seq<real>>, y: seq<real>, width: nat)
    requires forall k :: 0 <= k < |rows| ==> |rows[k]| == width
    ensures |PushRows(rows, y, width)| == |rows|
    ensures forall k :: 0 <= k < |rows| ==> |PushRows(rows, y, width)[k]| == width
    ensures |Flatten(PushRows(rows, y, width))| == |rows| * width
    ensures |rows| > 0 && |y| == width ==> PushRows(rows, y, width) == rows[1..] + [y]
  {
    if rows != [] {
      RepeatSingle(if |y| > 0 then y[0] else 0.0, width);
    }
    FlattenUniform(PushRows(rows, y, width), width);
  }

  /** `np.concatenate(y_roll)` has exactly depth × samples_per_frame samples. */
  lemma {:induction false} FlattenUniform(rows: seq<seq<real>>, width: nat)
    requires forall k :: 0 <= k < |rows| ==> |rows[k]| == width
    ensures |Flatten(rows)| == |rows| * width
  {
    if rows != [] {
      var front := rows[..|rows| - 1];
      FlattenUniform(front, width);
      assert |Flatten(rows)| == |Flatten(front)| + width;
      assert |front| * width + width == |rows| * width;
    }
  }

  function RealAbs(x: real): real
  {
    if x < 0.0 then -x else x
  }

  /** `np.max(np.abs(y))`. */
  function MaxAbs(s: seq<real>): (m: real)
    requires |s| > 0
    ensures forall i :: 0 <= i < |s| ==> RealAbs(s[i]) <= m
    ensures exists i :: 0 <= i < |s| && RealAbs(s[i]) == m
  {
    if |s| == 1 then RealAbs(s[0])
    else
      var m := MaxAbs(s[..|s| - 1]);
      assert forall i :: 0 <= i < |s| - 1 ==> s[..|s| - 1][i] == s[i];
      if RealAbs(s[|s| - 1]) > m then RealAbs(s[|s| - 1]) else m
  }

  /** The silence gate: quiet exactly when every sample is below the threshold in magnitude. */
  predicate IsSilent(yData: seq<real>, threshold: real)
    requires |yData| > 0
  {
    MaxAbs(yData) < threshold
  }

  lemma SilentIff(yData: seq<real>, threshold: real)
    requires |yData| > 0
    ensures IsSilent(yData, threshold) <==> forall i :: 0 <= i < |yData| ==> RealAbs(yData[i]) < threshold
  {
    var i :| 0 <= i < |yData| && RealAbs(yData[i]) == MaxAbs(yData);
  }

  /** `np.tile(0, (3, n))`: the all-dark frame the gate sends. */
  function DarkFrame(nPixels: nat): (f: seq<seq<real>>)
    ensures |f| == 3
    ensures forall c, j :: 0 <= c < 3 && 0 <= j < nPixels ==> |f[c]| == nPixels && f[c][j] == 0.0
  {
    RepeatSingle(0.0, nPixels);
    [Repeat([0.0], nPixels), Repeat([0.0], nPixels), Repeat([0.0], nPixels)]
  }

  /** `ceil(log2(n))` for n >= 1, exactly: the exponent of the next power of two. */
  function CeilLog2(n: nat): (k: nat)
    requires n >= 1
    ensures Pow2(k) >= n
    ensures k == 0 || Pow2(k - 1) < n
  {
    if n == 1 then 0 else 1 + CeilLog2((n + 1) / 2)
  }

  /** `N_zeros = 2**ceil(log2(N)) - N`. */
  function PadLength(n: nat): (zeros: nat)
    requires n >= 1
  {
    Pow2(CeilLog2(n)) - n
  }

  /** `np.pad(y, (0, zeros), mode='constant')`. */
  function ZeroPad(y: seq<real>, zeros: nat): seq<real>
  {
    y + Repeat([0.0], zeros)
  }

  /**
    Padding reaches the smallest power of two at least N (strictly fewer than N zeros),
    keeps the data as a prefix and adds only zeros.
  */
  lemma PaddedToPowerOfTwo(y: seq<real>)
    requires |y| >= 1
    ensures |ZeroPad(y, PadLength(|y|))| == Pow2(CeilLog2(|y|))
    ensures PadLength(|y|) < |y|
    ensures ZeroPad(y, PadLength(|y|))[..|y|] == y
    ensures forall k :: |y| <= k < |ZeroPad(y, PadLength(|y|))| ==> ZeroPad(y, PadLength(|y|))[k] == 0.0
  {
    RepeatSingle(0.0, PadLength(|y|));
    var k := CeilLog2(|y|);
    if k > 0 {
      assert Pow2(k) == 2 * Pow2(k - 1);
    }
  }

  /** `y_data *= fft_window`: element-wise product with the window of the same length. */
  function Windowed(y: seq<real>, window: seq<real>): (r: seq<real>)
    requires |window| == |y|
    ensures |r| == |y|
  {
    seq(|y|, i requires 0 <= i < |y| => y[i] * window[i])
  }

  /** What `microphone_update` hands on: a dark frame for the strip, or padded data for the FFT. */
  datatype Outcome = Dark(pixels: seq<seq<real>>) | Spectrum(padded: seq<real>)

  /**
    `microphone_update` up to the FFT: normalize, push into the window, flatten, gate on
    volume, window and zero-pad. None where numpy raises (a block of the wrong shape,
    an empty window, a window function of another length, which the configuration rules out).
  */
  method MicrophoneUpdate(yRoll: RollingWindow, audioSamples: seq<int>, threshold: real,
                          fftWindow: seq<real>, nPixels: nat) returns (r: Option<Outcome>)
    requires yRoll.Valid()
    modifies yRoll.rows
    ensures yRoll.Valid()
    ensures yRoll.rows[..] == PushRows(old(yRoll.rows[..]), Normalize(audioSamples), yRoll.samplesPerFrame)
    ensures
      var yData := Flatten(yRoll.rows[..]);
      r.None? <==>
        || yRoll.rows.Length == 0
        || (|audioSamples| != yRoll.samplesPerFrame && |audioSamples| != 1)
        || |yData| == 0
        || (!IsSilent(yData, threshold) && |fftWindow| != |yData|)
    ensures r.Some? ==> |Flatten(yRoll.rows[..])| > 0 && (r.value.Dark? <==> IsSilent(Flatten(yRoll.rows[..]), threshold))
    ensures r.Some? && r.value.Dark? ==> r.value.pixels == DarkFrame(nPixels)
    ensures r.Some? && r.value.Spectrum? ==>
      var yData := Flatten(yRoll.rows[..]);
      && |fftWindow| == |yData|
      && r.value.padded == ZeroPad(Windowed(yData, fftWindow), PadLength(|yData|))
  {
    var y := Normalize(audioSamples);
    var ok := yRoll.Push(y);
    if !ok {
      return None;
    }
    var yData := Flatten(yRoll.rows[..]);
    if |yData| == 0 {
      return None;
    }
    if IsSilent(yData, threshold) {
      return Some(Dark(DarkFrame(nPixels)));
    }
    var n := |yData|;
    var nZeros := PadLength(n);
    if |fftWindow| != n {
      return None;
    }
    var windowed := Windowed(yData, fftWindow);
    return Some(Spectrum(ZeroPad(windowed, nZeros)));
  }

  /** `s[::-1]`. */
  function Reverse<T>(s: seq<T>): (r: seq<T>)
    ensures |r| == |s|
    ensures forall i :: 0 <= i < |s| ==> r[i] == s[|s| - 1 - i]
  {
    seq(|s|, i requires 0 <= i < |s| => s[|s| - 1 - i])
  }

  /** `np.concatenate((half[::-1], half))`: the half-strip mirrored about the centre. */
  function Mirror<T>(half: seq<T>): (r: seq<T>)
    ensures |r| == 2 * |half|
    ensures forall i :: 0 <= i < |half| ==> r[i] == half[|half| - 1 - i]
    ensures r[|half|..] == half
  {
    Reverse(half) + half
  }

  /**
    The mirrored strip is twice as long, symmetric about its centre, and its right
    half is the original half running outwards from the centre.
  */
  lemma MirrorSymmetric<T>(half: seq<T>)
    ensures |Mirror(half)| == 2 * |half|
    ensures forall j :: 0 <= j < 2 * |half| ==> Mirror(half)[j] == Mirror(half)[2 * |half| - 1 - j]
    ensures Mirror(half)[|half|..] == half
  {
    var m := Mirror(half);
    var h := |half|;
    forall j | 0 <= j < 2 * h
      ensures m[j] == m[2 * h - 1 - j]
    {
      if j < h {
        assert m[j] == half[h - 1 - j];
        assert m[2 * h - 1 - j] == half[h - 1 - j];
      } else {
        assert m[j] == half[j - h];
        assert m[2 * h - 1 - j] == half[j - h];
      }
    }
  }

  /** `np.roll(s, shift)`: element i moves to `(i + shift) mod n`. */
  function Roll<T>(s: seq<T>, shift: int): (r: seq<T>)
    ensures |r| == |s|
  {
    seq(|s|, j requires 0 <= j < |s| => s[(j - shift) % |s|])
  }

  /** Rolling is a rotation: it moves element i to `(i + shift) mod n`. */
  lemma RollMoves<T>(s: seq<T>, shift: int, i: nat)
    requires i < |s|
    ensures Roll(s, shift)[(i + shift) % |s|] == s[i]
  {
    var n := |s|;
    var q := (i + shift) / n;
    var j := (i + shift) % n;
    assert j - shift == -q * n + i by {
      assert i + shift == q * n + j;
    }
    ModUnique(j - shift, n, -q, i);
  }

  /** Rolling back by the same shift restores the original: no element is lost or changed. */
  lemma RollInverse<T>(s: seq<T>, shift: int)
    ensures Roll(Roll(s, shift), -shift) == s
  {
    var r := Roll(Roll(s, shift), -shift);
    forall i | 0 <= i < |s|
      ensures r[i] == s[i]
    {
      assert i - -shift == i + shift;
      RollMoves(s, shift, i);
    }
  }

  /** `a * k` on one channel row. */
  function Scale(s: seq<real>, k: real): (r: seq<real>)
    ensures |r| == |s|
    ensures forall i :: 0 <= i < |s| ==> r[i] == k * s[i]
  {
    seq(|s|, i requires 0 <= i < |s| => k * s[i])
  }

  /** `np.clip(s, lo, hi)` on one row. */
  function Clip(s: seq<real>, lo: real, hi: real): (r: seq<real>)
    requires lo <= hi
    ensures |r| == |s|
    ensures forall i :: 0 <= i < |s| ==> lo <= r[i] <= hi
    ensures forall i :: 0 <= i < |s| && lo <= s[i] <= hi ==> r[i] == s[i]
  {
    seq(|s|, i requires 0 <= i < |s| => ClampReal(s[i], lo, hi))
  }

  /** `p[:, 1:] = p[:, :-1]` with x at index 0: the row moves one place outwards and its last sample drops off. */
  function ShiftOutward(row: seq<real>, x: real): (r: seq<real>)
    requires |row| > 0
    ensures |r| == |row| && r[0] == x
    ensures forall j :: 1 <= j < |row| ==> r[j] == row[j - 1]
  {
    [x] + row[..|row| - 1]
  }

  /** The global effect state: the half-strip `p`, the scroll offset, the last spectrum and the peak history. */
  class Effects {
    const nPixels: nat
    var p: seq<seq<real>>
    var prevScroll: int
    var prevSpectrum: seq<real>
    var peakHist: seq<real>

    ghost predicate Valid()
      reads this
    {
      && nPixels >= 2
      && |p| == 3
      && (forall c :: 0 <= c < 3 ==> |p[c]| == nPixels / 2)
      && 0 <= prevScroll < nPixels
      && |peakHist| <= 30
    }

    /** `p = np.tile(1.0, (3, N // 2))`, `prev_scroll = 0`, `_prev_spectrum = np.tile(0.01, N // 2)`, an empty history. */
    constructor (nPixels: nat)
      requires nPixels >= 2
      ensures this.nPixels == nPixels && prevScroll == 0 && peakHist == []
      ensures p == [Repeat([1.0], nPixels / 2), Repeat([1.0], nPixels / 2), Repeat([1.0], nPixels / 2)]
      ensures prevSpectrum == Repeat([0.01], nPixels / 2)
      ensures Valid()
    {
      this.nPixels := nPixels;
      RepeatSingle(1.0, nPixels / 2);
      p := [Repeat([1.0], nPixels / 2), Repeat([1.0], nPixels / 2), Repeat([1.0], nPixels / 2)];
      prevScroll := 0;
      prevSpectrum := Repeat([0.01], nPixels / 2);
      peakHist := [];
    }

    /**
      The common ending of `visualize_spectrum` and `visualize_party`: mirror the three
      half rows, scale to 0..255, advance the scroll offset by one modulo N and roll
      every row by it.
    */
    method MirrorAndScroll(r: seq<real>, g: seq<real>, b: seq<real>) returns (output: seq<seq<real>>)
      requires Valid()
      modifies this
      ensures Valid()
      ensures prevScroll == (old(prevScroll) + 1) % nPixels
      ensures p == old(p) && prevSpectrum == old(prevSpectrum) && peakHist == old(peakHist)
      ensures output == [Roll(Scale(Mirror(r), 255.0), prevScroll),
                         Roll(Scale(Mirror(g), 255.0), prevScroll),
                         Roll(Scale(Mirror(b), 255.0), prevScroll)]
    {
      prevScroll := (prevScroll + 1) % nPixels;
      var rM := Mirror(r);
      var gM := Mirror(g);
      var bM := Mirror(b);
      output := [Roll(Scale(rM, 255.0), prevScroll), Roll(Scale(gM, 255.0), prevScroll), Roll(Scale(bM, 255.0), prevScroll)];
    }

    /**
      `visualize_spectrum` with the exponential filters' outputs as parameters: y is
      resized to the half-strip and kept as the previous spectrum, red and green are
      boosted by 1.5 and 1.3, and the channels are mirrored and scrolled.
    */
    method VisualizeSpectrum(y: seq<real>, rFiltered: seq<real>, gFiltered: seq<real>, bFiltered: seq<real>)
      returns (output: Option<seq<seq<real>>>)
      requires Valid()
      modifies this
      ensures Valid()
      ensures output.None? <==> Interpolate(y, nPixels / 2).None?
      ensures output.None? ==> prevScroll == old(prevScroll) && prevSpectrum == old(prevSpectrum)
      ensures output.Some? ==>
        && prevSpectrum == Interpolate(y, nPixels / 2).value
        && prevScroll == (old(prevScroll) + 1) % nPixels
        && output.value == [Roll(Scale(Mirror(Scale(rFiltered, 1.5)), 255.0), prevScroll),
                            Roll(Scale(Mirror(Scale(gFiltered, 1.3)), 255.0), prevScroll),
                            Roll(Scale(Mirror(bFiltered), 255.0), prevScroll)]
      ensures p == old(p) && peakHist == old(peakHist)
    {
      var resized := Interpolate(y, nPixels / 2);
      if resized.None? {
        return None;
      }
      prevSpectrum := resized.value;
      var out := MirrorAndScroll(Scale(rFiltered, 1.5), Scale(gFiltered, 1.3), bFiltered);
      return Some(out);
    }

    /**
      The `p` update of `visualize_scroll`: shift every row outwards, fade by 0.98,
      blur, put the new colour at the centre; the output is `p` mirrored.
    */
    method VisualizeScroll(red: real, green: real, blue: real, blur: seq<real> -> seq<real>)
      returns (output: seq<seq<real>>)
      requires Valid()
      requires forall row :: |blur(row)| == |row|
      modifies this
      ensures Valid()
      ensures p == [ScrollRow(old(p)[0], red, blur), ScrollRow(old(p)[1], green, blur), ScrollRow(old(p)[2], blue, blur)]
      ensures output == [Mirror(p[0]), Mirror(p[1]), Mirror(p[2])]
      ensures prevScroll == old(prevScroll) && prevSpectrum == old(prevSpectrum) && peakHist == old(peakHist)
    {
      p := [ScrollRow(p[0], red, blur), ScrollRow(p[1], green, blur), ScrollRow(p[2], blue, blur)];
      output := [Mirror(p[0]), Mirror(p[1]), Mirror(p[2])];
    }

    /**
      `visualize_wavepulse` with the gradient channels as parameters: fade `p` by 0.85,
      add the new pulse, blur, mirror and clip to 0..255.
    */
    method VisualizeWavepulse(r: seq<real>, g: seq<real>, b: seq<real>, blur: seq<real> -> seq<real>)
      returns (output: seq<seq<real>>)
      requires Valid()
      requires |r| == |g| == |b| == nPixels / 2
      requires forall row :: |blur(row)| == |row|
      modifies this
      ensures Valid()
      ensures p == [blur(AddRows(Scale(old(p)[0], 0.85), r)),
                    blur(AddRows(Scale(old(p)[1], 0.85), g)),
                    blur(AddRows(Scale(old(p)[2], 0.85), b))]
      ensures output == [Clip(Mirror(p[0]), 0.0, 255.0), Clip(Mirror(p[1]), 0.0, 255.0), Clip(Mirror(p[2]), 0.0, 255.0)]
      ensures prevScroll == old(prevScroll) && prevSpectrum == old(prevSpectrum) && peakHist == old(peakHist)
    {
      p := [blur(AddRows(Scale(p[0], 0.85), r)), blur(AddRows(Scale(p[1], 0.85), g)), blur(AddRows(Scale(p[2], 0.85), b))];
      output := [Clip(Mirror(p[0]), 0.0, 255.0), Clip(Mirror(p[1]), 0.0, 255.0), Clip(Mirror(p[2]), 0.0, 255.0)];
    }

    /**
      `visualize_party` with the filter chain's clipped channels and the level estimate
      as parameters: resize and floor y at 0, record its peak in the 30-entry history,
      keep `y / clip(level, 0.15, 3.0)` as the previous spectrum, then mirror and scroll.
    */
    method VisualizeParty(y: seq<real>, level: real, r: seq<real>, g: seq<real>, b: seq<real>)
      returns (output: Option<seq<seq<real>>>)
      requires Valid()
      modifies this
      ensures Valid()
      ensures output.None? <==> Interpolate(y, nPixels / 2).None?
      ensures output.None? ==> peakHist == old(peakHist) && prevScroll == old(prevScroll) && prevSpectrum == old(prevSpectrum)
      ensures output.Some? ==>
        var yPos := NonNegative(Interpolate(y, nPixels / 2).value);
        && peakHist == AppendBounded(old(peakHist), MaxOf(yPos), 30)
        && prevSpectrum == Scale(yPos, 1.0 / ClampReal(level, 0.15, 3.0))
        && prevScroll == (old(prevScroll) + 1) % nPixels
        && output.value == [Roll(Scale(Mirror(r), 255.0), prevScroll),
                            Roll(Scale(Mirror(g), 255.0), prevScroll),
                            Roll(Scale(Mirror(b), 255.0), prevScroll)]
      ensures p == old(p)
    {
      var resized := Interpolate(y, nPixels / 2);
      if resized.None? {
        return None;
      }
      var yPos := NonNegative(resized.value);
      peakHist := AppendBounded(peakHist, MaxOf(yPos), 30);
      var denom := ClampReal(level, 0.15, 3.0);
      prevSpectrum := Scale(yPos, 1.0 / denom);
      var out := MirrorAndScroll(r, g, b);
      return Some(out);
    }
  }

  /**
    One row of the scroll update: shift outwards (the centre sample stays where it is),
    fade by 0.98, blur, then overwrite the centre with the new colour.
  */
  function ScrollRow(row: seq<real>, x: real, blur: seq<real> -> seq<real>): (r: seq<real>)
    requires |row| > 0
    requires forall s :: |blur(s)| == |s|
    ensures |r| == |row| && r[0] == x
  {
    blur(Scale(ShiftOutward(row, row[0]), 0.98))[0 := x]
  }

  /** The identity in place of the Gaussian blur. */
  function NoBlur(s: seq<real>): seq<real>
  {
    s
  }

  /**
    Without the blur the scroll moves every faded sample one LED outwards: the new colour at
    the centre, then 0.98 times the old row from its first sample on, the last one dropped.
  */
  lemma ScrollWithoutBlur(row: seq<real>, x: real)
    requires |row| > 0
    ensures ScrollRow(row, x, NoBlur)[0] == x
    ensures forall j :: 1 <= j < |row| ==> ScrollRow(row, x, NoBlur)[j] == 0.98 * row[j - 1]
  {
    var shifted := ShiftOutward(row, row[0]);
    assert forall j :: 1 <= j < |row| ==> shifted[j] == row[j - 1];
  }

  /** Element-wise sum of two rows of equal length. */
  function AddRows(a: seq<real>, b: seq<real>): (r: seq<real>)
    requires |a| == |b|
    ensures |r| == |a|
    ensures forall i :: 0 <= i < |a| ==> r[i] == a[i] + b[i]
  {
    seq(|a|, i requires 0 <= i < |a| => a[i] + b[i])
  }

  /** `np.maximum(y, 0)`. */
  function NonNegative(s: seq<real>): (r: seq<real>)
    ensures |r| == |s|
    ensures forall i :: 0 <= i < |s| ==> r[i] >= 0.0 && r[i] >= s[i] && (s[i] >= 0.0 ==> r[i] == s[i])
  {
    seq(|s|, i requires 0 <= i < |s| => if s[i] > 0.0 then s[i] else 0.0)
  }

  /** `float(np.max(y))`; numpy raises on an empty array, where 0 stands in (never reached, the half-strip is non-empty). */
  function MaxOf(s: seq<real>): (m: real)
    ensures forall i :: 0 <= i < |s| ==> s[i] <= m
    ensures |s| > 0 ==> exists i :: 0 <= i < |s| && s[i] == m
  {
    if |s| == 0 then 0.0
    else if |s| == 1 then s[0]
    else
      var m := MaxOf(s[..|s| - 1]);
      assert forall i :: 0 <= i < |s| - 1 ==> s[..|s| - 1][i] == s[i];
      if s[|s| - 1] > m then s[|s| - 1] else m
  }

  /**
    The wavepulse frame is symmetric about the centre and every channel value lies in
    0..255, whatever the blur and the pulse produced.
  */
  lemma WavepulseOutputShape(row: seq<real>)
    ensures |Clip(Mirror(row), 0.0, 255.0)| == 2 * |row|
    ensures forall j :: 0 <= j < 2 * |row| ==>
      Clip(Mirror(row), 0.0, 255.0)[j] == Clip(Mirror(row), 0.0, 255.0)[2 * |row| - 1 - j]
    ensures forall j :: 0 <= j < 2 * |row| ==> 0.0 <= Clip(Mirror(row), 0.0, 255.0)[j] <= 255.0
  {
    MirrorSymmetric(row);
  }

  /** In the scroll effect the new colour shows at the two centre LEDs of the mirrored strip. */
  lemma ScrollCentre(row: seq<real>, x: real, blur: seq<real> -> seq<real>)
    requires |row| > 0
    requires forall s :: |blur(s)| == |s|
    ensures |Mirror(ScrollRow(row, x, blur))| == 2 * |row|
    ensures Mirror(ScrollRow(row, x, blur))[|row| - 1] == x
    ensures Mirror(ScrollRow(row, x, blur))[|row|] == x
  {
    MirrorSymmetric(ScrollRow(row, x, blur));
  }
}
