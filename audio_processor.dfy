/**
  The audio side of the web controller: the bounded capture buffers and the energy beat
  detector of `AudioProcessor`, and the three colour mappings of `MusicVisualizer`
  (spectrum, beat flash, frequency bars) with their moving-average smoothing.
  Colours are exact reals, one `Rgbf` per LED, where numpy keeps an `(n, 3)` float array.
*/
module AudioProcessing {
  import opened Builtins

  /** One LED of an `(n, 3)` colour array. */
  datatype Rgbf = Rgbf(r: real, g: real, b: real)

  const Off := Rgbf(0.0, 0.0, 0.0)
  const White := Rgbf(255.0, 255.0, 255.0)

  predicate InColorRange(c: Rgbf)
  {
    0.0 <= c.r <= 255.0 && 0.0 <= c.g <= 255.0 && 0.0 <= c.b <= 255.0
  }

  /** The dictionary `_create_visualization_data` hands to the visualizer. */
  datatype AudioFrame = AudioFrame(
    ledData: seq<real>,
    bassIntensity: real,
    trebleIntensity: real,
    beatDetected: bool,
    overallAmplitude: real)

  // ---------------------------------------------------------------------------
  // Smoothing

  /** `max(0, i - w // 2)` */
  function WindowStart(i: nat, w: nat): nat
  {
    if i < w / 2 then 0 else i - w / 2
  }

  /** `min(n, i + w // 2 + 1)` */
  function WindowEnd(i: nat, w: nat, n: nat): nat
  {
    if n < i + w / 2 + 1 then n else i + w / 2 + 1
  }

  /**
    The moving average: inputs shorter than the window come back as they are; otherwise
    element i is the mean of the window of up to w elements centred on i, cut at both ends.
  */
  function Smoothed(data: seq<real>, w: nat): (s: seq<real>)
    ensures |s| == |data|
    ensures |data| < w ==> s == data
    ensures |data| >= w ==> forall i :: 0 <= i < |data| ==>
      WindowStart(i, w) <= i < WindowEnd(i, w, |data|) <= |data| &&
      s[i] == Mean(data[WindowStart(i, w)..WindowEnd(i, w, |data|)])
  {
    if |data| < w then data
    else seq(|data|, i requires 0 <= i < |data| => Mean(data[WindowStart(i, w)..WindowEnd(i, w, |data|)]))
  }

  /** Smoothing a constant signal gives the same constant signal. */
  lemma SmoothedConstant(data: seq<real>, w: nat, c: real)
    requires forall i :: 0 <= i < |data| ==> data[i] == c
    ensures forall i :: 0 <= i < |data| ==> Smoothed(data, w)[i] == c
  {
    var s := Smoothed(data, w);
    if |data| >= w {
      forall i | 0 <= i < |data|
        ensures s[i] == c
      {
        MeanConstant(data[WindowStart(i, w)..WindowEnd(i, w, |data|)], c);
      }
    }
  }

  /** Smoothing never leaves the range of its input. */
  lemma SmoothedBounds(data: seq<real>, w: nat, lo: real, hi: real)
    requires forall i :: 0 <= i < |data| ==> lo <= data[i] <= hi
    ensures forall i :: 0 <= i < |data| ==> lo <= Smoothed(data, w)[i] <= hi
  {
    var s := Smoothed(data, w);
    if |data| >= w {
      forall i | 0 <= i < |data|
        ensures lo <= s[i] <= hi
      {
        MeanBounds(data[WindowStart(i, w)..WindowEnd(i, w, |data|)], lo, hi);
      }
    }
  }

  /** With the default window of 3, an inner element becomes the mean of itself and its two neighbours. */
  lemma SmoothedInterior(data: seq<real>, i: nat)
    requires 3 <= |data| && 0 < i < |data| - 1
    ensures Smoothed(data, 3)[i] == (data[i - 1] + data[i] + data[i + 1]) / 3.0
  {
    var window := data[i - 1..i + 2];
    assert data[WindowStart(i, 3)..WindowEnd(i, 3, |data|)] == window;
    assert window == [data[i - 1]] + [data[i]] + [data[i + 1]];
    SumAppend([data[i - 1]] + [data[i]], [data[i + 1]]);
    SumAppend([data[i - 1]], [data[i]]);
    assert Sum([data[i - 1]]) == data[i - 1];
    assert Sum([data[i]]) == data[i];
    assert Sum([data[i + 1]]) == data[i + 1];
  }

  /** The two end elements average only the neighbours that exist. */
  lemma SmoothedEnds(data: seq<real>)
    requires 3 <= |data|
    ensures Smoothed(data, 3)[0] == (data[0] + data[1]) / 2.0
    ensures Smoothed(data, 3)[|data| - 1] == (data[|data| - 2] + data[|data| - 1]) / 2.0
  {
    var n := |data|;
    assert data[WindowStart(0, 3)..WindowEnd(0, 3, n)] == [data[0]] + [data[1]];
    SumAppend([data[0]], [data[1]]);
    assert Sum([data[0]]) == data[0];
    assert Sum([data[1]]) == data[1];
    assert data[WindowStart(n - 1, 3)..WindowEnd(n - 1, 3, n)] == [data[n - 2]] + [data[n - 1]];
    SumAppend([data[n - 2]], [data[n - 1]]);
    assert Sum([data[n - 2]]) == data[n - 2];
    assert Sum([data[n - 1]]) == data[n - 1];
  }

  // ---------------------------------------------------------------------------
  // Colour mappings

  /** Above one half the LED runs from yellow-green to red; at or below it is a shade of blue. */
  function SpectrumColor(x: real): (c: Rgbf)
    ensures x > 0.5 ==> c.b == 0.0 && c.r + c.g == 255.0 && c.r > c.g
    ensures x <= 0.5 ==> c.r == 0.0 && c.g == 0.0 && c.b <= 127.5
    ensures 0.0 <= x <= 1.0 ==> InColorRange(c)
  {
    if x > 0.5 then Rgbf(x * 255.0, (1.0 - x) * 255.0, 0.0) else Rgbf(0.0, 0.0, x * 255.0)
  }

  /** Off a beat every LED shows the bass level in red and half of it in green. */
  function BeatColor(beat: bool, bass: real): (c: Rgbf)
    ensures beat ==> c == White
    ensures !beat ==> c.b == 0.0 && 128.0 * c.r == 255.0 * c.g
    ensures 0.0 <= bass <= 1.0 ==> InColorRange(c)
  {
    if beat then White else Rgbf(bass * 255.0, bass * 128.0, 0.0)
  }

  /** Bars 0-1 are pure red, 2-3 pure green, 4-7 pure blue, at the bar's mean intensity. */
  function BarColor(bar: nat, intensity: real): (c: Rgbf)
    ensures bar < 2 ==> c == Rgbf(intensity * 255.0, 0.0, 0.0)
    ensures 2 <= bar < 4 ==> c == Rgbf(0.0, intensity * 255.0, 0.0)
    ensures 4 <= bar ==> c == Rgbf(0.0, 0.0, intensity * 255.0)
  {
    if bar < 2 then Rgbf(intensity * 255.0, 0.0, 0.0)
    else if bar < 4 then Rgbf(0.0, intensity * 255.0, 0.0)
    else Rgbf(0.0, 0.0, intensity * 255.0)
  }

  const Bars: nat := 8

  /** Where `led_data[start:end]` of bar `bar` of width k stops: the bar's end, or the end of the data. */
  function BarStop(data: seq<real>, k: nat, bar: nat): (stop: nat)
    ensures stop <= |data| && stop <= (bar + 1) * k
    ensures stop == |data| || stop == (bar + 1) * k
  {
    if (bar + 1) * k <= |data| then (bar + 1) * k else |data|
  }

  /**
    Mean of the LED data of one bar of width k, over the part of the bar the data reaches.
    numpy makes the mean of an empty slice NaN, which is left out; 0.0 stands in for it.
  */
  function BarIntensity(data: seq<real>, k: nat, bar: nat): real
  {
    if 0 < k && bar * k < |data| then Mean(data[bar * k..BarStop(data, k, bar)]) else 0.0
  }

  /** What `frequency_bars` leaves at LED i of n: its bar's colour, or black past the last whole bar. */
  function BarPixel(data: seq<real>, n: nat, i: nat): Rgbf
  {
    var k := n / Bars;
    if k == 0 || Bars * k <= i then Off else BarColor(i / k, BarIntensity(data, k, i / k))
  }

  /** Bar `bar` of width k = n // 8 starts at bar·k and ends at (bar+1)·k, within the strip. */
  lemma BarSpan(n: nat, bar: nat)
    requires bar < Bars
    ensures (bar + 1) * (n / Bars) == bar * (n / Bars) + n / Bars
    ensures bar * (n / Bars) + n / Bars <= Bars * (n / Bars) <= n
  {
    var k := n / Bars;
    assert (Bars - bar - 1) * k >= 0;
  }

  /**
    Bar b of `frequency_bars` covers exactly the LEDs [start, start + k) with k = n // 8 and
    start = b·k, each of them showing the colour of the mean of the data from `start` to
    the bar's end or the data's end, whichever comes first (LEDs from 8·k on are black by
    `BarPixel`).
  */
  lemma FrequencyBarsLayout(data: seq<real>, n: nat, k: nat, bar: nat, start: nat, i: nat)
    requires k == n / Bars && bar < Bars && start == bar * k && start < |data|
    requires start <= i < start + k
    ensures start < BarStop(data, k, bar) <= start + k
    ensures BarPixel(data, n, i) == BarColor(bar, Mean(data[start..BarStop(data, k, bar)]))
  {
    BarSpan(n, bar);
    DivUnique(i, k, bar, i - start);
  }

  /** Every LED of bar `bar` shows the bar's colour. */
  lemma BarFill(data: seq<real>, n: nat, k: nat, bar: nat, start: nat)
    requires k == n / Bars && bar < Bars && start == bar * k && start < |data| && 0 < k
    ensures start < BarStop(data, k, bar) <= start + k
    ensures forall m :: start <= m < start + k ==>
      BarPixel(data, n, m) == BarColor(bar, Mean(data[start..BarStop(data, k, bar)]))
  {
    BarSpan(n, bar);
    forall m | start <= m < start + k
      ensures BarPixel(data, n, m) == BarColor(bar, Mean(data[start..BarStop(data, k, bar)]))
    {
      FrequencyBarsLayout(data, n, k, bar, start, m);
    }
  }

  /** The LEDs past the eighth bar stay black. */
  lemma PastBars(data: seq<real>, n: nat, i: nat)
    requires Bars * (n / Bars) <= i
    ensures BarPixel(data, n, i) == Off
  {
  }

  /** Writes `color` to out[lo..hi] and leaves the rest of `out` alone. */
  method Fill(out: array<Rgbf>, lo: nat, hi: nat, color: Rgbf)
    requires lo <= hi <= out.Length
    modifies out
    ensures forall m :: lo <= m < hi ==> out[m] == color
    ensures forall m :: 0 <= m < out.Length && !(lo <= m < hi) ==> out[m] == old(out[m])
  {
    var j := lo;
    while j < hi
      invariant lo <= j <= hi
      invariant forall m :: lo <= m < j ==> out[m] == color
      invariant forall m :: 0 <= m < out.Length && !(lo <= m < j) ==> out[m] == old(out[m])
    {
      out[j] := color;
      j := j + 1;
    }
  }

  class MusicVisualizer {
    const ledCount: nat

    constructor (ledCount: nat)
      ensures this.ledCount == ledCount
    {
      this.ledCount := ledCount;
    }

    /** `_smooth_data`: the loop fills a zero array one window mean at a time. */
    method SmoothData(data: seq<real>, windowSize: nat) returns (smoothed: seq<real>)
      ensures smoothed == Smoothed(data, windowSize)
    {
      if |data| < windowSize {
        return data;
      }
      var out := new real[|data|](_ => 0.0);
      var i := 0;
      while i < |data|
        invariant 0 <= i <= |data|
        invariant forall k :: 0 <= k < i ==> out[k] == Smoothed(data, windowSize)[k]
      {
        var start := if 0 < i - windowSize / 2 then i - windowSize / 2 else 0;
        var end := if |data| < i + windowSize / 2 + 1 then |data| else i + windowSize / 2 + 1;
        out[i] := Mean(data[start..end]);
        i := i + 1;
      }
      smoothed := out[..];
    }

    /**
      `spectrum_visualization`: smooth with a window of 3, then colour LED i from the i-th
      smoothed value. More values than LEDs stop the loop with an index error (None).
    */
    method SpectrumVisualization(frame: AudioFrame) returns (colors: Option<seq<Rgbf>>)
      ensures colors.None? <==> |frame.ledData| > ledCount
      ensures colors.Some? ==> |colors.value| == ledCount
      ensures colors.Some? ==> forall i :: 0 <= i < |frame.ledData| ==>
        colors.value[i] == SpectrumColor(Smoothed(frame.ledData, 3)[i])
      ensures colors.Some? ==> forall i :: |frame.ledData| <= i < ledCount ==> colors.value[i] == Off
    {
      var smoothed := SmoothData(frame.ledData, 3);
      var out := new Rgbf[ledCount](_ => Off);
      var i := 0;
      while i < |smoothed|
        invariant 0 <= i <= |smoothed|
        invariant i <= ledCount
        invariant forall k :: 0 <= k < i ==> out[k] == SpectrumColor(smoothed[k])
        invariant forall k :: i <= k < ledCount ==> out[k] == Off
      {
        if i >= ledCount {
          return None;
        }
        out[i] := SpectrumColor(smoothed[i]);
        i := i + 1;
      }
      if |smoothed| > ledCount {
        return None;
      }
      colors := Some(out[..]);
    }

    /** `beat_visualization`: white on a beat, otherwise bass-driven red and green, no blue. */
    method BeatVisualization(frame: AudioFrame) returns (colors: seq<Rgbf>)
      ensures |colors| == ledCount
      ensures forall i :: 0 <= i < ledCount ==> colors[i] == BeatColor(frame.beatDetected, frame.bassIntensity)
    {
      var out := new Rgbf[ledCount](_ => Off);
      var fill := if frame.beatDetected then White else Rgbf(frame.bassIntensity * 255.0, frame.bassIntensity * 128.0, 0.0);
      var i := 0;
      while i < ledCount
        invariant 0 <= i <= ledCount
        invariant forall k :: 0 <= k < i ==> out[k] == BeatColor(frame.beatDetected, frame.bassIntensity)
      {
        out[i] := fill;
        i := i + 1;
      }
      colors := out[..];
    }

    /**
      `frequency_bars`: eight bars of `ledCount // 8` LEDs each, every bar painted with its
      colour at the mean of its slice of the LED data. Data that leaves some bar's slice
      empty would make that mean NaN, so the data must reach into the last bar.
    */
    method FrequencyBars(frame: AudioFrame) returns (colors: seq<Rgbf>)
      requires ledCount / Bars == 0 || |frame.ledData| > (Bars - 1) * (ledCount / Bars)
      ensures |colors| == ledCount
      ensures forall i :: 0 <= i < ledCount ==> colors[i] == BarPixel(frame.ledData, ledCount, i)
    {
      var data := frame.ledData;
      var n := ledCount;
      var out := new Rgbf[n](_ => Off);
      var k := n / Bars;
      var bar := 0;
      var start := 0;
      while bar < Bars
        invariant 0 <= bar <= Bars
        invariant start == bar * k <= Bars * k <= n
        invariant forall m :: 0 <= m < start ==> out[m] == BarPixel(data, n, m)
        invariant forall m :: start <= m < n ==> out[m] == Off
      {
        BarSpan(n, bar);
        var end := if (bar + 1) * k < n then (bar + 1) * k else n;
        if start < end {
          var stop := if end < |data| then end else |data|;
          var intensity := Mean(data[start..stop]);
          var color := BarColor(bar, intensity);
          Fill(out, start, end, color);
          BarFill(data, n, k, bar, start);
        }
        bar := bar + 1;
        start := end;
      }
      forall m | start <= m < n
        ensures BarPixel(data, n, m) == Off
      {
        PastBars(data, n, m);
      }
      colors := out[..];
    }
  }

  /** Normalised LED data (every value in [0, 1]) gives spectrum colours within [0, 255]. */
  lemma SpectrumInRange(data: seq<real>)
    requires forall i :: 0 <= i < |data| ==> 0.0 <= data[i] <= 1.0
    ensures forall i :: 0 <= i < |data| ==> InColorRange(SpectrumColor(Smoothed(data, 3)[i]))
  {
    SmoothedBounds(data, 3, 0.0, 1.0);
  }

  // ---------------------------------------------------------------------------
  // Beat detection

  const AudioBufferLength: nat := 10
  const FftBufferLength: nat := 5
  const BeatFactor: real := 1.3

  /**
    A beat is an energy above 1.3 times the mean of the two energies before it: above
    1.3 times both of them is always a beat, a beat is above 1.3 times at least one of
    them, and after non-negative energies a beat has positive energy.
  */
  function IsBeat(current: real, previous: real, last: real): (beat: bool)
    ensures current > BeatFactor * previous && current > BeatFactor * last ==> beat
    ensures beat ==> current > BeatFactor * previous || current > BeatFactor * last
    ensures previous >= 0.0 && last >= 0.0 && beat ==> current > 0.0
  {
    current > (previous + last) / 2.0 * BeatFactor
  }

  /** Scaling all three energies by the same positive factor does not change the verdict. */
  lemma BeatScaleInvariant(current: real, previous: real, last: real, k: real)
    requires k > 0.0
    ensures IsBeat(k * current, k * previous, k * last) <==> IsBeat(current, previous, last)
  {
    var t := (previous + last) / 2.0 * BeatFactor;
    assert (k * previous + k * last) / 2.0 * BeatFactor == k * t;
    if current > t {
      assert k * current - k * t == k * (current - t);
    } else {
      assert k * t - k * current == k * (t - current);
    }
  }

  /** A steady non-negative energy, or silence after non-negative energies, is never a beat. */
  lemma SteadyIsNoBeat(e: real, previous: real, last: real)
    requires e >= 0.0 && previous >= 0.0 && last >= 0.0
    ensures !IsBeat(e, e, e)
    ensures !IsBeat(0.0, previous, last)
  {
  }

  class AudioProcessor {
    const sampleRate: nat
    const chunkSize: nat
    const channels: nat
    const ledCount: nat
    var isRunning: bool
    /** The last raw 16-bit chunks, oldest first. */
    var audioBuffer: seq<seq<int>>
    /** The last FFT magnitude spectra, oldest first. */
    var fftBuffer: seq<seq<real>>
    var beatDetection: bool
    var hasBeatCallback: bool
    /** How many times the beat callback has been invoked. */
    var beatCallbacks: nat

    ghost predicate Valid()
      reads this
    {
      |audioBuffer| <= AudioBufferLength && |fftBuffer| <= FftBufferLength
    }

    constructor (sampleRate: nat, chunkSize: nat, channels: nat, ledCount: nat)
      ensures Valid()
      ensures this.sampleRate == sampleRate && this.chunkSize == chunkSize
      ensures this.channels == channels && this.ledCount == ledCount
      ensures !isRunning && audioBuffer == [] && fftBuffer == []
      ensures !beatDetection && !hasBeatCallback && beatCallbacks == 0
    {
      this.sampleRate := sampleRate;
      this.chunkSize := chunkSize;
      this.channels := channels;
      this.ledCount := ledCount;
      isRunning := false;
      audioBuffer := [];
      fftBuffer := [];
      beatDetection := false;
      hasBeatCallback := false;
      beatCallbacks := 0;
    }

    method SetBeatCallback()
      modifies this
      ensures hasBeatCallback
      ensures isRunning == old(isRunning) && audioBuffer == old(audioBuffer) && fftBuffer == old(fftBuffer)
      ensures beatDetection == old(beatDetection) && beatCallbacks == old(beatCallbacks)
    {
      hasBeatCallback := true;
    }

    /** `start_capture` once the stream is open: a running processor is left alone. */
    method StartCapture()
      modifies this
      ensures isRunning
      ensures audioBuffer == old(audioBuffer) && fftBuffer == old(fftBuffer)
      ensures beatDetection == old(beatDetection) && beatCallbacks == old(beatCallbacks)
      ensures hasBeatCallback == old(hasBeatCallback)
    {
      if isRunning {
        return;
      }
      isRunning := true;
    }

    method StopCapture()
      modifies this
      ensures !isRunning
      ensures audioBuffer == old(audioBuffer) && fftBuffer == old(fftBuffer)
      ensures beatDetection == old(beatDetection) && beatCallbacks == old(beatCallbacks)
      ensures hasBeatCallback == old(hasBeatCallback)
    {
      isRunning := false;
    }

    /**
      `_detect_beats`: nothing changes until three spectra are buffered; from then on the
      flag says whether this spectrum's energy beats 1.3 times the mean of the two before it,
      and a beat calls the beat callback when one is set.
    */
    method DetectBeats(magnitude: seq<real>)
      modifies this
      ensures |fftBuffer| < 3 ==> beatDetection == old(beatDetection) && beatCallbacks == old(beatCallbacks)
      ensures |fftBuffer| >= 3 ==> beatDetection == IsBeat(Sum(magnitude), Sum(fftBuffer[|fftBuffer| - 3]), Sum(fftBuffer[|fftBuffer| - 2]))
      ensures |fftBuffer| >= 3 ==>
        beatCallbacks == old(beatCallbacks) + (if beatDetection && hasBeatCallback then 1 else 0)
      ensures isRunning == old(isRunning) && audioBuffer == old(audioBuffer) && fftBuffer == old(fftBuffer)
      ensures hasBeatCallback == old(hasBeatCallback)
    {
      if |fftBuffer| < 3 {
        return;
      }
      var currentEnergy := Sum(magnitude);
      var recent := fftBuffer[|fftBuffer| - 3..|fftBuffer| - 1];
      var prevEnergies := [Sum(recent[0]), Sum(recent[1])];
      if |prevEnergies| >= 2 {
        var avgPrevEnergy := (prevEnergies[0] + prevEnergies[1]) / 2.0;
        if currentEnergy > avgPrevEnergy * BeatFactor {
          beatDetection := true;
          if hasBeatCallback {
            beatCallbacks := beatCallbacks + 1;
          }
        } else {
          beatDetection := false;
        }
      }
    }

    /**
      `_audio_callback` followed by the buffer and beat steps of `_process_audio`. The
      windowed FFT is a numeric kernel, so its magnitude half-spectrum is a parameter.
      The chunk is buffered first. An empty chunk makes the FFT raise, so the spectrum
      buffer and the beat flag stay as they were; a sample rate of 0 makes `1/sample_rate`
      raise after the spectrum is buffered, so beat detection is skipped.
    */
    method AudioCallback(chunk: seq<int>, magnitude: seq<real>) returns (continuing: bool)
      requires Valid()
      requires |magnitude| == |chunk| / 2
      modifies this
      ensures Valid()
      ensures continuing == old(isRunning)
      ensures !old(isRunning) ==> (audioBuffer == old(audioBuffer) && fftBuffer == old(fftBuffer)
        && beatDetection == old(beatDetection) && beatCallbacks == old(beatCallbacks))
      ensures old(isRunning) ==> audioBuffer == AppendBounded(old(audioBuffer), chunk, AudioBufferLength)
      ensures old(isRunning) && chunk == [] ==> fftBuffer == old(fftBuffer)
      ensures old(isRunning) && chunk != [] ==> fftBuffer == AppendBounded(old(fftBuffer), magnitude, FftBufferLength)
      ensures old(isRunning) && chunk != [] ==> fftBuffer[|fftBuffer| - 1] == magnitude
      ensures old(isRunning) && (chunk == [] || sampleRate == 0 || |fftBuffer| < 3) ==>
        beatDetection == old(beatDetection) && beatCallbacks == old(beatCallbacks)
      ensures old(isRunning) && chunk != [] && sampleRate != 0 && |fftBuffer| >= 3 ==>
        && beatDetection == IsBeat(Sum(magnitude), Sum(fftBuffer[|fftBuffer| - 3]), Sum(fftBuffer[|fftBuffer| - 2]))
        && beatCallbacks == old(beatCallbacks) + (if beatDetection && hasBeatCallback then 1 else 0)
      ensures isRunning == old(isRunning) && hasBeatCallback == old(hasBeatCallback)
    {
      if !isRunning {
        return false;
      }
      audioBuffer := AppendBounded(audioBuffer, chunk, AudioBufferLength);
      assert |audioBuffer| <= AudioBufferLength;
      if chunk == [] {
        return true;
      }
      fftBuffer := AppendBounded(fftBuffer, magnitude, FftBufferLength);
      assert |fftBuffer| <= FftBufferLength && fftBuffer[|fftBuffer| - 1] == magnitude;
      if sampleRate == 0 {
        return true;
      }
      DetectBeats(magnitude);
      return true;
    }
  }
}
