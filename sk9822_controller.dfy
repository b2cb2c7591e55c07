/**
  The production SK9822 encoder used by the audio-reactive visualizer: a controller that
  owns the SPI device, the strip length, a global 5-bit brightness and the previous frame
  (for change detection), and turns a (3, N) array of channel intensities into one SPI
  transaction per frame.
*/
module SK9822 {
  import opened Builtins
  import opened Wire

  /** One column of the (3, N) pixel array handed to `update`: red, green and blue intensities. */
  datatype Level = Level(r: real, g: real, b: real)

  /** The value the previous-frame buffer starts with in every channel (never a clipped intensity match for a dark pixel). */
  const Unset: Rgb := Rgb(253, 253, 253)

  /** The four zero bytes sent after the 0xFF run of the end frame. */
  const Trailer: seq<int> := [0x00, 0x00, 0x00, 0x00]

  predicate IsByte(x: int)
  {
    0 <= x <= 255
  }

  predicate IsByteColor(c: Rgb)
  {
    IsByte(c.r) && IsByte(c.g) && IsByte(c.b)
  }

  /** `np.clip(x, 0, 255).astype(int)`: clip, then truncate toward zero (a floor, as the value is non-negative). */
  function Quantize(x: real): (v: int)
    ensures IsByte(v)
    ensures 0.0 <= x <= 255.0 ==> v as real <= x < v as real + 1.0
    ensures x < 1.0 ==> v == 0
    ensures x >= 255.0 ==> v == 255
  {
    ClampReal(x, 0.0, 255.0).Floor
  }

  function QuantizePixel(c: Level): (q: Rgb)
    ensures IsByteColor(q)
  {
    Rgb(Quantize(c.r), Quantize(c.g), Quantize(c.b))
  }

  /** The clipped integer frame, column by column. */
  function Quantized(pixels: seq<Level>): (q: seq<Rgb>)
    ensures |q| == |pixels|
    ensures forall i :: 0 <= i < |q| ==> q[i] == QuantizePixel(pixels[i]) && IsByteColor(q[i])
  {
    seq(|pixels|, i requires 0 <= i < |pixels| => QuantizePixel(pixels[i]))
  }

  predicate InTable(table: seq<int>, c: Rgb)
  {
    0 <= c.r < |table| && 0 <= c.g < |table| && 0 <= c.b < |table|
  }

  function LookUp(table: seq<int>, c: Rgb): Rgb
    requires InTable(table, c)
  {
    Rgb(table[c.r], table[c.g], table[c.b])
  }

  /**
    `gamma_table[pixels]`: every channel value is used as an index into the table; one
    value past the end of the table raises IndexError (None).
  */
  function GammaCorrect(q: seq<Rgb>, table: seq<int>): (r: Option<seq<Rgb>>)
    ensures r.Some? <==> forall i :: 0 <= i < |q| ==> InTable(table, q[i])
    ensures r.Some? ==> |r.value| == |q| && forall i :: 0 <= i < |q| ==> r.value[i] == LookUp(table, q[i])
  {
    if forall i :: 0 <= i < |q| ==> InTable(table, q[i])
    then Some(seq(|q|, i requires 0 <= i < |q| => LookUp(table, q[i])))
    else None
  }

  /** Lines 114-120 of the encoder: clip and truncate, then map through the gamma table when one is in use. */
  function Prepared(pixels: seq<Level>, softwareGamma: bool, gammaTable: Option<seq<int>>): Option<seq<Rgb>>
  {
    if softwareGamma && gammaTable.Some? then GammaCorrect(Quantized(pixels), gammaTable.value)
    else Some(Quantized(pixels))
  }

  /** The identity table `range(256)` leaves a frame exactly as clipping made it. */
  lemma IdentityGammaIsClipOnly(pixels: seq<Level>, unused: Option<seq<int>>)
    ensures Prepared(pixels, true, Some(seq(256, k => k))) == Prepared(pixels, false, unused)
  {
    var q := Quantized(pixels);
    var table := seq(256, k => k);
    assert forall i :: 0 <= i < |q| ==> InTable(table, q[i]) && LookUp(table, q[i]) == q[i];
    assert GammaCorrect(q, table).value == q;
  }

  /** A table of 256 bytes never raises and always yields byte channels. */
  lemma FullGammaTableFits(pixels: seq<Level>, table: seq<int>)
    requires |table| == 256
    requires forall k :: 0 <= k < 256 ==> IsByte(table[k])
    ensures Prepared(pixels, true, Some(table)).Some?
    ensures forall i :: 0 <= i < |pixels| ==> IsByteColor(Prepared(pixels, true, Some(table)).value[i])
  {
    var q := Quantized(pixels);
    assert forall i :: 0 <= i < |q| ==> InTable(table, q[i]);
  }

  /**
    The LED records built by `update` for previous frame `prev` and current frame `p`:
    a pixel that changed gets its colour record, every other pixel the off record
    `[header, 0, 0, 0]` the buffer was initialised with.
  */
  function Encode(p: seq<Rgb>, prev: seq<Rgb>, header: int): (r: seq<int>)
    requires |p| == |prev|
    ensures |r| == 4 * |p|
  {
    if p == [] then []
    else
      var n := |p| - 1;
      Encode(p[..n], prev[..n], header) + (if p[n] != prev[n] then Record(header, p[n]) else Record(header, Black))
  }

  /** Encoding one more pixel appends its record. */
  lemma EncodeStep(p: seq<Rgb>, prev: seq<Rgb>, header: int, i: nat)
    requires i < |p| && i < |prev|
    ensures Encode(p[..i + 1], prev[..i + 1], header)
         == Encode(p[..i], prev[..i], header) + (if p[i] != prev[i] then Record(header, p[i]) else Record(header, Black))
  {
    assert p[..i + 1][..i] == p[..i] && prev[..i + 1][..i] == prev[..i];
  }

  /** The pieces around a 4-byte record in the middle of a buffer. */
  lemma Splice(done: seq<int>, record: seq<int>, rest: seq<int>)
    requires |record| == 4
    ensures (done + record + rest)[..|done|] == done
    ensures (done + record + rest)[|done| + 4..] == rest
  {
  }

  /**
    One iteration of the record-building loop: writing LED i's record when it changed
    (and leaving the buffer alone otherwise) extends the encoded prefix by one pixel.
  */
  lemma BuildStep(p: seq<Rgb>, prev: seq<Rgb>, header: int, n: nat, i: nat, before: seq<int>, after: seq<int>)
    requires i < n <= |p| && n <= |prev|
    requires before == Encode(p[..i], prev[..i], header) + Repeat(Record(header, Black), n - i)
    requires after == if p[i] != prev[i] then before[..4 * i] + Record(header, p[i]) + before[4 * i + 4..] else before
    ensures after == Encode(p[..i + 1], prev[..i + 1], header) + Repeat(Record(header, Black), n - i - 1)
  {
    EncodeStep(p, prev, header, i);
    var done := Encode(p[..i], prev[..i], header);
    var rest := Repeat(Record(header, Black), n - i - 1);
    assert Repeat(Record(header, Black), n - i) == Record(header, Black) + rest;
    Splice(done, Record(header, Black), rest);
  }

  /** Record i of the encoding: the colour when pixel i changed, off otherwise. */
  lemma {:induction false} EncodeAt(p: seq<Rgb>, prev: seq<Rgb>, header: int, i: nat)
    requires |p| == |prev| && i < |p|
    ensures Encode(p, prev, header)[4 * i..4 * i + 4]
         == if p[i] != prev[i] then Record(header, p[i]) else Record(header, Black)
  {
    var n := |p| - 1;
    var front := Encode(p[..n], prev[..n], header);
    var record := if p[n] != prev[n] then Record(header, p[n]) else Record(header, Black);
    assert Encode(p, prev, header) == front + record;
    if i < n {
      EncodeAt(p[..n], prev[..n], header, i);
      SliceAppendLeft(front, record, 4 * i, 4 * i + 4);
    } else {
      SliceAppendRight(front, record);
    }
  }

  /** Every record starts with the header byte of the current brightness. */
  lemma EncodeHeaders(p: seq<Rgb>, prev: seq<Rgb>, header: int, i: nat)
    requires |p| == |prev| && i < |p|
    ensures Encode(p, prev, header)[4 * i] == header
  {
    EncodeAt(p, prev, header, i);
    assert Encode(p, prev, header)[4 * i] == Encode(p, prev, header)[4 * i..4 * i + 4][0];
  }

  /** Sending the same frame twice: the second transmission is all off records (see Findings in the README). */
  lemma {:induction false} EncodeRepeatedFrame(p: seq<Rgb>, header: int)
    ensures Encode(p, p, header) == Repeat(Record(header, Black), |p|)
  {
    if p != [] {
      EncodeRepeatedFrame(p[..|p| - 1], header);
      RepeatSnoc(Record(header, Black), |p| - 1);
    }
  }

  /** The first frame after construction: every pixel other than (253, 253, 253) is sent with its colour. */
  lemma FirstFrame(p: seq<Rgb>, header: int, i: nat)
    requires i < |p|
    ensures |Repeat([Unset], |p|)| == |p|
    ensures Encode(p, Repeat([Unset], |p|), header)[4 * i..4 * i + 4]
         == if p[i] == Unset then Record(header, Black) else Record(header, p[i])
  {
    RepeatSingle(Unset, |p|);
    EncodeAt(p, Repeat([Unset], |p|), header, i);
  }

  /** One SPI transaction: start frame, LED records, `max(4, ceil(n/16))` bytes of 0xFF, then four zeros. */
  function DataFrame(numLeds: nat, ledData: seq<int>): (r: seq<int>)
    ensures |r| == 8 + |ledData| + EndFrameLength(numLeds)
    ensures r[4..4 + |ledData|] == ledData
  {
    StartFrame + ledData + EndFrame(numLeds) + Trailer
  }

  /** The transaction has 8 + |records| + max(4, ceil(n/16)) bytes, laid out as the protocol requires. */
  lemma DataFrameLayout(numLeds: nat, ledData: seq<int>)
    ensures |DataFrame(numLeds, ledData)| == 8 + |ledData| + EndFrameLength(numLeds)
    ensures DataFrame(numLeds, ledData)[..4] == [0, 0, 0, 0]
    ensures DataFrame(numLeds, ledData)[4..4 + |ledData|] == ledData
    ensures forall k :: 4 + |ledData| <= k < 4 + |ledData| + EndFrameLength(numLeds) ==> DataFrame(numLeds, ledData)[k] == 0xFF
    ensures DataFrame(numLeds, ledData)[4 + |ledData| + EndFrameLength(numLeds)..] == [0, 0, 0, 0]
  {
    var f := DataFrame(numLeds, ledData);
    var e := EndFrame(numLeds);
    assert forall k :: 4 + |ledData| <= k < 4 + |ledData| + |e| ==> f[k] == e[k - 4 - |ledData|];
  }

  /**
    The change-detection encoding the code evidently intends: a pixel that did not change
    reuses its record from the previous transmission instead of being rebuilt.
  */
  function EncodeReusing(p: seq<Rgb>, prev: seq<Rgb>, prevData: seq<int>, header: int): (r: seq<int>)
    requires |p| == |prev| && |prevData| == 4 * |prev|
    ensures |r| == 4 * |p|
  {
    if p == [] then []
    else
      var n := |p| - 1;
      EncodeReusing(p[..n], prev[..n], prevData[..4 * n], header)
        + (if p[n] != prev[n] then Record(header, p[n]) else prevData[4 * n..])
  }

  /** Every pixel's colour record, with no change detection at all. */
  function FullRecords(p: seq<Rgb>, header: int): (r: seq<int>)
    ensures |r| == 4 * |p|
  {
    if p == [] then [] else FullRecords(p[..|p| - 1], header) + Record(header, p[|p| - 1])
  }

  /** Record i of the full encoding is pixel i's colour record. */
  lemma {:induction false} FullRecordsAt(p: seq<Rgb>, header: int, i: nat)
    requires i < |p|
    ensures FullRecords(p, header)[4 * i..4 * i + 4] == Record(header, p[i])
  {
    var n := |p| - 1;
    if i < n {
      FullRecordsAt(p[..n], header, i);
      assert FullRecords(p, header)[4 * i..4 * i + 4] == FullRecords(p[..n], header)[4 * i..4 * i + 4];
    }
  }

  /**
    Change detection done right is invisible: when the previous transmission carried the
    previous frame at the same brightness, reusing its unchanged records yields exactly
    the records of the new frame.
  */
  lemma {:induction false} ReusingIsTransparent(p: seq<Rgb>, prev: seq<Rgb>, header: int)
    requires |p| == |prev|
    ensures EncodeReusing(p, prev, FullRecords(prev, header), header) == FullRecords(p, header)
  {
    if p != [] {
      var n := |p| - 1;
      var prevData := FullRecords(prev, header);
      assert prevData[..4 * n] == FullRecords(prev[..n], header);
      ReusingIsTransparent(p[..n], prev[..n], header);
      FullRecordsAt(prev, header, n);
      assert prevData[4 * n..] == prevData[4 * n..4 * n + 4];
    }
  }

  /** The encoding as written differs: one red LED shown twice is dark the second time. */
  lemma StaticRedPixelGoesDark()
    ensures Encode([Rgb(255, 0, 0)], [Rgb(255, 0, 0)], 0xFF) == [0xFF, 0, 0, 0]
    ensures FullRecords([Rgb(255, 0, 0)], 0xFF) == [0xFF, 0, 0, 255]
  {
    assert [Rgb(255, 0, 0)][..0] == [];
  }

  class Controller {
    const numLeds: nat
    var brightness: int
    const softwareGamma: bool
    var prevPixels: seq<Rgb>
    const spi: SpiBus

    /** `spi` is the device already opened on the configured bus, device and clock speed. */
    constructor (numLeds: nat, brightness: int, softwareGamma: bool, spi: SpiBus)
      ensures this.numLeds == numLeds && this.brightness == brightness
      ensures this.softwareGamma == softwareGamma && this.spi == spi
      ensures prevPixels == Repeat([Unset], numLeds)
    {
      this.numLeds := numLeds;
      this.brightness := brightness;
      this.softwareGamma := softwareGamma;
      this.spi := spi;
      prevPixels := Repeat([Unset], numLeds);
    }

    /** Overwrites the four bytes of LED `index` in `dataframe` with its record. */
    static method SetLed(index: nat, color: Rgb, brightness: int, dataframe: array<int>)
      requires 4 * index + 4 <= dataframe.Length
      modifies dataframe
      ensures dataframe[..] == old(dataframe[..4 * index]) + Record(Header(brightness), color) + old(dataframe[4 * index + 4..])
    {
      dataframe[4 * index] := Header(brightness);
      dataframe[4 * index + 1] := color.b;
      dataframe[4 * index + 2] := color.g;
      dataframe[4 * index + 3] := color.r;
    }

    method SendData(ledData: seq<int>)
      requires spi.isOpen
      modifies spi
      ensures spi.sent == old(spi.sent) + [DataFrame(numLeds, ledData)]
      ensures spi.isOpen == old(spi.isOpen)
    {
      var data: seq<int> := [];
      data := data + StartFrame;
      assert data == StartFrame;
      data := data + ledData;
      data := data + EndFrame(numLeds) + Trailer;
      spi.Xfer2(data);
    }

    /** One pass of the record loop of `update`: LED i gets its record when its colour changed. */
    static method WriteIfChanged(p: seq<Rgb>, prev: seq<Rgb>, n: nat, brightness: int, i: nat, buffer: array<int>)
      requires i < n <= |p| && n <= |prev|
      requires buffer[..] == Encode(p[..i], prev[..i], Header(brightness)) + Repeat(Record(Header(brightness), Black), n - i)
      modifies buffer
      ensures buffer[..] == Encode(p[..i + 1], prev[..i + 1], Header(brightness)) + Repeat(Record(Header(brightness), Black), n - i - 1)
    {
      ghost var before := buffer[..];
      RepeatLength(Record(Header(brightness), Black), n - i);
      if p[i] != prev[i] {
        SetLed(i, p[i], brightness, buffer);
        BuildStep(p, prev, Header(brightness), n, i, before, buffer[..]);
      } else {
        BuildStep(p, prev, Header(brightness), n, i, before, before);
      }
    }

    /**
      Lines 124-131 of `update`: a buffer of off records at the current brightness, in
      which every LED whose colour differs from the previous frame gets its record.
    */
    static method BuildLedData(p: seq<Rgb>, prev: seq<Rgb>, numLeds: nat, brightness: int) returns (ledData: seq<int>)
      requires numLeds <= |p| && numLeds <= |prev|
      ensures ledData == Encode(p[..numLeds], prev[..numLeds], Header(brightness))
    {
      var header := Header(brightness);
      var off := Record(header, Black);
      var init := Repeat(off, numLeds);
      RepeatLength(off, numLeds);
      var buffer := new int[|init|](k requires 0 <= k < |init| => init[k]);
      assert buffer[..] == init;
      var i := 0;
      while i < numLeds
        invariant 0 <= i <= numLeds
        invariant buffer[..] == Encode(p[..i], prev[..i], header) + Repeat(off, numLeds - i)
        modifies buffer
      {
        WriteIfChanged(p, prev, numLeds, brightness, i, buffer);
        i := i + 1;
      }
      ledData := buffer[..];
    }

    /**
      Shows one frame. It fails (IndexError, nothing sent, nothing remembered) when the
      gamma table is too short for a clipped value, or when the frame or the remembered
      one has fewer columns than the strip has LEDs.
    */
    method Update(pixels: seq<Level>, gammaTable: Option<seq<int>>) returns (ok: bool)
      requires spi.isOpen
      modifies this, spi
      ensures brightness == old(brightness) && spi.isOpen == old(spi.isOpen)
      ensures var p := Prepared(pixels, softwareGamma, gammaTable);
        ok <==> p.Some? && |p.value| >= numLeds && |old(prevPixels)| >= numLeds
      ensures ok ==>
        var p := Prepared(pixels, softwareGamma, gammaTable).value;
        && spi.sent == old(spi.sent) + [DataFrame(numLeds, Encode(p[..numLeds], old(prevPixels)[..numLeds], Header(brightness)))]
        && prevPixels == p
      ensures !ok ==> spi.sent == old(spi.sent) && prevPixels == old(prevPixels)
    {
      var q := Quantized(pixels);
      var p: seq<Rgb>;
      if softwareGamma && gammaTable.Some? {
        var corrected := GammaCorrect(q, gammaTable.value);
        if corrected.None? {
          return false;
        }
        p := corrected.value;
      } else {
        p := q;
      }
      var prev := prevPixels;
      if |p| < numLeds || |prev| < numLeds {
        return false;
      }
      var ledData := BuildLedData(p, prev, numLeds, brightness);
      SendData(ledData);
      prevPixels := p;
      ok := true;
    }

    /** Sends every LED the record `[0xE1, 0, 0, 0]` (level 1, colour off). */
    method Clear()
      requires spi.isOpen
      modifies spi
      ensures spi.sent == old(spi.sent) + [DataFrame(numLeds, Repeat([0xE1, 0x00, 0x00, 0x00], numLeds))]
      ensures spi.isOpen == old(spi.isOpen)
    {
      HeaderOfLevel(1);
      var ledData := Repeat([Header(1), 0x00, 0x00, 0x00], numLeds);
      SendData(ledData);
    }

    method SetBrightness(brightness: int)
      modifies this
      ensures this.brightness == Clamp(brightness, 0, 31)
      ensures prevPixels == old(prevPixels)
    {
      this.brightness := Clamp(brightness, 0, 31);
    }

    /** Turns the strip off, then releases the device. */
    method Close()
      requires spi.isOpen
      modifies spi
      ensures spi.sent == old(spi.sent) + [DataFrame(numLeds, Repeat([0xE1, 0x00, 0x00, 0x00], numLeds))]
      ensures !spi.isOpen
    {
      Clear();
      spi.Close();
    }
  }
}
