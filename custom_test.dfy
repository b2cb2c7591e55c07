/**
  The one-off strip script: 300 LEDs, every LED set to one colour at a caller-given 5-bit
  level, and an end marker of `(n + 15) // 16` bytes of 0xFF with no four-byte minimum.
  The SPI device the script opens at module level is the `spi` the script object holds.
*/
module CustomTest {
  import opened Builtins
  import opened Bits
  import opened Wire

  const NumLeds: nat := 300

  /** The LED record of every LED: `[0xE0 | brightness, b, g, r]`. */
  function SolidRecord(r: int, g: int, b: int, brightness: int): seq<int>
  {
    Record(Header(brightness), Rgb(r, g, b))
  }

  /** `[0xFF] * ((n + 15) // 16)`: ceil(n/16) bytes of ones, possibly none. */
  function ShortEndFrame(n: nat): (e: seq<int>)
    ensures |e| == (n + 15) / 16
    ensures forall k :: 0 <= k < |e| ==> e[k] == 0xFF
  {
    RepeatSingle(0xFF, (n + 15) / 16);
    Repeat([0xFF], (n + 15) / 16)
  }

  /** The whole transaction `set_all_to_color` sends for n LEDs. */
  function CustomFrame(n: nat, r: int, g: int, b: int, brightness: int): (f: seq<int>)
    ensures |f| == 4 + 4 * n + (n + 15) / 16
  {
    RepeatLength(SolidRecord(r, g, b, brightness), n);
    StartFrame + Repeat(SolidRecord(r, g, b, brightness), n) + ShortEndFrame(n)
  }

  /**
    The frame is four 0x00 bytes, then n records `[0xE0 | brightness, b, g, r]` in
    blue-green-red order, then ceil(n/16) bytes of 0xFF: 4 + 4n + ceil(n/16) bytes.
  */
  lemma CustomFrameLayout(n: nat, r: int, g: int, b: int, brightness: int)
    ensures |CustomFrame(n, r, g, b, brightness)| == 4 + 4 * n + (n + 15) / 16
    ensures CustomFrame(n, r, g, b, brightness)[..4] == [0x00, 0x00, 0x00, 0x00]
    ensures forall i :: 0 <= i < n ==>
      CustomFrame(n, r, g, b, brightness)[4 + 4 * i..8 + 4 * i] == [Header(brightness), b, g, r]
    ensures forall k :: 4 + 4 * n <= k < |CustomFrame(n, r, g, b, brightness)| ==>
      CustomFrame(n, r, g, b, brightness)[k] == 0xFF
  {
    var record := SolidRecord(r, g, b, brightness);
    var leds := Repeat(record, n);
    RepeatLength(record, n);
    var frame := CustomFrame(n, r, g, b, brightness);
    forall i | 0 <= i < n
      ensures frame[4 + 4 * i..8 + 4 * i] == [Header(brightness), b, g, r]
    {
      forall j | 0 <= j < 4
        ensures frame[4 + 4 * i + j] == record[j]
      {
        RepeatAt(record, n, i, j);
        assert i * |record| + j == 4 * i + j;
      }
    }
  }

  /** With 300 LEDs the end marker is 19 bytes and the frame 1223 bytes. */
  lemma CustomFrameLength300(r: int, g: int, b: int, brightness: int)
    ensures |ShortEndFrame(NumLeds)| == 19
    ensures |CustomFrame(NumLeds, r, g, b, brightness)| == 1223
  {
    CustomFrameLayout(NumLeds, r, g, b, brightness);
  }

  /**
    Without the four-byte minimum the end marker is never longer than the other two
    encoders' and is as long only above 48 LEDs; for no LEDs it is empty.
  */
  lemma ShortEndFrameVersusEndFrame(n: nat)
    ensures |ShortEndFrame(n)| <= |EndFrame(n)|
    ensures |ShortEndFrame(n)| == |EndFrame(n)| <==> n > 48
    ensures n == 0 ==> ShortEndFrame(n) == []
  {
  }

  /** `clear_all_leds` is `set_all_to_color(0, 0, 0, 1)`: every record is `[0xE1, 0, 0, 0]`. */
  lemma ClearRecordIsDimBlack()
    ensures SolidRecord(0, 0, 0, 1) == [0xE1, 0x00, 0x00, 0x00]
  {
    HeaderOfLevel(1);
  }

  class Script {
    const spi: SpiBus

    /** `spi` is the device the script opens on bus 0, device 0 at 1 MHz. */
    constructor (spi: SpiBus)
      ensures this.spi == spi
    {
      this.spi := spi;
    }

    /** Builds the frame with `+=` one record at a time and sends it as one transaction. */
    method SetAllToColor(r: int, g: int, b: int, brightness: int)
      requires spi.isOpen
      modifies spi
      ensures spi.sent == old(spi.sent) + [CustomFrame(NumLeds, r, g, b, brightness)]
      ensures spi.isOpen == old(spi.isOpen)
    {
      var data := [];
      data := data + [0x00, 0x00, 0x00, 0x00];
      var i := 0;
      while i < NumLeds
        invariant 0 <= i <= NumLeds
        invariant data == StartFrame + Repeat(SolidRecord(r, g, b, brightness), i)
        invariant unchanged(spi)
      {
        RepeatSnoc(SolidRecord(r, g, b, brightness), i);
        data := data + [Or(0xE0, brightness), b, g, r];
        i := i + 1;
      }
      data := data + ShortEndFrame(NumLeds);
      spi.Xfer2(data);
    }

    method ClearAllLeds()
      requires spi.isOpen
      modifies spi
      ensures spi.sent == old(spi.sent) + [CustomFrame(NumLeds, 0, 0, 0, 1)]
      ensures spi.isOpen == old(spi.isOpen)
    {
      SetAllToColor(0, 0, 0, 1);
    }

    /** The script body: full red at level 1, then (after a key press) clear, then close the device. */
    method Run()
      requires spi.isOpen
      modifies spi
      ensures spi.sent == old(spi.sent) + [CustomFrame(NumLeds, 255, 0, 0, 1), CustomFrame(NumLeds, 0, 0, 0, 1)]
      ensures !spi.isOpen
    {
      SetAllToColor(255, 0, 0, 1);
      ClearAllLeds();
      spi.Close();
    }
  }
}
