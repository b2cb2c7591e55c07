/**
  The stand-alone SK9822 strip exerciser: a test class that builds whole frames for a
  strip of `ledCount` LEDs at a 0-255 brightness (scaled to the 5-bit header with
  `>> 3`) and sends most of them in ordered slices of at most 1024 bytes.
*/
module SpiTest {
  import opened Builtins
  import opened Bits
  import opened Text
  import opened Wire

  const ChunkSize: nat := 1024

  /** The record sent to an unlit LED by the chase and crawl patterns (level 0, colour off). */
  const OffRecord: seq<int> := [0xE0, 0x00, 0x00, 0x00]

  /** The record `clear_all` sends to every LED (level 1, colour off). */
  const ClearRecord: seq<int> := [0xE1, 0x00, 0x00, 0x00]

  /** `0xE0 | (brightness >> 3)`: the top five bits of an 8-bit brightness as the header level. */
  function ScaledHeader(brightness: int): int
  {
    Header(Shr(brightness, 3))
  }

  /** For a brightness in 0..255 the scaled header is `0xE0 + brightness // 8`, a byte in 0xE0..0xFF. */
  lemma ScaledHeaderInRange(brightness: int)
    requires 0 <= brightness <= 255
    ensures ScaledHeader(brightness) == 0xE0 + brightness / 8
    ensures 0xE0 <= ScaledHeader(brightness) <= 0xFF
  {
    assert Pow2(3) == 8;
    HeaderOfLevel(brightness / 8);
  }

  /** `start_frame + led_data + end_frame`: unlike the production encoder, no trailing zeros. */
  function Frame(n: nat, ledData: seq<int>): (r: seq<int>)
    ensures |r| == 4 + |ledData| + EndFrameLength(n)
    ensures r[..4] == [0, 0, 0, 0] && r[4..4 + |ledData|] == ledData
  {
    StartFrame + ledData + EndFrame(n)
  }

  /**
    `[data[i:i + 1024] for i in range(0, len(data), 1024)]`: consecutive slices of the
    frame, in order.
  */
  function Chunks(data: seq<int>): (chunks: seq<seq<int>>)
    ensures chunks == [] <==> data == []
    decreases |data|
  {
    if data == [] then []
    else if |data| <= ChunkSize then [data]
    else [data[..ChunkSize]] + Chunks(data[ChunkSize..])
  }

  /**
    Chunking loses and reorders nothing: the slices concatenate back to the frame, there
    are ceil(|data| / 1024) of them, every one holds 1 to 1024 bytes, and all but the last
    hold exactly 1024.
  */
  lemma {:induction false} ChunksRoundTrip(data: seq<int>)
    ensures Flatten(Chunks(data)) == data
    ensures |Chunks(data)| == (|data| + ChunkSize - 1) / ChunkSize
    ensures forall k :: 0 <= k < |Chunks(data)| ==> 0 < |Chunks(data)[k]| <= ChunkSize
    ensures forall k :: 0 <= k < |Chunks(data)| - 1 ==> |Chunks(data)[k]| == ChunkSize
    decreases |data|
  {
    if data == [] {
    } else if |data| <= ChunkSize {
      assert Flatten([data]) == Flatten([]) + data;
    } else {
      var rest := data[ChunkSize..];
      ChunksRoundTrip(rest);
      FlattenCons(data[..ChunkSize], Chunks(rest));
      assert data[..ChunkSize] + rest == data;
      var cs := Chunks(data);
      assert cs == [data[..ChunkSize]] + Chunks(rest);
      assert forall k :: 1 <= k < |cs| ==> cs[k] == Chunks(rest)[k - 1];
    }
  }

  /** Chunk k is the slice starting at byte 1024·k. */
  lemma {:induction false} ChunkAt(data: seq<int>, k: nat)
    requires k < |Chunks(data)|
    ensures Chunks(data)[k] == Slice(data, ChunkSize * k, ChunkSize * k + ChunkSize)
    decreases |data|
  {
    if |data| > ChunkSize && k > 0 {
      var rest := data[ChunkSize..];
      assert Chunks(data) == [data[..ChunkSize]] + Chunks(rest);
      assert Chunks(data)[k] == Chunks(rest)[k - 1];
      ChunkAt(rest, k - 1);
      SliceShift(data, ChunkSize, ChunkSize * (k - 1), ChunkSize * (k - 1) + ChunkSize);
    }
  }

  /** Slicing the tail from d on is slicing the whole d places further. */
  lemma SliceShift(data: seq<int>, d: nat, i: nat, j: nat)
    requires d <= |data|
    ensures Slice(data[d..], i, j) == Slice(data, d + i, d + j)
  {
  }

  /** The chunking loop's step: the remaining bytes from i on start with the slice at i. */
  lemma ChunksStep(data: seq<int>, i: nat)
    requires i < |data|
    ensures Chunks(Slice(data, i, |data|))
         == [Slice(data, i, i + ChunkSize)] + Chunks(Slice(data, i + ChunkSize, |data|))
  {
    var d := data[i..];
    assert Slice(data, i, |data|) == d;
    if |d| <= ChunkSize {
      assert Slice(data, i, i + ChunkSize) == d;
      assert Slice(data, i + ChunkSize, |data|) == [];
    } else {
      assert Slice(data, i, i + ChunkSize) == d[..ChunkSize];
      assert Slice(data, i + ChunkSize, |data|) == d[ChunkSize..];
    }
  }

  /**
    What a pattern loop transmits: for each key in order (a position, a frame number, a
    level), the frame `frameOf(key)` in 1024-byte chunks.
  */
  function Transmit(frameOf: int -> seq<int>, keys: seq<int>): seq<seq<int>>
  {
    if keys == [] then [] else Chunks(frameOf(keys[0])) + Transmit(frameOf, keys[1..])
  }

  lemma {:induction false} TransmitAppend(frameOf: int -> seq<int>, a: seq<int>, b: seq<int>)
    ensures Transmit(frameOf, a + b) == Transmit(frameOf, a) + Transmit(frameOf, b)
  {
    if a == [] {
      assert a + b == b;
    } else {
      assert (a + b)[1..] == a[1..] + b;
      TransmitAppend(frameOf, a[1..], b);
    }
  }

  /** One step of a `for key in range(...)` loop: the first key's frame, then the rest. */
  lemma TransmitRangeStep(frameOf: int -> seq<int>, key: int, stop: int, step: int)
    requires step != 0 && ((step > 0 && key < stop) || (step < 0 && key > stop))
    ensures Transmit(frameOf, Range(key, stop, step))
         == Chunks(frameOf(key)) + Transmit(frameOf, Range(key + step, stop, step))
  {
    var r := Range(key, stop, step);
    assert r == [key] + Range(key + step, stop, step);
    assert r[0] == key && r[1..] == Range(key + step, stop, step);
  }

  /** Concatenating everything sent gives the frames themselves back, one after the other. */
  lemma {:induction false} TransmitFlatten(frameOf: int -> seq<int>, keys: seq<int>)
    ensures Flatten(Transmit(frameOf, keys)) == FramesOf(frameOf, keys)
  {
    if keys != [] {
      TransmitFlatten(frameOf, keys[1..]);
      FlattenAppend(Chunks(frameOf(keys[0])), Transmit(frameOf, keys[1..]));
      ChunksRoundTrip(frameOf(keys[0]));
    }
  }

  /** The frames for the keys, laid end to end. */
  function FramesOf(frameOf: int -> seq<int>, keys: seq<int>): seq<int>
  {
    if keys == [] then [] else frameOf(keys[0]) + FramesOf(frameOf, keys[1..])
  }

  /** A `solid_color` frame: every LED gets the same record at the scaled brightness. */
  function SolidFrame(n: nat, brightness: int, red: int, green: int, blue: int): (r: seq<int>)
    ensures |r| == 4 + 4 * n + EndFrameLength(n)
  {
    RepeatLength(Record(ScaledHeader(brightness), Rgb(red, green, blue)), n);
    Frame(n, Repeat(Record(ScaledHeader(brightness), Rgb(red, green, blue)), n))
  }

  /** The solid frame is 4 + 4n + max(4, ceil(n/16)) bytes and LED i's record is `[hdr, blue, green, red]`. */
  lemma SolidFrameLayout(n: nat, brightness: int, red: int, green: int, blue: int, i: nat)
    requires i < n
    ensures |SolidFrame(n, brightness, red, green, blue)| == 4 + 4 * n + EndFrameLength(n)
    ensures SolidFrame(n, brightness, red, green, blue)[4 + 4 * i..8 + 4 * i]
         == [ScaledHeader(brightness), blue, green, red]
  {
    var record := Record(ScaledHeader(brightness), Rgb(red, green, blue));
    RepeatLength(record, n);
    var leds := Repeat(record, n);
    forall j | 0 <= j < 4
      ensures SolidFrame(n, brightness, red, green, blue)[4 + 4 * i + j] == record[j]
    {
      RepeatAt(record, n, i, j);
      assert i * |record| + j == 4 * i + j;
    }
  }

  /**
    The chase record of LED i: full red at `position`, dim red (half brightness, red 0x80)
    at `(position ± 1) mod n`, off elsewhere. The `n > 0` test only matters for LEDs that
    do not exist.
  */
  function ChaseRecord(n: nat, brightness: int, position: int, i: nat): (r: seq<int>)
    ensures |r| == 4
  {
    if i == position then [ScaledHeader(brightness), 0x00, 0x00, 0xFF]
    else if n > 0 && (i == (position + 1) % n || i == (position - 1) % n)
    then [ScaledHeader(brightness / 2), 0x00, 0x00, 0x80]
    else OffRecord
  }

  function ChaseRecords(n: nat, brightness: int, position: int): nat -> seq<int>
  {
    (i: nat) => ChaseRecord(n, brightness, position, i)
  }

  /** A chase frame: one record per LED, so 4 + 4n + max(4, ceil(n/16)) bytes. */
  function ChaseFrame(n: nat, brightness: int, position: int): (r: seq<int>)
    ensures |r| == 4 + 4 * n + EndFrameLength(n)
  {
    TabulateLength(ChaseRecords(n, brightness, position), n);
    Frame(n, Tabulate(ChaseRecords(n, brightness, position), n))
  }

  /**
    In a chase frame LED `position` alone is full red, its two neighbours modulo n are dim
    red, and every other LED is off.
  */
  lemma ChaseFrameAt(n: nat, brightness: int, position: nat, i: nat)
    requires position < n && i < n
    ensures |ChaseFrame(n, brightness, position)| == 4 + 4 * n + EndFrameLength(n)
    ensures ChaseFrame(n, brightness, position)[4 + 4 * i..8 + 4 * i]
         == if i == position then [ScaledHeader(brightness), 0x00, 0x00, 0xFF]
            else if i == (position + 1) % n || i == (position - 1) % n then [ScaledHeader(brightness / 2), 0x00, 0x00, 0x80]
            else [0xE0, 0x00, 0x00, 0x00]
  {
    var f := ChaseRecords(n, brightness, position);
    assert forall j :: |f(j)| == 4;
    TabulateAt(f, n, i);
    var leds := Tabulate(f, n);
    assert ChaseFrame(n, brightness, position)[4 + 4 * i..8 + 4 * i] == leds[4 * i..4 * i + 4];
  }

  /** Frame number j of `chase_test` is the chase frame at position `j mod n`. */
  function ChaseFrames(n: nat, brightness: int): int -> seq<int>
  {
    (j: int) => ChaseFrame(n, brightness, if n > 0 then j % n else 0)
  }

  /** The chunked chase frames for the given frame numbers, in order. */
  function ChaseSends(n: nat, brightness: int, frameNumbers: seq<int>): seq<seq<int>>
  {
    Transmit(ChaseFrames(n, brightness), frameNumbers)
  }

  lemma ChaseSendsStep(n: nat, brightness: int, k: int, stop: int)
    requires k < stop
    ensures ChaseSends(n, brightness, Range(k, stop, 1))
         == Chunks(ChaseFrame(n, brightness, if n > 0 then k % n else 0)) + ChaseSends(n, brightness, Range(k + 1, stop, 1))
  {
    TransmitRangeStep(ChaseFrames(n, brightness), k, stop, 1);
  }

  /** A crawl record: `lit` at `position`, the off record elsewhere. */
  function CrawlRecord(position: int, lit: seq<int>, i: nat): seq<int>
  {
    if i == position then lit else OffRecord
  }

  function CrawlRecords(position: int, lit: seq<int>): nat -> seq<int>
  {
    (i: nat) => CrawlRecord(position, lit, i)
  }

  /** A crawl frame: with a four-byte lit record, 4 + 4n + max(4, ceil(n/16)) bytes. */
  function CrawlFrame(n: nat, position: int, lit: seq<int>): (r: seq<int>)
    ensures |lit| == 4 ==> |r| == 4 + 4 * n + EndFrameLength(n)
  {
    if |lit| == 4 then
      TabulateLength(CrawlRecords(position, lit), n);
      Frame(n, Tabulate(CrawlRecords(position, lit), n))
    else
      Frame(n, Tabulate(CrawlRecords(position, lit), n))
  }

  /** Crawl frame k lights exactly LED k with the given record; every other LED is off. */
  lemma CrawlFrameAt(n: nat, position: nat, lit: seq<int>, i: nat)
    requires |lit| == 4 && i < n
    ensures |CrawlFrame(n, position, lit)| == 4 + 4 * n + EndFrameLength(n)
    ensures CrawlFrame(n, position, lit)[4 + 4 * i..8 + 4 * i] == if i == position then lit else OffRecord
  {
    var f := CrawlRecords(position, lit);
    assert forall j :: |f(j)| == 4;
    TabulateAt(f, n, i);
    assert CrawlFrame(n, position, lit)[4 + 4 * i..8 + 4 * i] == Tabulate(f, n)[4 * i..4 * i + 4];
  }

  function CrawlFrames(n: nat, lit: seq<int>): int -> seq<int>
  {
    (position: int) => CrawlFrame(n, position, lit)
  }

  /** The chunked crawl frames for the given positions, in order. */
  function CrawlSends(n: nat, lit: seq<int>, positions: seq<int>): seq<seq<int>>
  {
    Transmit(CrawlFrames(n, lit), positions)
  }

  lemma CrawlSendsStep(n: nat, lit: seq<int>, position: int, stop: int)
    requires position < stop
    ensures CrawlSends(n, lit, Range(position, stop, 1))
         == Chunks(CrawlFrame(n, position, lit)) + CrawlSends(n, lit, Range(position + 1, stop, 1))
  {
    TransmitRangeStep(CrawlFrames(n, lit), position, stop, 1);
  }

  /** A `send_frame` frame: every LED at the clamped level, colour at full intensity. */
  function SweepFrame(n: nat, level: int, red: int, green: int, blue: int): (r: seq<int>)
    ensures |r| == 4 + 4 * n + EndFrameLength(n)
  {
    RepeatLength(Record(Header(Clamp(level, 0, 31)), Rgb(red, green, blue)), n);
    Frame(n, Repeat(Record(Header(Clamp(level, 0, 31)), Rgb(red, green, blue)), n))
  }

  function SweepFrames(n: nat, red: int, green: int, blue: int): int -> seq<int>
  {
    (level: int) => SweepFrame(n, level, red, green, blue)
  }

  /** The chunked sweep frames for the given levels, in order. */
  function SweepSends(n: nat, red: int, green: int, blue: int, levels: seq<int>): seq<seq<int>>
  {
    Transmit(SweepFrames(n, red, green, blue), levels)
  }

  lemma SweepSendsStep(n: nat, red: int, green: int, blue: int, level: int, stop: int, step: int)
    requires step != 0 && ((step > 0 && level < stop) || (step < 0 && level > stop))
    ensures SweepSends(n, red, green, blue, Range(level, stop, step))
         == Chunks(SweepFrame(n, level, red, green, blue)) + SweepSends(n, red, green, blue, Range(level + step, stop, step))
  {
    TransmitRangeStep(SweepFrames(n, red, green, blue), level, stop, step);
  }

  lemma {:induction false} SweepSendsAppend(n: nat, red: int, green: int, blue: int, a: seq<int>, b: seq<int>)
    ensures SweepSends(n, red, green, blue, a + b) == SweepSends(n, red, green, blue, a) + SweepSends(n, red, green, blue, b)
  {
    TransmitAppend(SweepFrames(n, red, green, blue), a, b);
  }

  /** Every record header a sweep frame carries is `0xE0 + clamp(level)`, within 0xE0..0xFF, whatever the level asked for. */
  lemma SweepFrameHeader(n: nat, level: int, red: int, green: int, blue: int, i: nat)
    requires i < n
    ensures |SweepFrame(n, level, red, green, blue)| == 4 + 4 * n + EndFrameLength(n)
    ensures SweepFrame(n, level, red, green, blue)[4 + 4 * i] == 0xE0 + Clamp(level, 0, 31) <= 0xFF
  {
    var record := Record(Header(Clamp(level, 0, 31)), Rgb(red, green, blue));
    RepeatAt(record, n, i, 0);
    HeaderOfLevel(Clamp(level, 0, 31));
    assert i * |record| == 4 * i;
  }

  /** One up-and-down sweep: `range(min, max + 1, s)` then `range(max, min - 1, -s)` with `s = max(1, step)`. */
  function SweepCycle(minLevel: int, maxLevel: int, step: int): seq<int>
  {
    var s := if step > 1 then step else 1;
    Range(minLevel, maxLevel + 1, s) + Range(maxLevel, minLevel - 1, -s)
  }

  /** All levels `brightness_sweep` sends: `max(1, cycles)` sweeps. */
  function SweepLevels(cycles: int, minLevel: int, maxLevel: int, step: int): seq<int>
  {
    Repeat(SweepCycle(minLevel, maxLevel, step), if cycles > 1 then cycles else 1)
  }

  /** The upward half of a sweep climbs from the minimum by `s` without passing the maximum. */
  lemma SweepUpAt(minLevel: int, maxLevel: int, s: int, k: nat)
    requires s >= 1 && k < |Range(minLevel, maxLevel + 1, s)|
    ensures Range(minLevel, maxLevel + 1, s)[k] == minLevel + k * s
    ensures minLevel <= Range(minLevel, maxLevel + 1, s)[k] <= maxLevel
  {
    RangeAt(minLevel, maxLevel + 1, s, k);
  }

  /** The downward half falls from the maximum by `s` without passing the minimum. */
  lemma SweepDownAt(minLevel: int, maxLevel: int, s: int, k: nat)
    requires s >= 1 && k < |Range(maxLevel, minLevel - 1, -s)|
    ensures Range(maxLevel, minLevel - 1, -s)[k] == maxLevel - k * s
    ensures minLevel <= Range(maxLevel, minLevel - 1, -s)[k] <= maxLevel
  {
    RangeAt(maxLevel, minLevel - 1, -s, k);
  }

  class SK9822LEDTest {
    const ledCount: nat
    const brightness: int
    const spi: SpiBus

    /** `spi` is the device already opened on the configured bus and device at 2 MHz. */
    constructor (ledCount: nat, brightness: int, spi: SpiBus)
      ensures this.ledCount == ledCount && this.brightness == brightness && this.spi == spi
    {
      this.ledCount := ledCount;
      this.brightness := brightness;
      this.spi := spi;
    }

    /** The `led_data.extend(record)` loop for identical records. */
    static method RepeatRecord(record: seq<int>, count: nat) returns (ledData: seq<int>)
      ensures ledData == Repeat(record, count)
    {
      ledData := [];
      var i := 0;
      while i < count
        invariant 0 <= i <= count
        invariant ledData == Repeat(record, i)
      {
        RepeatSnoc(record, i);
        ledData := ledData + record;
        i := i + 1;
      }
    }

    /** The chunked send loop: one `xfer2` per slice of at most 1024 bytes, in order. */
    method SendChunked(data: seq<int>)
      requires spi.isOpen
      modifies spi
      ensures spi.sent == old(spi.sent) + Chunks(data)
      ensures spi.isOpen == old(spi.isOpen)
    {
      var i := 0;
      assert Slice(data, i, |data|) == data;
      while i < |data|
        invariant spi.sent + Chunks(Slice(data, i, |data|)) == old(spi.sent) + Chunks(data)
        invariant spi.isOpen == old(spi.isOpen)
        decreases |data| - i
      {
        ChunksStep(data, i);
        var chunk := Slice(data, i, i + ChunkSize);
        spi.Xfer2(chunk);
        i := i + ChunkSize;
      }
      assert Slice(data, i, |data|) == [];
    }

    /** Every LED gets `[0xE1, 0, 0, 0]`; the frame goes out as a single transaction. */
    method ClearAll()
      requires spi.isOpen
      modifies spi
      ensures spi.sent == old(spi.sent) + [Frame(ledCount, Repeat(ClearRecord, ledCount))]
      ensures spi.isOpen == old(spi.isOpen)
    {
      var startFrame := StartFrame;
      var endFrame := EndFrame(ledCount);
      var ledData := RepeatRecord(ClearRecord, ledCount);
      var data := startFrame + ledData + endFrame;
      spi.Xfer2(data);
    }

    method SolidColor(red: int, green: int, blue: int)
      requires spi.isOpen
      modifies spi
      ensures spi.sent == old(spi.sent) + Chunks(SolidFrame(ledCount, brightness, red, green, blue))
      ensures spi.isOpen == old(spi.isOpen)
    {
      var startFrame := StartFrame;
      var endFrame := EndFrame(ledCount);
      var ledData := RepeatRecord(Record(ScaledHeader(brightness), Rgb(red, green, blue)), ledCount);
      var data := startFrame + ledData + endFrame;
      SendChunked(data);
    }

    /**
      One frame of `chase_test`: the start frame, then per LED the if/elif colour choice (full
      red at the strip's brightness at `position`, red 0x80 at half brightness at its two
      neighbours modulo the LED count, off elsewhere), then the end frame.
    */
    method BuildChaseFrame(position: int) returns (data: seq<int>)
      ensures data == ChaseFrame(ledCount, brightness, position)
    {
      var startFrame := StartFrame;
      var endFrame := EndFrame(ledCount);
      var ledData := [];
      var i := 0;
      while i < ledCount
        invariant 0 <= i <= ledCount
        invariant ledData == Tabulate(ChaseRecords(ledCount, brightness, position), i)
      {
        if i == position {
          var brightnessByte := Header(Shr(brightness, 3));
          ledData := ledData + [brightnessByte, 0x00, 0x00, 0xFF];
        } else if i == (position + 1) % ledCount || i == (position - 1) % ledCount {
          var brightnessByte := Header(Shr(brightness / 2, 3));
          ledData := ledData + [brightnessByte, 0x00, 0x00, 0x80];
        } else {
          ledData := ledData + [0xE0, 0x00, 0x00, 0x00];
        }
        i := i + 1;
      }
      data := startFrame + ledData + endFrame;
    }

    /**
      `chase_test` for as many frames as the wall-clock duration allows. With no LEDs the
      first frame is sent and advancing the position divides by zero (ok is false).
    */
    method ChaseTest(frames: nat) returns (ok: bool)
      requires spi.isOpen
      modifies spi
      ensures ok <==> ledCount > 0 || frames == 0
      ensures ok ==> spi.sent == old(spi.sent) + ChaseSends(ledCount, brightness, Range(0, frames, 1))
      ensures !ok ==> spi.sent == old(spi.sent) + Chunks(ChaseFrame(0, brightness, 0))
      ensures spi.isOpen == old(spi.isOpen)
    {
      ghost var total := old(spi.sent) + ChaseSends(ledCount, brightness, Range(0, frames, 1));
      var position := 0;
      var k := 0;
      while k < frames
        invariant 0 <= k <= frames
        invariant position == if ledCount > 0 then k % ledCount else 0
        invariant ledCount == 0 ==> k == 0 && spi.sent == old(spi.sent)
        invariant spi.sent + ChaseSends(ledCount, brightness, Range(k, frames, 1)) == total
        invariant spi.isOpen == old(spi.isOpen)
      {
        ghost var before := spi.sent;
        ghost var rest := ChaseSends(ledCount, brightness, Range(k + 1, frames, 1));
        ChaseSendsStep(ledCount, brightness, k, frames);
        var data := BuildChaseFrame(position);
        SendChunked(data);
        AppendAssoc(before, Chunks(data), rest);
        if ledCount == 0 {
          return false;
        }
        ModSuccessor(k, ledCount);
        position := (position + 1) % ledCount;
        k := k + 1;
      }
      ok := true;
    }

    /** One frame of `crawl_once`: `lit` at `position`, every other LED off. */
    method BuildCrawlFrame(position: int, lit: seq<int>) returns (data: seq<int>)
      ensures data == CrawlFrame(ledCount, position, lit)
    {
      var ledData := [];
      var i := 0;
      while i < ledCount
        invariant 0 <= i <= ledCount
        invariant ledData == Tabulate(CrawlRecords(position, lit), i)
      {
        if i == position {
          ledData := ledData + lit;
        } else {
          ledData := ledData + [0xE0, 0x00, 0x00, 0x00];
        }
        i := i + 1;
      }
      data := StartFrame + ledData + EndFrame(ledCount);
    }

    /** Moves one lit pixel from LED 0 to the last LED, one chunked frame per position. */
    method CrawlOnce(red: int, green: int, blue: int)
      requires spi.isOpen
      modifies spi
      ensures spi.sent == old(spi.sent) + CrawlSends(ledCount, [ScaledHeader(brightness), blue, green, red], Range(0, ledCount, 1))
      ensures spi.isOpen == old(spi.isOpen)
    {
      var brightnessByte := Header(Shr(brightness, 3));
      var lit := [brightnessByte, blue, green, red];
      ghost var total := old(spi.sent) + CrawlSends(ledCount, lit, Range(0, ledCount, 1));
      var position := 0;
      while position < ledCount
        invariant 0 <= position <= ledCount
        invariant spi.sent + CrawlSends(ledCount, lit, Range(position, ledCount, 1)) == total
        invariant spi.isOpen == old(spi.isOpen)
      {
        ghost var before := spi.sent;
        ghost var rest := CrawlSends(ledCount, lit, Range(position + 1, ledCount, 1));
        CrawlSendsStep(ledCount, lit, position, ledCount);
        var data := BuildCrawlFrame(position, lit);
        SendChunked(data);
        AppendAssoc(before, Chunks(data), rest);
        position := position + 1;
      }
    }

    /** `send_frame(level)`: clamp the level into 0..31 and send one chunked frame. */
    method SendFrame(level: int, red: int, green: int, blue: int)
      requires spi.isOpen
      modifies spi
      ensures spi.sent == old(spi.sent) + Chunks(SweepFrame(ledCount, level, red, green, blue))
      ensures spi.isOpen == old(spi.isOpen)
    {
      var clamped := Clamp(level, 0, 31);
      var brightnessByte := Header(clamped);
      var ledData := RepeatRecord([brightnessByte, blue, green, red], ledCount);
      var data := StartFrame + ledData + EndFrame(ledCount);
      SendChunked(data);
    }

    /** `for lvl in range(start, stop, step): send_frame(lvl)`. */
    method SendRange(start: int, stop: int, step: int, red: int, green: int, blue: int)
      requires spi.isOpen
      requires step != 0
      modifies spi
      ensures spi.sent == old(spi.sent) + SweepSends(ledCount, red, green, blue, Range(start, stop, step))
      ensures spi.isOpen == old(spi.isOpen)
    {
      ghost var total := old(spi.sent) + SweepSends(ledCount, red, green, blue, Range(start, stop, step));
      var lvl := start;
      while (step > 0 && lvl < stop) || (step < 0 && lvl > stop)
        invariant spi.sent + SweepSends(ledCount, red, green, blue, Range(lvl, stop, step)) == total
        invariant spi.isOpen == old(spi.isOpen)
        decreases if step > 0 then stop - lvl else lvl - stop
      {
        ghost var before := spi.sent;
        ghost var rest := SweepSends(ledCount, red, green, blue, Range(lvl + step, stop, step));
        ghost var chunks := Chunks(SweepFrame(ledCount, lvl, red, green, blue));
        SweepSendsStep(ledCount, red, green, blue, lvl, stop, step);
        SendFrame(lvl, red, green, blue);
        SentStep(before, chunks, rest, spi.sent, total);
        lvl := lvl + step;
      }
      assert Range(lvl, stop, step) == [];
    }

    /** One up-and-down sweep of the header level. */
    method SweepRound(red: int, green: int, blue: int, minLevel: int, maxLevel: int, step: int)
      requires spi.isOpen
      modifies spi
      ensures spi.sent == old(spi.sent) + SweepSends(ledCount, red, green, blue, SweepCycle(minLevel, maxLevel, step))
      ensures spi.isOpen == old(spi.isOpen)
    {
      var s := if step > 1 then step else 1;
      ghost var up := SweepSends(ledCount, red, green, blue, Range(minLevel, maxLevel + 1, s));
      ghost var down := SweepSends(ledCount, red, green, blue, Range(maxLevel, minLevel - 1, -s));
      ghost var start := spi.sent;
      SendRange(minLevel, maxLevel + 1, s, red, green, blue);
      ghost var mid := spi.sent;
      SendRange(maxLevel, minLevel - 1, -s, red, green, blue);
      assert spi.sent == mid + down && mid == start + up;
      SweepSendsAppend(ledCount, red, green, blue, Range(minLevel, maxLevel + 1, s), Range(maxLevel, minLevel - 1, -s));
      assert SweepCycle(minLevel, maxLevel, step) == Range(minLevel, maxLevel + 1, s) + Range(maxLevel, minLevel - 1, -s);
      AppendAssoc(start, up, down);
    }

    /** `max(1, cycles)` sweeps of the header level, up from `minLevel` and back down, `max(1, step)` at a time. */
    method BrightnessSweep(red: int, green: int, blue: int, cycles: int, minLevel: int, maxLevel: int, step: int)
      requires spi.isOpen
      modifies spi
      ensures spi.sent == old(spi.sent) + SweepSends(ledCount, red, green, blue, SweepLevels(cycles, minLevel, maxLevel, step))
      ensures spi.isOpen == old(spi.isOpen)
    {
      ghost var cycle := SweepCycle(minLevel, maxLevel, step);
      var rounds := if cycles > 1 then cycles else 1;
      var c := 0;
      while c < rounds
        invariant 0 <= c <= rounds
        invariant spi.sent == old(spi.sent) + SweepSends(ledCount, red, green, blue, Repeat(cycle, c))
        invariant spi.isOpen == old(spi.isOpen)
      {
        ghost var done := SweepSends(ledCount, red, green, blue, Repeat(cycle, c));
        SweepRound(red, green, blue, minLevel, maxLevel, step);
        RepeatSnoc(cycle, c);
        SweepSendsAppend(ledCount, red, green, blue, Repeat(cycle, c), cycle);
        AppendAssoc(old(spi.sent), done, SweepSends(ledCount, red, green, blue, cycle));
        c := c + 1;
      }
    }
  }

  /** A send loop's step: once `chunks` went out, the rest still to send completes the total. */
  lemma SentStep(before: seq<seq<int>>, chunks: seq<seq<int>>, rest: seq<seq<int>>, sent: seq<seq<int>>, total: seq<seq<int>>)
    requires before + (chunks + rest) == total
    requires sent == before + chunks
    ensures sent + rest == total
  {
    AppendAssoc(before, chunks, rest);
  }

  /** Advancing `k mod n` by one modulo n gives `(k + 1) mod n`. */
  lemma ModSuccessor(k: nat, n: nat)
    requires n > 0
    ensures (k % n + 1) % n == (k + 1) % n
  {
    var r := k % n;
    var q := k / n;
    if r + 1 == n {
      ModUnique(k + 1, n, q + 1, 0);
    } else {
      ModUnique(k + 1, n, q, r + 1);
    }
  }
}
