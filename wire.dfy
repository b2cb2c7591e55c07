/**
  The SK9822/APA102 serial LED protocol shared by the three encoders, and the SPI bus
  they write to.

  A frame is a start marker of four 0x00 bytes, one 4-byte record per LED
  `[0xE0 | level, blue, green, red]` (level is a 5-bit global brightness), and an end
  marker of 0xFF bytes that supplies the clock edges needed to latch the chain.
*/
module Wire {
  import opened Builtins
  import opened Bits

  /** One colour as the encoders hand it to the protocol, channel values as Python ints. */
  datatype Rgb = Rgb(r: int, g: int, b: int)

  const Black: Rgb := Rgb(0, 0, 0)

  /**
    The SPI device (spidev): every `xfer2` call is one transaction, logged in order.
    Opening the device is done by whoever constructs it.
  */
  class SpiBus {
    var sent: seq<seq<int>>
    var isOpen: bool

    constructor ()
      ensures sent == [] && isOpen
    {
      sent := [];
      isOpen := true;
    }

    /** A transaction on an open device; spidev refuses one after `close`. */
    method Xfer2(data: seq<int>)
      requires isOpen
      modifies this
      ensures sent == old(sent) + [data]
      ensures isOpen == old(isOpen)
    {
      sent := sent + [data];
    }

    method Close()
      modifies this
      ensures sent == old(sent) && !isOpen
    {
      isOpen := false;
    }
  }

  /** Four 0x00 bytes (32 zero clock cycles). */
  const StartFrame: seq<int> := [0x00, 0x00, 0x00, 0x00]

  /** The record header `0xE0 | level`, computed with Python's unbounded `|`. */
  function Header(level: int): int
  {
    Or(0xE0, level)
  }

  /** For a 5-bit level the header is `0xE0 + level`, so it lies in 0xE0..0xFF with the top three bits set. */
  lemma HeaderOfLevel(level: int)
    requires 0 <= level <= 31
    ensures Header(level) == 0xE0 + level
    ensures 0xE0 <= Header(level) <= 0xFF
  {
    OrDisjoint(7, 5, level);
  }

  /** One LED record, in the strip's blue-green-red order. */
  function Record(header: int, c: Rgb): (r: seq<int>)
    ensures |r| == 4 && r[0] == header
  {
    [header, c.b, c.g, c.r]
  }

  /** `(n + 15) // 16` is the ceiling of n/16: the fewest 16-LED groups covering n LEDs. */
  lemma CeilSixteenth(n: nat)
    ensures 16 * ((n + 15) / 16) >= n
    ensures (n + 15) / 16 == 0 || 16 * ((n + 15) / 16 - 1) < n
  {
  }

  /** `max(4, (n + 15) // 16)`: at least n/2 clock edges of ones, and never fewer than four bytes. */
  function EndFrameLength(n: nat): (k: nat)
    ensures k >= 4 && 16 * k >= n
    ensures k > 4 ==> 16 * (k - 1) < n
  {
    CeilSixteenth(n);
    if (n + 15) / 16 > 4 then (n + 15) / 16 else 4
  }

  /** The end marker `[0xFF] * max(4, (n + 15) // 16)`. */
  function EndFrame(n: nat): (r: seq<int>)
    ensures |r| == EndFrameLength(n)
    ensures forall k :: 0 <= k < |r| ==> r[k] == 0xFF
  {
    RepeatSingle(0xFF, EndFrameLength(n));
    Repeat([0xFF], EndFrameLength(n))
  }

  /** The records of n LEDs laid end to end: `record(0) + record(1) + ... + record(n - 1)`. */
  function Tabulate(record: nat -> seq<int>, n: nat): seq<int>
  {
    if n == 0 then [] else Tabulate(record, n - 1) + record(n - 1)
  }

  /** With 4-byte records, bytes 4i..4i+3 of the tabulation are record i. */
  lemma {:induction false} TabulateAt(record: nat -> seq<int>, n: nat, i: nat)
    requires forall j :: |record(j)| == 4
    requires i < n
    ensures |Tabulate(record, n)| == 4 * n
    ensures Tabulate(record, n)[4 * i..4 * i + 4] == record(i)
  {
    TabulateLength(record, n);
    if i < n - 1 {
      TabulateAt(record, n - 1, i);
      assert Tabulate(record, n)[4 * i..4 * i + 4] == Tabulate(record, n - 1)[4 * i..4 * i + 4];
    } else {
      TabulateLength(record, n - 1);
    }
  }

  lemma {:induction false} TabulateLength(record: nat -> seq<int>, n: nat)
    requires forall j :: |record(j)| == 4
    ensures |Tabulate(record, n)| == 4 * n
  {
    if n > 0 {
      TabulateLength(record, n - 1);
    }
  }
}
