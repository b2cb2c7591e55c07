/**
  The WS2812B strip controller: the `ColorRGB` record and its hexadecimal codec, the
  `Color.RGB` packing and `PixelStrip` buffer of the development mock, and the
  `LEDController` setters and the patterns that are plain index logic.
*/
module LedController {
  import opened Builtins
  import opened Bits
  import opened Text

  datatype PatternType = Solid | Rainbow | Chase | Fade | Breathing | Twinkle | Wave | Fire | Music

  /** The pattern's `value` string, as the web interface names it. */
  function PatternName(p: PatternType): string
  {
    match p
    case Solid => "solid"
    case Rainbow => "rainbow"
    case Chase => "chase"
    case Fade => "fade"
    case Breathing => "breathing"
    case Twinkle => "twinkle"
    case Wave => "wave"
    case Fire => "fire"
    case Music => "music"
  }

  /** `PatternType(value)`: the pattern with that value, None for any other string. */
  function PatternOf(name: string): (p: Option<PatternType>)
    ensures p.Some? ==> PatternName(p.value) == name
  {
    if name == "solid" then Some(Solid)
    else if name == "rainbow" then Some(Rainbow)
    else if name == "chase" then Some(Chase)
    else if name == "fade" then Some(Fade)
    else if name == "breathing" then Some(Breathing)
    else if name == "twinkle" then Some(Twinkle)
    else if name == "wave" then Some(Wave)
    else if name == "fire" then Some(Fire)
    else if name == "music" then Some(Music)
    else None
  }

  /** Every pattern's value names it and no other: the lookup inverts `value`. */
  lemma PatternOfName(p: PatternType)
    ensures PatternOf(PatternName(p)) == Some(p)
  {
  }

  datatype ColorRGB = ColorRGB(red: int, green: int, blue: int)

  const Black: ColorRGB := ColorRGB(0, 0, 0)

  predicate InByteRange(c: ColorRGB)
  {
    0 <= c.red <= 255 && 0 <= c.green <= 255 && 0 <= c.blue <= 255
  }

  /**
    `f"#{red:02x}{green:02x}{blue:02x}"`: a `#` and at least two characters per component;
    for byte components exactly six lower-case hexadecimal digits.
  */
  function ToHex(c: ColorRGB): (r: string)
    ensures |r| >= 7 && r[0] == '#'
    ensures InByteRange(c) ==> |r| == 7 && forall k :: 1 <= k < 7 ==> '0' <= r[k] <= '9' || 'a' <= r[k] <= 'f'
  {
    ByteSpelling(c);
    "#" + Format02x(c.red) + Format02x(c.green) + Format02x(c.blue)
  }

  /** For byte components the spelling is the six nibbles, high nibble first. */
  lemma ByteSpelling(c: ColorRGB)
    ensures InByteRange(c) ==>
      ("#" + Format02x(c.red) + Format02x(c.green) + Format02x(c.blue)
       == ['#', HexDigit(c.red / 16), HexDigit(c.red % 16), HexDigit(c.green / 16), HexDigit(c.green % 16),
           HexDigit(c.blue / 16), HexDigit(c.blue % 16)])
  {
  }

  /**
    `from_hex`: strip every leading `#`, then `int(h[0:2], 16)`, `int(h[2:4], 16)` and
    `int(h[4:6], 16)`; a field that is not a base-16 integer is a ValueError (None). A
    decoded colour needs at least five characters after the `#`s, and since a field may
    carry a sign (`"-f"`), its components lie in -15..255 rather than 0..255.
  */
  function FromHex(hexColor: string): (c: Option<ColorRGB>)
    ensures c.Some? ==> |LStripChar(hexColor, '#')| >= 5
    ensures c.Some? ==> -15 <= c.value.red <= 255 && -15 <= c.value.green <= 255 && -15 <= c.value.blue <= 255
  {
    var h := LStripChar(hexColor, '#');
    var red := HexField(h, 0);
    var green := HexField(h, 2);
    var blue := HexField(h, 4);
    if red.Some? && green.Some? && blue.Some?
    then Some(ColorRGB(red.value, green.value, blue.value))
    else None
  }

  /** One field `int(h[i:i+2], 16)`: it needs a character at `i` and lies in -15..255. */
  function HexField(h: string, i: nat): (r: Option<int>)
    ensures r.Some? ==> i < |h| && -15 <= r.value <= 255
  {
    ParseShortHex(Slice(h, i, i + 2));
    ParseInt(Slice(h, i, i + 2), 16)
  }

  /** Behind one `#`, six characters split into the three two-character fields `from_hex` reads. */
  lemma HexFields(r: string, g: string, b: string)
    requires |r| == 2 && |g| == 2 && |b| == 2 && r[0] != '#'
    ensures LStripChar("#" + (r + g + b), '#') == r + g + b
    ensures Slice(r + g + b, 0, 2) == r && Slice(r + g + b, 2, 4) == g && Slice(r + g + b, 4, 6) == b
  {
    var digits := r + g + b;
    assert ("#" + digits)[1..] == digits;
    assert digits[0] == r[0];
    assert digits[..2] == r && digits[2..4] == g && digits[4..6] == b;
  }

  /** Decoding the spelling of a byte colour gives the colour back. */
  lemma HexRoundTrip(c: ColorRGB)
    requires InByteRange(c)
    ensures FromHex(ToHex(c)) == Some(c)
  {
    var r := [HexDigit(c.red / 16), HexDigit(c.red % 16)];
    var g := [HexDigit(c.green / 16), HexDigit(c.green % 16)];
    var b := [HexDigit(c.blue / 16), HexDigit(c.blue % 16)];
    var h := r + g + b;
    ToHexSpelling(c);
    HexFields(r, g, b);
    assert LStripChar(ToHex(c), '#') == h;
    HexFieldRead(c.red, h, 0);
    HexFieldRead(c.green, h, 2);
    HexFieldRead(c.blue, h, 4);
    FromHexOfFields(ToHex(c), h, c);
  }

  /** A string whose three fields after the `#`s read as the components decodes to that colour. */
  lemma FromHexOfFields(s: string, h: string, c: ColorRGB)
    requires LStripChar(s, '#') == h
    requires HexField(h, 0) == Some(c.red) && HexField(h, 2) == Some(c.green) && HexField(h, 4) == Some(c.blue)
    ensures FromHex(s) == Some(c)
  {
  }

  /** The spelling of a byte colour, field by field. */
  lemma ToHexSpelling(c: ColorRGB)
    requires InByteRange(c)
    ensures ToHex(c) == "#" + ([HexDigit(c.red / 16), HexDigit(c.red % 16)]
      + [HexDigit(c.green / 16), HexDigit(c.green % 16)] + [HexDigit(c.blue / 16), HexDigit(c.blue % 16)])
  {
  }

  /** A field holding the two digits of byte `x` reads back as `x`. */
  lemma HexFieldRead(x: int, h: string, i: nat)
    requires 0 <= x < 256 && i + 2 <= |h|
    requires Slice(h, i, i + 2) == [HexDigit(x / 16), HexDigit(x % 16)]
    ensures HexField(h, i) == Some(x)
  {
    ParseTwoHexDigits(x);
  }

  /** Any number of leading `#` is ignored. */
  lemma FromHexSkipsHash(s: string)
    ensures FromHex("#" + s) == FromHex(s)
  {
    assert ("#" + s)[1..] == s;
  }

  /**
    The mock `Color.RGB`: `(red << 16) | (green << 8) | blue` on Python integers, which
    for byte components is the number `0xRRGGBB`.
  */
  function PackRGB(red: int, green: int, blue: int): (p: int)
    ensures 0 <= red <= 255 && 0 <= green <= 255 && 0 <= blue <= 255 ==> p == red * 65536 + green * 256 + blue
  {
    PackValue(red, green, blue);
    Or(Or(Shl(red, 16), Shl(green, 8)), blue)
  }

  /** For byte components the packing is `0xRRGGBB`, and each byte can be read back. */
  lemma PackUnpack(red: int, green: int, blue: int)
    requires 0 <= red <= 255 && 0 <= green <= 255 && 0 <= blue <= 255
    ensures PackRGB(red, green, blue) == red * 65536 + green * 256 + blue
    ensures 0 <= PackRGB(red, green, blue) < 0x100_0000
    ensures Shr(PackRGB(red, green, blue), 16) == red
    ensures Shr(PackRGB(red, green, blue), 8) % 256 == green
    ensures PackRGB(red, green, blue) % 256 == blue
  {
    PackValue(red, green, blue);
    Pow2Values();
    ByteFields(red * 65536 + green * 256 + blue, red, green, blue);
  }

  lemma Pow2Values()
    ensures Pow2(8) == 256 && Pow2(16) == 65536
  {
    assert Pow2(8) == 256;
    Pow2Add(8, 8);
  }

  /** For byte components the two ORs add: each operand occupies bits the others leave clear. */
  lemma PackValue(red: int, green: int, blue: int)
    ensures 0 <= red <= 255 && 0 <= green <= 255 && 0 <= blue <= 255 ==>
      Or(Or(Shl(red, 16), Shl(green, 8)), blue) == red * 65536 + green * 256 + blue
  {
    if !(0 <= red <= 255 && 0 <= green <= 255 && 0 <= blue <= 255) {
      return;
    }
    Pow2Values();
    OrDisjoint(red, 16, green * 256);
    assert Shl(red, 16) == red * Pow2(16);
    assert Shl(green, 8) == green * 256;
    assert red * 65536 + green * 256 == (red * 256 + green) * Pow2(8);
    OrDisjoint(red * 256 + green, 8, blue);
  }

  /** The three bytes of `0xRRGGBB` read back by shifting and masking. */
  lemma ByteFields(p: int, red: int, green: int, blue: int)
    requires 0 <= red <= 255 && 0 <= green <= 255 && 0 <= blue <= 255
    requires p == red * 65536 + green * 256 + blue
    ensures 0 <= p < 0x100_0000
    ensures p / 65536 == red && (p / 256) % 256 == green && p % 256 == blue
  {
    DivUnique(p, 256, red * 256 + green, blue);
    ModUnique(p, 256, red * 256 + green, blue);
    ModUnique(p / 256, 256, red, green);
    DivUnique(p, 65536, red, green * 256 + blue);
  }

  lemma {:induction false} Pow2Add(a: nat, b: nat)
    ensures Pow2(a + b) == Pow2(a) * Pow2(b)
  {
    if a > 0 {
      Pow2Add(a - 1, b);
    }
  }

  function Pack(c: ColorRGB): int
  {
    PackRGB(c.red, c.green, c.blue)
  }

  /**
    The pixel buffer of a strip. The mock keeps `[0] * num` and ignores out-of-range
    writes; `show` latches the buffer onto the LEDs, recorded here as a log of frames.
  */
  class PixelStrip {
    const numPixels: nat
    var pixels: seq<int>
    var stripBrightness: int
    var shown: seq<seq<int>>

    ghost predicate Valid()
      reads this
    {
      |pixels| == numPixels
    }

    constructor (num: nat, brightness: int)
      ensures numPixels == num && pixels == Repeat([0], num) && stripBrightness == brightness && shown == []
      ensures Valid()
    {
      numPixels := num;
      RepeatSingle(0, num);
      pixels := Repeat([0], num);
      stripBrightness := brightness;
      shown := [];
    }

    /** `setPixelColor`: changes exactly pixel `index` when it is on the strip, nothing otherwise. */
    method SetPixelColor(index: int, color: int)
      requires Valid()
      modifies this
      ensures Valid()
      ensures pixels == if 0 <= index < numPixels then old(pixels)[index := color] else old(pixels)
      ensures stripBrightness == old(stripBrightness) && shown == old(shown)
    {
      if 0 <= index < numPixels {
        pixels := pixels[index := color];
      }
    }

    method Show()
      modifies this
      ensures shown == old(shown) + [pixels]
      ensures pixels == old(pixels) && stripBrightness == old(stripBrightness)
    {
      shown := shown + [pixels];
    }

    /** The library's global brightness (the development mock has no such method). */
    method SetBrightness(brightness: int)
      modifies this
      ensures stripBrightness == brightness
      ensures pixels == old(pixels) && shown == old(shown)
    {
      stripBrightness := brightness;
    }
  }

  /** The chase frame: pixel i shows the primary colour when `(i + frame) % 3 == 0`, black otherwise. */
  function ChaseColors(n: nat, frame: int, primary: ColorRGB): (pixels: seq<int>)
    ensures |pixels| == n
  {
    seq(n, i requires 0 <= i < n => if (i + frame) % 3 == 0 then Pack(primary) else Pack(Black))
  }

  /** From one frame to the next the chase moves one pixel towards the start of the strip. */
  lemma ChaseMoves(n: nat, frame: int, primary: ColorRGB, i: nat)
    requires i + 1 < n
    ensures ChaseColors(n, frame + 1, primary)[i] == ChaseColors(n, frame, primary)[i + 1]
  {
  }

  /** The chase repeats every three frames. */
  lemma ChasePeriod(n: nat, frame: int, primary: ColorRGB)
    ensures ChaseColors(n, frame + 3, primary) == ChaseColors(n, frame, primary)
  {
    forall i | 0 <= i < n
      ensures ChaseColors(n, frame + 3, primary)[i] == ChaseColors(n, frame, primary)[i]
    {
      ModUnique(i + frame + 3, 3, (i + frame) / 3 + 1, (i + frame) % 3);
    }
  }

  /** In a chase frame lit and dark pixels alternate two dark after each lit one. */
  lemma ChaseLitIff(n: nat, frame: int, primary: ColorRGB, i: nat)
    requires i < n
    requires Pack(primary) != Pack(Black)
    ensures ChaseColors(n, frame, primary)[i] == Pack(primary) <==> (i + frame) % 3 == 0
  {
  }

  /** A Python number as a setter receives it: an `int` (a `bool` included) or a `float`. */
  datatype Number = Int(i: int) | Float(x: real)
  {
    function Value(): real
    {
      match this
      case Int(i) => i as real
      case Float(x) => x
    }
  }

  /**
    `max(0, min(255, b))`. Python's `min` and `max` return one of their arguments, so the
    result keeps the type of `b` unless a bound wins, and a bound is the `int` literal.
  */
  function ClampBrightness(b: Number): (r: Number)
    ensures 0.0 <= r.Value() <= 255.0
    ensures 0.0 < b.Value() < 255.0 ==> r == b
    ensures b.Value() <= 0.0 ==> r == Int(0)
    ensures b.Value() >= 255.0 ==> r == Int(255)
    ensures b.Int? ==> r == Int(Clamp(b.i, 0, 255))
  {
    var m := if b.Value() < 255.0 then b else Int(255);
    if m.Value() > 0.0 then m else Int(0)
  }

  class LEDController {
    const ledCount: nat
    var brightness: Number
    var currentPattern: PatternType
    var animationSpeed: real
    var primaryColor: ColorRGB
    var secondaryColor: ColorRGB
    /** None when the strip could not be initialised. */
    const strip: PixelStrip?

    ghost predicate Valid()
      reads this, strip
    {
      strip != null ==> strip.Valid() && strip.numPixels == ledCount
    }

    /** The strip is created by the caller with `num=led_count` (or failed to be, null). */
    constructor (ledCount: nat, brightness: int, strip: PixelStrip?)
      requires strip != null ==> strip.Valid() && strip.numPixels == ledCount
      ensures this.ledCount == ledCount && this.brightness == Int(brightness) && this.strip == strip
      ensures currentPattern == Solid && animationSpeed == 1.0
      ensures primaryColor == ColorRGB(255, 0, 0) && secondaryColor == ColorRGB(0, 0, 255)
      ensures Valid()
    {
      this.ledCount := ledCount;
      this.brightness := Int(brightness);
      currentPattern := Solid;
      animationSpeed := 1.0;
      primaryColor := ColorRGB(255, 0, 0);
      secondaryColor := ColorRGB(0, 0, 255);
      this.strip := strip;
    }

    /**
      `max(0, min(255, b))`, stored first and then forwarded to the strip when there is one.
      The library's brightness is a C byte, which a Python `float` does not convert to, so
      forwarding a `float` raises a TypeError after the value has been stored.
    */
    method SetBrightness(b: Number) returns (raised: bool)
      requires Valid()
      modifies this, strip
      ensures Valid()
      ensures brightness == ClampBrightness(b)
      ensures raised <==> strip != null && brightness.Float?
      ensures strip != null && !raised ==> strip.stripBrightness == brightness.i
      ensures strip != null && raised ==> strip.stripBrightness == old(strip.stripBrightness)
      ensures strip != null ==> strip.pixels == old(strip.pixels) && strip.shown == old(strip.shown)
      ensures currentPattern == old(currentPattern) && animationSpeed == old(animationSpeed)
      ensures primaryColor == old(primaryColor) && secondaryColor == old(secondaryColor)
    {
      brightness := ClampBrightness(b);
      if strip != null {
        if brightness.Float? {
          return true;
        }
        strip.SetBrightness(brightness.i);
      }
      return false;
    }

    method SetColor(color: ColorRGB)
      modifies this
      ensures primaryColor == color
      ensures brightness == old(brightness) && currentPattern == old(currentPattern)
      ensures animationSpeed == old(animationSpeed) && secondaryColor == old(secondaryColor)
    {
      primaryColor := color;
    }

    method SetSecondaryColor(color: ColorRGB)
      modifies this
      ensures secondaryColor == color
      ensures brightness == old(brightness) && currentPattern == old(currentPattern)
      ensures animationSpeed == old(animationSpeed) && primaryColor == old(primaryColor)
    {
      secondaryColor := color;
    }

    /** `max(0.1, min(10.0, speed))`. */
    method SetAnimationSpeed(speed: real)
      modifies this
      ensures animationSpeed == ClampReal(speed, 0.1, 10.0)
      ensures brightness == old(brightness) && currentPattern == old(currentPattern)
      ensures primaryColor == old(primaryColor) && secondaryColor == old(secondaryColor)
    {
      animationSpeed := ClampReal(speed, 0.1, 10.0);
    }

    /** Records the pattern (restarting the animation thread is not modelled). */
    method SetPattern(pattern: PatternType)
      modifies this
      ensures currentPattern == pattern
      ensures brightness == old(brightness) && animationSpeed == old(animationSpeed)
      ensures primaryColor == old(primaryColor) && secondaryColor == old(secondaryColor)
    {
      currentPattern := pattern;
    }

    /** `set_pixel`: only pixel `index`, and only when it is on the strip. */
    method SetPixel(index: int, color: ColorRGB)
      requires Valid()
      modifies strip
      ensures Valid()
      ensures strip != null ==>
        strip.pixels == (if 0 <= index < ledCount then old(strip.pixels)[index := Pack(color)] else old(strip.pixels))
        && strip.shown == old(strip.shown) && strip.stripBrightness == old(strip.stripBrightness)
    {
      if strip != null && 0 <= index < ledCount {
        strip.SetPixelColor(index, Pack(color));
      }
    }

    /** Every pixel to one colour, then show. */
    method SetAllPixels(color: ColorRGB)
      requires Valid()
      modifies strip
      ensures Valid()
      ensures strip != null ==>
        strip.pixels == Repeat([Pack(color)], ledCount) && strip.shown == old(strip.shown) + [strip.pixels]
        && strip.stripBrightness == old(strip.stripBrightness)
    {
      if strip != null {
        var i := 0;
        while i < ledCount
          invariant 0 <= i <= ledCount
          invariant strip.Valid()
          invariant strip.pixels[..i] == Repeat([Pack(color)], i)
          invariant strip.pixels[i..] == old(strip.pixels)[i..]
          invariant strip.shown == old(strip.shown)
          invariant strip.stripBrightness == old(strip.stripBrightness)
        {
          RepeatSnoc([Pack(color)], i);
          strip.SetPixelColor(i, Pack(color));
          assert strip.pixels[..i + 1] == strip.pixels[..i] + [Pack(color)];
          i := i + 1;
        }
        strip.Show();
      }
    }

    /** `clear`: every pixel black, then show. */
    method Clear()
      requires Valid()
      modifies strip
      ensures Valid()
      ensures strip != null ==>
        strip.pixels == Repeat([PackRGB(0, 0, 0)], ledCount) && strip.shown == old(strip.shown) + [strip.pixels]
        && strip.stripBrightness == old(strip.stripBrightness)
    {
      if strip != null {
        var i := 0;
        while i < ledCount
          invariant 0 <= i <= ledCount
          invariant strip.Valid()
          invariant strip.pixels[..i] == Repeat([PackRGB(0, 0, 0)], i)
          invariant strip.pixels[i..] == old(strip.pixels)[i..]
          invariant strip.shown == old(strip.shown)
          invariant strip.stripBrightness == old(strip.stripBrightness)
        {
          RepeatSnoc([PackRGB(0, 0, 0)], i);
          strip.SetPixelColor(i, PackRGB(0, 0, 0));
          assert strip.pixels[..i + 1] == strip.pixels[..i] + [PackRGB(0, 0, 0)];
          i := i + 1;
        }
        strip.Show();
      }
    }

    method SolidPattern()
      requires Valid()
      modifies strip
      ensures Valid()
      ensures strip != null ==>
        strip.pixels == Repeat([Pack(primaryColor)], ledCount) && strip.shown == old(strip.shown) + [strip.pixels]
        && strip.stripBrightness == old(strip.stripBrightness)
    {
      SetAllPixels(primaryColor);
    }

    /** `_chase_pattern(frame)` (the animation loop shows the result). */
    method ChasePattern(frame: int)
      requires Valid()
      modifies strip
      ensures Valid()
      ensures strip != null ==>
        strip.pixels == ChaseColors(ledCount, frame, primaryColor) && strip.shown == old(strip.shown)
        && strip.stripBrightness == old(strip.stripBrightness)
    {
      var i := 0;
      while i < ledCount
        invariant 0 <= i <= ledCount
        invariant Valid()
        invariant strip != null ==> strip.pixels[..i] == ChaseColors(ledCount, frame, primaryColor)[..i]
        invariant strip != null ==> strip.pixels[i..] == old(strip.pixels)[i..]
        invariant strip != null ==> strip.shown == old(strip.shown)
        invariant strip != null ==> strip.stripBrightness == old(strip.stripBrightness)
      {
        if (i + frame) % 3 == 0 {
          SetPixel(i, primaryColor);
        } else {
          SetPixel(i, ColorRGB(0, 0, 0));
        }
        i := i + 1;
      }
    }
  }
}
