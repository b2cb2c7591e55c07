# light-system in Dafny

A verified model of the byte-level and array-level core of a Raspberry Pi LED-strip
controller. The controller drives SK9822/APA102 strips over SPI and a WS281x strip
through a pixel library, can react to audio, and is operated from a small web API.

The centre of the model is the SK9822 frame encoder. It is implemented three times in
the repository, and each one is modelled with its own differences:

- **The production controller** (`led_sk9822.py`).
  - It clips the pixel frame and optionally maps it through a gamma table.
  - It change-detects against the previous frame.
  - It writes one `[0xE0 | level, B, G, R]` record per LED into a preallocated buffer.
  - It wraps the records in a start frame, an end frame of `max(4, ceil(n/16))` 0xFF bytes, and four zero bytes.
- **The SPI test class** (`test/sk9822_led_test.py`).
  - It scales a 0..255 brightness to the 5-bit level with `>> 3`.
  - It builds solid, chase, crawl and brightness-sweep frames.
  - It sends them in ordered chunks of at most 1024 bytes.
- **The stand-alone script** (`custom_test.py`). Its end frame is `ceil(n/16)` bytes with no minimum.

Around the encoder sit other parts of the system:

- The structural parts of the audio visualizer (`visualization.py`):
  - the `memoize` cache and `interpolate`;
  - the rolling sample window, the silence gate and power-of-two zero padding in `microphone_update`;
  - the mirror, scroll and fade structure of the scroll, spectrum, wave-pulse and party effects.
- The web controller's `ColorRGB` hex round trip, `Color.RGB` packing and clamping setters (`led_controller.py`).
- The `MusicVisualizer` colour mappings and the energy beat detector with its bounded buffers (`audio_processor.py`).
- The request validation of the Flask endpoints and the scheduled-pattern list (`app.py`).

Module layout, one Dafny module per source file plus three shared ones:

| file | module | models |
|---|---|---|
| `bits.dfy` | `Bits` | Python's unbounded `<<`, `>>` and `\|` on integers |
| `builtins.dfy` | `Builtins` | `min`/`max` clamps, `[x] * n`, `range`, `deque(maxlen=…)`, `sum`/`mean`, list concatenation |
| `text.dfy` | `Text` | `lstrip`, `split`, `int(s, base)` with the white space it skips, `f"{x:02x}"`, `in` on strings |
| `wire.dfy` | `Wire` | the SPI device as a log of `xfer2` payloads; SK9822 record, header and end frame |
| `sk9822_controller.dfy` | `SK9822` | `SK9822Controller` |
| `sk9822_test.dfy` | `SpiTest` | `SK9822LEDTest` |
| `custom_test.dfy` | `CustomTest` | `custom_test.py` |
| `visualization.dfy` | `Visualization` | `visualization.py` |
| `led_controller.dfy` | `LedController` | `led_controller.py` |
| `audio_processor.dfy` | `AudioProcessing` | `audio_processor.py` |
| `app.dfy` | `WebApp` | `app.py` |

Representation choices:

- Wire bytes are Python `int`s in `seq<int>`. Python lists hold unbounded ints, so
  byte ranges are proved as lemmas under the preconditions the code relies on.
- `0xE0 | level` and `(r << 16) | (g << 8) | b` use a Python-faithful OR (`Bits.Or`).
  Lemmas reduce it to addition on disjoint bit ranges.
- Numpy float arrays are exact `real` sequences.
- Numeric kernels are parameters of the methods that use them, never invented. These
  are the FFT, the exponential filters, the Gaussian blur, percentiles and the gamma
  curve.

## Model

| member | source | states |
|---|---|---|
| Bits.Shr | led_controller.py:24 | `a >> k` is the floor of a / 2^k |
| Bits.Shl | led_controller.py:24 | `a << k` shifted back by k gives a |
| Bits.Or | led_controller.py:24 | on non-negative operands `a \| b` lies between the larger operand and their sum; -1 absorbs everything |
| Bits.OrDisjoint | real_code/audio-reactive-led-strip/python/led_sk9822.py:77 | OR with a number below 2^k on the low bits of a shifted value is addition |
| Builtins.Clamp | led_controller.py:150 | `max(lo, min(hi, x))` lies in [lo, hi], keeps an in-range x and is the bound otherwise |
| Text.LStripChar | led_controller.py:68 | `lstrip(c)` removes exactly the leading run of c: a suffix not starting with c, preceded only by c |
| Text.Strip | app.py:326 | the white space `int()` skips: no longer than the input, neither end is white space, an input without white space at its ends is unchanged |
| Text.Split | app.py:326 | `str.split(sep)` gives at least one part |
| Text.SplitJoin | app.py:326 | the parts joined with the separator give the string back, and no part holds the separator |
| Text.SplitTwo | app.py:326 | two separator-free strings around one separator split into exactly those two |
| Text.SplitNone | app.py:326 | a string without the separator is one part |
| Text.ParseInt | app.py:326 | an accepted string holds at least one digit of the base |
| Text.ParseDecimal | app.py:325 | `int(s)` in base 10: an accepted string has at most 4300 digits, leading zeros included, and reads as `ParseInt` reads it |
| Text.TooManyDigits | app.py:325 | a decimal string of more than 4300 digits is a ValueError, whatever its value |
| Text.DigitsPart | app.py:326 | after the white space, the digits are a suffix of the text, shorter than a signed text |
| Text.ParseShortHex | led_controller.py:69-71 | a field of at most two characters reads as a number in -15..255, and the empty field is refused |
| Text.ParsePlainDigits | app.py:326 | an unsigned digit string without white space reads as its digits' value |
| Text.ParseTwoHexDigits | led_controller.py:69-71 | the two hex digits of a byte read back as the byte |
| Text.Format02x | led_controller.py:64 | at least two characters; a byte is its two lower-case hex digits, high nibble first |
| Wire.SpiBus.Xfer2 | real_code/audio-reactive-led-strip/python/led_sk9822.py:97 | one transaction on an open device appends exactly its payload to the bus log and leaves the device open |
| Wire.HeaderOfLevel | real_code/audio-reactive-led-strip/python/led_sk9822.py:77 | for a 5-bit level, `0xE0 \| level` is `0xE0 + level`, a byte in 0xE0..0xFF |
| Wire.Record | real_code/audio-reactive-led-strip/python/led_sk9822.py:77 | a record is four bytes and starts with the header |
| Wire.CeilSixteenth | custom_test.py:22 | `(n + 15) // 16` is the least number of 16-LED groups covering n LEDs |
| Wire.EndFrameLength | test/sk9822_led_test.py:55-63 | the end frame has at least 4 bytes, covers n/16 and is minimal above 4 |
| Wire.EndFrame | real_code/audio-reactive-led-strip/python/led_sk9822.py:95 | the end frame is `max(4, ceil(n/16))` bytes, all 0xFF |
| SK9822.Quantize | real_code/audio-reactive-led-strip/python/led_sk9822.py:114 | clip to [0, 255] then truncate: a byte, the floor of an in-range value, 0 below 1 and 255 from 255 up |
| SK9822.Quantized | real_code/audio-reactive-led-strip/python/led_sk9822.py:114 | the clipped frame has one byte colour per pixel |
| SK9822.GammaCorrect | real_code/audio-reactive-led-strip/python/led_sk9822.py:117-120 | table lookup succeeds iff every channel indexes the table, and then maps each channel through it |
| SK9822.IdentityGammaIsClipOnly | real_code/audio-reactive-led-strip/python/led_sk9822.py:114-120 | the identity table `range(256)` changes nothing after clipping |
| SK9822.FullGammaTableFits | real_code/audio-reactive-led-strip/python/led_sk9822.py:117-120 | a 256-entry byte table never fails and yields byte channels |
| SK9822.Encode | real_code/audio-reactive-led-strip/python/led_sk9822.py:124-131 | one four-byte record per pixel |
| SK9822.EncodeAt | real_code/audio-reactive-led-strip/python/led_sk9822.py:124-131 | record i carries pixel i's colour when it differs from the previous frame, else `[hdr, 0, 0, 0]` |
| SK9822.EncodeHeaders | real_code/audio-reactive-led-strip/python/led_sk9822.py:124-131 | every record header is the current brightness header |
| SK9822.EncodeRepeatedFrame | real_code/audio-reactive-led-strip/python/led_sk9822.py:124-131 | sending the same frame twice makes the second all-off records |
| SK9822.FirstFrame | real_code/audio-reactive-led-strip/python/led_sk9822.py:124-131 | against the initial all-253 buffer, every pixel except (253, 253, 253) is sent with its colour |
| SK9822.DataFrame | real_code/audio-reactive-led-strip/python/led_sk9822.py:88-95 | `8 + \|records\| + max(4, ceil(n/16))` bytes with the records at offset 4 |
| SK9822.DataFrameLayout | real_code/audio-reactive-led-strip/python/led_sk9822.py:88-95 | the transaction is 4 zeros, the records, `max(4, ceil(n/16))` 0xFF bytes, 4 zeros: length `8 + \|records\| + max(4, ceil(n/16))` |
| SK9822.FullRecordsAt | real_code/audio-reactive-led-strip/python/led_sk9822.py:124-131 | without change detection record i is pixel i's colour record |
| SK9822.ReusingIsTransparent | real_code/audio-reactive-led-strip/python/led_sk9822.py:124-131 | reusing the previous transaction's records for unchanged pixels always sends every pixel's colour |
| SK9822.StaticRedPixelGoesDark | real_code/audio-reactive-led-strip/python/led_sk9822.py:124-131 | as written, one red pixel sent twice is dark the second time, where a full encoding keeps it red |
| SK9822.Controller.constructor | real_code/audio-reactive-led-strip/python/led_sk9822.py:21-56 | stores the configuration; the previous frame starts as all 253 |
| SK9822.Controller.SetLed | real_code/audio-reactive-led-strip/python/led_sk9822.py:60-77 | overwrites bytes 4i..4i+3 with the record and leaves every other byte unchanged |
| SK9822.Controller.SendData | real_code/audio-reactive-led-strip/python/led_sk9822.py:79-97 | sends exactly one transaction: start frame, records, end frame, trailer |
| SK9822.Controller.WriteIfChanged | real_code/audio-reactive-led-strip/python/led_sk9822.py:129-131 | one loop pass extends the encoded prefix by pixel i's record |
| SK9822.Controller.BuildLedData | real_code/audio-reactive-led-strip/python/led_sk9822.py:124-131 | the buffer filled in place equals the change-detecting encoding of the frame |
| SK9822.Controller.Update | real_code/audio-reactive-led-strip/python/led_sk9822.py:99-137 | prepares the frame, sends its encoding and stores it as the previous frame; a gamma lookup that fails changes nothing |
| SK9822.Controller.Clear | real_code/audio-reactive-led-strip/python/led_sk9822.py:139-142 | sends n records `[0xE1, 0, 0, 0]` in one transaction |
| SK9822.Controller.SetBrightness | real_code/audio-reactive-led-strip/python/led_sk9822.py:144-153 | brightness becomes `clamp(b, 0, 31)` |
| SK9822.Controller.Close | real_code/audio-reactive-led-strip/python/led_sk9822.py:155-158 | clears the strip, then closes the device |
| SpiTest.ScaledHeaderInRange | test/sk9822_led_test.py:99 | for brightness 0..255 the header is `0xE0 + brightness // 8`, within 0xE0..0xFF |
| SpiTest.Frame | test/sk9822_led_test.py:98 | start frame, then the records at offset 4, then `max(4, ceil(n/16))` end bytes |
| SpiTest.Chunks | test/sk9822_led_test.py:109-113 | no chunks exactly for no data (the chunk sizes are stated by `ChunksRoundTrip`) |
| SpiTest.ChunksRoundTrip | test/sk9822_led_test.py:109-113 | the chunks concatenate back to the frame; all are non-empty, at most 1024 bytes, and all but the last are full |
| SpiTest.ChunkAt | test/sk9822_led_test.py:109-113 | chunk k is the slice starting at byte 1024·k |
| SpiTest.TransmitFlatten | test/sk9822_led_test.py:172-179 | everything sent over a run of frames concatenates to the frames in order |
| SpiTest.SolidFrame | test/sk9822_led_test.py:90-98 | `4 + 4n + max(4, ceil(n/16))` bytes |
| SpiTest.SolidFrameLayout | test/sk9822_led_test.py:90-103 | the solid frame has `4 + 4n + max(4, ceil(n/16))` bytes and LED i's record is `[hdr, blue, green, red]` |
| SpiTest.ChaseFrame | test/sk9822_led_test.py:155-170 | one four-byte record per LED: `4 + 4n + max(4, ceil(n/16))` bytes |
| SpiTest.ChaseFrameAt | test/sk9822_led_test.py:155-170 | in a chase frame `position` is full red, its two neighbours mod n are dim red, every other LED is off |
| SpiTest.CrawlFrame | test/sk9822_led_test.py:222-232 | with a four-byte lit record, `4 + 4n + max(4, ceil(n/16))` bytes |
| SpiTest.CrawlFrameAt | test/sk9822_led_test.py:222-232 | crawl frame k lights exactly LED k with the given record |
| SpiTest.SweepFrame | test/sk9822_led_test.py:267-279 | `4 + 4n + max(4, ceil(n/16))` bytes |
| SpiTest.SweepFrameHeader | test/sk9822_led_test.py:267-279 | every header of a sweep frame is `0xE0 + clamp(level, 0, 31)`, at most 0xFF |
| SpiTest.SweepUpAt | test/sk9822_led_test.py:281-287 | the upward sweep steps from the minimum by `max(1, step)` and stays within [min, max] |
| SpiTest.SweepDownAt | test/sk9822_led_test.py:281-287 | the downward sweep steps from the maximum by `max(1, step)` and stays within [min, max] |
| SpiTest.ModSuccessor | test/sk9822_led_test.py:181 | advancing the position by one mod n tracks the frame count mod n |
| SpiTest.SK9822LEDTest.constructor | test/sk9822_led_test.py:20-49 | stores LED count, brightness and the open device |
| SpiTest.SK9822LEDTest.RepeatRecord | test/sk9822_led_test.py:73-74 | the `extend` loop yields count copies of the record |
| SpiTest.SK9822LEDTest.SendChunked | test/sk9822_led_test.py:109-113 | sends exactly the chunks of the frame, in order |
| SpiTest.SK9822LEDTest.ClearAll | test/sk9822_led_test.py:65-86 | one transaction of start frame, n records `[0xE1, 0, 0, 0]`, end frame |
| SpiTest.SK9822LEDTest.SolidColor | test/sk9822_led_test.py:90-113 | sends the chunks of the solid frame |
| SpiTest.SK9822LEDTest.BuildChaseFrame | test/sk9822_led_test.py:155-172 | the loop-built frame is the chase frame for the position |
| SpiTest.SK9822LEDTest.ChaseTest | test/sk9822_led_test.py:148-182 | frame j is the chunked chase frame at `j mod n`; zero LEDs with frames to send fails on the modulo |
| SpiTest.SK9822LEDTest.BuildCrawlFrame | test/sk9822_led_test.py:224-232 | the loop-built frame is the crawl frame for the position |
| SpiTest.SK9822LEDTest.CrawlOnce | test/sk9822_led_test.py:217-245 | sends the chunked crawl frames for positions 0..n-1 in order |
| SpiTest.SK9822LEDTest.SendFrame | test/sk9822_led_test.py:267-279 | sends the chunked frame at the clamped level |
| SpiTest.SK9822LEDTest.SendRange | test/sk9822_led_test.py:281-287 | one sweep frame per level of the range, in order |
| SpiTest.SK9822LEDTest.SweepRound | test/sk9822_led_test.py:281-287 | one up-and-down sweep |
| SpiTest.SK9822LEDTest.BrightnessSweep | test/sk9822_led_test.py:249-287 | `max(1, cycles)` up-and-down sweeps of the level |
| CustomTest.ShortEndFrame | custom_test.py:22 | `ceil(n/16)` bytes of 0xFF, with no minimum |
| CustomTest.CustomFrame | custom_test.py:10-24 | `4 + 4n + ceil(n/16)` bytes |
| CustomTest.CustomFrameLayout | custom_test.py:10-24 | four zeros, n records `[0xE0 \| brightness, b, g, r]`, then the short end frame: `4 + 4n + ceil(n/16)` bytes |
| CustomTest.CustomFrameLength300 | custom_test.py:8-22 | with 300 LEDs the end frame is 19 bytes and the frame 1223 |
| CustomTest.ShortEndFrameVersusEndFrame | custom_test.py:22 | the short end frame is never longer than the four-byte-minimum one, equal exactly above 48 LEDs, and empty for no LEDs |
| CustomTest.ClearRecordIsDimBlack | custom_test.py:26-27 | clearing sends `[0xE1, 0, 0, 0]` records |
| CustomTest.Script.constructor | custom_test.py:4-6 | the script holds the open device |
| CustomTest.Script.SetAllToColor | custom_test.py:10-24 | the frame built with `+=` is sent as one transaction |
| CustomTest.Script.ClearAllLeds | custom_test.py:26-27 | sends the frame for colour (0, 0, 0) at level 1 |
| CustomTest.Script.Run | custom_test.py:29-34 | sends red at level 1, then the clear frame, then closes the device |
| Visualization.Memo.constructor | real_code/audio-reactive-led-strip/python/visualization.py:44-47 | an empty cache in front of the function |
| Visualization.Memo.Call | real_code/audio-reactive-led-strip/python/visualization.py:50-56 | returns the function's value; a cached argument evaluates nothing and changes nothing, a new one adds one entry |
| Visualization.Linspace01 | real_code/audio-reactive-led-strip/python/visualization.py:61-62 | `size` points from 0 to 1, within [0, 1] |
| Visualization.LinspaceIncreasing | real_code/audio-reactive-led-strip/python/visualization.py:61-62 | the grid is strictly increasing |
| Visualization.SegmentIndex | real_code/audio-reactive-led-strip/python/visualization.py:86 | the first grid segment at or after j that holds x; every skipped segment ends at or before x |
| Visualization.Segment | real_code/audio-reactive-led-strip/python/visualization.py:86 | the point at x on the chord over the segment that holds x |
| Visualization.Interp | real_code/audio-reactive-led-strip/python/visualization.py:86 | `np.interp`: the first value at or left of the grid, the last value right of it, the chord over x's segment in between |
| Visualization.InterpWithin | real_code/audio-reactive-led-strip/python/visualization.py:86 | linear interpolation stays within the range of the sample values |
| Visualization.Interpolate | real_code/audio-reactive-led-strip/python/visualization.py:82-87 | returns y itself at equal length, otherwise `new_length` values; fails only on an empty y |
| Visualization.InterpolateShape | real_code/audio-reactive-led-strip/python/visualization.py:84-87 | the resized array keeps both end values and the input's range |
| Visualization.InterpolateCached | real_code/audio-reactive-led-strip/python/visualization.py:60-87 | going through the memoized grid gives the same result as the pure definition |
| Visualization.Normalize | real_code/audio-reactive-led-strip/python/visualization.py:233 | each sample is divided by 2^15 |
| Visualization.RollingWindow.constructor | real_code/audio-reactive-led-strip/python/visualization.py:288 | the window holds the given rows of `samples_per_frame` samples |
| Visualization.RollingWindow.Push | real_code/audio-reactive-led-strip/python/visualization.py:235-236 | rows move up by one in place, the oldest drops, the block goes last; a block of another shape fails |
| Visualization.PushKeepsShape | real_code/audio-reactive-led-strip/python/visualization.py:235-237 | a push keeps depth and row width, so the flattened window keeps `depth × samples_per_frame` samples |
| Visualization.MaxAbs | real_code/audio-reactive-led-strip/python/visualization.py:239 | the largest magnitude, reached by some sample |
| Visualization.SilentIff | real_code/audio-reactive-led-strip/python/visualization.py:239-240 | the gate closes iff every sample is below the threshold in magnitude |
| Visualization.DarkFrame | real_code/audio-reactive-led-strip/python/visualization.py:242 | a 3 × N all-zero frame |
| Visualization.CeilLog2 | real_code/audio-reactive-led-strip/python/visualization.py:247 | the least k with `2^k >= N` |
| Visualization.PaddedToPowerOfTwo | real_code/audio-reactive-led-strip/python/visualization.py:246-250 | padding reaches the next power of two, adds fewer than N zeros, keeps y as prefix and adds only zeros |
| Visualization.MicrophoneUpdate | real_code/audio-reactive-led-strip/python/visualization.py:230-250 | pushes the block; gives a dark frame iff the window is silent, otherwise the windowed data zero-padded |
| Visualization.Reverse | real_code/audio-reactive-led-strip/python/visualization.py:149 | element i of `s[::-1]` is element n-1-i |
| Visualization.Mirror | real_code/audio-reactive-led-strip/python/visualization.py:207-209 | twice as long: the half reversed, then the half |
| Visualization.MirrorSymmetric | real_code/audio-reactive-led-strip/python/visualization.py:207-209 | the mirrored strip has length 2·half, is symmetric about its centre and ends with the half |
| Visualization.Roll | real_code/audio-reactive-led-strip/python/visualization.py:213 | `np.roll` keeps the length |
| Visualization.RollMoves | real_code/audio-reactive-led-strip/python/visualization.py:211-213 | rolling moves element i to `(i + shift) mod n` |
| Visualization.RollInverse | real_code/audio-reactive-led-strip/python/visualization.py:211-213 | rolling back by the same shift restores the strip |
| Visualization.Scale | real_code/audio-reactive-led-strip/python/visualization.py:202-203 | multiplies every sample |
| Visualization.Clip | real_code/audio-reactive-led-strip/python/visualization.py:323 | clipped values lie in [lo, hi], in-range values unchanged |
| Visualization.ShiftOutward | real_code/audio-reactive-led-strip/python/visualization.py:141 | the row moves one place outward with x in front |
| Visualization.ScrollRow | real_code/audio-reactive-led-strip/python/visualization.py:141-147 | the scrolled row keeps its length and starts with the new colour |
| Visualization.ScrollWithoutBlur | real_code/audio-reactive-led-strip/python/visualization.py:141-147 | without blur, sample j of the scrolled row is 0.98 times sample j-1 before |
| Visualization.ScrollCentre | real_code/audio-reactive-led-strip/python/visualization.py:145-149 | the new colour shows at the two centre LEDs of the mirrored strip |
| Visualization.AddRows | real_code/audio-reactive-led-strip/python/visualization.py:314-316 | element-wise sum |
| Visualization.NonNegative | real_code/audio-reactive-led-strip/python/visualization.py:345 | `np.maximum(y, 0)`: non-negative, at least y, y where y is non-negative |
| Visualization.MaxOf | real_code/audio-reactive-led-strip/python/visualization.py:349 | an upper bound reached by some element |
| Visualization.WavepulseOutputShape | real_code/audio-reactive-led-strip/python/visualization.py:322-323 | the wave-pulse output has twice the half-strip length and lies in [0, 255] |
| Visualization.Effects.constructor | real_code/audio-reactive-led-strip/python/visualization.py:98-100 | `p` all 1.0, scroll offset 0, previous spectrum all 0.01, empty peak history |
| Visualization.Effects.MirrorAndScroll | real_code/audio-reactive-led-strip/python/visualization.py:207-213 | the offset advances by one mod N and stays in [0, N); the output is the mirrored, scaled rows rolled by it |
| Visualization.Effects.VisualizeSpectrum | real_code/audio-reactive-led-strip/python/visualization.py:185-213 | keeps the resized spectrum, boosts red 1.5 and green 1.3, mirrors and scrolls |
| Visualization.Effects.VisualizeScroll | real_code/audio-reactive-led-strip/python/visualization.py:130-149 | every row of `p` is scrolled with its new colour, and the output is `p` mirrored |
| Visualization.Effects.VisualizeWavepulse | real_code/audio-reactive-led-strip/python/visualization.py:312-324 | `p` fades by 0.85, gains the pulse and is blurred; the output is mirrored and clipped to [0, 255] |
| Visualization.Effects.VisualizeParty | real_code/audio-reactive-led-strip/python/visualization.py:331-416 | records the peak in a history of at most 30, keeps the level-normalised spectrum, mirrors and scrolls |
| LedController.PatternOf | led_controller.py:42-51 | a pattern found by value has that value |
| LedController.PatternOfName | led_controller.py:42-51 | each pattern's value finds that pattern |
| LedController.ToHex | led_controller.py:63-64 | `#` and at least two characters per component; for byte components `#` then six lower-case hex digits |
| LedController.FromHex | led_controller.py:66-73 | a decoded colour needs five characters after the `#`s and has components in -15..255 |
| LedController.HexField | led_controller.py:69-71 | one field needs a character at its offset and reads as -15..255 |
| LedController.HexFields | led_controller.py:68-72 | after the `#` the three two-character fields are read in order |
| LedController.HexRoundTrip | led_controller.py:63-73 | `from_hex(to_hex(c)) == c` for byte components |
| LedController.FromHexSkipsHash | led_controller.py:68 | any number of leading `#` is ignored |
| LedController.PackRGB | led_controller.py:23-24 | for byte components `(r << 16) \| (g << 8) \| b` is `0xRRGGBB` |
| LedController.PackValue | led_controller.py:23-24 | for byte components the two ORs add |
| LedController.PackUnpack | led_controller.py:23-24 | for bytes, `(r << 16) \| (g << 8) \| b` is `0xRRGGBB` and each byte reads back |
| LedController.PixelStrip.constructor | led_controller.py:26-30 | all pixels 0 |
| LedController.PixelStrip.SetPixelColor | led_controller.py:31-33 | changes exactly pixel i when on the strip, nothing otherwise |
| LedController.PixelStrip.Show | led_controller.py:35-36 | records the shown frame, changes no pixel |
| LedController.PixelStrip.SetBrightness | led_controller.py:152 | stores the forwarded brightness, pixels and shown frames unchanged |
| LedController.ChaseColors | led_controller.py:260-266 | one packed colour per pixel |
| LedController.ChaseLitIff | led_controller.py:260-266 | pixel i is the primary colour iff `(i + frame) % 3 == 0` |
| LedController.ChaseMoves | led_controller.py:260-266 | the chase moves one pixel per frame |
| LedController.ChasePeriod | led_controller.py:260-266 | the chase repeats every three frames |
| LedController.ClampBrightness | led_controller.py:150 | `max(0, min(255, b))`: within [0, 255]; an in-range value is returned as it came, int or float; a bound that wins is the int literal |
| LedController.LEDController.constructor | led_controller.py:104-146 | solid pattern, speed 1.0, red primary, blue secondary |
| LedController.LEDController.SetBrightness | led_controller.py:148-152 | brightness becomes `max(0, min(255, b))` with its Python type; an int is forwarded to the strip, a float with a strip raises after being stored |
| LedController.LEDController.SetColor | led_controller.py:154-156 | sets the primary colour only |
| LedController.LEDController.SetSecondaryColor | led_controller.py:158-160 | sets the secondary colour only |
| LedController.LEDController.SetAnimationSpeed | led_controller.py:162-164 | speed becomes `clamp(speed, 0.1, 10.0)` |
| LedController.LEDController.SetPattern | led_controller.py:166-171 | sets the pattern only |
| LedController.LEDController.SetPixel | led_controller.py:203-206 | changes only pixel i, and only when it is on the strip |
| LedController.LEDController.SetAllPixels | led_controller.py:208-213 | every pixel to the colour, then shown |
| LedController.LEDController.Clear | led_controller.py:196-201 | every pixel black, then shown |
| LedController.LEDController.SolidPattern | led_controller.py:249-251 | every pixel the primary colour |
| LedController.LEDController.ChasePattern | led_controller.py:260-266 | the strip holds the chase frame |
| AudioProcessing.Smoothed | audio_processor.py:345-356 | input shorter than the window unchanged; otherwise same length, element i the mean of its clipped window |
| AudioProcessing.SmoothedConstant | audio_processor.py:350-354 | a constant signal stays constant |
| AudioProcessing.SmoothedBounds | audio_processor.py:350-354 | smoothing stays within the input's range |
| AudioProcessing.SmoothedInterior | audio_processor.py:350-354 | with window 3 an inner element is the mean of itself and its neighbours |
| AudioProcessing.SmoothedEnds | audio_processor.py:350-354 | with window 3 the end elements average the neighbours that exist |
| AudioProcessing.SpectrumColor | audio_processor.py:292-297 | above 0.5 red+green with no blue, otherwise only blue; in [0, 255] for intensities in [0, 1] |
| AudioProcessing.BeatColor | audio_processor.py:305-313 | white on a beat, otherwise red bass·255 and green bass·128, no blue |
| AudioProcessing.BarColor | audio_processor.py:330-338 | bars 0-1 red only, 2-3 green only, 4-7 blue only |
| AudioProcessing.BarStop | audio_processor.py:330-332 | a bar's slice ends at `(b+1)·k` or at the end of the data, whichever comes first |
| AudioProcessing.FrequencyBarsLayout | audio_processor.py:323-341 | the LEDs `[b·k, (b+1)·k)` with `k = n // 8` show bar b's colour at the mean of its slice, cut at the end of the data |
| AudioProcessing.BarFill | audio_processor.py:323-341 | every LED of a bar shows the bar's colour |
| AudioProcessing.SpectrumInRange | audio_processor.py:290-297 | data in [0, 1] gives colours in [0, 255] |
| AudioProcessing.IsBeat | audio_processor.py:195-198 | above 1.3 times both previous energies is a beat; a beat exceeds 1.3 times one of them; after non-negative energies a beat is positive |
| AudioProcessing.BeatScaleInvariant | audio_processor.py:195-198 | scaling all energies by a positive factor keeps the verdict |
| AudioProcessing.SteadyIsNoBeat | audio_processor.py:195-198 | a steady energy, or silence, is never a beat |
| AudioProcessing.MusicVisualizer.constructor | audio_processor.py:275-278 | stores the LED count |
| AudioProcessing.MusicVisualizer.SmoothData | audio_processor.py:345-356 | the loop computes the moving average |
| AudioProcessing.MusicVisualizer.SpectrumVisualization | audio_processor.py:280-299 | LED i shows the colour of smoothed value i, the rest stay off; more values than LEDs fails |
| AudioProcessing.MusicVisualizer.BeatVisualization | audio_processor.py:301-315 | every LED the beat colour |
| AudioProcessing.MusicVisualizer.FrequencyBars | audio_processor.py:317-343 | LED i shows its bar's colour at the mean of its (possibly cut) slice, LEDs from 8·k on stay off |
| AudioProcessing.AudioProcessor.constructor | audio_processor.py:17-53 | empty buffers, no beat, not running |
| AudioProcessing.AudioProcessor.SetBeatCallback | audio_processor.py:70-72 | installs the callback only |
| AudioProcessing.AudioProcessor.StartCapture | audio_processor.py:74-96 | starts capture once, buffers unchanged |
| AudioProcessing.AudioProcessor.StopCapture | audio_processor.py:98-110 | stops capture, buffers unchanged |
| AudioProcessing.AudioProcessor.DetectBeats | audio_processor.py:181-205 | no change under three spectra; then the flag is `energy > 1.3 × mean of the two previous`, a beat calls the callback |
| AudioProcessing.AudioProcessor.AudioCallback | audio_processor.py:112-130 | when running, buffers the chunk (10 entries); an empty chunk stops there; otherwise buffers the spectrum (5 entries), and with a non-zero sample rate detects beats |
| Builtins.AppendBounded | audio_processor.py:38-39 | `deque(maxlen)` append: the element goes last, the oldest go, the length stays within maxlen |
| WebApp.Integer | app.py:211 | `isinstance(v, int)` holds for integers and booleans only |
| WebApp.Numeric | app.py:231 | `isinstance(v, (int, float))` holds for numbers and booleans only |
| WebApp.AsNumber | app.py:417-423 | a number for ints, booleans (0 or 1) and floats, none for anything else; agrees with `isinstance` |
| WebApp.BrightnessValue | app.py:209-215 | accepted iff an integer within 0..255, which the controller's clamp leaves as is |
| WebApp.SpeedValue | app.py:229-235 | accepted iff a number within [0.1, 10.0], which the controller's clamp leaves as is |
| WebApp.PatternValue | app.py:150-151 | only the value string of a pattern is accepted |
| WebApp.PatternValueAcceptsEveryPattern | app.py:320-321 | every pattern's value is accepted |
| WebApp.ParseTime | app.py:324-329 | an accepted time split into exactly two parts, each a decimal `int()` literal of at most 4300 digits, hour in 0..23 and minute in 0..59 |
| WebApp.ParseTimeRoundTrip | app.py:324-329 | every `HH:MM` clock time is accepted and read back |
| WebApp.ParseTimeRejectsSeconds | app.py:325 | a third field is refused |
| WebApp.ParseTimeDigitLimit | app.py:325 | an hour field of more than 4300 digits, leading zeros included, is refused as `int()` refuses it |
| WebApp.RemoveAt | app.py:365 | `del items[i]`: one element shorter, earlier elements kept, later ones moved down |
| WebApp.RemoveAppended | app.py:360-368 | deleting the entry just appended restores the list |
| WebApp.HasKey | app.py:417-429 | Python's `in` on a dict tests its keys; on anything but a dict, list or string it raises |
| WebApp.ImportRestoresSettings | app.py:417-427 | importing the exported brightness, speed and pattern restores them; a fractional brightness only without a strip |
| WebApp.App.constructor | app.py:29-47 | the global controller (or none) and an empty schedule list |
| WebApp.App.SetPattern | app.py:140-159 | 500 without a controller, 400 for an unknown pattern, otherwise the pattern is set |
| WebApp.App.SetBrightness | app.py:201-218 | 500 without a controller, 400 unless an integer in 0..255, otherwise brightness is set; 128 when missing |
| WebApp.App.SetSpeed | app.py:221-238 | 500 without a controller, 400 unless a number in [0.1, 10.0], otherwise speed is set; 1.0 when missing |
| WebApp.App.ClearLeds | app.py:269-280 | 500 without a controller, otherwise every pixel black |
| WebApp.App.SchedulePattern | app.py:310-351 | 400 for an unknown pattern or a bad time; 500 when the scheduler refuses the time or the stored list is not a list; success appends exactly one entry and reports the new length |
| WebApp.App.DeleteScheduled | app.py:360-371 | an index in `[0, len)` removes exactly that entry, any other gives 400 with the list unchanged |
| WebApp.App.ImportSettings | app.py:410-436 | succeeds exactly when no lookup raises; any number is a brightness without a strip, only one that clamps to an int with a strip; applies brightness, speed and pattern and replaces the schedule list wholesale |

## Left out

- Threads and timing are not modelled. This covers the animation loop, `start_animation`/`stop_animation`, the scheduler and audio threads, `time.sleep`, and `frames_per_second`.
- The other `led_controller.py` patterns are not modelled: rainbow, fade, breathing, twinkle, wave, fire and music. They rely on floating-point HSV, `math.sin` and `random`.
- `get_status` and `cleanup` are not modelled; they only read state or release resources.
- `rainbow_test`, `breathing_test` and the test script's `cleanup` in `test/sk9822_led_test.py` are not modelled; they rely on HSV floats and wall-clock delays.
- WebApp.ParseTime: digits are ASCII `0`-`9` only. CPython's `int()` also accepts every other Unicode decimal digit (`"1\uff12:30"` is 12:30), which `Text.ParseInt` refuses.
- Text.ParseInt: as for `WebApp.ParseTime`, non-ASCII decimal digits are refused where `int()` accepts them.
- Text.ParseDecimal: the limit is CPython's default `sys.int_max_str_digits` of 4300. A different setting, or a Python release that predates the limit, is not modelled.
- Visualization.MicrophoneUpdate: a window function whose length differs from the flattened window gives None, but numpy broadcasts a one-element window against longer data instead of raising. The window function is built from the same configured sizes as the rolling window, so the source never meets that case.
- SPI and audio device I/O is not modelled. The SPI device is an append-only log of `xfer2` payloads with an open flag: a transaction needs the device open, and `close` clears the flag. The bus and device numbers, the mode and the clock speed are outside the model. PyAudio stream handling is not modelled; `AudioCallback` takes the chunk and its FFT magnitudes as parameters.
- The numeric kernels are parameters rather than computed. This covers the FFT and its windows, `dsp.ExpFilter` gains and smoothing, `gaussian_filter1d` (the `blur` parameter), `np.percentile` (the `level` parameter), the mel projection, the gamma power curve and `logspace` banding.
- Other `visualization.py` parts are not modelled: the colour channels the scroll and wave-pulse effects compute from `y`, `visualize_energy`, and the pyqtgraph GUI.
- `_extract_frequency_ranges`, `_create_visualization_data`, `get_audio_levels` and `set_visualization_callback` in `audio_processor.py` are not modelled. They are FFT band arithmetic on floats, or callback plumbing.
- Floats are modelled as exact reals, so rounding, NaN and infinity are not captured.
- AudioProcessing.MusicVisualizer.FrequencyBars: requires the data to reach past `7·(n // 8)` values, so that every bar's slice is non-empty. With shorter data numpy takes the mean of an empty slice (NaN), which exact reals cannot express. A partial last slice is modelled.
- AudioProcessing.MusicVisualizer.SpectrumVisualization: data longer than the LED count ends in an index error, modelled as None.
- The `beat_history` and `energy_history` fields of `MusicVisualizer` are not modelled; the code never reads them.
- LedController.PixelStrip.SetBrightness: the development mock has no `setBrightness`, so the hardware library's is modelled. It stores the global brightness, and its C byte parameter refuses a float (modelled as the `raised` result of `LEDController.SetBrightness`).
- Flask routing, JSON decoding and the HTTP layer are not modelled; handlers take the decoded body. The endpoints that only forward to threads, devices or templates are not modelled: index, status, start/stop, audio start/stop, presets, export and the error handlers.
- The `set_color` endpoint is not modelled; its `ColorRGB.from_hex` parsing is covered by `LedController.FromHex`.
- The `schedule` library is not modelled; whether it accepts the time string is the parameter `scheduleAccepts`. The job it runs later is not modelled either.
- Exception messages (`str(e)`) are not modelled; every uncaught Python exception is the single response `Raised` with status 500.
- WebApp.App.ImportSettings: on failure the contract does not say which settings were already applied before the exception (the source applies them one by one).
- Visualization.MaxOf: returns 0.0 for an empty array where numpy raises; it is only applied to the half-strip, which is never empty.
- Visualization.Effects.constructor: requires at least two pixels, since the configuration module that sets the strip length is not part of this model.
- `config`, `led` and `dsp` are not part of this model. Their constants (pixel count, volume threshold, history depth) are parameters.

## Findings

| source | as written | input that shows it | evidently intended | confidence | as-written member | corrected member |
|---|---|---|---|---|---|---|
| real_code/audio-reactive-led-strip/python/led_sk9822.py:124-131 | `led_data` starts as all-off records and only changed pixels are written, so an unchanged pixel is sent dark | one pixel (255, 0, 0) updated twice: the second transaction carries `[0xFF, 0, 0, 0]` | change detection should only save work: an unchanged pixel should keep its previous record and stay lit | not executed | SK9822.StaticRedPixelGoesDark | SK9822.ReusingIsTransparent |

The corrected encoder (`SK9822.EncodeReusing`) starts from the previous transaction's
records instead of off records. `SK9822.Controller.Update` keeps the code as written,
so the lemmas about `SK9822.Encode` describe what the strip receives today.
