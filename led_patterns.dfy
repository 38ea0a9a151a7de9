/**
 * The LED overlay patterns of the current pattern library: the old and new
 * fire overlays and the cellular random-noise overlay. An overlay reads the
 * strip (`reader`) and writes colours into `writer`; the base pattern's own
 * rendering, the random draws and the trigonometry enter as parameters.
 */
module LedPatterns {
  import opened Wrappers
  import opened Colors

  /** A colour the new fire overlay drifts toward along the strip. */
  datatype Shift = NoShift | TowardRed | TowardGreen | TowardBlue | TowardGray

  /** LED patterns as the library builds them; library patterns are named. */
  datatype Pattern =
    | Off
    | Solid(color: Color)
    | Named(name: string)
    | OldFire(base: Pattern, updateSeconds: real)
    | Fire(base: Pattern, updateSeconds: real, shift: Shift)
    | RandomNoise(base: Pattern, updateSeconds: real)

  /** Exceptions an overlay or a strip can raise. */
  datatype LedError = DivisionByZero | NullPattern | NullBuffer | NegativeLength | ZeroLength | ExceedsStrip

  /** Overlays write only in the first 39 ms of each period. */
  const UpdateLimitMicros: int := 39000

  /** Java's conversion of a double to a long: truncation toward zero. */
  function Truncate(x: real): (n: int)
    ensures x >= 0.0 ==> n as real <= x < n as real + 1.0
    ensures x < 0.0 ==> n as real - 1.0 < x <= n as real
  {
    if x >= 0.0 then x.Floor else -((-x).Floor)
  }

  /** An update period in seconds as a whole number of microseconds. */
  function PeriodMicros(seconds: real): int {
    Truncate(seconds * 1000000.0)
  }

  /** Java's `%` on longs: the remainder takes the sign of the dividend. */
  function JavaRem(a: int, b: int): (r: int)
    requires b != 0
    ensures a >= 0 ==> 0 <= r < if b > 0 then b else -b
    ensures a < 0 ==> -(if b > 0 then b else -b) < r <= 0
  {
    var m := if b > 0 then b else -b;
    if a >= 0 then a % m else -((-a) % m)
  }

  /**
   * The time gate: the clock's remainder modulo the period lies strictly
   * between 0 and the 39 ms limit (`first` and `second` are the two clock
   * reads of the test, which the fire overlays take once).
   */
  predicate InWindow(first: int, second: int, period: int)
    requires period != 0
  {
    JavaRem(first, period) < UpdateLimitMicros && JavaRem(second, period) > 0
  }

  /** For a non-negative clock and a positive period the gate is `0 < t mod P < 39000`. */
  lemma WindowMeans(t: int, period: int)
    requires t >= 0 && period > 0
    ensures InWindow(t, t, period) <==> 0 < t % period < UpdateLimitMicros
    ensures InWindow(t, t, period) ==> t % period != 0
  {
  }

  /** A period of at most 1 µs never opens the gate for a non-negative clock. */
  lemma TinyPeriodNeverWrites(t: int, period: int)
    requires t >= 0 && 0 < period <= 1
    ensures !InWindow(t, t, period)
  {
  }

  /** The default overloads: old fire and fire every 0.11 s, random noise every 0.05 s. */
  function DefaultOldFire(base: Pattern): Pattern {
    OldFire(base, 0.11)
  }

  function DefaultFire(base: Pattern, shift: Shift): Pattern {
    Fire(base, 0.11, shift)
  }

  function DefaultRandomNoise(base: Pattern): Pattern {
    RandomNoise(base, 0.05)
  }

  lemma DefaultPeriods(base: Pattern, shift: Shift)
    ensures PeriodMicros(DefaultOldFire(base).updateSeconds) == 110000
    ensures PeriodMicros(DefaultFire(base, shift).updateSeconds) == 110000
    ensures DefaultFire(base, NoShift).shift == NoShift
    ensures PeriodMicros(DefaultRandomNoise(base).updateSeconds) == 50000
  {
    assert 0.11 * 1000000.0 == 110000 as real;
    assert 0.05 * 1000000.0 == 50000 as real;
  }

  // ---------------------------------------------------------------- old fire

  /** One pixel of the old fire: black where the flicker plus the position exceeds 1.275. */
  function OldFirePixel(base: Color, index: nat, length: nat, flicker: real): Color
    requires index < length
  {
    if 1.5 * flicker + index as real / length as real > 1.275 then Black else base
  }

  /**
   * `oldFire`: inside the time gate every pixel becomes its base colour or
   * black; outside it nothing is written. `flicker[i]` is the sine the
   * overlay draws for pixel `i`; `base` is the base pattern's rendering.
   */
  method OldFireOverlay(reader: seq<Color>, writer: array<Color>, base: seq<Color>, period: int,
                        robotTime: int, flicker: seq<real>)
    returns (outcome: Outcome<LedError>)
    requires writer.Length == |reader| == |base| == |flicker|
    modifies writer
    ensures period == 0 ==> outcome == Fail(DivisionByZero) && writer[..] == old(writer[..])
    ensures period != 0 && !InWindow(robotTime, robotTime, period) ==> outcome == Pass && writer[..] == old(writer[..])
    ensures period != 0 && InWindow(robotTime, robotTime, period) ==>
              outcome == Pass &&
              forall i :: 0 <= i < writer.Length ==> writer[i] == OldFirePixel(base[i], i, |reader|, flicker[i])
  {
    if period == 0 {
      return Fail(DivisionByZero);
    }
    outcome := Pass;
    if InWindow(robotTime, robotTime, period) {
      for i := 0 to |reader|
        invariant forall k :: 0 <= k < i ==> writer[k] == OldFirePixel(base[k], k, |reader|, flicker[k])
      {
        writer[i] := OldFirePixel(base[i], i, |reader|, flicker[i]);
      }
    }
  }

  /** Every pixel of the old fire is its base colour or black; the first pixel stays lit under a small flicker. */
  lemma OldFirePixelChoices(base: Color, index: nat, length: nat, flicker: real)
    requires index < length
    ensures OldFirePixel(base, index, length, flicker) in {base, Black}
    ensures index == 0 && flicker <= 0.85 ==> OldFirePixel(base, index, length, flicker) == base
  {
  }

  // ------------------------------------------------------------ colour shift

  /** One damped channel: `floor(min(c, k * length * c / (index + 1)))`. */
  function Damp(c: Channel, k: real, length: nat, index: nat): (d: Channel)
    requires k >= 0.0
  {
    var scaled := k * length as real * c as real / (index + 1) as real;
    if c as real <= scaled then c else DampFloor(scaled, c)
  }

  /** The floor of a scaled channel that lies in [0, c). */
  function DampFloor(scaled: real, c: Channel): (d: Channel)
    requires 0.0 <= scaled < c as real
    ensures d as real <= scaled
  {
    scaled.Floor
  }

  /** Damping never brightens a channel and leaves it whole up to `k * length` pixels out. */
  lemma DampBounds(c: Channel, k: real, length: nat, index: nat)
    requires k >= 0.0
    ensures Damp(c, k, length, index) <= c
    ensures (index + 1) as real <= k * length as real ==> Damp(c, k, length, index) == c
    ensures c == 0 ==> Damp(c, k, length, index) == 0
  {
    var scaled := k * length as real * c as real / (index + 1) as real;
    if (index + 1) as real <= k * length as real {
      assert scaled == (k * length as real / (index + 1) as real) * c as real;
      assert k * length as real / (index + 1) as real >= 1.0;
      MulAtLeastOne(k * length as real / (index + 1) as real, c as real);
    }
  }

  /** `f * c >= c` when `f >= 1` and `c >= 0`. (Arithmetic helper for DampBounds.) */
  lemma MulAtLeastOne(f: real, c: real)
    requires f >= 1.0 && c >= 0.0
    ensures f * c >= c
  {
    assert f * c - c == (f - 1.0) * c;
  }

  /** The colour shift of the new fire: damp the channels other than the target colour's own. */
  function ShiftColor(col: Color, shift: Shift, length: nat, index: nat): Color {
    match shift
    case NoShift => col
    case TowardRed => Color(col.red, Damp(col.green, 0.25, length, index), Damp(col.blue, 0.25, length, index))
    case TowardGreen => Color(Damp(col.red, 0.25, length, index), col.green, Damp(col.blue, 0.25, length, index))
    case TowardBlue => Color(Damp(col.red, 0.25, length, index), Damp(col.green, 0.25, length, index), col.blue)
    case TowardGray =>
      Color(Damp(col.red, 0.4, length, index), Damp(col.green, 0.4, length, index), Damp(col.blue, 0.4, length, index))
  }

  /**
   * A shift keeps its own channel, never brightens another, and changes
   * nothing within the first quarter of the strip.
   */
  lemma ShiftBounds(col: Color, shift: Shift, length: nat, index: nat)
    ensures var s := ShiftColor(col, shift, length, index);
            s.red <= col.red && s.green <= col.green && s.blue <= col.blue
    ensures shift == TowardRed ==> ShiftColor(col, shift, length, index).red == col.red
    ensures shift == TowardGreen ==> ShiftColor(col, shift, length, index).green == col.green
    ensures shift == TowardBlue ==> ShiftColor(col, shift, length, index).blue == col.blue
    ensures (index + 1) as real <= 0.25 * length as real ==> ShiftColor(col, shift, length, index) == col
  {
    DampBounds(col.red, 0.25, length, index);
    DampBounds(col.green, 0.25, length, index);
    DampBounds(col.blue, 0.25, length, index);
    DampBounds(col.red, 0.4, length, index);
    DampBounds(col.green, 0.4, length, index);
    DampBounds(col.blue, 0.4, length, index);
  }

  // ---------------------------------------------------------------- new fire

  /** Whether pixel `j` of the reader exists and is lit. */
  predicate LitAt(reader: seq<Color>, j: int) {
    0 <= j < |reader| && IsLit(reader[j])
  }

  /**
   * One pixel of the new fire. `flame` is the flame height and `energy` its
   * trend, both functions of the clock; `draw` is the pixel's random draw.
   * Below the flame a pixel mostly shows; above it a dark pixel lights next
   * to lit pixels above it, and a lit one stays when three below are lit.
   * The "below" neighbours are only looked at from pixel 3, 4 and 5 on.
   */
  function FirePixel(reader: seq<Color>, shifted: Color, index: nat, flame: real, energy: real, draw: real): Color
    requires index < |reader|
  {
    var length := |reader|;
    var isLit := IsLit(shifted);
    var nearHigh := index < length - 1 && LitAt(reader, index + 1);
    var midHigh := index < length - 2 && LitAt(reader, index + 2);
    var farHigh := index < length - 3 && LitAt(reader, index + 3);
    var nearLow := index > 2 && LitAt(reader, index - 1);
    var midLow := index > 3 && LitAt(reader, index - 2);
    var farLow := index > 4 && LitAt(reader, index - 3);
    if (index as real) < flame then
      if energy > 0.0 && draw < 0.8 then shifted
      else if energy > 0.0 then Black
      else if energy < 0.0 && draw < 0.9 then shifted
      else Black
    else if energy > 0.0 && draw > 0.5
            && ((!isLit && (nearHigh || midHigh || farHigh)) || (isLit && nearLow && midLow && farLow)) then shifted
    else if energy > 0.0 then Black
    else if energy < 0.0 && draw * length as real < flame then shifted
    else Black
  }

  /** A fire pixel is its shifted base colour or black; with zero energy it is black. */
  lemma FirePixelChoices(reader: seq<Color>, shifted: Color, index: nat, flame: real, energy: real, draw: real)
    requires index < |reader|
    ensures FirePixel(reader, shifted, index, flame, energy, draw) in {shifted, Black}
    ensures energy == 0.0 ==> FirePixel(reader, shifted, index, flame, energy, draw) == Black
    ensures (index as real) < flame && energy > 0.0 && draw < 0.8 ==>
              FirePixel(reader, shifted, index, flame, energy, draw) == shifted
  {
  }

  /**
   * `fire(pattern, updateTime, shiftColor)`: inside the time gate every pixel
   * is rewritten from the shifted base colour by `FirePixel`.
   */
  method FireOverlay(reader: seq<Color>, writer: array<Color>, base: seq<Color>, period: int, robotTime: int,
                     shift: Shift, flame: real, energy: real, draws: seq<real>)
    returns (outcome: Outcome<LedError>)
    requires writer.Length == |reader| == |base| == |draws|
    modifies writer
    ensures period == 0 ==> outcome == Fail(DivisionByZero) && writer[..] == old(writer[..])
    ensures period != 0 && !InWindow(robotTime, robotTime, period) ==> outcome == Pass && writer[..] == old(writer[..])
    ensures period != 0 && InWindow(robotTime, robotTime, period) ==>
              outcome == Pass &&
              forall i :: 0 <= i < writer.Length ==>
                writer[i] == FirePixel(reader, ShiftColor(base[i], shift, |reader|, i), i, flame, energy, draws[i])
  {
    if period == 0 {
      return Fail(DivisionByZero);
    }
    outcome := Pass;
    if InWindow(robotTime, robotTime, period) {
      for i := 0 to |reader|
        invariant forall k :: 0 <= k < i ==>
                    writer[k] == FirePixel(reader, ShiftColor(base[k], shift, |reader|, k), k, flame, energy, draws[k])
      {
        var shifted := ShiftColor(base[i], shift, |reader|, i);
        writer[i] := FirePixel(reader, shifted, i, flame, energy, draws[i]);
      }
    }
  }

  // ------------------------------------------------------------ random noise

  /** The neighbour rule: an interior pixel shows its base colour iff exactly one neighbour is lit. */
  function NoiseRule(reader: seq<Color>, base: seq<Color>, i: nat): Color
    requires 0 < i < |reader| - 1 && |base| == |reader|
  {
    var population := (if IsLit(reader[i - 1]) then 1 else 0)
                    + (if IsLit(reader[i]) then 2 else 0)
                    + (if IsLit(reader[i + 1]) then 4 else 0);
    if population in {1, 3, 4, 6} then base[i] else Black
  }

  /** The rule's population table is "left lit XOR right lit"; the middle pixel does not matter. */
  lemma NoiseRuleIsXor(reader: seq<Color>, base: seq<Color>, i: nat)
    requires 0 < i < |reader| - 1 && |base| == |reader|
    ensures NoiseRule(reader, base, i) == if IsLit(reader[i - 1]) != IsLit(reader[i + 1]) then base[i] else Black
  {
  }

  /** The pixel a draw in [0, 1) selects: `(int)(draw * length)`. */
  function Chosen(draw: real, length: nat): (k: nat)
    requires 0.0 <= draw < 1.0 && length > 0
    ensures k < length
  {
    var x := draw * length as real;
    assert x < length as real by {
      assert length as real - x == (1.0 - draw) * length as real;
    }
    x.Floor
  }

  /**
   * `randomNoise`: inside the time gate, a strip with no lit pixel gets the
   * base pattern; otherwise every interior pixel follows the neighbour rule,
   * the end pixels keep what the writer held, and then the pixel `draw`
   * selects gets its base colour.
   */
  method RandomNoiseOverlay(reader: seq<Color>, writer: array<Color>, base: seq<Color>, period: int,
                            firstTime: int, secondTime: int, draw: real)
    returns (outcome: Outcome<LedError>)
    requires writer.Length == |reader| == |base|
    requires 0.0 <= draw < 1.0
    modifies writer
    ensures period == 0 ==> outcome == Fail(DivisionByZero) && writer[..] == old(writer[..])
    ensures period != 0 && !InWindow(firstTime, secondTime, period) ==> outcome == Pass && writer[..] == old(writer[..])
    ensures period != 0 && InWindow(firstTime, secondTime, period) ==>
              outcome == Pass && writer[..] == NoiseFrame(reader, base, old(writer[..]), draw)
  {
    if period == 0 {
      return Fail(DivisionByZero);
    }
    outcome := Pass;
    if !InWindow(firstTime, secondTime, period) {
      return;
    }
    var ledsOn := CountLitPixels(reader);
    CountLitZero(reader);
    if ledsOn == 0 {
      for i := 0 to |reader|
        invariant forall k :: 0 <= k < i ==> writer[k] == base[k]
      {
        writer[i] := base[i];
      }
      assert writer[..] == base;
      return;
    }
    ghost var before := writer[..];
    NeighbourPass(reader, writer, base);
    var chosen := Chosen(draw, |reader|);
    writer[chosen] := base[chosen];
    assert forall k :: 0 <= k < |reader| ==> writer[k] == NoiseFrame(reader, base, before, draw)[k];
  }

  /** The neighbour pass of `randomNoise`: interior pixels follow the rule, the ends are not written. */
  method NeighbourPass(reader: seq<Color>, writer: array<Color>, base: seq<Color>)
    requires writer.Length == |reader| == |base|
    modifies writer
    ensures forall k :: 0 <= k < writer.Length ==> writer[k] == InteriorPixel(reader, base, old(writer[..]), k)
  {
    ghost var before := writer[..];
    var length := |reader|;
    for i := 0 to length
      invariant forall k :: 0 <= k < i ==> writer[k] == InteriorPixel(reader, base, before, k)
      invariant forall k :: i <= k < length ==> writer[k] == before[k]
    {
      if i != 0 && i != length - 1 && i != length {
        var population := 0;
        if IsLit(reader[i - 1]) { population := population + 1; }
        if IsLit(reader[i]) { population := population + 2; }
        if IsLit(reader[i + 1]) { population := population + 4; }
        if population == 3 || population == 1 || population == 6 || population == 4 {
          writer[i] := base[i];
        } else if population == 0 || population == 7 || population == 5 || population == 2 {
          writer[i] := Black;
        } else {
          assert false;
        }
      }
    }
  }

  /** Pixel `k` after the neighbour pass. */
  function InteriorPixel(reader: seq<Color>, base: seq<Color>, before: seq<Color>, k: nat): Color
    requires k < |reader| == |base| == |before|
  {
    if 0 < k < |reader| - 1 then NoiseRule(reader, base, k) else before[k]
  }

  /** What `randomNoise` leaves in the writer inside the gate. */
  function NoiseFrame(reader: seq<Color>, base: seq<Color>, before: seq<Color>, draw: real): (frame: seq<Color>)
    requires |reader| == |base| == |before|
    requires 0.0 <= draw < 1.0
    ensures |frame| == |reader|
  {
    if forall i :: 0 <= i < |reader| ==> !IsLit(reader[i]) then base
    else
      var chosen := Chosen(draw, |reader|);
      seq(|reader|, k requires 0 <= k < |reader| =>
        if k == chosen then base[chosen] else InteriorPixel(reader, base, before, k))
  }

  /**
   * Inside the gate, on a strip with a lit pixel: the selected pixel shows
   * its base colour, every other interior pixel its base colour or black by
   * the XOR rule, and the end pixels keep their colour.
   */
  lemma NoiseFrameShape(reader: seq<Color>, base: seq<Color>, before: seq<Color>, draw: real)
    requires |reader| == |base| == |before| && 0.0 <= draw < 1.0
    requires exists i :: 0 <= i < |reader| && IsLit(reader[i])
    ensures var frame := NoiseFrame(reader, base, before, draw);
            var chosen := Chosen(draw, |reader|);
            && frame[chosen] == base[chosen]
            && (forall k :: 0 < k < |reader| - 1 && k != chosen ==>
                  frame[k] == if IsLit(reader[k - 1]) != IsLit(reader[k + 1]) then base[k] else Black)
            && (|reader| - 1 != chosen ==> frame[|reader| - 1] == before[|reader| - 1])
            && (0 != chosen ==> frame[0] == before[0])
  {
    var frame := NoiseFrame(reader, base, before, draw);
    var chosen := Chosen(draw, |reader|);
    forall k | 0 < k < |reader| - 1 && k != chosen
      ensures frame[k] == if IsLit(reader[k - 1]) != IsLit(reader[k + 1]) then base[k] else Black
    {
      NoiseRuleIsXor(reader, base, k);
    }
  }
}
