/**
 * The overlays of the two earlier pattern libraries, whose bodies are the
 * same: a fire overlay that blacks pixels over the base pattern, and a
 * random-noise overlay driven by a running count of lit pixels. The writer
 * first receives the base pattern's rendering (`applied`); the reader is
 * the strip as it was.
 */
module LegacyPatterns {
  import opened Wrappers
  import opened Colors
  import opened LedPatterns

  /**
   * `fire(pattern, updateTime)`: inside the time gate each pixel becomes
   * black or the reader's own colour, by the old fire's threshold.
   */
  method FireOverlay(reader: seq<Color>, writer: array<Color>, applied: seq<Color>, period: int,
                     firstTime: int, secondTime: int, flicker: seq<real>)
    returns (outcome: Outcome<LedError>)
    requires writer.Length == |reader| == |applied| == |flicker|
    modifies writer
    ensures period == 0 ==> outcome == Fail(DivisionByZero) && writer[..] == old(writer[..])
    ensures period != 0 && !InWindow(firstTime, secondTime, period) ==>
              outcome == Pass && writer[..] == old(writer[..])
    ensures period != 0 && InWindow(firstTime, secondTime, period) ==>
              outcome == Pass &&
              forall i :: 0 <= i < writer.Length ==> writer[i] == OldFirePixel(reader[i], i, |reader|, flicker[i])
  {
    if period == 0 {
      return Fail(DivisionByZero);
    }
    outcome := Pass;
    if InWindow(firstTime, secondTime, period) {
      for i := 0 to |reader|
        invariant forall k :: 0 <= k < i ==> writer[k] == applied[k]
      {
        writer[i] := applied[i];
      }
      for i := 0 to |reader|
        invariant forall k :: 0 <= k < i ==> writer[k] == OldFirePixel(reader[k], k, |reader|, flicker[k])
      {
        writer[i] := OldFirePixel(reader[i], i, |reader|, flicker[i]);
      }
    }
  }

  /** Outcome of the noise rule on one pixel: its colour and the updated count. */
  datatype Step = Step(color: Color, ledsOn: int)

  /**
   * One pixel of the noise loop. The pixel is rewritten with its own colour
   * (count + 1) when fewer than half the strip is counted or the draw is at
   * least 0.4; then it is blacked (count - 1) when fewer than an eighth are
   * uncounted or the draw is below 0.4.
   */
  function NoiseStep(length: nat, ledsOn: int, own: Color, prior: Color, cycle: real): Step {
    var kept := if ledsOn < length / 2 || cycle >= 0.4 then Step(own, ledsOn + 1) else Step(prior, ledsOn);
    if length - kept.ledsOn < length / 8 || cycle < 0.4 then Step(Black, kept.ledsOn - 1) else kept
  }

  /** Every draw writes the pixel: it ends as its own colour or black, never the prior one. */
  lemma NoiseStepWrites(length: nat, ledsOn: int, own: Color, prior: Color, cycle: real)
    ensures NoiseStep(length, ledsOn, own, prior, cycle).color in {own, Black}
    ensures cycle >= 0.4 && length - (ledsOn + 1) >= length / 8 ==>
              NoiseStep(length, ledsOn, own, prior, cycle) == Step(own, ledsOn + 1)
    ensures cycle < 0.4 && ledsOn >= length / 2 ==> NoiseStep(length, ledsOn, own, prior, cycle) == Step(Black, ledsOn - 1)
  {
  }

  /** The first `k` pixels the noise loop writes, and the count after them. */
  function NoiseRun(reader: seq<Color>, applied: seq<Color>, cycles: seq<real>, k: nat): (run: (seq<Color>, int))
    requires k <= |reader| == |applied| == |cycles|
    ensures |run.0| == k
  {
    if k == 0 then ([], CountLit(reader))
    else
      var (pixels, ledsOn) := NoiseRun(reader, applied, cycles, k - 1);
      var step := NoiseStep(|reader|, ledsOn, reader[k - 1], applied[k - 1], cycles[k - 1]);
      (pixels + [step.color], step.ledsOn)
  }

  /** The noise overlay introduces no colour: each pixel is the reader's own or black. */
  lemma {:induction false} NoiseOwnOrBlack(reader: seq<Color>, applied: seq<Color>, cycles: seq<real>, k: nat)
    requires k <= |reader| == |applied| == |cycles|
    ensures forall i :: 0 <= i < k ==> NoiseRun(reader, applied, cycles, k).0[i] in {reader[i], Black}
  {
    if k > 0 {
      NoiseOwnOrBlack(reader, applied, cycles, k - 1);
      var (pixels, ledsOn) := NoiseRun(reader, applied, cycles, k - 1);
      NoiseStepWrites(|reader|, ledsOn, reader[k - 1], applied[k - 1], cycles[k - 1]);
    }
  }

  /** Each pixel moves the count by exactly one, so after `k` pixels it is within `k` of the first count. */
  lemma {:induction false} NoiseCountDrift(reader: seq<Color>, applied: seq<Color>, cycles: seq<real>, k: nat)
    requires k <= |reader| == |applied| == |cycles|
    ensures CountLit(reader) - k <= NoiseRun(reader, applied, cycles, k).1 <= CountLit(reader) + k
  {
    if k > 0 {
      NoiseCountDrift(reader, applied, cycles, k - 1);
    }
  }

  /**
   * `randomNoise(pattern, updateTime)`: inside the time gate the writer gets
   * the base pattern, the count starts at the reader's lit pixels, and each
   * pixel in order follows `NoiseStep` with its draw `cycles[i]` (the sine
   * of a random number).
   */
  method RandomNoiseOverlay(reader: seq<Color>, writer: array<Color>, applied: seq<Color>, period: int,
                            firstTime: int, secondTime: int, cycles: seq<real>)
    returns (outcome: Outcome<LedError>)
    requires writer.Length == |reader| == |applied| == |cycles|
    modifies writer
    ensures period == 0 ==> outcome == Fail(DivisionByZero) && writer[..] == old(writer[..])
    ensures period != 0 && !InWindow(firstTime, secondTime, period) ==>
              outcome == Pass && writer[..] == old(writer[..])
    ensures period != 0 && InWindow(firstTime, secondTime, period) ==>
              outcome == Pass && writer[..] == NoiseRun(reader, applied, cycles, |reader|).0
  {
    if period == 0 {
      return Fail(DivisionByZero);
    }
    outcome := Pass;
    if !InWindow(firstTime, secondTime, period) {
      return;
    }
    for i := 0 to |reader|
      invariant forall k :: 0 <= k < i ==> writer[k] == applied[k]
    {
      writer[i] := applied[i];
    }
    assert writer[..] == applied;
    var ledsOn := CountLitPixels(reader);
    NoisePass(reader, writer, applied, cycles, ledsOn);
  }

  /** The pixel loop of the noise overlay, from a writer holding `applied` and the reader's lit count. */
  method NoisePass(reader: seq<Color>, writer: array<Color>, applied: seq<Color>, cycles: seq<real>, lit: nat)
    requires writer.Length == |reader| == |applied| == |cycles|
    requires writer[..] == applied && lit == CountLit(reader)
    modifies writer
    ensures writer[..] == NoiseRun(reader, applied, cycles, |reader|).0
  {
    var ledsOn: int := lit;
    var length := |reader|;
    for i := 0 to length
      invariant NoiseRun(reader, applied, cycles, i).1 == ledsOn
      invariant forall k :: 0 <= k < i ==> writer[k] == NoiseRun(reader, applied, cycles, i).0[k]
      invariant forall k :: i <= k < length ==> writer[k] == applied[k]
    {
      var cycle := cycles[i];
      ghost var counted := ledsOn;
      if ledsOn < length / 2 || cycle >= 0.4 {
        writer[i] := reader[i];
        ledsOn := ledsOn + 1;
      }
      if length - ledsOn < length / 8 || cycle < 0.4 {
        writer[i] := Black;
        ledsOn := ledsOn - 1;
      }
      assert Step(writer[i], ledsOn) == NoiseStep(length, counted, reader[i], applied[i], cycle);
    }
  }

  // ------------------------------------------------------ default overloads

  /** The one-argument overloads' update times: fire every 0.07 s, random noise every 0.05 s. */
  const DefaultFireSeconds: real := 0.07
  const DefaultNoiseSeconds: real := 0.05

  /** The default update times are 70000 and 50000 microseconds, so the gate test never divides by zero. */
  lemma LegacyDefaultPeriods()
    ensures PeriodMicros(DefaultFireSeconds) == 70000
    ensures PeriodMicros(DefaultNoiseSeconds) == 50000
  {
    assert DefaultFireSeconds * 1000000.0 == 70000 as real;
    assert DefaultNoiseSeconds * 1000000.0 == 50000 as real;
  }

  /** `fire(pattern)`: the fire overlay with the 0.07 s update time; it never throws. */
  method DefaultFireOverlay(reader: seq<Color>, writer: array<Color>, applied: seq<Color>,
                            firstTime: int, secondTime: int, flicker: seq<real>)
    returns (outcome: Outcome<LedError>)
    requires writer.Length == |reader| == |applied| == |flicker|
    modifies writer
    ensures outcome == Pass
    ensures !InWindow(firstTime, secondTime, 70000) ==> writer[..] == old(writer[..])
    ensures InWindow(firstTime, secondTime, 70000) ==>
              forall i :: 0 <= i < writer.Length ==> writer[i] == OldFirePixel(reader[i], i, |reader|, flicker[i])
  {
    LegacyDefaultPeriods();
    outcome := FireOverlay(reader, writer, applied, PeriodMicros(DefaultFireSeconds), firstTime, secondTime, flicker);
  }

  /** `randomNoise(pattern)`: the noise overlay with the 0.05 s update time; it never throws. */
  method DefaultRandomNoiseOverlay(reader: seq<Color>, writer: array<Color>, applied: seq<Color>,
                                   firstTime: int, secondTime: int, cycles: seq<real>)
    returns (outcome: Outcome<LedError>)
    requires writer.Length == |reader| == |applied| == |cycles|
    modifies writer
    ensures outcome == Pass
    ensures !InWindow(firstTime, secondTime, 50000) ==> writer[..] == old(writer[..])
    ensures InWindow(firstTime, secondTime, 50000) ==> writer[..] == NoiseRun(reader, applied, cycles, |reader|).0
  {
    LegacyDefaultPeriods();
    outcome := RandomNoiseOverlay(reader, writer, applied, PeriodMicros(DefaultNoiseSeconds),
                                  firstTime, secondTime, cycles);
  }
}
