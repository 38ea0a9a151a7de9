/**
 * The base LED subsystem: one strip buffer, views of it as sections whose
 * timers fall back to a default pattern, a flickering fire animation in three
 * variants, and a random-noise animation that draws from a scratch buffer.
 *
 * Pattern renderings and random draws come in as parameters: `rendered` is
 * what the pattern writes into the target, `flicker` the values
 * `sin(random())`, `coins` and `draws` the two `random()` values per pixel of
 * the noise loop.
 */
module BaseLeds {
  import opened Wrappers
  import opened Colors
  import opened LedPatterns
  import LedSections

  /** The time step of a section update. */
  const DeltaSeconds: real := 0.02

  /** The index divisor of the buffer and view fire variants, and of the section variant. */
  const FireDivisor: real := 36.0
  const SectionFireDivisor: real := 14.0

  // ------------------------------------------------------------ buffer views

  /** A view of the buffer from `start` to `end` inclusive; `start > end` runs backwards. */
  datatype View = View(start: nat, end: nat)

  function ViewLength(v: View): nat {
    if v.start <= v.end then v.end - v.start + 1 else v.start - v.end + 1
  }

  /** The buffer index of each pixel of the view, in view order. */
  function Positions(v: View): (p: seq<nat>)
    ensures |p| == ViewLength(v)
  {
    if v.start <= v.end then seq(v.end - v.start + 1, i requires 0 <= i => v.start + i)
    else seq(v.start - v.end + 1, i requires 0 <= i <= v.start - v.end => v.start - i)
  }

  /** The whole buffer as a target. */
  function Whole(n: nat): (p: seq<nat>)
    ensures |p| == n
  {
    seq(n, i requires 0 <= i => i)
  }

  /** Distinct buffer indices, all inside a buffer of `n` pixels. */
  predicate Targets(idx: seq<nat>, n: nat) {
    && (forall i :: 0 <= i < |idx| ==> idx[i] < n)
    && (forall i, j :: 0 <= i < j < |idx| ==> idx[i] != idx[j])
  }

  /** A view inside the buffer addresses distinct pixels, from `start` toward `end`. */
  lemma ViewTargets(v: View, n: nat)
    requires v.start < n && v.end < n
    ensures Targets(Positions(v), n)
    ensures Positions(v)[0] == v.start && Positions(v)[ViewLength(v) - 1] == v.end
  {
  }

  lemma WholeTargets(n: nat)
    ensures Targets(Whole(n), n)
    ensures forall k :: 0 <= k < n ==> k in Whole(n)
  {
    forall k | 0 <= k < n
      ensures k in Whole(n)
    {
      assert Whole(n)[k] == k;
    }
  }

  /** The colours of a buffer at the target's indices. */
  function At(buffer: seq<Color>, idx: seq<nat>): (s: seq<Color>)
    requires forall i :: 0 <= i < |idx| ==> idx[i] < |buffer|
    ensures |s| == |idx|
  {
    seq(|idx|, i requires 0 <= i < |idx| => buffer[idx[i]])
  }

  /** `now` is `before` with the target's pixels set to `vals` and nothing else changed. */
  predicate WroteAt(now: seq<Color>, before: seq<Color>, idx: seq<nat>, vals: seq<Color>) {
    && |now| == |before| && |idx| == |vals|
    && (forall i :: 0 <= i < |idx| ==> idx[i] < |now| && now[idx[i]] == vals[i])
    && (forall k :: 0 <= k < |now| && k !in idx ==> now[k] == before[k])
  }

  /** Two writes to the same target: the second wins. (Proof helper for the fire and noise writes.) */
  lemma WroteTwice(a: seq<Color>, b: seq<Color>, c: seq<Color>, idx: seq<nat>, first: seq<Color>, second: seq<Color>)
    requires WroteAt(b, a, idx, first) && WroteAt(c, b, idx, second)
    ensures WroteAt(c, a, idx, second)
  {
  }

  /** Reading back a written target gives what was written. (Proof helper for the noise activation.) */
  lemma ReadBack(now: seq<Color>, before: seq<Color>, idx: seq<nat>, vals: seq<Color>)
    requires WroteAt(now, before, idx, vals)
    ensures At(now, idx) == vals
  {
  }

  // ------------------------------------------------------------------- fire

  /** Fire pixel `i`: black when `1.5 * flicker + i / divisor` exceeds 1.3, else the pattern's colour. */
  function Flicker(c: Color, i: nat, divisor: real, flicker: real): Color
    requires divisor > 0.0
  {
    if 1.5 * flicker + i as real / divisor > 1.3 then Black else c
  }

  function FlickerAll(rendered: seq<Color>, flicker: seq<real>, divisor: real): (s: seq<Color>)
    requires |flicker| == |rendered| && divisor > 0.0
    ensures |s| == |rendered|
  {
    seq(|rendered|, i requires 0 <= i < |rendered| => Flicker(rendered[i], i, divisor, flicker[i]))
  }

  /**
   * A fire pixel is the pattern's colour or black. With a non-negative flicker
   * (the sine of a number in [0, 1)) every pixel past `1.3 * divisor` is black,
   * and pixel 0 keeps its colour while the flicker is at most 0.85.
   */
  lemma FlickerChoices(c: Color, i: nat, divisor: real, flicker: real)
    requires divisor > 0.0
    ensures Flicker(c, i, divisor, flicker) in {c, Black}
    ensures flicker >= 0.0 && i as real > 1.3 * divisor ==> Flicker(c, i, divisor, flicker) == Black
    ensures i == 0 && flicker <= 0.85 ==> Flicker(c, i, divisor, flicker) == c
  {
    if i as real > 1.3 * divisor {
      var q := i as real / divisor;
      assert q * divisor == i as real;
      assert (q - 1.3) * divisor == q * divisor - 1.3 * divisor;
      assert (q - 1.3) * divisor > 0.0;
      PositiveFactor(q - 1.3, divisor);
    }
  }

  /** A product with a positive factor is positive only when the other factor is. (Arithmetic helper for FlickerChoices.) */
  lemma PositiveFactor(a: real, d: real)
    requires d > 0.0 && a * d > 0.0
    ensures a > 0.0
  {
  }

  /** On a 36-divisor target, pixels from index 47 on always burn out. */
  lemma FireTailBurnsOut(rendered: seq<Color>, flicker: seq<real>)
    requires |flicker| == |rendered|
    requires forall i :: 0 <= i < |flicker| ==> flicker[i] >= 0.0
    ensures forall i :: 47 <= i < |rendered| ==> FlickerAll(rendered, flicker, FireDivisor)[i] == Black
  {
    forall i | 47 <= i < |rendered|
      ensures FlickerAll(rendered, flicker, FireDivisor)[i] == Black
    {
      FlickerChoices(rendered[i], i, FireDivisor, flicker[i]);
    }
  }

  // ------------------------------------------------------------------ noise

  /** One pixel of the noise loop: its colour and the updated count. */
  datatype NoiseState = NoiseState(color: Color, ledsOn: int)

  /**
   * Pixel rule of the noise loop: with no lit pixel counted or a coin above
   * 0.5 the pixel takes the scratch colour (count + 1); then, when
   * `draw * length` is below half the count, it is blacked (count - 1).
   */
  function NoiseStep(length: nat, ledsOn: int, prior: Color, fake: Color, coin: real, draw: real): NoiseState {
    var kept := if ledsOn == 0 || coin > 0.5 then NoiseState(fake, ledsOn + 1) else NoiseState(prior, ledsOn);
    if draw * length as real < kept.ledsOn as real * 0.5 then NoiseState(Black, kept.ledsOn - 1) else kept
  }

  /**
   * A pixel ends as its prior colour, the scratch colour or black; with a
   * non-negative draw the count never goes below zero; and an empty count
   * always paints the scratch colour unless the draw blacks it.
   */
  lemma NoiseStepChoices(length: nat, ledsOn: int, prior: Color, fake: Color, coin: real, draw: real)
    ensures NoiseStep(length, ledsOn, prior, fake, coin, draw).color in {prior, fake, Black}
    ensures ledsOn >= 0 && draw >= 0.0 ==> NoiseStep(length, ledsOn, prior, fake, coin, draw).ledsOn >= 0
    ensures ledsOn == 0 && draw * length as real >= 0.5 ==> NoiseStep(length, ledsOn, prior, fake, coin, draw) == NoiseState(fake, 1)
  {
    if ledsOn >= 0 && draw >= 0.0 {
      assert draw * length as real >= 0.0;
    }
  }

  /** The first `k` pixels the noise loop writes over `current`, and the count after them. */
  function NoiseRun(current: seq<Color>, fake: seq<Color>, coins: seq<real>, draws: seq<real>, k: nat): (run: (seq<Color>, int))
    requires k <= |current| == |fake| == |coins| == |draws|
    ensures |run.0| == k
  {
    if k == 0 then ([], CountLit(current))
    else
      var (pixels, ledsOn) := NoiseRun(current, fake, coins, draws, k - 1);
      var step := NoiseStep(|current|, ledsOn, current[k - 1], fake[k - 1], coins[k - 1], draws[k - 1]);
      (pixels + [step.color], step.ledsOn)
  }

  /** The noise animation introduces no colour but the prior, the scratch one and black. */
  lemma {:induction false} NoiseChoices(current: seq<Color>, fake: seq<Color>, coins: seq<real>, draws: seq<real>, k: nat)
    requires k <= |current| == |fake| == |coins| == |draws|
    ensures forall i :: 0 <= i < k ==> NoiseRun(current, fake, coins, draws, k).0[i] in {current[i], fake[i], Black}
  {
    if k > 0 {
      NoiseChoices(current, fake, coins, draws, k - 1);
      var (pixels, ledsOn) := NoiseRun(current, fake, coins, draws, k - 1);
      NoiseStepChoices(|current|, ledsOn, current[k - 1], fake[k - 1], coins[k - 1], draws[k - 1]);
    }
  }

  /** With draws from [0, 1) the running count of lit pixels never goes negative. */
  lemma {:induction false} NoiseCountNonNegative(current: seq<Color>, fake: seq<Color>, coins: seq<real>, draws: seq<real>, k: nat)
    requires k <= |current| == |fake| == |coins| == |draws|
    requires forall i :: 0 <= i < |draws| ==> draws[i] >= 0.0
    ensures NoiseRun(current, fake, coins, draws, k).1 >= 0
  {
    if k > 0 {
      NoiseCountNonNegative(current, fake, coins, draws, k - 1);
      var (pixels, ledsOn) := NoiseRun(current, fake, coins, draws, k - 1);
      NoiseStepChoices(|current|, ledsOn, current[k - 1], fake[k - 1], coins[k - 1], draws[k - 1]);
    }
  }

  // -------------------------------------------------------------- subsystem

  /** A section fires when it is timed and this update reaches its duration. */
  predicate Expires(t: LedSections.Timer) {
    t.durationSeconds != LedSections.InfiniteDuration && t.elapsedSeconds + DeltaSeconds >= t.durationSeconds
  }

  /** Rendered colours and random draws for one `UpdateWithLogic` call. */
  datatype Draws = Draws(view: seq<Color>, flicker: seq<real>, buffer: seq<Color>, fake: seq<Color>,
                         coins: seq<real>, noise: seq<real>)

  class Leds {
    /** The PWM port of the strip (the strip object itself is I/O). */
    const port: int
    const ledBuffer: array<Color>
    const defaultPattern: Option<Pattern>
    /** The scratch buffer of the noise animation; `None` is a null reference. */
    var fakeBuffer: Option<seq<Color>>
    /** The outer elapsed time a new section copies. */
    var elapsedSeconds: real

    /** A strip of `length` black LEDs on `port`; the scratch buffer is never created. */
    constructor (port: int, length: nat, defaultPattern: Option<Pattern>)
      ensures this.port == port && this.defaultPattern == defaultPattern
      ensures fresh(ledBuffer) && ledBuffer.Length == length && forall k :: 0 <= k < length ==> ledBuffer[k] == Black
      ensures fakeBuffer == None && elapsedSeconds == 0.0
    {
      this.port := port;
      this.defaultPattern := defaultPattern;
      ledBuffer := new Color[length](_ => Black);
      fakeBuffer := None;
      elapsedSeconds := 0.0;
    }

    /** The constructor's buffer allocation refuses a negative length. */
    static method Create(port: int, length: int, defaultPattern: Option<Pattern>) returns (r: Result<Leds, LedError>)
      ensures length < 0 <==> r == Err(NegativeLength)
      ensures r.Ok? ==> fresh(r.value) && fresh(r.value.ledBuffer) && r.value.ledBuffer.Length == length
                        && r.value.fakeBuffer == None && r.value.defaultPattern == defaultPattern
    {
      if length < 0 {
        return Err(NegativeLength);
      }
      var leds := new Leds(port, length, defaultPattern);
      return Ok(leds);
    }

    /** `pattern.applyTo(target)`: the pattern's colours land on the target. */
    method Paint(idx: seq<nat>, vals: seq<Color>)
      requires Targets(idx, ledBuffer.Length) && |vals| == |idx|
      modifies ledBuffer
      ensures WroteAt(ledBuffer[..], old(ledBuffer[..]), idx, vals)
    {
      for i := 0 to |idx|
        invariant forall j :: 0 <= j < i ==> ledBuffer[idx[j]] == vals[j]
        invariant forall k :: 0 <= k < ledBuffer.Length && k !in idx[..i] ==> ledBuffer[k] == old(ledBuffer[k])
      {
        ledBuffer[idx[i]] := vals[i];
      }
      assert idx[..|idx|] == idx;
    }

    /** The fire loop over a painted target: black out the pixels the flicker burns. */
    method BlackOut(idx: seq<nat>, rendered: seq<Color>, flicker: seq<real>, divisor: real)
      requires Targets(idx, ledBuffer.Length) && |rendered| == |idx| == |flicker| && divisor > 0.0
      requires forall i :: 0 <= i < |idx| ==> ledBuffer[idx[i]] == rendered[i]
      modifies ledBuffer
      ensures WroteAt(ledBuffer[..], old(ledBuffer[..]), idx, FlickerAll(rendered, flicker, divisor))
    {
      for i := 0 to |idx|
        invariant forall j :: 0 <= j < i ==> ledBuffer[idx[j]] == Flicker(rendered[j], j, divisor, flicker[j])
        invariant forall j :: i <= j < |idx| ==> ledBuffer[idx[j]] == rendered[j]
        invariant forall k :: 0 <= k < ledBuffer.Length && k !in idx ==> ledBuffer[k] == old(ledBuffer[k])
      {
        if 1.5 * flicker[i] + i as real / divisor > 1.3 {
          ledBuffer[idx[i]] := Black;
        }
      }
    }

    /** What a fire animation does: fail on a null pattern, else paint and flicker the target. */
    twostate predicate FireEffect(new outcome: Outcome<LedError>, sub: Option<Pattern>, idx: seq<nat>,
                                  rendered: seq<Color>, flicker: seq<real>, divisor: real)
      requires |flicker| == |rendered| && divisor > 0.0
      reads this, ledBuffer
    {
      && fakeBuffer == old(fakeBuffer)
      && if sub.None? then outcome == Fail(NullPattern) && ledBuffer[..] == old(ledBuffer[..])
         else outcome == Pass && WroteAt(ledBuffer[..], old(ledBuffer[..]), idx, FlickerAll(rendered, flicker, divisor))
    }

    /** The body shared by the three fire variants. */
    method FireOver(sub: Option<Pattern>, idx: seq<nat>, rendered: seq<Color>, flicker: seq<real>, divisor: real)
      returns (outcome: Outcome<LedError>)
      requires Targets(idx, ledBuffer.Length) && |rendered| == |idx| == |flicker| && divisor > 0.0
      modifies ledBuffer
      ensures FireEffect(outcome, sub, idx, rendered, flicker, divisor)
    {
      if sub.None? {
        return Fail(NullPattern);
      }
      ghost var before := ledBuffer[..];
      Paint(idx, rendered);
      ghost var painted := ledBuffer[..];
      BlackOut(idx, rendered, flicker, divisor);
      WroteTwice(before, painted, ledBuffer[..], idx, rendered, FlickerAll(rendered, flicker, divisor));
      outcome := Pass;
    }

    /** `fireAnimation(pattern)`: the whole buffer, divisor 36. */
    method FireAnimation(sub: Option<Pattern>, rendered: seq<Color>, flicker: seq<real>) returns (outcome: Outcome<LedError>)
      requires |rendered| == ledBuffer.Length == |flicker|
      modifies ledBuffer
      ensures FireEffect(outcome, sub, Whole(ledBuffer.Length), rendered, flicker, FireDivisor)
    {
      WholeTargets(ledBuffer.Length);
      outcome := FireOver(sub, Whole(ledBuffer.Length), rendered, flicker, FireDivisor);
    }

    /** `fireAnimation(pattern, bufferView)`: one view, divisor 36. */
    method FireAnimationOnView(sub: Option<Pattern>, v: View, rendered: seq<Color>, flicker: seq<real>)
      returns (outcome: Outcome<LedError>)
      requires v.start < ledBuffer.Length && v.end < ledBuffer.Length
      requires |rendered| == ViewLength(v) == |flicker|
      modifies ledBuffer
      ensures FireEffect(outcome, sub, Positions(v), rendered, flicker, FireDivisor)
    {
      ViewTargets(v, ledBuffer.Length);
      outcome := FireOver(sub, Positions(v), rendered, flicker, FireDivisor);
    }

    /** `fireAnimation(pattern, section)`: the section's view, divisor 14. */
    method FireAnimationOnSection(sub: Option<Pattern>, s: Section, rendered: seq<Color>, flicker: seq<real>)
      returns (outcome: Outcome<LedError>)
      requires s.leds == this && s.Fits()
      requires |rendered| == s.Length() == |flicker|
      modifies ledBuffer
      ensures FireEffect(outcome, sub, Positions(s.view), rendered, flicker, SectionFireDivisor)
    {
      ViewTargets(s.view, ledBuffer.Length);
      outcome := FireOver(sub, Positions(s.view), rendered, flicker, SectionFireDivisor);
    }

    /**
     * What a noise activation does: fail on a null pattern; else paint the
     * target, then fail on a null scratch buffer; else run the noise loop
     * with the scratch buffer holding `fake`.
     */
    twostate predicate NoiseEffect(new outcome: Outcome<LedError>, sub: Option<Pattern>, idx: seq<nat>, rendered: seq<Color>,
                                   fake: seq<Color>, coins: seq<real>, draws: seq<real>)
      requires |rendered| == |fake| == |coins| == |draws|
      reads this, ledBuffer
    {
      if sub.None? then
        outcome == Fail(NullPattern) && ledBuffer[..] == old(ledBuffer[..]) && fakeBuffer == old(fakeBuffer)
      else if old(fakeBuffer).None? then
        outcome == Fail(NullBuffer) && WroteAt(ledBuffer[..], old(ledBuffer[..]), idx, rendered) && fakeBuffer == None
      else
        && outcome == Pass && fakeBuffer == Some(fake)
        && WroteAt(ledBuffer[..], old(ledBuffer[..]), idx, NoiseRun(rendered, fake, coins, draws, |rendered|).0)
    }

    /** The body shared by the two `activateRandomNoise` variants, as written. */
    method ActivateOver(sub: Option<Pattern>, idx: seq<nat>, rendered: seq<Color>, fake: seq<Color>,
                        coins: seq<real>, draws: seq<real>)
      returns (outcome: Outcome<LedError>)
      requires Targets(idx, ledBuffer.Length) && |rendered| == |idx| == |fake| == |coins| == |draws|
      modifies this, ledBuffer
      ensures elapsedSeconds == old(elapsedSeconds)
      ensures NoiseEffect(outcome, sub, idx, rendered, fake, coins, draws)
    {
      if sub.None? {
        return Fail(NullPattern);
      }
      ghost var before := ledBuffer[..];
      Paint(idx, rendered);
      if fakeBuffer.None? {
        return Fail(NullBuffer);
      }
      if |fakeBuffer.value| != |idx| {
        fakeBuffer := Some(seq(|idx|, _ => Black));
      }
      outcome := RunNoise(before, idx, rendered, fake, coins, draws);
    }

    /** `activateRandomNoise(pattern)`: the whole buffer. */
    method ActivateRandomNoise(sub: Option<Pattern>, rendered: seq<Color>, fake: seq<Color>, coins: seq<real>, draws: seq<real>)
      returns (outcome: Outcome<LedError>)
      requires |rendered| == ledBuffer.Length == |fake| == |coins| == |draws|
      modifies this, ledBuffer
      ensures elapsedSeconds == old(elapsedSeconds)
      ensures NoiseEffect(outcome, sub, Whole(ledBuffer.Length), rendered, fake, coins, draws)
    {
      WholeTargets(ledBuffer.Length);
      outcome := ActivateOver(sub, Whole(ledBuffer.Length), rendered, fake, coins, draws);
    }

    /** `activateRandomNoise(pattern, bufferView)`: one view. */
    method ActivateRandomNoiseOnView(sub: Option<Pattern>, v: View, rendered: seq<Color>, fake: seq<Color>,
                                     coins: seq<real>, draws: seq<real>)
      returns (outcome: Outcome<LedError>)
      requires v.start < ledBuffer.Length && v.end < ledBuffer.Length
      requires |rendered| == ViewLength(v) == |fake| == |coins| == |draws|
      modifies this, ledBuffer
      ensures elapsedSeconds == old(elapsedSeconds)
      ensures NoiseEffect(outcome, sub, Positions(v), rendered, fake, coins, draws)
    {
      ViewTargets(v, ledBuffer.Length);
      outcome := ActivateOver(sub, Positions(v), rendered, fake, coins, draws);
    }

    /**
     * The activation as evidently intended: a missing or mis-sized scratch
     * buffer is allocated, so a non-null pattern always runs the animation.
     */
    method ActivateOverCorrected(sub: Option<Pattern>, idx: seq<nat>, rendered: seq<Color>, fake: seq<Color>,
                                 coins: seq<real>, draws: seq<real>)
      returns (outcome: Outcome<LedError>)
      requires Targets(idx, ledBuffer.Length) && |rendered| == |idx| == |fake| == |coins| == |draws|
      modifies this, ledBuffer
      ensures elapsedSeconds == old(elapsedSeconds)
      ensures outcome == if sub.None? then Fail(NullPattern) else Pass
      ensures sub.None? ==> ledBuffer[..] == old(ledBuffer[..]) && fakeBuffer == old(fakeBuffer)
      ensures sub.Some? ==>
                && fakeBuffer == Some(fake)
                && WroteAt(ledBuffer[..], old(ledBuffer[..]), idx, NoiseRun(rendered, fake, coins, draws, |rendered|).0)
    {
      if sub.None? {
        return Fail(NullPattern);
      }
      ghost var before := ledBuffer[..];
      Paint(idx, rendered);
      if fakeBuffer.None? || |fakeBuffer.value| != |idx| {
        fakeBuffer := Some(seq(|idx|, _ => Black));
      }
      outcome := RunNoise(before, idx, rendered, fake, coins, draws);
    }

    /** `randomNoiseAnimation`, after the target was painted with `rendered` over `before`. */
    method RunNoise(ghost before: seq<Color>, idx: seq<nat>, ghost rendered: seq<Color>, fake: seq<Color>,
                    coins: seq<real>, draws: seq<real>)
      returns (outcome: Outcome<LedError>)
      requires Targets(idx, ledBuffer.Length) && |rendered| == |idx| == |fake| == |coins| == |draws|
      requires WroteAt(ledBuffer[..], before, idx, rendered)
      modifies this, ledBuffer
      ensures elapsedSeconds == old(elapsedSeconds)
      ensures outcome == Pass && fakeBuffer == Some(fake)
      ensures WroteAt(ledBuffer[..], before, idx, NoiseRun(rendered, fake, coins, draws, |rendered|).0)
    {
      ghost var painted := ledBuffer[..];
      ReadBack(painted, before, idx, rendered);
      RandomNoiseAnimation(idx, fake, coins, draws);
      WroteTwice(before, painted, ledBuffer[..], idx, rendered, NoiseRun(rendered, fake, coins, draws, |rendered|).0);
      outcome := Pass;
    }

    /**
     * `randomNoiseAnimation`: the scratch buffer receives the pattern, the
     * count starts at the target's lit pixels, and each pixel follows `NoiseStep`.
     */
    method RandomNoiseAnimation(idx: seq<nat>, fake: seq<Color>, coins: seq<real>, draws: seq<real>)
      requires Targets(idx, ledBuffer.Length) && |idx| == |fake| == |coins| == |draws|
      modifies this, ledBuffer
      ensures elapsedSeconds == old(elapsedSeconds)
      ensures fakeBuffer == Some(fake)
      ensures WroteAt(ledBuffer[..], old(ledBuffer[..]), idx, NoiseRun(At(old(ledBuffer[..]), idx), fake, coins, draws, |idx|).0)
    {
      fakeBuffer := Some(fake);
      var current := At(ledBuffer[..], idx);
      var ledsOn := CountLitPixels(current);
      NoisePass(idx, current, fake, coins, draws, ledsOn);
    }

    /** The pixel loop of the noise animation over a target holding `current`. */
    method NoisePass(idx: seq<nat>, current: seq<Color>, fake: seq<Color>, coins: seq<real>, draws: seq<real>, lit: nat)
      requires Targets(idx, ledBuffer.Length) && |idx| == |current| == |fake| == |coins| == |draws|
      requires current == At(ledBuffer[..], idx) && lit == CountLit(current)
      modifies ledBuffer
      ensures WroteAt(ledBuffer[..], old(ledBuffer[..]), idx, NoiseRun(current, fake, coins, draws, |idx|).0)
    {
      var ledsOn: int := lit;
      ghost var written: seq<Color> := [];
      for i := 0 to |idx|
        invariant NoiseRun(current, fake, coins, draws, i) == (written, ledsOn)
        invariant forall j :: 0 <= j < |idx| ==> ledBuffer[idx[j]] == if j < i then written[j] else current[j]
        invariant forall k :: 0 <= k < ledBuffer.Length && k !in idx ==> ledBuffer[k] == old(ledBuffer[k])
      {
        ledsOn, written := NoiseAt(idx, current, fake, coins, draws, i, ledsOn, written);
      }
    }

    /** The noise loop's body at pixel `i`: it keeps the loop's invariants from `i` to `i + 1`. */
    method NoiseAt(idx: seq<nat>, current: seq<Color>, fake: seq<Color>, coins: seq<real>, draws: seq<real>,
                   i: nat, ledsOn: int, ghost written: seq<Color>)
      returns (after: int, ghost written': seq<Color>)
      requires Targets(idx, ledBuffer.Length) && |idx| == |current| == |fake| == |coins| == |draws| && i < |idx|
      requires NoiseRun(current, fake, coins, draws, i) == (written, ledsOn)
      requires forall j :: 0 <= j < |idx| ==> ledBuffer[idx[j]] == if j < i then written[j] else current[j]
      modifies ledBuffer
      ensures NoiseRun(current, fake, coins, draws, i + 1) == (written', after)
      ensures forall j :: 0 <= j < |idx| ==> ledBuffer[idx[j]] == if j < i + 1 then written'[j] else current[j]
      ensures forall k :: 0 <= k < ledBuffer.Length && k !in idx ==> ledBuffer[k] == old(ledBuffer[k])
    {
      var step := NoiseStep(|idx|, ledsOn, current[i], fake[i], coins[i], draws[i]);
      assert forall j :: 0 <= j < |idx| && j != i ==> idx[j] != idx[i];
      assert idx[i] in idx;
      after := NoisePixel(idx[i], |idx|, ledsOn, current[i], fake[i], coins[i], draws[i]);
      written' := written + [step.color];
    }

    /** One pixel of the noise loop at buffer index `p`, which holds `prior`. */
    method NoisePixel(p: nat, length: nat, ledsOn: int, prior: Color, fake: Color, coin: real, draw: real)
      returns (after: int)
      requires p < ledBuffer.Length && ledBuffer[p] == prior
      modifies ledBuffer
      ensures ledBuffer[..] == old(ledBuffer[..])[p := NoiseStep(length, ledsOn, prior, fake, coin, draw).color]
      ensures after == NoiseStep(length, ledsOn, prior, fake, coin, draw).ledsOn
    {
      after := ledsOn;
      if after == 0 || coin > 0.5 {
        ledBuffer[p] := fake;
        after := after + 1;
      }
      if draw * length as real < after as real * 0.5 {
        ledBuffer[p] := Black;
        after := after - 1;
      }
    }
  }

  /**
   * The scratch buffer is never created: every activation on a fresh subsystem
   * leaves it null and fails once the pattern is painted.
   */
  method NoiseNeverRuns(port: int, length: nat, sub: Pattern, rendered: seq<Color>, fake: seq<Color>,
                        coins: seq<real>, draws: seq<real>)
    returns (first: Outcome<LedError>, second: Outcome<LedError>)
    requires |rendered| == length == |fake| == |coins| == |draws|
    ensures first == Fail(NullBuffer) && second == Fail(NullBuffer)
  {
    var leds := new Leds(port, length, None);
    first := leds.ActivateRandomNoise(Some(sub), rendered, fake, coins, draws);
    second := leds.ActivateRandomNoise(Some(sub), rendered, fake, coins, draws);
  }

  class Section {
    const leds: Leds
    const view: View
    var pattern: Option<Pattern>
    var durationSeconds: real
    var elapsedSeconds: real

    /** The view lies inside the owner's buffer. */
    predicate Fits() {
      view.start < leds.ledBuffer.Length && view.end < leds.ledBuffer.Length
    }

    function TimerState(): LedSections.Timer
      reads this
    {
      LedSections.Timer(pattern, durationSeconds, elapsedSeconds)
    }

    /** `getLength()`: the view's length. */
    function Length(): nat {
      ViewLength(view)
    }

    /** A new section shows the default pattern forever, with the owner's elapsed time. */
    constructor (leds: Leds, start: nat, end: nat)
      requires start < leds.ledBuffer.Length && end < leds.ledBuffer.Length
      ensures this.leds == leds && view == View(start, end) && Fits()
      ensures TimerState() == LedSections.Timer(leds.defaultPattern, LedSections.InfiniteDuration, leds.elapsedSeconds)
    {
      this.leds := leds;
      view := View(start, end);
      pattern := leds.defaultPattern;
      durationSeconds := LedSections.InfiniteDuration;
      elapsedSeconds := leds.elapsedSeconds;
    }

    /** `setPattern(pattern, durationSeconds)`. */
    method SetPattern(p: Option<Pattern>, duration: real)
      modifies this
      ensures TimerState() == LedSections.Timer(p, duration, 0.0)
    {
      pattern := p;
      durationSeconds := duration;
      elapsedSeconds := 0.0;
    }

    /** `setPattern(pattern)`: no time limit. */
    method SetPatternForever(p: Option<Pattern>)
      modifies this
      ensures TimerState() == LedSections.Timer(p, LedSections.InfiniteDuration, 0.0)
    {
      SetPattern(p, LedSections.InfiniteDuration);
    }

    /** `update()`: the shared section timer, falling back to the default pattern. */
    method Update()
      modifies this
      ensures TimerState() == LedSections.Tick(old(TimerState()), DeltaSeconds, leds.defaultPattern)
    {
      if durationSeconds != LedSections.InfiniteDuration {
        elapsedSeconds := elapsedSeconds + DeltaSeconds;
        if elapsedSeconds >= durationSeconds {
          pattern := leds.defaultPattern;
          durationSeconds := LedSections.InfiniteDuration;
          elapsedSeconds := 0.0;
        }
      }
    }

    /**
     * `update(logic, subPattern)`: on expiry run the fire animation on this
     * view or the noise animation on the whole buffer, then stop timing. The
     * section's own pattern is never replaced, and a failing animation
     * leaves the timer where the step put it.
     */
    method UpdateWithLogic(logic: string, sub: Option<Pattern>, d: Draws) returns (outcome: Outcome<LedError>)
      requires Fits()
      requires |d.view| == Length() == |d.flicker|
      requires |d.buffer| == leds.ledBuffer.Length == |d.fake| == |d.coins| == |d.noise|
      modifies this, leds, leds.ledBuffer
      ensures pattern == old(pattern)
      ensures leds.elapsedSeconds == old(leds.elapsedSeconds)
      ensures !Expires(old(TimerState())) ==>
                && outcome == Pass
                && TimerState() == LedSections.Tick(old(TimerState()), DeltaSeconds, pattern)
                && leds.ledBuffer[..] == old(leds.ledBuffer[..]) && leds.fakeBuffer == old(leds.fakeBuffer)
      ensures Expires(old(TimerState())) ==>
                TimerState() == if outcome == Pass then LedSections.Timer(pattern, LedSections.InfiniteDuration, 0.0)
                                else LedSections.Timer(pattern, old(durationSeconds), old(elapsedSeconds) + DeltaSeconds)
      ensures Expires(old(TimerState())) && logic == "fire" ==>
                leds.FireEffect(outcome, sub, Positions(view), d.view, d.flicker, FireDivisor)
      ensures Expires(old(TimerState())) && logic == "noise" ==>
                leds.NoiseEffect(outcome, sub, Whole(leds.ledBuffer.Length), d.buffer, d.fake, d.coins, d.noise)
      ensures Expires(old(TimerState())) && logic != "fire" && logic != "noise" ==>
                outcome == Pass && leds.ledBuffer[..] == old(leds.ledBuffer[..]) && leds.fakeBuffer == old(leds.fakeBuffer)
    {
      outcome := Pass;
      if durationSeconds != LedSections.InfiniteDuration {
        elapsedSeconds := elapsedSeconds + DeltaSeconds;
        if elapsedSeconds >= durationSeconds {
          if logic == "fire" {
            outcome := leds.FireAnimationOnView(sub, view, d.view, d.flicker);
          } else if logic == "noise" {
            outcome := leds.ActivateRandomNoise(sub, d.buffer, d.fake, d.coins, d.noise);
          }
          if outcome.Fail? {
            return;
          }
          durationSeconds := LedSections.InfiniteDuration;
          elapsedSeconds := 0.0;
        }
      }
    }
  }
}
