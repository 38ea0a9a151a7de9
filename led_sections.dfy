/**
 * Sections of an addressable LED strip: how a list of signed section
 * lengths carves the strip into forward and reversed index ranges, and the
 * per-section timer that shows a pattern for a while and then falls back to
 * a base pattern. The three strip classes share both.
 */
module LedSections {
  import opened Wrappers
  import opened LedPatterns

  /** The duration that never expires. */
  const InfiniteDuration: real := -1.0

  /** The time step `periodic` advances every section by. */
  const PeriodicSeconds: real := 0.02

  // ------------------------------------------------------------------ layout

  /** A buffer view from `start` to `end` inclusive; `start > end` is a reversed view. */
  datatype Bounds = Bounds(start: int, end: int)

  function Magnitude(n: int): nat {
    if n < 0 then -n else n
  }

  /** The view a section of signed length `length` gets at running index `index`. */
  function SectionBounds(index: int, length: int): Bounds {
    if length < 0 then Bounds(index - length - 1, index) else Bounds(index, index + length - 1)
  }

  /** Which overrun test a strip applies to each section. */
  datatype LengthCheck = Unchecked | AsWritten | Corrected

  /**
   * Whether a section of signed length `length` at `index` is refused as
   * exceeding a strip of `stripLength` LEDs. As written the test adds the
   * signed length, so for a reversed section it reduces to `index > stripLength`;
   * the corrected test adds the section's size.
   */
  predicate Overruns(check: LengthCheck, stripLength: int, index: int, length: int) {
    match check
    case Unchecked => false
    case AsWritten => index + length > stripLength || index > stripLength
    case Corrected => index + Magnitude(length) > stripLength
  }

  /** The sections carved so far and the running index, or the exception that stopped the carving. */
  datatype Layout = Layout(bounds: seq<Bounds>, next: int) | Invalid(error: LedError)

  /** The constructor loop over the first `k` section lengths. */
  function Carve(stripLength: int, lengths: seq<int>, check: LengthCheck, k: nat): (r: Layout)
    requires k <= |lengths|
    ensures r.Layout? ==> |r.bounds| == k
  {
    if k == 0 then Layout([], 0)
    else match Carve(stripLength, lengths, check, k - 1)
      case Invalid(e) => Invalid(e)
      case Layout(bounds, index) =>
        var length := lengths[k - 1];
        if length == 0 then Invalid(ZeroLength)
        else if Overruns(check, stripLength, index, length) then Invalid(ExceedsStrip)
        else Layout(bounds + [SectionBounds(index, length)], index + Magnitude(length))
  }

  /** Total size of the first `k` sections. */
  function SizeBefore(lengths: seq<int>, k: nat): nat
    requires k <= |lengths|
  {
    if k == 0 then 0 else SizeBefore(lengths, k - 1) + Magnitude(lengths[k - 1])
  }

  /** A section is accepted at the index where the earlier sections end. */
  predicate Acceptable(stripLength: int, lengths: seq<int>, check: LengthCheck, j: nat)
    requires j < |lengths|
  {
    lengths[j] != 0 && !Overruns(check, stripLength, SizeBefore(lengths, j), lengths[j])
  }

  /** The running index after `k` accepted sections is their total size. */
  lemma {:induction false} CarveNext(stripLength: int, lengths: seq<int>, check: LengthCheck, k: nat)
    requires k <= |lengths| && Carve(stripLength, lengths, check, k).Layout?
    ensures Carve(stripLength, lengths, check, k).next == SizeBefore(lengths, k)
  {
    if k > 0 {
      CarveNext(stripLength, lengths, check, k - 1);
    }
  }

  /** The carving succeeds iff every section is non-empty and passes the check at its running index. */
  lemma {:induction false} CarveAccepts(stripLength: int, lengths: seq<int>, check: LengthCheck, k: nat)
    requires k <= |lengths|
    ensures Carve(stripLength, lengths, check, k).Layout? <==>
            forall j :: 0 <= j < k ==> Acceptable(stripLength, lengths, check, j)
  {
    if k > 0 {
      CarveAccepts(stripLength, lengths, check, k - 1);
      if Carve(stripLength, lengths, check, k - 1).Layout? {
        CarveNext(stripLength, lengths, check, k - 1);
        assert Carve(stripLength, lengths, check, k).Layout? <==> Acceptable(stripLength, lengths, check, k - 1);
      } else {
        assert Carve(stripLength, lengths, check, k).Invalid?;
      }
    }
  }

  /** Accepted sections lie back to back in argument order. */
  lemma {:induction false} CarveBounds(stripLength: int, lengths: seq<int>, check: LengthCheck, k: nat, j: nat)
    requires j < k <= |lengths| && Carve(stripLength, lengths, check, k).Layout?
    ensures Carve(stripLength, lengths, check, k).bounds[j] == SectionBounds(SizeBefore(lengths, j), lengths[j])
  {
    var previous := Carve(stripLength, lengths, check, k - 1);
    assert previous.Layout?;
    if j < k - 1 {
      CarveBounds(stripLength, lengths, check, k - 1, j);
      assert Carve(stripLength, lengths, check, k).bounds[j] == previous.bounds[j];
    } else {
      CarveNext(stripLength, lengths, check, k - 1);
    }
  }

  /**
   * The carving succeeds iff every section is non-empty and passes the
   * check; then the sections lie back to back in argument order and the
   * running index ends at the total size.
   */
  lemma CarveShape(stripLength: int, lengths: seq<int>, check: LengthCheck, k: nat)
    requires k <= |lengths|
    ensures Carve(stripLength, lengths, check, k).Layout? <==>
            forall j :: 0 <= j < k ==> Acceptable(stripLength, lengths, check, j)
    ensures Carve(stripLength, lengths, check, k).Layout? ==>
            && Carve(stripLength, lengths, check, k).next == SizeBefore(lengths, k)
            && forall j :: 0 <= j < k ==>
                 Carve(stripLength, lengths, check, k).bounds[j] == SectionBounds(SizeBefore(lengths, j), lengths[j])
  {
    CarveAccepts(stripLength, lengths, check, k);
    if Carve(stripLength, lengths, check, k).Layout? {
      CarveNext(stripLength, lengths, check, k);
      forall j | 0 <= j < k
        ensures Carve(stripLength, lengths, check, k).bounds[j] == SectionBounds(SizeBefore(lengths, j), lengths[j])
      {
        CarveBounds(stripLength, lengths, check, k, j);
      }
    }
  }

  /** The first section that is empty or fails the check is the one reported. */
  lemma {:induction false} CarveError(stripLength: int, lengths: seq<int>, check: LengthCheck, k: nat, j: nat)
    requires j < k <= |lengths|
    requires forall i :: 0 <= i < j ==> Acceptable(stripLength, lengths, check, i)
    requires !Acceptable(stripLength, lengths, check, j)
    ensures Carve(stripLength, lengths, check, k)
            == Invalid(if lengths[j] == 0 then ZeroLength else ExceedsStrip)
    decreases k
  {
    if k - 1 > j {
      CarveError(stripLength, lengths, check, k - 1, j);
    } else {
      CarveAccepts(stripLength, lengths, check, j);
      CarveNext(stripLength, lengths, check, j);
    }
  }

  /** Without a length check only an empty section is refused. */
  lemma UncheckedRefusesOnlyEmpty(stripLength: int, lengths: seq<int>)
    ensures Carve(stripLength, lengths, Unchecked, |lengths|).Layout? <==>
            forall j :: 0 <= j < |lengths| ==> lengths[j] != 0
  {
    CarveShape(stripLength, lengths, Unchecked, |lengths|);
    assert forall j :: 0 <= j < |lengths| ==> (Acceptable(stripLength, lengths, Unchecked, j) <==> lengths[j] != 0);
  }

  /**
   * As written, every section but the last starts and ends inside the strip,
   * and so does every forward section; only a final reversed section can
   * run past the end.
   */
  lemma AsWrittenOnlyLastOverruns(stripLength: int, lengths: seq<int>)
    requires Carve(stripLength, lengths, AsWritten, |lengths|).Layout?
    ensures forall j :: 0 < j < |lengths| ==> SizeBefore(lengths, j) <= stripLength
    ensures forall j :: 0 <= j < |lengths| && lengths[j] > 0 ==> SizeBefore(lengths, j + 1) <= stripLength
  {
    CarveShape(stripLength, lengths, AsWritten, |lengths|);
    forall j | 0 < j < |lengths|
      ensures SizeBefore(lengths, j) <= stripLength
    {
      assert Acceptable(stripLength, lengths, AsWritten, j);
    }
    forall j | 0 <= j < |lengths| && lengths[j] > 0
      ensures SizeBefore(lengths, j + 1) <= stripLength
    {
      assert Acceptable(stripLength, lengths, AsWritten, j);
    }
  }

  /** A 10-LED strip accepts one reversed section of 15: the view runs from 14 down to 0. */
  lemma ReversedOverrunAccepted()
    ensures Carve(10, [-15], AsWritten, 1) == Layout([Bounds(14, 0)], 15)
  {
  }

  /** With the corrected test every accepted section lies inside the strip. */
  lemma CorrectedFits(stripLength: int, lengths: seq<int>)
    requires stripLength >= 0 && Carve(stripLength, lengths, Corrected, |lengths|).Layout?
    ensures Carve(stripLength, lengths, Corrected, |lengths|).next <= stripLength
    ensures forall j :: 0 <= j < |lengths| ==>
              var b := Carve(stripLength, lengths, Corrected, |lengths|).bounds[j];
              0 <= b.start < stripLength && 0 <= b.end < stripLength
  {
    var n := |lengths|;
    CarveShape(stripLength, lengths, Corrected, n);
    var layout := Carve(stripLength, lengths, Corrected, n);
    if n > 0 {
      assert Acceptable(stripLength, lengths, Corrected, n - 1);
    }
    forall j | 0 <= j < n
      ensures 0 <= layout.bounds[j].start < stripLength && 0 <= layout.bounds[j].end < stripLength
    {
      assert Acceptable(stripLength, lengths, Corrected, j);
      assert layout.bounds[j] == SectionBounds(SizeBefore(lengths, j), lengths[j]);
    }
  }

  /** On layouts that fit the strip, the written and the corrected check agree. */
  lemma ChecksAgreeWhenFitting(stripLength: int, lengths: seq<int>)
    requires forall j :: 0 <= j < |lengths| ==> lengths[j] != 0
    requires SizeBefore(lengths, |lengths|) <= stripLength
    ensures Carve(stripLength, lengths, AsWritten, |lengths|) == Carve(stripLength, lengths, Corrected, |lengths|)
    ensures Carve(stripLength, lengths, Corrected, |lengths|).Layout?
  {
    var n := |lengths|;
    forall j | 0 <= j < n
      ensures Acceptable(stripLength, lengths, AsWritten, j) && Acceptable(stripLength, lengths, Corrected, j)
    {
      SizeBeforeGrows(lengths, j + 1, n);
    }
    CarveShape(stripLength, lengths, AsWritten, n);
    CarveShape(stripLength, lengths, Corrected, n);
    var a := Carve(stripLength, lengths, AsWritten, n);
    var c := Carve(stripLength, lengths, Corrected, n);
    assert a.bounds == c.bounds;
  }

  /** Running sizes only grow. */
  lemma {:induction false} SizeBeforeGrows(lengths: seq<int>, j: nat, k: nat)
    requires j <= k <= |lengths|
    ensures SizeBefore(lengths, j) <= SizeBefore(lengths, k)
    decreases k
  {
    if j < k {
      SizeBeforeGrows(lengths, j, k - 1);
    }
  }

  // ------------------------------------------------------------------- timer

  /** A section's shown pattern (`None` is a null pattern) and its timing. */
  datatype Timer = Timer(pattern: Option<Pattern>, durationSeconds: real, elapsedSeconds: real)

  /**
   * One `update(dt)` of the timer: an infinite duration stays as it is;
   * otherwise the time accumulates and, once it reaches the duration, the
   * base pattern takes over for good.
   */
  function Tick(t: Timer, dt: real, base: Option<Pattern>): Timer {
    if t.durationSeconds == InfiniteDuration then t
    else if t.elapsedSeconds + dt >= t.durationSeconds then Timer(base, InfiniteDuration, 0.0)
    else Timer(t.pattern, t.durationSeconds, t.elapsedSeconds + dt)
  }

  /** `n` updates in a row. */
  function Ticks(t: Timer, dt: real, base: Option<Pattern>, n: nat): Timer {
    if n == 0 then t else Tick(Ticks(t, dt, base, n - 1), dt, base)
  }

  /** A timed pattern is kept, with the elapsed time counting up, while `n` steps stay short of the duration. */
  lemma {:induction false} KeptBeforeExpiry(p: Option<Pattern>, duration: real, dt: real, base: Option<Pattern>, n: nat)
    requires duration != InfiniteDuration && dt >= 0.0 && n as real * dt < duration
    ensures Ticks(Timer(p, duration, 0.0), dt, base, n) == Timer(p, duration, n as real * dt)
  {
    if n > 0 {
      StepTime(n, dt);
      KeptBeforeExpiry(p, duration, dt, base, n - 1);
    }
  }

  /** `n` steps of `dt` are one step more than `n - 1`. */
  lemma StepTime(n: nat, dt: real)
    requires n >= 1
    ensures n as real * dt == (n - 1) as real * dt + dt
  {
    assert n as real == (n - 1) as real + 1.0;
  }

  /** The first step that reaches the duration installs the base pattern with an infinite duration. */
  lemma ExpiresAt(p: Option<Pattern>, duration: real, dt: real, base: Option<Pattern>, n: nat)
    requires duration != InfiniteDuration && dt >= 0.0 && n >= 1
    requires (n - 1) as real * dt < duration <= n as real * dt
    ensures Ticks(Timer(p, duration, 0.0), dt, base, n) == Timer(base, InfiniteDuration, 0.0)
    ensures forall m :: n <= m ==> Ticks(Timer(p, duration, 0.0), dt, base, m) == Timer(base, InfiniteDuration, 0.0)
  {
    StepTime(n, dt);
    KeptBeforeExpiry(p, duration, dt, base, n - 1);
    forall m | n <= m
      ensures Ticks(Timer(p, duration, 0.0), dt, base, m) == Timer(base, InfiniteDuration, 0.0)
    {
      StaysInfinite(Timer(p, duration, 0.0), dt, base, n, m);
    }
  }

  /** Once the duration is infinite, further updates change nothing. */
  lemma {:induction false} StaysInfinite(t: Timer, dt: real, base: Option<Pattern>, n: nat, m: nat)
    requires n <= m && Ticks(t, dt, base, n).durationSeconds == InfiniteDuration
    ensures Ticks(t, dt, base, m) == Ticks(t, dt, base, n)
    decreases m
  {
    if m > n {
      StaysInfinite(t, dt, base, n, m - 1);
    }
  }

  /**
   * A section of the strip: its view bounds, its timer fields, the pattern it
   * falls back to, and the pattern last applied to its view.
   */
  class Section {
    const bounds: Bounds
    var pattern: Option<Pattern>
    var durationSeconds: real
    var elapsedSeconds: real
    var basePattern: Option<Pattern>
    var shown: Option<Pattern>

    function TimerState(): Timer
      reads this
    {
      Timer(pattern, durationSeconds, elapsedSeconds)
    }

    /** A new section shows nothing yet, holds the "off" pattern forever and has no base. */
    constructor (bounds: Bounds)
      ensures this.bounds == bounds
      ensures TimerState() == Timer(Some(Off), InfiniteDuration, 0.0)
      ensures basePattern == None && shown == None
    {
      this.bounds := bounds;
      pattern := Some(Off);
      durationSeconds := InfiniteDuration;
      elapsedSeconds := 0.0;
      basePattern := None;
      shown := None;
    }

    /** The number of LEDs in the view. */
    function Length(): nat
      reads this
    {
      Magnitude(bounds.end - bounds.start) + 1
    }

    /** `setPattern(pattern, durationSeconds)`: show `p` for `duration` seconds from now. */
    method SetPattern(p: Option<Pattern>, duration: real)
      modifies this
      ensures TimerState() == Timer(p, duration, 0.0)
      ensures basePattern == old(basePattern) && shown == old(shown)
    {
      pattern := p;
      durationSeconds := duration;
      elapsedSeconds := 0.0;
    }

    /** `setPattern(pattern)`: show `p` with no time limit. */
    method SetPatternForever(p: Option<Pattern>)
      modifies this
      ensures TimerState() == Timer(p, InfiniteDuration, 0.0)
      ensures basePattern == old(basePattern) && shown == old(shown)
    {
      SetPattern(p, InfiniteDuration);
    }

    /** `setBase(pattern)`: a null argument leaves the base pattern as it was. */
    method SetBase(p: Option<Pattern>)
      modifies this
      ensures basePattern == if p.Some? then p else old(basePattern)
      ensures TimerState() == old(TimerState()) && shown == old(shown)
    {
      if p.Some? {
        basePattern := p;
      }
    }

    /**
     * `update(dt)`: advance the timer, then apply the current pattern to the
     * view; a null pattern throws after the timer has moved.
     */
    method Update(dt: real) returns (outcome: Outcome<LedError>)
      modifies this
      ensures TimerState() == Tick(old(TimerState()), dt, basePattern)
      ensures basePattern == old(basePattern)
      ensures outcome == (if pattern.None? then Fail(NullPattern) else Pass)
      ensures shown == if pattern.None? then old(shown) else pattern
    {
      if durationSeconds != InfiniteDuration {
        elapsedSeconds := elapsedSeconds + dt;
        if elapsedSeconds >= durationSeconds {
          SetPatternForever(basePattern);
        }
      }
      if pattern.None? {
        return Fail(NullPattern);
      }
      shown := pattern;
      outcome := Pass;
    }
  }

  /**
   * `periodic`: update every section by 0.02 s in list order. A null pattern
   * throws out of the loop, so the sections after it are not updated.
   */
  method UpdateAll(sections: seq<Section>) returns (outcome: Outcome<LedError>, ghost failedAt: nat)
    requires forall i, j :: 0 <= i < j < |sections| ==> sections[i] != sections[j]
    modifies sections
    ensures failedAt <= |sections|
    ensures outcome == if failedAt < |sections| then Fail(NullPattern) else Pass
    ensures forall j :: 0 <= j < |sections| ==> sections[j].basePattern == old(sections[j].basePattern)
    ensures forall j :: 0 <= j < |sections| ==>
              sections[j].TimerState() ==
                if j <= failedAt then Tick(old(sections[j].TimerState()), PeriodicSeconds, sections[j].basePattern)
                else old(sections[j].TimerState())
    ensures forall j :: 0 <= j < failedAt ==> sections[j].pattern.Some?
    ensures failedAt < |sections| ==> sections[failedAt].pattern.None?
    ensures forall j :: 0 <= j < |sections| ==>
              sections[j].shown == if j < failedAt then sections[j].pattern else old(sections[j].shown)
  {
    outcome := Pass;
    var i := 0;
    while i < |sections|
      invariant 0 <= i <= |sections| && outcome == Pass
      invariant forall j :: 0 <= j < |sections| ==> sections[j].basePattern == old(sections[j].basePattern)
      invariant forall j :: 0 <= j < i ==>
                  sections[j].TimerState() == Tick(old(sections[j].TimerState()), PeriodicSeconds, sections[j].basePattern)
                  && sections[j].pattern.Some? && sections[j].shown == sections[j].pattern
      invariant forall j :: i <= j < |sections| ==>
                  sections[j].TimerState() == old(sections[j].TimerState()) && sections[j].shown == old(sections[j].shown)
    {
      outcome := sections[i].Update(PeriodicSeconds);
      if outcome.Fail? {
        failedAt := i;
        return;
      }
      i := i + 1;
    }
    failedAt := |sections|;
  }
}
