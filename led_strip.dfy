/**
 * The LED strip subsystems: a buffer of `length` LEDs carved into sections,
 * and optionally the PWM strip object that shows the buffer. The three
 * strip classes differ in when the strip object exists and in the section
 * length check:
 *  - the abstract strip checks lengths and starts without a strip object,
 *    which `InitializeLeds` creates and `DisableLeds` drops;
 *  - the library strip checks lengths and creates the strip object on the
 *    given port;
 *  - the earlier strip creates the strip object and does not check lengths.
 */
module LedStrips {
  import opened Wrappers
  import opened LedPatterns
  import opened LedSections

  /** A section as the constructor creates it: off, forever, with no base pattern. */
  predicate Initial(s: Section)
    reads s
  {
    s.TimerState() == Timer(Some(Off), InfiniteDuration, 0.0) && s.basePattern == None && s.shown == None
  }

  class LedStrip {
    const length: int
    const sections: seq<Section>
    /** The port of the strip object, or `None` when there is none. */
    var port: Option<int>

    ghost predicate Valid()
      reads this
    {
      forall i, j :: 0 <= i < j < |sections| ==> sections[i] != sections[j]
    }

    constructor (length: int, sections: seq<Section>, port: Option<int>)
      ensures this.length == length && this.sections == sections && this.port == port
    {
      this.length := length;
      this.sections := sections;
      this.port := port;
    }

    /** The abstract strip's constructor: checked layout, no strip object yet. */
    static method NewAbstract(length: int, lengths: seq<int>) returns (r: Result<LedStrip, LedError>)
      ensures length < 0 ==> r == Err(NegativeLength)
      ensures length >= 0 ==> Built(r, length, lengths, AsWritten, None)
    {
      if length < 0 {
        return Err(NegativeLength);
      }
      var sections := BuildSections(length, lengths, AsWritten);
      if sections.Err? {
        return Err(sections.error);
      }
      var strip := new LedStrip(length, sections.value, None);
      return Ok(strip);
    }

    /** The library strip's constructor: strip object on `port`, checked layout. */
    static method NewOnPort(port: int, length: int, lengths: seq<int>) returns (r: Result<LedStrip, LedError>)
      ensures length < 0 ==> r == Err(NegativeLength)
      ensures length >= 0 ==> Built(r, length, lengths, AsWritten, Some(port))
    {
      if length < 0 {
        return Err(NegativeLength);
      }
      var sections := BuildSections(length, lengths, AsWritten);
      if sections.Err? {
        return Err(sections.error);
      }
      var strip := new LedStrip(length, sections.value, Some(port));
      return Ok(strip);
    }

    /** The earlier strip's constructor: strip object on `port`, only empty sections refused. */
    static method NewUnchecked(port: int, length: int, lengths: seq<int>) returns (r: Result<LedStrip, LedError>)
      ensures length < 0 ==> r == Err(NegativeLength)
      ensures length >= 0 ==> Built(r, length, lengths, Unchecked, Some(port))
    {
      if length < 0 {
        return Err(NegativeLength);
      }
      var sections := BuildSections(length, lengths, Unchecked);
      if sections.Err? {
        return Err(sections.error);
      }
      var strip := new LedStrip(length, sections.value, Some(port));
      return Ok(strip);
    }

    /** `initializeLEDS(port)`: the strip object now exists on `p`. */
    method InitializeLeds(p: int)
      modifies this
      ensures port == Some(p) && IsStripReal()
    {
      port := Some(p);
    }

    /** `disableLEDS()`: close and drop the strip object, if any. */
    method DisableLeds()
      modifies this
      ensures port == None && !IsStripReal()
    {
      if port.Some? {
        port := None;
      }
    }

    /** `isStripReal()`: whether a strip object exists. */
    predicate IsStripReal()
      reads this
    {
      port.Some?
    }

    /**
     * `periodic()`: update every section by 0.02 s in order; a null pattern
     * throws and the sections after it are not updated.
     */
    method Periodic() returns (outcome: Outcome<LedError>, ghost failedAt: nat)
      requires Valid()
      modifies sections
      ensures failedAt <= |sections|
      ensures outcome == if failedAt < |sections| then Fail(NullPattern) else Pass
      ensures forall j :: 0 <= j < |sections| ==> sections[j].basePattern == old(sections[j].basePattern)
      ensures forall j :: 0 <= j < |sections| ==>
                sections[j].TimerState() ==
                  if j <= failedAt then Tick(old(sections[j].TimerState()), PeriodicSeconds, sections[j].basePattern)
                  else old(sections[j].TimerState())
      ensures forall j :: 0 <= j < failedAt ==> sections[j].pattern.Some?
      ensures failedAt < |sections| ==> sections[failedAt].pattern.None?
      ensures forall j :: 0 <= j < |sections| ==>
                sections[j].shown == if j < failedAt then sections[j].pattern else old(sections[j].shown)
    {
      outcome, failedAt := UpdateAll(sections);
    }
  }

  /** What a successful constructor yields: a fresh strip whose sections follow `Carve`. */
  twostate predicate Built(new r: Result<LedStrip, LedError>, length: int, lengths: seq<int>, check: LengthCheck,
                           port: Option<int>)
    reads if r.Ok? then {r.value} else {}
    reads if r.Ok? then r.value.sections else []
  {
    var layout := Carve(length, lengths, check, |lengths|);
    && (r.Ok? <==> layout.Layout?)
    && (r.Err? ==> layout.Invalid? && r.error == layout.error)
    && (r.Ok? ==>
          && fresh(r.value)
          && r.value.length == length && r.value.port == port && r.value.Valid()
          && |r.value.sections| == |layout.bounds|
          && forall j :: 0 <= j < |layout.bounds| ==>
               fresh(r.value.sections[j]) && r.value.sections[j].bounds == layout.bounds[j] && Initial(r.value.sections[j]))
  }

  /** The constructor loop: walk the signed lengths with a running index, refusing as `check` says. */
  method BuildSections(length: int, lengths: seq<int>, check: LengthCheck) returns (r: Result<seq<Section>, LedError>)
    ensures var layout := Carve(length, lengths, check, |lengths|);
            && (r.Ok? <==> layout.Layout?)
            && (r.Err? ==> layout.Invalid? && r.error == layout.error)
            && (r.Ok? ==>
                  && |r.value| == |layout.bounds|
                  && (forall i, j :: 0 <= i < j < |r.value| ==> r.value[i] != r.value[j])
                  && forall j :: 0 <= j < |r.value| ==>
                       fresh(r.value[j]) && r.value[j].bounds == layout.bounds[j] && Initial(r.value[j]))
  {
    var list: seq<Section> := [];
    var index := 0;
    for k := 0 to |lengths|
      invariant Carve(length, lengths, check, k) == Layout(seq(|list|, j requires 0 <= j < |list| => list[j].bounds), index)
      invariant forall j :: 0 <= j < |list| ==> fresh(list[j]) && Initial(list[j])
      invariant forall i, j :: 0 <= i < j < |list| ==> list[i] != list[j]
    {
      var sectionLength := lengths[k];
      if sectionLength == 0 {
        CarveStops(length, lengths, check, k, ZeroLength);
        return Err(ZeroLength);
      }
      if Overruns(check, length, index, sectionLength) {
        CarveStops(length, lengths, check, k, ExceedsStrip);
        return Err(ExceedsStrip);
      }
      var section := new Section(SectionBounds(index, sectionLength));
      list := list + [section];
      index := index + Magnitude(sectionLength);
    }
    return Ok(list);
  }

  /** Once the carving fails at section `k`, it fails with the same error for the whole list. */
  lemma {:induction false} CarveStops(length: int, lengths: seq<int>, check: LengthCheck, k: nat, e: LedError)
    requires k < |lengths|
    requires Carve(length, lengths, check, k + 1) == Invalid(e)
    ensures Carve(length, lengths, check, |lengths|) == Invalid(e)
    decreases |lengths| - k
  {
    if k + 1 < |lengths| {
      CarveStops(length, lengths, check, k + 1, e);
    }
  }
}
