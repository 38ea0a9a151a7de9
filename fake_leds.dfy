/**
 * The example strip: 100 LEDs carved into a forward section of 25, a
 * reversed section of 25 and a forward section of 50, each falling back to
 * the new fire over the "fun" gradient, shifted toward red, green and blue.
 * `Start` shows solid purple on all three for two seconds.
 */
module FakeLeds {
  import opened Wrappers
  import opened Colors
  import opened LedPatterns
  import opened LedSections
  import opened LedStrips

  const StripLength: int := 100
  const Lengths: seq<int> := [25, -25, 50]

  /** The colour `kPurple` (0x800080). */
  const Purple: Color := Color(128, 0, 128)

  /** The pattern `Start` shows, and for how long. */
  const StartPattern: Pattern := Solid(Purple)
  const StartSeconds: real := 2.0

  /** The base pattern of each section: the default-period fire over the gradient, shifted toward `shift`. */
  function BaseFor(shift: Shift): Pattern {
    DefaultFire(Named("funGradient"), shift)
  }

  /**
   * The three sections are [0..24], the reversed [49..25] and [50..99]; they
   * cover the strip exactly, and the corrected overrun test carves the same.
   */
  lemma FakeLayout()
    ensures Carve(StripLength, Lengths, AsWritten, |Lengths|) == Layout([Bounds(0, 24), Bounds(49, 25), Bounds(50, 99)], StripLength)
    ensures Carve(StripLength, Lengths, Corrected, |Lengths|) == Carve(StripLength, Lengths, AsWritten, |Lengths|)
  {
    assert SizeBefore(Lengths, 1) == 25 && SizeBefore(Lengths, 2) == 50 && SizeBefore(Lengths, 3) == 100;
    assert Carve(StripLength, Lengths, AsWritten, 1) == Layout([Bounds(0, 24)], 25);
    assert Carve(StripLength, Lengths, AsWritten, 2) == Layout([Bounds(0, 24), Bounds(49, 25)], 50);
    ChecksAgreeWhenFitting(StripLength, Lengths);
  }

  /**
   * After `Start`, the purple pattern survives 99 periodic updates and the
   * 100th (two seconds at 0.02 s each) puts the base pattern back for good.
   */
  lemma {:induction false} StartLastsTwoSeconds(base: Option<Pattern>)
    ensures Ticks(Timer(Some(StartPattern), StartSeconds, 0.0), PeriodicSeconds, base, 99).pattern == Some(StartPattern)
    ensures forall n :: 100 <= n ==>
              Ticks(Timer(Some(StartPattern), StartSeconds, 0.0), PeriodicSeconds, base, n) == Timer(base, InfiniteDuration, 0.0)
  {
    assert 99 as real * PeriodicSeconds < StartSeconds;
    KeptBeforeExpiry(Some(StartPattern), StartSeconds, PeriodicSeconds, base, 99);
    assert (100 - 1) as real * PeriodicSeconds < StartSeconds <= 100 as real * PeriodicSeconds;
    ExpiresAt(Some(StartPattern), StartSeconds, PeriodicSeconds, base, 100);
  }

  class FakeStrip {
    const strip: LedStrip
    const shortSide: Section
    const shortReversed: Section
    const longSide: Section

    ghost predicate Valid()
      reads this, strip
    {
      strip.Valid() && strip.sections == [shortSide, shortReversed, longSide]
    }

    /** The abstract strip's constructor on the fixed layout, then a base pattern per section. */
    constructor ()
      ensures Valid() && fresh(strip) && fresh(shortSide) && fresh(shortReversed) && fresh(longSide)
      ensures strip.length == StripLength && strip.port == None
      ensures shortSide.bounds == Bounds(0, 24) && shortReversed.bounds == Bounds(49, 25) && longSide.bounds == Bounds(50, 99)
      ensures shortSide.basePattern == Some(BaseFor(TowardRed))
      ensures shortReversed.basePattern == Some(BaseFor(TowardGreen))
      ensures longSide.basePattern == Some(BaseFor(TowardBlue))
      ensures ShowsOffForever(shortSide) && ShowsOffForever(shortReversed) && ShowsOffForever(longSide)
    {
      FakeLayout();
      var built := LedStrip.NewAbstract(StripLength, Lengths);
      assert built.Ok?;
      strip := built.value;
      shortSide := built.value.sections[0];
      shortReversed := built.value.sections[1];
      longSide := built.value.sections[2];
      new;
      shortSide.SetBase(Some(BaseFor(TowardRed)));
      shortReversed.SetBase(Some(BaseFor(TowardGreen)));
      longSide.SetBase(Some(BaseFor(TowardBlue)));
    }

    /** `start()`: every section shows purple for two seconds from now. */
    method Start()
      requires Valid()
      modifies shortSide, shortReversed, longSide
      ensures shortSide.TimerState() == Timer(Some(StartPattern), StartSeconds, 0.0)
      ensures shortReversed.TimerState() == Timer(Some(StartPattern), StartSeconds, 0.0)
      ensures longSide.TimerState() == Timer(Some(StartPattern), StartSeconds, 0.0)
      ensures shortSide.basePattern == old(shortSide.basePattern)
      ensures shortReversed.basePattern == old(shortReversed.basePattern)
      ensures longSide.basePattern == old(longSide.basePattern)
      ensures shortSide.shown == old(shortSide.shown)
      ensures shortReversed.shown == old(shortReversed.shown)
      ensures longSide.shown == old(longSide.shown)
    {
      shortSide.SetPattern(Some(StartPattern), StartSeconds);
      shortReversed.SetPattern(Some(StartPattern), StartSeconds);
      longSide.SetPattern(Some(StartPattern), StartSeconds);
    }
  }

  /** A section's timer as the strip constructor leaves it: off, forever. */
  predicate ShowsOffForever(s: Section)
    reads s
  {
    s.TimerState() == Timer(Some(Off), InfiniteDuration, 0.0)
  }
}
