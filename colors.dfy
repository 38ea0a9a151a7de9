/**
 * Colours of an addressable LED strip as the overlays read and write them:
 * three 8-bit channels.
 */
module Colors {

  type Channel = c: int | 0 <= c < 256

  datatype Color = Color(red: Channel, green: Channel, blue: Channel)

  const Black: Color := Color(0, 0, 0)

  /** The overlays' "lit" test: the channel sum is not zero. */
  predicate IsLit(c: Color) {
    c.red + c.green + c.blue != 0
  }

  /** With non-negative channels, a non-zero sum is the same as "not black". */
  lemma LitIffNotBlack(c: Color)
    ensures IsLit(c) <==> c != Black
  {
  }

  /** Number of lit pixels of a buffer. */
  function CountLit(s: seq<Color>): (n: nat)
    ensures n <= |s|
  {
    if s == [] then 0 else CountLit(s[..|s| - 1]) + (if IsLit(s[|s| - 1]) then 1 else 0)
  }

  lemma {:induction false} CountLitZero(s: seq<Color>)
    ensures CountLit(s) == 0 <==> forall i :: 0 <= i < |s| ==> !IsLit(s[i])
  {
    if s != [] {
      CountLitZero(s[..|s| - 1]);
      assert forall i :: 0 <= i < |s| - 1 ==> s[..|s| - 1][i] == s[i];
    }
  }

  /**
   * Counts the lit pixels of `s` with a loop, as the overlays' first pass does
   * (`ledsOn` starts at 0 and is incremented per lit pixel).
   */
  method CountLitPixels(s: seq<Color>) returns (ledsOn: nat)
    ensures ledsOn == CountLit(s)
  {
    ledsOn := 0;
    var i := 0;
    while i < |s|
      invariant 0 <= i <= |s|
      invariant ledsOn == CountLit(s[..i])
    {
      assert s[..i + 1][..i] == s[..i];
      if IsLit(s[i]) {
        ledsOn := ledsOn + 1;
      }
      i := i + 1;
    }
    assert s[..i] == s;
  }
}
