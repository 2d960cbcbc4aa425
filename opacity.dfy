// The dot opacity state machine. Every opacity the loader ever holds is a
// multiple of 1/8 in [0, 1], all of which are exact binary64 numbers, so an
// opacity is modelled as its count of eighths, 0..8.

module Opacity {

  /** The number of dots, and the denominator of every opacity. */
  const NumDots: int := 8

  /** The opacity, in [0, 1], that `e` eighths stand for. */
  function Alpha(e: int): real
  {
    e as real / NumDots as real
  }

  /** The opacity update of one tick, on reals: subtract 1/8 and snap a
      negative result back to 1. */
  function ChangeOpacityReal(opacity: real): real
  {
    var o := opacity - 1.0 / NumDots as real;
    if o < 0.0 then 1.0 else o
  }

  /** The same update on eighths; it keeps an opacity within [0, 1]. */
  function Step(e: int): (r: int)
    ensures 0 <= e <= NumDots ==> 0 <= r <= NumDots
  {
    var o := e - 1;
    if o < 0 then NumDots else o
  }

  /** On the nine states 0..8 the step is decrement modulo 9, which is what
      makes it a cycle. */
  lemma StepIsDecrementModNine(e: int)
    requires 0 <= e <= NumDots
    ensures Step(e) == (e - 1) % (NumDots + 1)
  {
  }

  /** The update on eighths and the update on reals agree on every state. */
  lemma StepMatchesReal(e: int)
    requires 0 <= e <= NumDots
    ensures Alpha(Step(e)) == ChangeOpacityReal(Alpha(e))
    ensures 0.0 <= Alpha(Step(e)) <= 1.0
  {
  }

  /** No two states step to the same state, and every state is reached: the
      step is a bijection on 0..8. */
  lemma StepIsBijection(a: int, b: int)
    requires 0 <= a <= NumDots && 0 <= b <= NumDots
    ensures Step(a) == Step(b) ==> a == b
    ensures Step(if b == NumDots then 0 else b + 1) == b
  {
  }

  /** The opacity after `n` ticks. */
  function Iterate(e: int, n: nat): (r: int)
    requires 0 <= e <= NumDots
    ensures 0 <= r <= NumDots
  {
    if n == 0 then e else Step(Iterate(e, n - 1))
  }

  /** Closed form: `n` ticks subtract `n` modulo 9. */
  lemma {:induction false} IterateClosedForm(e: int, n: nat)
    requires 0 <= e <= NumDots
    ensures Iterate(e, n) == (e - n) % (NumDots + 1)
  {
    if n > 0 {
      IterateClosedForm(e, n - 1);
      StepIsDecrementModNine(Iterate(e, n - 1));
      var m := NumDots + 1;
      var p := (e - (n - 1)) % m;
      assert e - (n - 1) == ((e - (n - 1)) / m) * m + p;
      assert (e - n) == ((e - (n - 1)) / m) * m + (p - 1);
      if p == 0 {
        assert (e - n) == ((e - (n - 1)) / m - 1) * m + NumDots;
      }
    }
  }

  /** A dot returns to its opacity after nine ticks and after no fewer. */
  lemma PeriodIsNine(e: int, n: nat)
    requires 0 <= e <= NumDots
    ensures Iterate(e, NumDots + 1) == e
    ensures 0 < n < NumDots + 1 ==> Iterate(e, n) != e
  {
    IterateClosedForm(e, NumDots + 1);
    IterateClosedForm(e, n);
  }

  /** Undoing a shift by `n` modulo 9 gives the state back. */
  lemma ShiftBack(x: int, n: int)
    requires 0 <= x <= NumDots
    ensures ((x - n) % (NumDots + 1) + n) % (NumDots + 1) == x
  {
  }

  /** Two dots that start at different opacities never share one: the eight
      phases stay pairwise distinct. */
  lemma PhasesStayDistinct(a: int, b: int, n: nat)
    requires 0 <= a <= NumDots && 0 <= b <= NumDots && a != b
    ensures Iterate(a, n) != Iterate(b, n)
  {
    IterateClosedForm(a, n);
    IterateClosedForm(b, n);
    ShiftBack(a, n);
    ShiftBack(b, n);
  }

  /** The first dot starts at 1/8, is at 0 after one tick and snaps back to
      full opacity at the second; after four ticks it is at 6/8. */
  lemma FirstDotTrajectory()
    ensures Iterate(1, 1) == 0 && Iterate(1, 2) == NumDots && Iterate(1, 4) == 6
  {
  }
}
