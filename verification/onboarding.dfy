/**
 The onboarding pager: three slides, a "Next" button that advances until the
 last slide, a row of dots marking the current slide, and a "Get Started"
 button on the last slide instead of "Next".
 */
module Onboarding {

  const SlideCount := 3

  /** The pager opens on the first slide. */
  const FirstSlide: nat := 0

  const LastSlide: nat := SlideCount - 1

  /** The "Next" handler: advance by one unless on the last slide. */
  function NextSlide(current: nat): (r: nat)
    ensures current < LastSlide ==> r == current + 1
    ensures current >= LastSlide ==> r == current
  {
    if current < SlideCount - 1 then current + 1 else current
  }

  /** The slide shown after `n` presses of "Next" from the opening slide. */
  function AfterPresses(n: nat): nat {
    if n == 0 then FirstSlide else NextSlide(AfterPresses(n - 1))
  }

  /** Presses advance one slide each until the last slide, then stop: the
      pager never leaves [0, 2]. */
  lemma {:induction false} PressesStayInRange(n: nat)
    ensures AfterPresses(n) == if n < LastSlide then n else LastSlide
    ensures 0 <= AfterPresses(n) < SlideCount
  {
    if n > 0 {
      PressesStayInRange(n - 1);
    }
  }

  /** The dots, first to last: dot `i` is active when it is the current slide. */
  function Dots(current: nat): (d: seq<bool>)
    ensures |d| == SlideCount
  {
    DotRow(SlideCount, current)
  }

  function DotRow(n: nat, current: nat): (d: seq<bool>)
    ensures |d| == n
  {
    seq(n, i => i == current)
  }

  /** The number of active dots. */
  function ActiveCount(d: seq<bool>): nat {
    if d == [] then 0 else ActiveCount(d[..|d| - 1]) + (if d[|d| - 1] then 1 else 0)
  }

  lemma {:induction false} DotRowCount(n: nat, current: nat)
    ensures ActiveCount(DotRow(n, current)) == if current < n then 1 else 0
  {
    if n > 0 {
      assert DotRow(n, current)[..n - 1] == DotRow(n - 1, current);
      DotRowCount(n - 1, current);
    }
  }

  /** On every slide exactly one dot is active, the current slide's. */
  lemma ExactlyOneActiveDot(current: nat)
    requires current < SlideCount
    ensures ActiveCount(Dots(current)) == 1
    ensures Dots(current)[current]
  {
    DotRowCount(SlideCount, current);
  }

  datatype Button = Next | GetStarted

  /** The button under the dots. */
  function ButtonShown(current: nat): Button {
    if current == SlideCount - 1 then GetStarted else Next
  }

  /** "Get Started" is shown exactly on the last slide, which is exactly the
      slide where "Next" would do nothing. */
  lemma GetStartedOnlyOnLastSlide(current: nat)
    requires current < SlideCount
    ensures ButtonShown(current) == GetStarted <==> current == LastSlide
    ensures ButtonShown(current) == GetStarted <==> NextSlide(current) == current
  {
  }
}
