/**
 * The progress indicator (components/LoadingSpinner.tsx): a label followed
 * by a run of dots that a timer grows by one dot per tick and empties after
 * three.
 */
module Spinner {
  import opened Strings

  /** The label shown when the caller passes an empty message ("AI is processing"). */
  const DefaultLabel := "AI đang xử lý"

  /** The timer's update of the dots: empty after three, otherwise one more. */
  function NextDots(prev: string): string
  {
    if |prev| >= 3 then "" else prev + "."
  }

  /** The dots after `ticks` timer ticks from the empty start. */
  function DotsAfter(ticks: nat): string
  {
    if ticks == 0 then "" else NextDots(DotsAfter(ticks - 1))
  }

  /** `n` dots. */
  function Dots(n: nat): string
  {
    if n == 0 then "" else Dots(n - 1) + "."
  }

  /** The four values the dots take. */
  predicate IsDotState(dots: string)
  {
    dots == "" || dots == "." || dots == ".." || dots == "..."
  }

  /** The label followed by the dots: the message, or the default label when it is empty. */
  function DisplayText(message: string, dots: string): (text: string)
    ensures EndsWith(text, dots)
    ensures message != "" ==> StartsWith(text, message) && |text| == |message| + |dots|
    ensures message == "" ==> StartsWith(text, DefaultLabel) && |text| == |DefaultLabel| + |dots|
  {
    var lead := if message != "" then message else DefaultLabel;
    ConcatEnds(lead, dots);
    lead + dots
  }

  /** After `ticks` ticks there are `ticks % 4` dots. */
  lemma {:induction false} DotsCycle(ticks: nat)
    ensures DotsAfter(ticks) == Dots(ticks % 4)
  {
    if ticks > 0 {
      DotsCycle(ticks - 1);
      var k := (ticks - 1) % 4;
      assert |Dots(k)| == k by {
        DotsLength(k);
      }
      if k == 3 {
        assert ticks % 4 == 0;
      } else {
        assert ticks % 4 == k + 1;
      }
    }
  }

  /** `Dots(n)` has length `n` and holds nothing but dots. */
  lemma {:induction false} DotsLength(n: nat)
    ensures |Dots(n)| == n
    ensures forall i :: 0 <= i < n ==> Dots(n)[i] == '.'
  {
    if n > 0 {
      DotsLength(n - 1);
    }
  }

  /** From the empty start the dots are always empty, or one, two or three dots. */
  lemma {:induction false} DotsStayInCycle(ticks: nat)
    ensures IsDotState(DotsAfter(ticks))
  {
    DotsCycle(ticks);
    var k := ticks % 4;
    assert k == 0 || k == 1 || k == 2 || k == 3;
    assert Dots(1) == "." && Dots(2) == ".." && Dots(3) == "...";
  }

  /** Four ticks bring the dots back to where they were, and fewer do not. */
  lemma {:induction false} DotsPeriodFour(ticks: nat, k: nat)
    ensures DotsAfter(ticks + 4) == DotsAfter(ticks)
    ensures 0 < k < 4 ==> DotsAfter(ticks + k) != DotsAfter(ticks)
  {
    DotsCycle(ticks + 4);
    DotsCycle(ticks);
    DotsCycle(ticks + k);
    DotsLength((ticks + k) % 4);
    DotsLength(ticks % 4);
    assert (ticks + 4) % 4 == ticks % 4;
    if 0 < k < 4 {
      assert (ticks + k) % 4 != ticks % 4;
    }
  }

  /** The state of the indicator. */
  class LoadingSpinner {
    const message: string
    var dots: string
    /** The number of timer ticks so far. */
    ghost var ticks: nat

    /** The dots are those of the ticks so far. */
    ghost predicate Valid()
      reads this
    {
      dots == DotsAfter(ticks)
    }

    /** Mounted with no dots. */
    constructor(message: string)
      ensures this.message == message && dots == "" && ticks == 0
      ensures Valid()
    {
      this.message := message;
      dots := "";
      ticks := 0;
    }

    /** One timer tick: the dots move one step along their cycle of four. */
    method Tick()
      requires Valid()
      modifies this`dots, this`ticks
      ensures dots == NextDots(old(dots)) && ticks == old(ticks) + 1
      ensures Valid() && IsDotState(dots)
    {
      dots := NextDots(dots);
      ticks := ticks + 1;
      DotsStayInCycle(ticks);
    }
  }
}
