/**
 * The assistant's rotating tip (src/components/Assistant.jsx): an index into
 * a fixed list of five tips, advanced by one, modulo the list's length, on
 * every timer tick.
 */
module Assistant {

  const Tips: seq<string> := [
    "Welcome! I'm your guide for this portfolio.",
    "This project evaluates Gemini's accuracy and speed.",
    "Datasets include History, Social Science, and Computer Security.",
    "Try navigating using the bar above!",
    "Real-time updates are powered by WebSockets."
  ]

  /** `(i + 1) % tips.length`: the next index, wrapping from the last tip to the first. */
  function Next(i: nat): (j: nat)
    ensures i < |Tips| - 1 ==> j == i + 1
    ensures i == |Tips| - 1 ==> j == 0
    ensures j < |Tips|
  {
    (i + 1) % |Tips|
  }

  /** The index after `n` ticks. */
  function Advance(i: nat, n: nat): nat
  {
    if n == 0 then i else Next(Advance(i, n - 1))
  }

  /** After `n` ticks from a valid index, the index is `(i + n) % 5`. */
  lemma {:induction false} AdvanceIsModular(i: nat, n: nat)
    requires i < |Tips|
    ensures Advance(i, n) == (i + n) % |Tips|
  {
    if n > 0 {
      AdvanceIsModular(i, n - 1);
    }
  }

  /** Five ticks bring the index back to where it was. */
  lemma FiveTicksReturn(i: nat)
    requires i < |Tips|
    ensures Advance(i, 5) == i
  {
    AdvanceIsModular(i, 5);
  }

  class TipRotator {
    /** The `index` state. */
    var index: nat

    /** The index always selects an existing tip. */
    ghost predicate Valid()
      reads this
    {
      index < |Tips|
    }

    /** `useState(0)`. */
    constructor ()
      ensures Valid() && index == 0
    {
      index := 0;
    }

    /** The interval callback. */
    method Tick()
      modifies this
      ensures Valid() && index == Next(old(index))
    {
      index := (index + 1) % |Tips|;
    }

    /** `tips[index]`: the tip on display. */
    function CurrentTip(): (tip: string)
      requires Valid()
      reads this
      ensures tip in Tips
    {
      Tips[index]
    }
  }
}
