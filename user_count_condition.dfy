/** The editor of the "user count in room" wired condition: a (min, max)
    pair adopted from the trigger being edited and written back on save. */
module WiredUserCountCondition {

  /** The part of a wired trigger this editor reads: its integer parameters. */
  datatype Trigger = Trigger(intData: seq<int>)

  /** The (min, max) pair the editor adopts from a trigger's integer
      parameters: the first two when there are at least two, else (1, 1). */
  function AdoptedRange(intData: seq<int>): (r: (int, int))
    ensures |intData| >= 2 ==> r == (intData[0], intData[1])
    ensures |intData| < 2 ==> r == (1, 1)
  {
    if |intData| >= 2 then (intData[0], intData[1]) else (1, 1)
  }

  /** Parameters after the first two play no part in what is adopted. */
  lemma AdoptIgnoresLaterParams(intData: seq<int>, rest: seq<int>)
    requires |intData| >= 2
    ensures AdoptedRange(intData + rest) == AdoptedRange(intData)
  {
  }

  class UserCountInRoomView {
    var min: int
    var max: int

    constructor ()
      ensures min == 1 && max == 1
    {
      min, max := 1, 1;
    }

    /** The effect run when the trigger under edit changes. */
    method OnTriggerChanged(trigger: Trigger)
      modifies this
      ensures (min, max) == AdoptedRange(trigger.intData)
    {
      if |trigger.intData| >= 2 {
        min := trigger.intData[0];
        max := trigger.intData[1];
      } else {
        min := 1;
        max := 1;
      }
    }

    /** The minimum slider's change handler. */
    method SetMin(value: int)
      modifies this
      ensures min == value && max == old(max)
    {
      min := value;
    }

    /** The maximum slider's change handler. */
    method SetMax(value: int)
      modifies this
      ensures max == value && min == old(min)
    {
      max := value;
    }

    /** The integer parameters `save` writes back to the trigger: exactly
        min then max, with no ordering required between them. */
    function Save(): (intParams: seq<int>)
      reads this
      ensures |intParams| == 2 && intParams[0] == min && intParams[1] == max
    {
      [min, max]
    }
  }

  /** Saving and then re-opening the condition restores the editor's pair:
      the parameters written are exactly the ones adopted back. */
  lemma SaveThenAdopt(view: UserCountInRoomView)
    ensures AdoptedRange(view.Save()) == (view.min, view.max)
  {
  }
}
