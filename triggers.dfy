/**
 * The narrative trigger store (Assets/Scripts/TriggerManager.cs) and the
 * payload a trigger check fills (Assets/Scripts/Triggers/TriggerCheckContext.cs).
 *
 * A TriggerEvent asset is identified by its name, so a list of triggers is a
 * sequence of names. The store's Dictionary<string, bool> is a map; raising
 * the check or record event is a call to its handler.
 */
module Triggers {

  /** Every listed name is recorded, and recorded as true. */
  predicate AllSet(store: map<string, bool>, names: seq<string>)
  {
    forall i :: 0 <= i < |names| ==> names[i] in store && store[names[i]]
  }

  /** The store after writing `value` under each listed name in turn; a later write wins. */
  function Recorded(store: map<string, bool>, names: seq<string>, value: bool): map<string, bool>
  {
    if |names| == 0 then store
    else Recorded(store, names[..|names| - 1], value)[names[|names| - 1] := value]
  }

  /** Recording touches exactly the listed names, and leaves each of them holding `value`. */
  lemma {:induction false} RecordedEntries(store: map<string, bool>, names: seq<string>, value: bool, k: string)
    ensures k in Recorded(store, names, value) <==> k in store || k in names
    ensures k in names ==> Recorded(store, names, value)[k] == value
    ensures k !in names && k in store ==> Recorded(store, names, value)[k] == store[k]
  {
    if |names| > 0 {
      var init := names[..|names| - 1];
      assert names == init + [names[|names| - 1]];
      RecordedEntries(store, init, value, k);
    }
  }

  /** Recording names as true makes a later check on any selection of those names succeed. */
  lemma RecordThenCheck(store: map<string, bool>, names: seq<string>, required: seq<string>)
    requires forall i :: 0 <= i < |required| ==> required[i] in names
    ensures AllSet(Recorded(store, names, true), required)
  {
    forall i | 0 <= i < |required|
      ensures required[i] in Recorded(store, names, true) && Recorded(store, names, true)[required[i]]
    {
      RecordedEntries(store, names, true, required[i]);
    }
  }

  /** Recording a name as false makes every check that requires it fail. */
  lemma RecordFalseBlocks(store: map<string, bool>, names: seq<string>, required: seq<string>, i: nat)
    requires i < |required| && required[i] in names
    ensures !AllSet(Recorded(store, names, false), required)
  {
    RecordedEntries(store, names, false, required[i]);
  }

  /** TriggerCheckContext: the triggers a check requires, and the verdict the manager writes. */
  class TriggerCheckContext {
    const triggersToCheck: seq<string>
    var isValid: bool

    /** A new context is not yet valid. */
    constructor (triggersToCheck: seq<string>)
      ensures this.triggersToCheck == triggersToCheck && !isValid
    {
      this.triggersToCheck := triggersToCheck;
      isValid := false;
    }
  }

  class TriggerManager {
    var activatedTriggers: map<string, bool>

    /** OnEnable: a fresh, empty store. */
    constructor ()
      ensures activatedTriggers == map[]
    {
      activatedTriggers := map[];
    }

    /**
     * HandleTriggerCheck: marks the context valid when no trigger is required
     * or every required name is recorded as true. On the first missing or
     * false name it returns early and leaves the verdict as it was; it never
     * clears the verdict and never changes the store.
     */
    method HandleTriggerCheck(context: TriggerCheckContext)
      modifies context
      ensures context.isValid == (old(context.isValid) || AllSet(activatedTriggers, context.triggersToCheck))
    {
      var names := context.triggersToCheck;
      if |names| == 0 {
      } else {
        var i := 0;
        while i < |names|
          invariant 0 <= i <= |names|
          invariant context.isValid == old(context.isValid)
          invariant forall j :: 0 <= j < i ==> names[j] in activatedTriggers && activatedTriggers[names[j]]
        {
          if names[i] !in activatedTriggers {
            return;
          }
          if activatedTriggers[names[i]] == false {
            return;
          }
          i := i + 1;
        }
      }
      context.isValid := true;
    }

    /** HandleRecordTrigger: writes `value` under every listed name, overwriting earlier entries. */
    method HandleRecordTrigger(triggers: seq<string>, value: bool)
      modifies this
      ensures activatedTriggers == Recorded(old(activatedTriggers), triggers, value)
    {
      for i := 0 to |triggers|
        invariant activatedTriggers == Recorded(old(activatedTriggers), triggers[..i], value)
      {
        assert triggers[..i + 1][..i] == triggers[..i];
        activatedTriggers := activatedTriggers[triggers[i] := value];
      }
      assert triggers[..|triggers|] == triggers;
    }
  }
}
