/**
 The gate tables as the transactions update them in place, undone when one of their writes fails, and proved against
 the functions of module GateModel.
 */
module GateStores {
  import opened Options
  import opened IntegrationModel
  import opened GateModel

  class GateStore {
    var order: seq<Id>
    var keys: set<Id>
    var intents: map<Id, GateIntent>
    var observations: map<Id, GateReceipt>
    var receipts: map<Id, GateVerified>
    var finalizations: map<Id, GateOutcome>

    function View(): GateTables reads this {
      GateTables(order, keys, intents, observations, receipts, finalizations)
    }

    constructor ()
      ensures View() == NO_GATES
    {
      order, keys, intents, observations, receipts, finalizations := [], {}, map[], map[], map[], map[];
    }

    method Rollback(was: GateTables)
      modifies this
      ensures View() == was
    {
      order, keys, intents := was.order, was.keys, was.intents;
      observations, receipts, finalizations := was.observations, was.receipts, was.finalizations;
    }

    method TransitionIntent(id: Id, expectedRevision: nat, expectedState: IntentState, state: IntentState)
      returns (ok: bool)
      modifies this`intents
      ensures ok <==> id in old(intents) && old(intents)[id].revision == expectedRevision &&
                      old(intents)[id].state == expectedState
      ensures intents == if ok then old(intents)[id := InState(old(intents)[id], state)] else old(intents)
    {
      if id !in intents || intents[id].revision != expectedRevision || intents[id].state != expectedState {
        return false;
      }
      intents := intents[id := InState(intents[id], state)];
      return true;
    }

    method InsertFinalization(id: Id, outcome: GateOutcome) returns (ok: bool)
      modifies this`finalizations
      ensures ok <==> id !in old(finalizations)
      ensures finalizations == if ok then old(finalizations)[id := outcome] else old(finalizations)
    {
      ok := id !in finalizations;
      if ok {
        finalizations := finalizations[id := outcome];
      }
    }

    /** Moves an intent just read to its last state together with its finalization. */
    method End(id: Id, read: GateIntent, state: IntentState, outcome: GateOutcome) returns (ok: bool)
      requires id in intents && intents[id] == read
      modifies this`intents, this`finalizations
      ensures ok <==> id !in old(finalizations)
      ensures ok ==> intents == old(intents)[id := InState(read, state)] &&
                     finalizations == old(finalizations)[id := outcome]
    {
      var moved := TransitionIntent(id, read.revision, read.state, state);
      ok := InsertFinalization(id, outcome);
    }

    method PrepareGate(
      intent: Id, key: Id, operation: GateOperation, b: Binding, policy: Id, gate: Id, bound: bool, resolved: bool,
      granted: bool) returns (answer: Answer)
      modifies this
      ensures GateStep(View(), answer) ==
              GateModel.PrepareGate(old(View()), intent, key, operation, b, policy, gate, bound, resolved, granted)
    {
      if !bound || key in keys {
        return Aborted;
      }
      var was := View();
      keys := keys + {key};
      if !granted || !resolved {
        return Denied;
      }
      if intent in intents {
        Rollback(was);
        return Aborted;
      }
      order := order + [intent];
      intents := intents[intent := GateIntent(key, operation, b, policy, gate, Pending, 1)];
      return Done;
    }

    method ActGate(intent: Id, bound: bool, resolved: bool, granted: bool) returns (answer: Answer)
      modifies this
      ensures GateStep(View(), answer) == GateModel.ActGate(old(View()), intent, bound, resolved, granted)
    {
      if intent !in intents || intents[intent].state != Pending || !bound {
        return Aborted;
      }
      var i, was := intents[intent], View();
      if !granted || !resolved {
        var ended := End(intent, i, Failed, GateFailed);
        if !ended {
          Rollback(was);
          return Aborted;
        }
        return Denied;
      }
      var executing := TransitionIntent(intent, i.revision, Pending, Executing);
      return Done;
    }

    method RecordGateFailure(intent: Id, doubtful: bool) returns (answer: Answer)
      modifies this
      ensures GateStep(View(), answer) == GateModel.RecordGateFailure(old(View()), intent, doubtful)
    {
      if intent !in intents || intents[intent].state != Executing {
        return Aborted;
      }
      var i, was := intents[intent], View();
      var ended := End(intent, i, if doubtful then Unclear else Failed, if doubtful then GateAmbiguous else GateFailed);
      if !ended {
        Rollback(was);
        return Aborted;
      }
      return Done;
    }

    method RecordGateReceipt(intent: Id, r: GateReceipt, current: bool) returns (answer: Answer)
      modifies this
      ensures GateStep(View(), answer) == GateModel.RecordGateReceipt(old(View()), intent, r, current)
    {
      if intent !in intents || intents[intent].state != Executing || intent in observations {
        return Aborted;
      }
      var i, was := intents[intent], View();
      observations := observations[intent := r];
      if Determinate(r, current) {
        var observed := TransitionIntent(intent, i.revision, Executing, Observed);
        return Done;
      }
      var ended := End(intent, i, Unclear, GateAmbiguous);
      if !ended {
        Rollback(was);
        return Aborted;
      }
      return Done;
    }

    method VerifyGate(intent: Id, now: nat) returns (answer: Answer)
      modifies this
      ensures GateStep(View(), answer) == GateModel.VerifyGate(old(View()), intent, now)
    {
      if intent !in intents || intents[intent].state != Observed || intent !in observations || intent in receipts ||
         observations[intent].verdict.None?
      {
        return Aborted;
      }
      var i, r, was := intents[intent], observations[intent], View();
      receipts := receipts[intent := GateVerified(r.verdict.value, r.validUntil, now)];
      var verified := TransitionIntent(intent, i.revision, Observed, Verified);
      if Stale(r, now) {
        Rollback(was);
        return Aborted;
      }
      return Done;
    }

    method FinalizeGate(intent: Id, bound: bool, resolved: bool, granted: bool) returns (answer: Answer)
      modifies this
      ensures GateStep(View(), answer) == GateModel.FinalizeGate(old(View()), intent, bound, resolved, granted)
    {
      if intent !in intents || intents[intent].state != Verified || intent !in receipts || !bound {
        return Aborted;
      }
      var i, was := intents[intent], View();
      var state := if !granted || !resolved then Unclear else Finalized;
      var outcome := if !granted || !resolved then GateAmbiguous
        else if receipts[intent].verdict == Pass then GateAccepted else GateRefused;
      var ended := End(intent, i, state, outcome);
      if !ended {
        Rollback(was);
        return Aborted;
      }
      return Done;
    }
  }
}
