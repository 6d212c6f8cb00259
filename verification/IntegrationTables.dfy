/**
 The integration tables as the transactions update them in place: compare-and-swap transitions and inserts, in the
 order the source makes them, and everything undone when one of them fails.  Each transaction is proved to do what
 its function in module IntegrationModel says.
 */
module IntegrationTables {
  import opened Options
  import opened IntegrationModel

  class IntegrationStore {
    var sequences: map<Target, nat>
    var reservations: map<Id, Reservation>
    var requests: set<Id>
    var intents: map<Id, Intent>
    var observations: seq<Row>
    var receipts: map<Id, VerifiedReceipt>
    var finalizations: map<Id, Finalization>

    function View(): Ledger reads this {
      Ledger(sequences, reservations, requests, intents, observations, receipts, finalizations)
    }

    constructor ()
      ensures View() == EMPTY
    {
      sequences, reservations, requests, intents := map[], map[], {}, map[];
      observations, receipts, finalizations := [], map[], map[];
    }

    /** Undoes a transaction. */
    method Rollback(was: Ledger)
      modifies this
      ensures View() == was
    {
      sequences, reservations, requests, intents := was.sequences, was.reservations, was.requests, was.intents;
      observations, receipts, finalizations := was.observations, was.receipts, was.finalizations;
    }

    method TransitionReservation(
      id: Id, e: Expected, expectedStatus: Status, status: Status, leaseOwner: Id, leaseRevision: nat, expiresAt: nat,
      evidence: Option<nat>) returns (ok: bool)
      modifies this`reservations
      ensures ok <==> id in old(reservations) && Matches(old(reservations)[id], e) &&
                      old(reservations)[id].status == expectedStatus
      ensures reservations == if ok
        then old(reservations)[id := Moved(old(reservations)[id], status, leaseOwner, leaseRevision, expiresAt, evidence)]
        else old(reservations)
    {
      if id !in reservations || !Matches(reservations[id], e) || reservations[id].status != expectedStatus {
        return false;
      }
      reservations := reservations[id := Moved(reservations[id], status, leaseOwner, leaseRevision, expiresAt, evidence)];
      return true;
    }

    /** Changes only the status and the evidence of a reservation just read. */
    method RestateReservation(id: Id, read: Reservation, expectedStatus: Status, status: Status, evidence: Option<nat>)
      returns (ok: bool)
      requires id in reservations && reservations[id] == read
      modifies this`reservations
      ensures ok <==> read.status == expectedStatus
      ensures reservations == if ok then old(reservations)[id := Restated(read, status, evidence)] else old(reservations)
    {
      ok := TransitionReservation(id, Expected(read.revision, read.leaseRevision, read.fence), expectedStatus, status,
                                  read.leaseOwner, read.leaseRevision, read.expiresAt, evidence);
    }

    method TransitionIntent(
      id: Id, expectedRevision: nat, expectedState: IntentState, state: IntentState, binding: nat, last: nat,
      recovery: Option<Recovery>, now: nat) returns (ok: bool)
      modifies this`intents
      ensures ok <==> id in old(intents) && old(intents)[id].revision == expectedRevision &&
                      old(intents)[id].state == expectedState
      ensures intents == if ok then old(intents)[id := Advanced(old(intents)[id], state, binding, last, recovery, now)]
                         else old(intents)
    {
      if id !in intents || intents[id].revision != expectedRevision || intents[id].state != expectedState {
        return false;
      }
      intents := intents[id := Advanced(intents[id], state, binding, last, recovery, now)];
      return true;
    }

    method InsertObservation(row: Row) returns (ok: bool)
      modifies this`observations
      ensures ok <==> !Numbered(old(observations), row.reservation, row.receipt.number)
      ensures observations == if ok then old(observations) + [row] else old(observations)
    {
      ok := !Numbered(observations, row.reservation, row.receipt.number);
      if ok {
        observations := observations + [row];
      }
    }

    method InsertReceipt(intent: Id, receipt: VerifiedReceipt) returns (ok: bool)
      modifies this`receipts
      ensures ok <==> intent !in old(receipts)
      ensures receipts == if ok then old(receipts)[intent := receipt] else old(receipts)
    {
      ok := intent !in receipts;
      if ok {
        receipts := receipts[intent := receipt];
      }
    }

    method InsertFinalization(intent: Id, f: Finalization) returns (ok: bool)
      modifies this`finalizations
      ensures ok <==> intent !in old(finalizations)
      ensures finalizations == if ok then old(finalizations)[intent := f] else old(finalizations)
    {
      ok := intent !in finalizations;
      if ok {
        finalizations := finalizations[intent := f];
      }
    }

    /** The next fence of a target, by compare-and-swap on the stored sequence. */
    method NextFence(target: Target) returns (fence: nat)
      modifies this`sequences
      ensures fence == if target in old(sequences) then old(sequences)[target] + 1 else 1
      ensures sequences == old(sequences)[target := fence]
    {
      fence := if target in sequences then sequences[target] + 1 else 1;
      sequences := sequences[target := fence];
    }

    // -------------------------------------------------------------- transactions

    method Reserve(
      id: Id, target: Target, execution: Id, leaseOwner: Id, now: nat, lease: nat, bound: bool, granted: bool)
      returns (answer: Answer)
      modifies this
      ensures Step(View(), answer) ==
              IntegrationModel.Reserve(old(View()), id, target, execution, leaseOwner, now, lease, bound, granted)
    {
      if !bound {
        return Aborted;
      }
      if !granted {
        return Denied;
      }
      if TargetTaken(View(), target) {
        return InvalidState;
      }
      if target in sequences && PriorUnsettled(View(), target) {
        return ReconciliationRequired;
      }
      var was := View();
      var fence := NextFence(target);
      if id in reservations {
        Rollback(was);
        return Aborted;
      }
      reservations := reservations[id :=
        Reservation(target, execution, Active, 1, leaseOwner, 1, fence, now + lease, None)];
      return Done;
    }

    method Mutate(
      id: Id, e: Expected, action: Mutation, leaseOwner: Id, now: nat, lease: nat, granted: bool, policyCurrent: bool,
      completed: bool) returns (answer: Answer)
      modifies this
      ensures Step(View(), answer) ==
              IntegrationModel.Mutate(old(View()), id, e, action, leaseOwner, now, lease, granted, policyCurrent, completed)
    {
      hide LatestInspection;
      if id !in reservations {
        return InvalidState;
      }
      var r := reservations[id];
      if !Matches(r, e) {
        return StaleFence;
      }
      if !granted || (action == Renew && !policyCurrent) {
        return Denied;
      }
      if r.status != Active {
        return InvalidState;
      }
      if action == Renew && (r.leaseOwner != leaseOwner || r.expiresAt <= now) {
        return StaleFence;
      }
      if action == Takeover && !MayTakeOver(View(), id, now) {
        return ReconciliationRequired;
      }
      if action == Release && (!completed || Unfinished(View(), id)) {
        return InvalidState;
      }
      var nextStatus := if action != Release then Active else if now < r.expiresAt then Released else Expired;
      var nextOwner := if action == Takeover then leaseOwner else r.leaseOwner;
      var nextLeaseRevision := if action == Release then r.leaseRevision else r.leaseRevision + 1;
      var nextExpiresAt := if action == Release then r.expiresAt else now + lease;
      var moved := TransitionReservation(id, e, r.status, nextStatus, nextOwner, nextLeaseRevision, nextExpiresAt, r.evidence);
      return Done;
    }

    method RecordInspection(id: Id, e: Expected, receipt: Receipt) returns (answer: Answer)
      modifies this
      ensures Step(View(), answer) == IntegrationModel.RecordInspection(old(View()), id, e, receipt)
    {
      if id !in reservations || !Matches(reservations[id], e) {
        return Aborted;
      }
      var r, was := reservations[id], View();
      var inserted := InsertObservation(Row(id, None, receipt));
      if !inserted {
        return Aborted;
      }
      if (receipt.code == InspectedForeign || receipt.code == InspectedAmbiguous) && r.status == Active {
        var moved := RestateReservation(id, r, Active, Ambiguous, Some(receipt.number));
        if Undoubted(View(), id) {
          Rollback(was);
          return Aborted;
        }
      }
      return Done;
    }

    method Prepare(
      intent: Id, key: Id, id: Id, e: Expected, operation: Operation, leaseOwner: Id, last: nat, now: nat,
      running: bool, granted: bool) returns (answer: Answer)
      modifies this
      ensures Step(View(), answer) ==
              IntegrationModel.Prepare(old(View()), intent, key, id, e, operation, leaseOwner, last, now, running, granted)
    {
      if id !in reservations || !Matches(reservations[id], e) {
        return Aborted;
      }
      var r := reservations[id];
      var eligible := r.status == Active && r.expiresAt > now && r.leaseOwner == leaseOwner && running &&
                      !Unfinished(View(), id);
      if key in requests {
        return Aborted;
      }
      var was := View();
      requests := requests + {key};
      if !granted || !eligible {
        return Denied;
      }
      if intent in intents || !Reached(observations, id, last) {
        Rollback(was);
        return Aborted;
      }
      intents := intents[intent := Intent(id, key, r.fence, operation, Pending, 1, 1, last, None, now)];
      return Done;
    }

    method Act(intent: Id, e: Expected, leaseOwner: Id, now: nat, policyCurrent: bool, granted: bool)
      returns (answer: Answer)
      modifies this
      ensures Step(View(), answer) == IntegrationModel.Act(old(View()), intent, e, leaseOwner, now, policyCurrent, granted)
    {
      if intent !in intents || intents[intent].state != Pending || intents[intent].reservation !in reservations {
        return Aborted;
      }
      var i, was := intents[intent], View();
      var r := reservations[i.reservation];
      var eligible := r.status == Active && r.revision == e.revision && r.leaseRevision == e.leaseRevision &&
                      r.fence == e.fence && r.expiresAt > now && r.leaseOwner == leaseOwner && policyCurrent;
      var at := AfterTimestamp(i.updatedAt, now);
      if !granted || !eligible {
        var failed := TransitionIntent(intent, i.revision, Pending, Failed, 2, i.lastObservation, None, at);
        var finalized := InsertFinalization(intent, Finalization(FinalFailed, None, None));
        if !finalized {
          Rollback(was);
          return Aborted;
        }
        return Denied;
      }
      var executing := TransitionIntent(intent, i.revision, Pending, Executing, 2, i.lastObservation, None, at);
      return Done;
    }

    method RecordFailure(intent: Id, doubtful: bool, now: nat) returns (answer: Answer)
      modifies this
      ensures Step(View(), answer) == IntegrationModel.RecordFailure(old(View()), intent, doubtful, now)
    {
      if intent !in intents || intents[intent].state != Executing || intents[intent].reservation !in reservations {
        return Aborted;
      }
      var i, was := intents[intent], View();
      var r := reservations[i.reservation];
      var at := AfterTimestamp(i.updatedAt, now);
      var moved := TransitionIntent(intent, i.revision, Executing, if doubtful then Unclear else Failed, i.binding,
                                    i.lastObservation, None, at);
      if doubtful && r.status == Active {
        var restated := RestateReservation(i.reservation, r, Active, Ambiguous, r.evidence);
      }
      if !doubtful {
        var finalized := InsertFinalization(intent, Finalization(FinalFailed, None, None));
        if !finalized {
          Rollback(was);
          return Aborted;
        }
      }
      return Done;
    }

    method RecordReceipt(intent: Id, receipt: Receipt, now: nat) returns (answer: Answer)
      modifies this
      ensures Step(View(), answer) == IntegrationModel.RecordReceipt(old(View()), intent, receipt, now)
    {
      if intent !in intents || intents[intent].state != Executing || intents[intent].reservation !in reservations ||
         reservations[intents[intent].reservation].status != Active
      {
        return Aborted;
      }
      var i, was := intents[intent], View();
      var r := reservations[i.reservation];
      var inserted := InsertObservation(Row(i.reservation, Some(intent), receipt));
      if !inserted {
        return Aborted;
      }
      var at, evidence := AfterTimestamp(i.updatedAt, now), Some(receipt.number);
      if Doubtful(receipt) || (!RefusedWithoutEffect(receipt) && OutcomeOf(receipt.code) != Succeeded) {
        var unclear := TransitionIntent(intent, i.revision, Executing, Unclear, i.binding, receipt.number, None, at);
        var restated := RestateReservation(i.reservation, r, Active, Ambiguous, evidence);
      } else if RefusedWithoutEffect(receipt) {
        var verified := InsertReceipt(intent, VerifiedReceipt(receipt.number, Refused, receipt.code));
        if !verified {
          Rollback(was);
          return Aborted;
        }
        var failed := TransitionIntent(intent, i.revision, Executing, Failed, i.binding, receipt.number, None, at);
        var restated := RestateReservation(i.reservation, r, Active, Active, evidence);
        var finalized := InsertFinalization(intent, Finalization(FinalRefused, Some(receipt.code), None));
        if !finalized {
          Rollback(was);
          return Aborted;
        }
      } else {
        var observed := TransitionIntent(intent, i.revision, Executing, Observed, i.binding, receipt.number, None, at);
        var restated := RestateReservation(i.reservation, r, Active, Active, evidence);
      }
      return Done;
    }

    method Verify(intent: Id, number: nat, now: nat) returns (answer: Answer)
      modifies this
      ensures Step(View(), answer) == IntegrationModel.Verify(old(View()), intent, number, now)
    {
      if intent !in intents || intents[intent].state != Observed {
        return Aborted;
      }
      var i, was := intents[intent], View();
      var durable := RowOf(observations, i.reservation, number);
      if durable.None? || OutcomeOf(durable.value.receipt.code) != Succeeded {
        return Aborted;
      }
      var inserted := InsertReceipt(intent, VerifiedReceipt(number, Succeeded, durable.value.receipt.code));
      if !inserted {
        return Aborted;
      }
      var verified := TransitionIntent(intent, i.revision, Observed, Verified, i.binding, i.lastObservation, None,
                                       AfterTimestamp(i.updatedAt, now));
      return Done;
    }

    method Finalize(intent: Id, e: Expected, now: nat, policyCurrent: bool, granted: bool) returns (answer: Answer)
      modifies this
      ensures Step(View(), answer) == IntegrationModel.Finalize(old(View()), intent, e, now, policyCurrent, granted)
    {
      if intent !in intents || intents[intent].state != Verified || intent !in receipts ||
         intents[intent].reservation !in reservations
      {
        return Aborted;
      }
      var i, was := intents[intent], View();
      var r := reservations[i.reservation];
      var eligible := r.status == Active && r.revision == e.revision && r.leaseRevision == e.leaseRevision &&
                      r.fence == e.fence && policyCurrent;
      var at := AfterTimestamp(i.updatedAt, now);
      if !granted || !eligible {
        var unclear := TransitionIntent(intent, i.revision, Verified, Unclear, 3, i.lastObservation, None, at);
        var restated := RestateReservation(i.reservation, r, Active, Ambiguous, r.evidence);
        if !restated {
          Rollback(was);
          return Aborted;
        }
      } else {
        var done := TransitionIntent(intent, i.revision, Verified, Finalized, 3, i.lastObservation, None, at);
        var finalized := InsertFinalization(intent, Finalization(FinalSucceeded, Some(receipts[intent].code), None));
        if !finalized {
          Rollback(was);
          return Aborted;
        }
      }
      return Done;
    }

    /** Takes an unclear intent through observed and verified to finalized. */
    method Settle(intent: Id, i: Intent, receipt: Receipt, outcome: Outcome, observedAt: nat, now: nat)
      returns (ok: bool, finalizedAt: nat)
      requires intent in intents && intents[intent] == i && i.state == Unclear
      modifies this`intents, this`receipts, this`finalizations
      ensures ok <==> intent !in old(receipts) && intent !in old(finalizations)
      ensures finalizedAt == AfterTimestamp(AfterTimestamp(observedAt, now), now)
      ensures ok ==>
                && intents == old(intents)[intent := Advanced(i, Finalized, i.binding + 1, receipt.number,
                     Some(RecoveryOf(receipt.code)), finalizedAt).(revision := i.revision + 3)]
                && receipts == old(receipts)[intent := VerifiedReceipt(receipt.number, outcome, receipt.code)]
                && finalizations == old(finalizations)[intent :=
                     Finalization(FinalOf(outcome), Some(receipt.code), Some(RecoveryOf(receipt.code)))]
    {
      var binding := i.binding + 1;
      var observed := TransitionIntent(intent, i.revision, Unclear, Observed, binding, receipt.number, None, observedAt);
      ok := InsertReceipt(intent, VerifiedReceipt(receipt.number, outcome, receipt.code));
      var verifiedAt := AfterTimestamp(observedAt, now);
      finalizedAt := AfterTimestamp(verifiedAt, now);
      if ok {
        var verified := TransitionIntent(intent, i.revision + 1, Observed, Verified, binding, receipt.number, None, verifiedAt);
        var done := TransitionIntent(intent, i.revision + 2, Verified, Finalized, binding, receipt.number,
                                     Some(RecoveryOf(receipt.code)), finalizedAt);
        ok := InsertFinalization(intent, Finalization(FinalOf(outcome), Some(receipt.code), Some(RecoveryOf(receipt.code))));
      }
    }

    /** Observes, verifies and finalizes an unclear intent, and ends its reservation, in one transaction. */
    method Recover(intent: Id, id: Id, e: Expected, receipt: Receipt, now: nat) returns (answer: Answer)
      modifies this
      ensures Step(View(), answer) == IntegrationModel.Recover(old(View()), intent, id, e, receipt, now)
    {
      if id !in reservations || !Matches(reservations[id], e) || reservations[id].status != Ambiguous ||
         intent !in intents || intents[intent].state != Unclear || intents[intent].reservation != id
      {
        return Aborted;
      }
      var i, r, was := intents[intent], reservations[id], View();
      var inserted := InsertObservation(Row(id, Some(intent), receipt));
      if !inserted {
        return Aborted;
      }
      var observedAt := AfterTimestamp(i.updatedAt, AfterTimestamp(i.updatedAt, now));
      var evidence := Some(receipt.number);
      if receipt.code == InspectedAmbiguous {
        var still := TransitionIntent(intent, i.revision, Unclear, Unclear, i.binding + 1, receipt.number, None, observedAt);
        var restated := RestateReservation(id, r, Ambiguous, Ambiguous, evidence);
        return Done;
      }
      var outcome := if OutcomeOf(receipt.code) == Refused then Refused else Succeeded;
      var settled, finalizedAt := Settle(intent, i, receipt, outcome, observedAt, now);
      if !settled {
        Rollback(was);
        return Aborted;
      }
      var restated := RestateReservation(id, r, Ambiguous, if finalizedAt < r.expiresAt then Released else Expired, evidence);
      return Done;
    }
  }
}
