/**
 What every integration transaction keeps, whatever the order in which transactions commit and whatever they were
 told about authorization, policy and time.
 */
module IntegrationSafety {
  import opened Options
  import opened IntegrationModel

  // ---------------------------------------------------------------- reservations and their intents

  /** Every intent belongs to a reservation and carries its fence. */
  ghost predicate IntentsBound(l: Ledger) {
    forall i :: i in l.intents ==>
      l.intents[i].reservation in l.reservations && l.intents[i].fence == l.reservations[l.intents[i].reservation].fence
  }

  /** A reservation has at most one intent that is neither finalized nor failed. */
  ghost predicate OneUnfinished(l: Ledger) {
    forall i, j | i in l.intents && j in l.intents && i != j && l.intents[i].reservation == l.intents[j].reservation ::
      Terminal(l.intents[i].state) || Terminal(l.intents[j].state)
  }

  /** An unfinished intent has a current reservation, which is ambiguous exactly when the intent is unclear. */
  ghost predicate Coupled(l: Ledger) {
    forall i :: i in l.intents && !Terminal(l.intents[i].state) && l.intents[i].reservation in l.reservations ==>
      && Current(l.reservations[l.intents[i].reservation])
      && (l.intents[i].state == Unclear <==> l.reservations[l.intents[i].reservation].status == Ambiguous)
  }

  // ---------------------------------------------------------------- targets and fences

  /** At most one current reservation for each target. */
  ghost predicate OneCurrent(l: Ledger) {
    forall r, s | r in l.reservations && s in l.reservations && r != s &&
                  l.reservations[r].target == l.reservations[s].target ::
      !Current(l.reservations[r]) || !Current(l.reservations[s])
  }

  /** Fences on one target are distinct, and none is beyond the stored sequence. */
  ghost predicate Fenced(l: Ledger) {
    && (forall r :: r in l.reservations ==>
          l.reservations[r].target in l.sequences && 1 <= l.reservations[r].fence <= l.sequences[l.reservations[r].target])
    && (forall r, s | r in l.reservations && s in l.reservations && r != s &&
                      l.reservations[r].target == l.reservations[s].target ::
          l.reservations[r].fence != l.reservations[s].fence)
  }

  ghost predicate HasFence(l: Ledger, target: Target, fence: nat) {
    exists r :: r in l.reservations && l.reservations[r].target == target && l.reservations[r].fence == fence
  }

  /** The stored sequence is the fence of some reservation: the greatest one issued. */
  ghost predicate SequencesUsed(l: Ledger) {
    forall t :: t in l.sequences ==> HasFence(l, t, l.sequences[t])
  }

  // ---------------------------------------------------------------- evidence

  /** No reservation has two observations with one number. */
  ghost predicate RowsNumbered(l: Ledger) {
    forall j, k | 0 <= j < k < |l.observations| && l.observations[j].reservation == l.observations[k].reservation ::
      l.observations[j].receipt.number != l.observations[k].receipt.number
  }

  /** The observation with this number was made for this very intent. */
  ghost predicate ObservedFor(l: Ledger, i: Id, number: nat, code: Code)
    requires i in l.intents
  {
    exists row :: row in l.observations && row.reservation == l.intents[i].reservation && row.intent == Some(i) &&
                  row.receipt.number == number && row.receipt.code == code
  }

  ghost predicate ObservedWell(l: Ledger, i: Id)
    requires i in l.intents
  {
    exists code :: ObservedFor(l, i, l.intents[i].lastObservation, code) && OutcomeOf(code) == Succeeded
  }

  /** Receipts repeat an observation made for their intent; observed intents have a successful one to repeat. */
  ghost predicate Evidenced(l: Ledger) {
    && (forall i :: i in l.receipts ==>
          i in l.intents && ObservedFor(l, i, l.receipts[i].number, l.receipts[i].code) &&
          l.receipts[i].outcome == OutcomeOf(l.receipts[i].code) && l.receipts[i].outcome != Indeterminate)
    && (forall i :: i in l.intents && l.intents[i].state == Observed ==> ObservedWell(l, i))
  }

  /** A finalization exists exactly for terminal intents, and claims no more than a stored receipt shows. */
  ghost predicate FinalizedRightly(l: Ledger) {
    && (forall i :: i in l.finalizations <==> i in l.intents && Terminal(l.intents[i].state))
    && (forall i :: i in l.finalizations && l.finalizations[i].outcome != FinalFailed ==>
          && i in l.receipts && l.finalizations[i].code == Some(l.receipts[i].code)
          && l.finalizations[i].outcome == FinalOf(l.receipts[i].outcome))
    && (forall i :: i in l.receipts ==> i in l.intents)
    && (forall i :: i in l.receipts ==> l.intents[i].state in {Verified, Unclear, Finalized, Failed})
    && (forall i :: i in l.receipts && l.intents[i].state == Verified ==> l.receipts[i].outcome == Succeeded)
    && (forall i :: i in l.intents && l.intents[i].state == Verified ==> i in l.receipts)
  }

  ghost predicate IntentsSafe(l: Ledger) {
    IntentsBound(l) && OneUnfinished(l) && Coupled(l)
  }

  ghost predicate TargetsSafe(l: Ledger) {
    OneCurrent(l) && Fenced(l) && SequencesUsed(l)
  }

  ghost predicate EvidenceSafe(l: Ledger) {
    RowsNumbered(l) && Evidenced(l) && FinalizedRightly(l)
  }

  ghost predicate Safe(l: Ledger) {
    IntentsSafe(l) && TargetsSafe(l) && EvidenceSafe(l)
  }

  // ---------------------------------------------------------------- one reservation and one intent at a time

  /** The reservation changed at most in ways that keep its identity, never back from ambiguous or from terminal. */
  predicate ReservationStep(r: Reservation, s: Reservation) {
    && s.target == r.target && s.fence == r.fence && s.ownerExecution == r.ownerExecution
    && (s.status == Active ==> r.status == Active) && (Current(s) ==> Current(r))
    && r.revision <= s.revision && (r.revision == s.revision ==> s == r)
  }

  predicate SameLease(r: Reservation, s: Reservation) {
    s.leaseOwner == r.leaseOwner && s.leaseRevision == r.leaseRevision && s.expiresAt == r.expiresAt
  }

  lemma TargetsKept(l: Ledger, next: Ledger, id: Id)
    requires TargetsSafe(l) && id in l.reservations && next.sequences == l.sequences
    requires id in next.reservations && next.reservations == l.reservations[id := next.reservations[id]]
    requires ReservationStep(l.reservations[id], next.reservations[id])
    ensures TargetsSafe(next)
  {
    forall t | t in next.sequences ensures HasFence(next, t, next.sequences[t]) {
      assert HasFence(l, t, l.sequences[t]);
      var r :| r in l.reservations && l.reservations[r].target == t && l.reservations[r].fence == l.sequences[t];
      assert r in next.reservations && next.reservations[r].target == t && next.reservations[r].fence == l.sequences[t];
    }
  }

  lemma ReservationMoved(l: Ledger, next: Ledger, id: Id)
    requires IntentsSafe(l) && id in l.reservations && next.intents == l.intents
    requires id in next.reservations && next.reservations == l.reservations[id := next.reservations[id]]
    requires ReservationStep(l.reservations[id], next.reservations[id])
    requires !Current(next.reservations[id]) ==> !Current(l.reservations[id]) || !Unfinished(l, id)
    requires next.reservations[id].status == Ambiguous ==> l.reservations[id].status == Ambiguous || !Undoubted(l, id)
    ensures IntentsSafe(next)
  {
    forall i | i in l.intents && !Terminal(l.intents[i].state) && l.intents[i].reservation == id
      ensures Current(next.reservations[id])
      ensures l.intents[i].state == Unclear <==> next.reservations[id].status == Ambiguous
    {
    }
  }

  predicate IntentStep(i: Intent, j: Intent) {
    && j.reservation == i.reservation && j.fence == i.fence && j.key == i.key && j.operation == i.operation
    && !Terminal(i.state) && j.state != Pending
  }

  lemma IntentMoved(l: Ledger, next: Ledger, intent: Id, id: Id)
    requires IntentsSafe(l) && intent in l.intents && l.intents[intent].reservation == id && id in l.reservations
    requires intent in next.intents && next.intents == l.intents[intent := next.intents[intent]]
    requires IntentStep(l.intents[intent], next.intents[intent])
    requires id in next.reservations && next.reservations == l.reservations[id := next.reservations[id]]
    requires ReservationStep(l.reservations[id], next.reservations[id])
    requires !Terminal(next.intents[intent].state) ==> Current(next.reservations[id])
    requires !Terminal(next.intents[intent].state) ==>
               (next.intents[intent].state == Unclear <==> next.reservations[id].status == Ambiguous)
    ensures IntentsSafe(next)
  {
    forall j | j in l.intents && j != intent && l.intents[j].reservation == id ensures Terminal(l.intents[j].state) {
    }
  }

  lemma IntentAdded(l: Ledger, next: Ledger, intent: Id, id: Id)
    requires IntentsSafe(l) && intent !in l.intents && id in l.reservations && next.reservations == l.reservations
    requires intent in next.intents && next.intents == l.intents[intent := next.intents[intent]]
    requires next.intents[intent].reservation == id && next.intents[intent].fence == l.reservations[id].fence
    requires next.intents[intent].state == Pending && l.reservations[id].status == Active && !Unfinished(l, id)
    ensures IntentsSafe(next)
  {
    forall j | j in l.intents && l.intents[j].reservation == id ensures Terminal(l.intents[j].state) {
    }
  }

  // ---------------------------------------------------------------- evidence only grows

  lemma ObservedStill(l: Ledger, next: Ledger, i: Id, n: nat, c: Code)
    requires i in l.intents && i in next.intents && next.intents[i].reservation == l.intents[i].reservation
    requires l.observations <= next.observations && ObservedFor(l, i, n, c)
    ensures ObservedFor(next, i, n, c)
  {
    var row :| row in l.observations && row.reservation == l.intents[i].reservation && row.intent == Some(i) &&
               row.receipt.number == n && row.receipt.code == c;
    var k :| 0 <= k < |l.observations| && l.observations[k] == row;
    assert next.observations[k] == row;
  }

  lemma RowAdded(l: Ledger, next: Ledger, row: Row)
    requires RowsNumbered(l) && next.observations == l.observations + [row]
    requires !Numbered(l.observations, row.reservation, row.receipt.number)
    ensures RowsNumbered(next)
  {
    forall j | 0 <= j < |l.observations| && l.observations[j].reservation == row.reservation
      ensures l.observations[j].receipt.number != row.receipt.number
    {
      assert l.observations[j] in l.observations;
    }
  }

  /** What may be said about the one intent a transaction touches, once it is done. */
  ghost predicate IntentEvidenced(l: Ledger, i: Id)
    requires i in l.intents
  {
    && (i in l.receipts ==>
          && ObservedFor(l, i, l.receipts[i].number, l.receipts[i].code)
          && l.receipts[i].outcome == OutcomeOf(l.receipts[i].code) && l.receipts[i].outcome != Indeterminate
          && l.intents[i].state in {Verified, Unclear, Finalized, Failed})
    && (l.intents[i].state == Observed ==> ObservedWell(l, i))
    && (l.intents[i].state == Verified ==> i in l.receipts && l.receipts[i].outcome == Succeeded)
    && (i in l.finalizations <==> Terminal(l.intents[i].state))
    && (i in l.finalizations && l.finalizations[i].outcome != FinalFailed ==>
          && i in l.receipts && l.finalizations[i].code == Some(l.receipts[i].code)
          && l.finalizations[i].outcome == FinalOf(l.receipts[i].outcome))
  }

  lemma EvidencedEach(l: Ledger)
    requires Evidenced(l) && FinalizedRightly(l)
    ensures forall i :: i in l.intents ==> IntentEvidenced(l, i)
    ensures forall i :: i in l.receipts || i in l.finalizations ==> i in l.intents
  {
  }

  lemma EachEvidenced(l: Ledger)
    requires forall i :: i in l.intents ==> IntentEvidenced(l, i)
    requires forall i :: i in l.receipts || i in l.finalizations ==> i in l.intents
    ensures Evidenced(l) && FinalizedRightly(l)
  {
  }

  /** A table that differs at most under one key. */
  ghost predicate SameElsewhere<T>(m: map<Id, T>, n: map<Id, T>, key: Id) {
    forall k :: k != key ==> (k in m <==> k in n) && (k in m && k in n ==> m[k] == n[k])
  }

  /** Touching the evidence of one intent leaves the evidence of all others as it was. */
  lemma EvidenceKept(l: Ledger, next: Ledger, intent: Id)
    requires Evidenced(l) && FinalizedRightly(l) && l.observations <= next.observations
    requires SameElsewhere(l.intents, next.intents, intent) && SameElsewhere(l.receipts, next.receipts, intent)
    requires SameElsewhere(l.finalizations, next.finalizations, intent)
    requires intent in next.intents && IntentEvidenced(next, intent)
    ensures Evidenced(next) && FinalizedRightly(next)
  {
    EvidencedEach(l);
    forall i | i in next.intents && i != intent ensures IntentEvidenced(next, i) {
      assert IntentEvidenced(l, i);
      if i in l.receipts { ObservedStill(l, next, i, l.receipts[i].number, l.receipts[i].code); }
      if l.intents[i].state == Observed {
        var code :| ObservedFor(l, i, l.intents[i].lastObservation, code) && OutcomeOf(code) == Succeeded;
        ObservedStill(l, next, i, l.intents[i].lastObservation, code);
      }
    }
    EachEvidenced(next);
  }

  /** Evidence lives in the intents, observations and receipts alone. */
  lemma EvidenceSame(l: Ledger, next: Ledger)
    requires Evidenced(l) && FinalizedRightly(l) && l.observations <= next.observations && next.intents == l.intents
    requires next.receipts == l.receipts && next.finalizations == l.finalizations
    ensures Evidenced(next) && FinalizedRightly(next)
  {
    EvidencedEach(l);
    forall i | i in next.intents ensures IntentEvidenced(next, i) {
      assert IntentEvidenced(l, i);
      if i in l.receipts { ObservedStill(l, next, i, l.receipts[i].number, l.receipts[i].code); }
      if l.intents[i].state == Observed {
        var code :| ObservedFor(l, i, l.intents[i].lastObservation, code) && OutcomeOf(code) == Succeeded;
        ObservedStill(l, next, i, l.intents[i].lastObservation, code);
      }
    }
    EachEvidenced(next);
  }

  // ---------------------------------------------------------------- each transaction keeps all of it

  /** In every safe state the refusal for an unsettled prior reservation is out of reach. */
  lemma PriorsSettled(l: Ledger, target: Target)
    requires Safe(l) && !TargetTaken(l, target)
    ensures !PriorUnsettled(l, target)
  {
    forall r | r in l.reservations && l.reservations[r].target == target
      ensures l.reservations[r].status != Ambiguous && !Unfinished(l, r)
    {
      assert !Current(l.reservations[r]);
    }
  }

  lemma ReserveTargets(
    l: Ledger, id: Id, target: Target, execution: Id, leaseOwner: Id, now: nat, lease: nat, bound: bool, granted: bool)
    requires TargetsSafe(l)
    ensures TargetsSafe(Reserve(l, id, target, execution, leaseOwner, now, lease, bound, granted).ledger)
  {
    var next := Reserve(l, id, target, execution, leaseOwner, now, lease, bound, granted).ledger;
    if next != l {
      forall t | t in next.sequences ensures HasFence(next, t, next.sequences[t]) {
        if t == target {
          assert next.reservations[id].fence == next.sequences[t];
        } else {
          assert HasFence(l, t, l.sequences[t]);
          var r :| r in l.reservations && l.reservations[r].target == t && l.reservations[r].fence == l.sequences[t];
          assert r in next.reservations && next.reservations[r] == l.reservations[r];
        }
      }
    }
  }

  lemma ReserveSafe(
    l: Ledger, id: Id, target: Target, execution: Id, leaseOwner: Id, now: nat, lease: nat, bound: bool, granted: bool)
    requires Safe(l)
    ensures Safe(Reserve(l, id, target, execution, leaseOwner, now, lease, bound, granted).ledger)
  {
    hide TargetsSafe, Evidenced, FinalizedRightly;
    var next := Reserve(l, id, target, execution, leaseOwner, now, lease, bound, granted).ledger;
    ReserveTargets(l, id, target, execution, leaseOwner, now, lease, bound, granted);
    EvidenceSame(l, next);
  }

  lemma MutateSafe(
    l: Ledger, id: Id, e: Expected, action: Mutation, leaseOwner: Id, now: nat, lease: nat, granted: bool,
    policyCurrent: bool, completed: bool)
    requires Safe(l)
    ensures Safe(Mutate(l, id, e, action, leaseOwner, now, lease, granted, policyCurrent, completed).ledger)
  {
    hide TargetsSafe, IntentsSafe, Evidenced, FinalizedRightly, RowsNumbered, Unfinished, LatestInspection;
    var next := Mutate(l, id, e, action, leaseOwner, now, lease, granted, policyCurrent, completed).ledger;
    if next != l {
      TargetsKept(l, next, id);
      ReservationMoved(l, next, id);
      EvidenceSame(l, next);
      SameRows(l, next);
    }
  }

  lemma SameRows(l: Ledger, next: Ledger)
    requires RowsNumbered(l) && next.observations == l.observations
    ensures RowsNumbered(next)
  {
  }

  lemma RecordInspectionSafe(l: Ledger, id: Id, e: Expected, receipt: Receipt)
    requires Safe(l)
    ensures Safe(RecordInspection(l, id, e, receipt).ledger)
  {
    hide TargetsSafe, IntentsSafe, Evidenced, FinalizedRightly, RowsNumbered, Unfinished, Numbered;
    var next := RecordInspection(l, id, e, receipt).ledger;
    if next != l {
      assert next.reservations == l.reservations[id := next.reservations[id]];
      TargetsKept(l, next, id);
      ReservationMoved(l, next, id);
      EvidenceSame(l, next);
      RowAdded(l, next, Row(id, None, receipt));
    }
  }

  lemma PrepareSafe(
    l: Ledger, intent: Id, key: Id, id: Id, e: Expected, operation: Operation, leaseOwner: Id, last: nat, now: nat,
    running: bool, granted: bool)
    requires Safe(l)
    ensures Safe(Prepare(l, intent, key, id, e, operation, leaseOwner, last, now, running, granted).ledger)
  {
    hide TargetsSafe, IntentsSafe, Evidenced, FinalizedRightly, RowsNumbered, Unfinished;
    var next := Prepare(l, intent, key, id, e, operation, leaseOwner, last, now, running, granted).ledger;
    SameRows(l, next);
    SameTargets(l, next);
    if next.intents == l.intents {
      SameIntents(l, next);
      EvidenceSame(l, next);
    } else {
      IntentAdded(l, next, intent, id);
      NothingYet(l, intent);
      EvidenceKept(l, next, intent);
    }
  }

  lemma SameTargets(l: Ledger, next: Ledger)
    requires TargetsSafe(l) && next.sequences == l.sequences && next.reservations == l.reservations
    ensures TargetsSafe(next)
  {
    forall t | t in next.sequences ensures HasFence(next, t, next.sequences[t]) {
      assert HasFence(l, t, l.sequences[t]);
    }
  }

  lemma SameIntents(l: Ledger, next: Ledger)
    requires IntentsSafe(l) && next.intents == l.intents && next.reservations == l.reservations
    ensures IntentsSafe(next)
  {
  }

  lemma NothingYet(l: Ledger, intent: Id)
    requires Evidenced(l) && FinalizedRightly(l) && intent !in l.intents
    ensures intent !in l.receipts && intent !in l.finalizations
  {
  }

  lemma EvidenceOf(l: Ledger, intent: Id)
    requires Evidenced(l) && FinalizedRightly(l) && intent in l.intents
    ensures IntentEvidenced(l, intent)
  {
    EvidencedEach(l);
  }

  lemma BoundOf(l: Ledger, intent: Id)
    requires IntentsSafe(l) && intent in l.intents
    ensures l.intents[intent].reservation in l.reservations
    ensures !Terminal(l.intents[intent].state) ==>
              && Current(l.reservations[l.intents[intent].reservation])
              && (l.intents[intent].state == Unclear <==> l.reservations[l.intents[intent].reservation].status == Ambiguous)
  {
  }

  lemma ActSafe(l: Ledger, intent: Id, e: Expected, leaseOwner: Id, now: nat, policyCurrent: bool, granted: bool)
    requires Safe(l)
    ensures Safe(Act(l, intent, e, leaseOwner, now, policyCurrent, granted).ledger)
    ensures Act(l, intent, e, leaseOwner, now, policyCurrent, granted).answer == Aborted <==>
            intent !in l.intents || l.intents[intent].state != Pending
  {
    hide TargetsSafe, IntentsSafe, Evidenced, FinalizedRightly, RowsNumbered;
    var next := Act(l, intent, e, leaseOwner, now, policyCurrent, granted).ledger;
    if intent in l.intents && l.intents[intent].state == Pending {
      BoundOf(l, intent);
      EvidenceOf(l, intent);
      IntentMoved(l, next, intent, l.intents[intent].reservation);
      SameTargets(l, next);
      SameRows(l, next);
      EvidenceKept(l, next, intent);
    }
  }

  lemma RecordFailureSafe(l: Ledger, intent: Id, doubtful: bool, now: nat)
    requires Safe(l)
    ensures Safe(RecordFailure(l, intent, doubtful, now).ledger)
    ensures RecordFailure(l, intent, doubtful, now).answer == Aborted <==>
            intent !in l.intents || l.intents[intent].state != Executing
  {
    hide TargetsSafe, IntentsSafe, Evidenced, FinalizedRightly, RowsNumbered;
    var next := RecordFailure(l, intent, doubtful, now).ledger;
    if intent in l.intents && l.intents[intent].state == Executing {
      BoundOf(l, intent);
      EvidenceOf(l, intent);
      var id := l.intents[intent].reservation;
      assert next.reservations == l.reservations[id := next.reservations[id]];
      IntentMoved(l, next, intent, id);
      TargetsKept(l, next, id);
      SameRows(l, next);
      EvidenceKept(l, next, intent);
    }
  }

  lemma RowObserves(l: Ledger, intent: Id, row: Row)
    requires intent in l.intents && row in l.observations && row.reservation == l.intents[intent].reservation
    requires row.intent == Some(intent)
    ensures ObservedFor(l, intent, row.receipt.number, row.receipt.code)
  {
  }

  /** What recording a receipt changes, and the case it falls under. */
  lemma RecordReceiptShape(l: Ledger, intent: Id, receipt: Receipt, now: nat)
    requires RecordReceipt(l, intent, receipt, now).answer == Done
    ensures intent in l.intents && l.intents[intent].state == Executing && l.intents[intent].reservation in l.reservations
    ensures var next := RecordReceipt(l, intent, receipt, now).ledger;
            var id := l.intents[intent].reservation;
            && next.sequences == l.sequences && next.requests == l.requests
            && id in next.reservations && intent in next.intents
            && next.reservations == l.reservations[id := next.reservations[id]]
            && next.intents == l.intents[intent := next.intents[intent]]
            && next.observations == l.observations + [Row(id, Some(intent), receipt)]
            && !Numbered(l.observations, id, receipt.number)
            && ReservationStep(l.reservations[id], next.reservations[id])
            && SameLease(l.reservations[id], next.reservations[id])
            && IntentStep(l.intents[intent], next.intents[intent])
            && next.intents[intent].lastObservation == receipt.number
            && match next.intents[intent].state
               case Unclear =>
                 next.reservations[id].status == Ambiguous && next.receipts == l.receipts && next.finalizations == l.finalizations
               case Observed =>
                 next.reservations[id].status == Active && OutcomeOf(receipt.code) == Succeeded &&
                 next.receipts == l.receipts && next.finalizations == l.finalizations
               case Failed =>
                 && OutcomeOf(receipt.code) == Refused && next.reservations[id].status == Active
                 && next.receipts == l.receipts[intent := VerifiedReceipt(receipt.number, Refused, receipt.code)]
                 && next.finalizations == l.finalizations[intent := Finalization(FinalRefused, Some(receipt.code), None)]
               case _ => false
  {
    hide Numbered, AfterTimestamp;
  }

  lemma RecordReceiptSafe(l: Ledger, intent: Id, receipt: Receipt, now: nat)
    requires Safe(l)
    ensures Safe(RecordReceipt(l, intent, receipt, now).ledger)
  {
    hide TargetsSafe, IntentsSafe, Evidenced, FinalizedRightly, RowsNumbered, Numbered, ObservedFor, RecordReceipt,
         ReservationStep, IntentStep;
    var next := RecordReceipt(l, intent, receipt, now).ledger;
    if RecordReceipt(l, intent, receipt, now).answer == Done {
      RecordReceiptShape(l, intent, receipt, now);
      EvidenceOf(l, intent);
      var id := l.intents[intent].reservation;
      var row := Row(id, Some(intent), receipt);
      IntentMoved(l, next, intent, id);
      TargetsKept(l, next, id);
      RowAdded(l, next, row);
      assert next.observations[|l.observations|] == row;
      SameReservationOf(l, next, intent);
      RowObserves(next, intent, row);
      EvidenceKept(l, next, intent);
    } else {
      Unanswered(l, intent, receipt, now);
    }
  }

  lemma SameReservationOf(l: Ledger, next: Ledger, intent: Id)
    requires intent in l.intents && intent in next.intents && IntentStep(l.intents[intent], next.intents[intent])
    ensures next.intents[intent].reservation == l.intents[intent].reservation
  {
  }

  lemma Unanswered(l: Ledger, intent: Id, receipt: Receipt, now: nat)
    requires RecordReceipt(l, intent, receipt, now).answer != Done
    ensures RecordReceipt(l, intent, receipt, now).ledger == l
  {
  }

  lemma UniqueRow(l: Ledger, a: Row, b: Row)
    requires RowsNumbered(l) && a in l.observations && b in l.observations
    requires a.reservation == b.reservation && a.receipt.number == b.receipt.number
    ensures a == b
  {
    var j :| 0 <= j < |l.observations| && l.observations[j] == a;
    var k :| 0 <= k < |l.observations| && l.observations[k] == b;
  }

  /** The number an observed intent carries leads back to its own observation. */
  lemma ObservedRow(l: Ledger, intent: Id)
    requires RowsNumbered(l) && Evidenced(l) && intent in l.intents && l.intents[intent].state == Observed
    ensures var i := l.intents[intent];
            var row := RowOf(l.observations, i.reservation, i.lastObservation);
            && row.Some? && OutcomeOf(row.value.receipt.code) == Succeeded
            && ObservedFor(l, intent, i.lastObservation, row.value.receipt.code)
  {
    var i := l.intents[intent];
    assert ObservedWell(l, intent);
    var code :| ObservedFor(l, intent, i.lastObservation, code) && OutcomeOf(code) == Succeeded;
    var row :| row in l.observations && row.reservation == i.reservation && row.intent == Some(intent) &&
               row.receipt.number == i.lastObservation && row.receipt.code == code;
    RowOfFinds(l.observations, row);
    UniqueRow(l, row, RowOf(l.observations, i.reservation, i.lastObservation).value);
  }

  lemma {:induction false} RowOfFinds(rows: seq<Row>, row: Row)
    requires row in rows
    ensures RowOf(rows, row.reservation, row.receipt.number).Some?
    decreases |rows|
  {
    if rows[0] != row {
      RowOfFinds(rows[1..], row);
    }
  }

  lemma VerifySafe(l: Ledger, intent: Id, number: nat, now: nat)
    requires Safe(l) && (intent in l.intents && l.intents[intent].state == Observed ==> number == l.intents[intent].lastObservation)
    ensures Safe(Verify(l, intent, number, now).ledger)
    ensures Verify(l, intent, number, now).answer == Aborted <==>
            intent !in l.intents || l.intents[intent].state != Observed
  {
    hide TargetsSafe, IntentsSafe, Evidenced, FinalizedRightly, RowsNumbered, ObservedFor, RowOf;
    var next := Verify(l, intent, number, now).ledger;
    if intent in l.intents && l.intents[intent].state == Observed {
      EvidenceOf(l, intent);
      ObservedRow(l, intent);
      BoundOf(l, intent);
      var id := l.intents[intent].reservation;
      IntentMoved(l, next, intent, id);
      SameTargets(l, next);
      SameRows(l, next);
      ObservedStill(l, next, intent, number, next.receipts[intent].code);
      EvidenceKept(l, next, intent);
    }
  }

  lemma FinalizeSafe(l: Ledger, intent: Id, e: Expected, now: nat, policyCurrent: bool, granted: bool)
    requires Safe(l)
    ensures Safe(Finalize(l, intent, e, now, policyCurrent, granted).ledger)
  {
    hide TargetsSafe, IntentsSafe, Evidenced, FinalizedRightly, RowsNumbered, ObservedFor;
    var next := Finalize(l, intent, e, now, policyCurrent, granted).ledger;
    if Finalize(l, intent, e, now, policyCurrent, granted).answer == Done {
      EvidenceOf(l, intent);
      BoundOf(l, intent);
      var id := l.intents[intent].reservation;
      assert next.reservations == l.reservations[id := next.reservations[id]];
      IntentMoved(l, next, intent, id);
      TargetsKept(l, next, id);
      SameRows(l, next);
      ObservedStill(l, next, intent, l.receipts[intent].number, l.receipts[intent].code);
      EvidenceKept(l, next, intent);
    }
  }

  /** What a recovery changes: nothing but more doubt, or the end of the intent and of its reservation. */
  lemma RecoverShape(l: Ledger, intent: Id, id: Id, e: Expected, receipt: Receipt, now: nat)
    requires Recover(l, intent, id, e, receipt, now).answer == Done
    ensures intent in l.intents && l.intents[intent].state == Unclear && l.intents[intent].reservation == id
    ensures id in l.reservations && l.reservations[id].status == Ambiguous
    ensures var next := Recover(l, intent, id, e, receipt, now).ledger;
            && next.sequences == l.sequences && next.requests == l.requests
            && id in next.reservations && intent in next.intents
            && next.reservations == l.reservations[id := next.reservations[id]]
            && next.intents == l.intents[intent := next.intents[intent]]
            && next.observations == l.observations + [Row(id, Some(intent), receipt)]
            && !Numbered(l.observations, id, receipt.number)
            && ReservationStep(l.reservations[id], next.reservations[id])
            && SameLease(l.reservations[id], next.reservations[id])
            && IntentStep(l.intents[intent], next.intents[intent])
            && if receipt.code == InspectedAmbiguous then
                 && next.intents[intent].state == Unclear && next.reservations[id].status == Ambiguous
                 && next.receipts == l.receipts && next.finalizations == l.finalizations
               else
                 && next.intents[intent].state == Finalized && !Current(next.reservations[id])
                 && (CodeFits(Inspect, receipt.code) ==>
                       && OutcomeOf(receipt.code) != Indeterminate
                       && next.receipts ==
                          l.receipts[intent := VerifiedReceipt(receipt.number, OutcomeOf(receipt.code), receipt.code)]
                       && next.finalizations == l.finalizations[intent :=
                            Finalization(FinalOf(OutcomeOf(receipt.code)), Some(receipt.code),
                                         Some(RecoveryOf(receipt.code)))])
  {
  }

  lemma RecoverUnanswered(l: Ledger, intent: Id, id: Id, e: Expected, receipt: Receipt, now: nat)
    requires Recover(l, intent, id, e, receipt, now).answer != Done
    ensures Recover(l, intent, id, e, receipt, now).ledger == l
  {
  }

  lemma RecoverSafe(l: Ledger, intent: Id, id: Id, e: Expected, receipt: Receipt, now: nat)
    requires Safe(l) && CodeFits(Inspect, receipt.code)
    ensures Safe(Recover(l, intent, id, e, receipt, now).ledger)
  {
    hide TargetsSafe, IntentsSafe, Evidenced, FinalizedRightly, RowsNumbered, Numbered, ObservedFor, Recover,
         ReservationStep, IntentStep;
    var next := Recover(l, intent, id, e, receipt, now).ledger;
    if Recover(l, intent, id, e, receipt, now).answer == Done {
      RecoverShape(l, intent, id, e, receipt, now);
      EvidenceOf(l, intent);
      var row := Row(id, Some(intent), receipt);
      IntentMoved(l, next, intent, id);
      TargetsKept(l, next, id);
      RowAdded(l, next, row);
      assert next.observations[|l.observations|] == row;
      SameReservationOf(l, next, intent);
      RowObserves(next, intent, row);
      if intent in l.receipts { ObservedStill(l, next, intent, l.receipts[intent].number, l.receipts[intent].code); }
      EvidenceKept(l, next, intent);
    } else {
      RecoverUnanswered(l, intent, id, e, receipt, now);
    }
  }

  lemma EmptySafe()
    ensures Safe(EMPTY)
  {
  }
}
