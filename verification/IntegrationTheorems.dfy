/**
 The guarantees of the integration protocol over every run, and the two ways in which a reservation can be left
 that no later step can settle.
 */
module IntegrationTheorems {
  import opened Options
  import opened IntegrationModel
  import opened IntegrationSafety
  import opened IntegrationRuns
  import opened IntegrationHistory

  // ---------------------------------------------------------------- reservations and intents

  /**
   In every run: one unfinished intent for a reservation at most, and then the reservation is current, and ambiguous
   exactly when the intent is unclear; a released or expired reservation has only terminal intents.
   */
  lemma ReservationsAndIntents(worlds: seq<World>, actions: seq<Action>, n: nat)
    requires Run(worlds, actions) && n < |worlds|
    ensures var l := worlds[n].ledger;
            && (forall i, j | i in l.intents && j in l.intents && i != j &&
                              l.intents[i].reservation == l.intents[j].reservation ::
                  Terminal(l.intents[i].state) || Terminal(l.intents[j].state))
            && (forall i :: i in l.intents ==> l.intents[i].reservation in l.reservations)
            && (forall i :: i in l.intents && !Terminal(l.intents[i].state) ==> Current(l.reservations[l.intents[i].reservation]))
            && (forall i :: i in l.intents && !Terminal(l.intents[i].state) ==>
                  (l.intents[i].state == Unclear <==> l.reservations[l.intents[i].reservation].status == Ambiguous))
            && (forall i :: i in l.intents && !Current(l.reservations[l.intents[i].reservation]) ==> Terminal(l.intents[i].state))
  {
    hide Run, ProcessesFit, HistoryFits, TargetsSafe, EvidenceSafe;
    RunSound(worlds, actions, n);
  }

  /** The refusal for an unsettled prior reservation is never given. */
  lemma ReconciliationNeverRequired(
    worlds: seq<World>, actions: seq<Action>, n: nat, id: Id, target: Target, execution: Id, leaseOwner: Id, now: nat,
    lease: nat, bound: bool, granted: bool)
    requires Run(worlds, actions) && n < |worlds|
    ensures Reserve(worlds[n].ledger, id, target, execution, leaseOwner, now, lease, bound, granted).answer !=
            ReconciliationRequired
  {
    hide Run, ProcessesFit, HistoryFits, Safe;
    RunSound(worlds, actions, n);
    if !TargetTaken(worlds[n].ledger, target) { PriorsSettled(worlds[n].ledger, target); }
  }

  // ---------------------------------------------------------------- what steps add

  ghost predicate NothingNew(l: Ledger, next: Ledger) {
    && next.requests == l.requests && (forall i :: i in next.intents ==> i in l.intents)
    && (forall i :: i in l.receipts ==> i in next.receipts)
    && (forall r :: r in next.reservations ==> r in l.reservations)
  }

  lemma ReceiptNothingNew(l: Ledger, intent: Id, receipt: Receipt, now: nat)
    ensures NothingNew(l, RecordReceipt(l, intent, receipt, now).ledger)
  {
    hide RecordReceipt, ReservationStep, IntentStep, SameLease, Numbered;
    if RecordReceipt(l, intent, receipt, now).answer == Done {
      RecordReceiptShape(l, intent, receipt, now);
    } else {
      Unanswered(l, intent, receipt, now);
    }
  }

  lemma FailureNothingNew(l: Ledger, intent: Id, doubtful: bool, now: nat)
    ensures NothingNew(l, RecordFailure(l, intent, doubtful, now).ledger)
  {
  }

  lemma RecoverNothingNew(l: Ledger, intent: Id, id: Id, e: Expected, receipt: Receipt, now: nat)
    ensures NothingNew(l, Recover(l, intent, id, e, receipt, now).ledger)
  {
    hide Numbered;
  }

  lemma MutateNothingNew(w: World, a: Action)
    requires a.DoMutate?
    ensures NothingNew(w.ledger, Next(w, a).ledger)
  {
    hide Unfinished, LatestInspection;
  }

  lemma InspectNothingNew(w: World, a: Action)
    requires a.DoInspect?
    ensures NothingNew(w.ledger, Next(w, a).ledger)
  {
    hide Numbered;
  }

  lemma ActNothingNew(w: World, a: Action)
    requires a.DoAct? || a.DoVerify?
    ensures NothingNew(w.ledger, Next(w, a).ledger)
  {
    hide RowOf;
  }

  lemma FinalizeNothingNew(w: World, a: Action)
    requires a.DoFinalize?
    ensures NothingNew(w.ledger, Next(w, a).ledger)
  {
  }

  /** Only reserving and preparing add a reservation, an intent or a request. */
  lemma AddsNothing(w: World, a: Action)
    requires !a.DoPrepare? && !a.DoReserve?
    ensures NothingNew(w.ledger, Next(w, a).ledger)
  {
    hide RecordReceipt, RecordFailure, Recover, StepAct, StepMutate, StepVerify, StepFinalize, Reserve, RecordInspection;
    match a {
      case DoReserve(_, _, _, _, _, _, _, _) =>
      case DoMutate(_, _, _, _, _, _, _, _, _) => MutateNothingNew(w, a);
      case DoInspect(_, _, _) => InspectNothingNew(w, a);
      case DoPrepare(_, _, _, _, _, _, _, _, _, _) =>
      case DoAct(_, _, _, _) => ActNothingNew(w, a);
      case DoCall(_, _) =>
      case DoRecord(i, now) =>
        if i in w.processes && w.processes[i].CalledBackend? {
          match w.processes[i].result {
            case NoReceipt(doubtful) => FailureNothingNew(w.ledger, i, doubtful, now);
            case GotReceipt(receipt) => ReceiptNothingNew(w.ledger, i, receipt, now);
          }
        }
      case DoVerify(_, _) => ActNothingNew(w, a);
      case DoFinalize(_, _, _, _) => FinalizeNothingNew(w, a);
      case DoRecover(i, id, e, receipt, now) => RecoverNothingNew(w.ledger, i, id, e, receipt, now);
      case DoCrash(_) =>
    }
  }

  // ---------------------------------------------------------------- targets and fences

  /** At most one reservation of a target is current, and the stored sequence is the greatest fence issued for it. */
  lemma TargetsAndFences(worlds: seq<World>, actions: seq<Action>, n: nat)
    requires Run(worlds, actions) && n < |worlds|
    ensures var l := worlds[n].ledger;
            && OneCurrent(l)
            && (forall r :: r in l.reservations ==>
                  l.reservations[r].target in l.sequences &&
                  1 <= l.reservations[r].fence <= l.sequences[l.reservations[r].target])
            && (forall t :: t in l.sequences ==> HasFence(l, t, l.sequences[t]))
  {
    hide Run, ProcessesFit, HistoryFits, IntentsSafe, EvidenceSafe, OneCurrent;
    RunSound(worlds, actions, n);
  }

  /** A step never changes a fence or a target, and a new reservation's fence exceeds every earlier one of its target. */
  lemma FencesIncrease(w: World, a: Action)
    requires Safe(w.ledger)
    ensures forall r :: r in w.ledger.reservations ==>
              && r in Next(w, a).ledger.reservations
              && Next(w, a).ledger.reservations[r].fence == w.ledger.reservations[r].fence
              && Next(w, a).ledger.reservations[r].target == w.ledger.reservations[r].target
    ensures forall r, s | r in Next(w, a).ledger.reservations && r !in w.ledger.reservations &&
                          s in w.ledger.reservations &&
                          w.ledger.reservations[s].target == Next(w, a).ledger.reservations[r].target ::
              w.ledger.reservations[s].fence < Next(w, a).ledger.reservations[r].fence
  {
    hide Next, IntentsSafe, EvidenceSafe;
    NextGrows(w, a);
    if a.DoReserve? {
      ReservedFence(w.ledger, a);
    } else if a.DoPrepare? {
      PrepareKeepsReservations(w, a);
    } else {
      AddsNothing(w, a);
    }
  }

  lemma PrepareKeepsReservations(w: World, a: Action)
    requires a.DoPrepare?
    ensures Next(w, a).ledger.reservations == w.ledger.reservations
  {
    hide Unfinished;
  }

  lemma ReserveKeepsIntents(w: World, a: Action)
    requires a.DoReserve?
    ensures Next(w, a).ledger.requests == w.ledger.requests && Next(w, a).ledger.intents == w.ledger.intents
    ensures Next(w, a).ledger.receipts == w.ledger.receipts
  {
    hide TargetTaken, PriorUnsettled;
  }

  lemma ReservedFence(l: Ledger, a: Action)
    requires Safe(l) && a.DoReserve?
    ensures var next := Next(World(l, map[], [], 0), a).ledger;
            forall w: World | w.ledger == l :: Next(w, a).ledger == next
    ensures var next := Next(World(l, map[], [], 0), a).ledger;
            forall r, s | r in next.reservations && r !in l.reservations && s in l.reservations &&
                          l.reservations[s].target == next.reservations[r].target ::
              l.reservations[s].fence < next.reservations[r].fence
  {
    hide TargetTaken, PriorUnsettled, IntentsSafe, EvidenceSafe;
  }

  // ---------------------------------------------------------------- lease owners

  /** While an intent of a reservation is unfinished, no step changes the owner of its lease. */
  lemma OwnerFixedWhileUnfinished(w: World, a: Action, r: Id)
    requires r in w.ledger.reservations && Unfinished(w.ledger, r)
    ensures r in Next(w, a).ledger.reservations
    ensures Next(w, a).ledger.reservations[r].leaseOwner == w.ledger.reservations[r].leaseOwner
  {
    hide Next;
    NextGrows(w, a);
    if a.DoMutate? { MutationKeepsOwner(w, a, r); }
  }

  lemma MutationKeepsOwner(w: World, a: Action, r: Id)
    requires a.DoMutate? && r in w.ledger.reservations && Unfinished(w.ledger, r)
    ensures r in Next(w, a).ledger.reservations
    ensures Next(w, a).ledger.reservations[r].leaseOwner == w.ledger.reservations[r].leaseOwner
  {
    hide LatestInspection;
  }

  lemma RunStep(worlds: seq<World>, actions: seq<Action>, k: nat)
    requires Run(worlds, actions) && k + 1 < |worlds|
    ensures k < |actions| && Possible(worlds[k], actions[k]) && worlds[k + 1] == Next(worlds[k], actions[k])
  {
  }

  /** In every run fences and targets stay, and a later reservation of a target has a greater fence. */
  lemma {:induction false} FencesInRuns(worlds: seq<World>, actions: seq<Action>, n: nat, m: nat)
    requires Run(worlds, actions) && n <= m < |worlds|
    ensures forall r :: r in worlds[n].ledger.reservations ==>
              && r in worlds[m].ledger.reservations
              && worlds[m].ledger.reservations[r].fence == worlds[n].ledger.reservations[r].fence
              && worlds[m].ledger.reservations[r].target == worlds[n].ledger.reservations[r].target
    ensures forall r, s | r in worlds[m].ledger.reservations && r !in worlds[n].ledger.reservations &&
                          s in worlds[n].ledger.reservations &&
                          worlds[n].ledger.reservations[s].target == worlds[m].ledger.reservations[r].target ::
              worlds[n].ledger.reservations[s].fence < worlds[m].ledger.reservations[r].fence
  {
    hide Run, Next, Possible, ProcessesFit, HistoryFits, Safe;
    if n < m {
      RunStep(worlds, actions, m - 1);
      FencesInRuns(worlds, actions, n, m - 1);
      RunSound(worlds, actions, m - 1);
      FencesIncrease(worlds[m - 1], actions[m - 1]);
    }
  }

  /** In every run the owner of a lease is the same as long as one intent of its reservation is unfinished. */
  lemma {:induction false} OwnerInRuns(worlds: seq<World>, actions: seq<Action>, n: nat, m: nat, r: Id, i: Id)
    requires Run(worlds, actions) && n <= m < |worlds| && r in worlds[n].ledger.reservations
    requires i in worlds[n].ledger.intents && worlds[n].ledger.intents[i].reservation == r
    requires i in worlds[m].ledger.intents && !Terminal(worlds[m].ledger.intents[i].state)
    ensures r in worlds[m].ledger.reservations && worlds[m].ledger.intents[i].reservation == r
    ensures worlds[m].ledger.reservations[r].leaseOwner == worlds[n].ledger.reservations[r].leaseOwner
  {
    hide Run, Next, Possible;
    if n < m {
      RunStep(worlds, actions, m - 1);
      IntentsInRuns(worlds, actions, n, m - 1);
      NextGrows(worlds[m - 1], actions[m - 1]);
      OwnerInRuns(worlds, actions, n, m - 1, r, i);
      OwnerFixedWhileUnfinished(worlds[m - 1], actions[m - 1], r);
    }
  }

  lemma {:induction false} IntentsInRuns(worlds: seq<World>, actions: seq<Action>, n: nat, m: nat)
    requires Run(worlds, actions) && n <= m < |worlds|
    ensures forall i :: i in worlds[n].ledger.intents ==> i in worlds[m].ledger.intents
  {
    hide Run, Next, Possible;
    if n < m {
      RunStep(worlds, actions, m - 1);
      IntentsInRuns(worlds, actions, n, m - 1);
      NextGrows(worlds[m - 1], actions[m - 1]);
    }
  }

  /**
   Two acts on one reservation by different lease owners: in between, the reservation was taken over, its lease had
   expired after the first act, an inspection is stamped no earlier than that expiry, and the first intent had ended.
   */
  lemma ActsApart(worlds: seq<World>, actions: seq<Action>, n: nat, j: int, k: int)
    requires Run(worlds, actions) && n < |worlds|
    requires var log := worlds[n].log;
             0 <= j < k < |log| && log[j].Acted? && log[k].Acted? && log[j].reservation == log[k].reservation &&
             log[j].leaseOwner != log[k].leaseOwner
    ensures var log := worlds[n].log;
            exists m :: 0 <= m < |log| && j < m < k && log[m].TookOver? && log[m].reservation == log[j].reservation &&
                        log[j].at < log[m].expired <= log[m].inspected && EndedBetween(log, j, m, log[j].intent)
  {
    hide Run, Safe, ProcessesFit, Present, Ordered, Owned;
    RunSound(worlds, actions, n);
    var log := worlds[n].log;
    assert TakenOverBetween(log, j, k, log[j].reservation);
    var m :| 0 <= m < |log| && j < m < k && log[m].TookOver? && log[m].reservation == log[j].reservation;
    assert Separates(log, m);
  }

  // ---------------------------------------------------------------- the backend and its evidence

  /** Intents have different idempotency keys, and every one of them was asked for. */
  ghost predicate KeysApart(l: Ledger) {
    && (forall i, j | i in l.intents && j in l.intents && i != j :: l.intents[i].key != l.intents[j].key)
    && (forall i :: i in l.intents ==> l.intents[i].key in l.requests)
  }

  lemma KeysStayApart(w: World, a: Action)
    requires KeysApart(w.ledger)
    ensures KeysApart(Next(w, a).ledger)
  {
    if a.DoPrepare? {
      PreparedKeys(w, a);
    } else {
      hide Next;
      NextGrows(w, a);
      if a.DoReserve? { ReserveKeepsIntents(w, a); } else { AddsNothing(w, a); }
    }
  }

  lemma PreparedKeys(w: World, a: Action)
    requires KeysApart(w.ledger) && a.DoPrepare?
    ensures KeysApart(Next(w, a).ledger)
  {
    hide Unfinished;
  }

  lemma {:induction false} RunKeysApart(worlds: seq<World>, actions: seq<Action>, n: nat)
    requires Run(worlds, actions) && n < |worlds|
    ensures KeysApart(worlds[n].ledger)
    decreases n
  {
    hide KeysApart, Next, Possible;
    if n == 0 {
      NoKeys();
    } else {
      RunKeysApart(worlds, actions, n - 1);
      assert worlds[n] == Next(worlds[n - 1], actions[n - 1]);
      KeysStayApart(worlds[n - 1], actions[n - 1]);
    }
  }

  lemma NoKeys()
    ensures KeysApart(EMPTY)
  {
  }

  /**
   Under any crashes, replays and interleavings, the backend is called at most once for an idempotency key, and only
   after the act of that intent was allowed.
   */
  lemma BackendCalledOnce(worlds: seq<World>, actions: seq<Action>, n: nat, j: int, k: int)
    requires Run(worlds, actions) && n < |worlds|
    requires 0 <= j <= k < |worlds[n].log| && worlds[n].log[j].Called? && worlds[n].log[k].Called?
    ensures var w := worlds[n];
            var a, b := w.log[j].intent, w.log[k].intent;
            && a in w.ledger.intents && b in w.ledger.intents
            && (w.ledger.intents[a].key == w.ledger.intents[b].key ==> j == k)
            && exists m :: 0 <= m < j && w.log[m].Acted? && w.log[m].intent == a
  {
    hide Run, Safe, ProcessesFit, Owned, AllSeparate, OwnersApart;
    RunSound(worlds, actions, n);
    RunKeysApart(worlds, actions, n);
    var w := worlds[n];
    CalledWasActed(w, j);
    CalledWasActed(w, k);
    assert HasActed(w.log[..j], w.log[j].intent);
    var m :| 0 <= m < |w.log[..j]| && w.log[..j][m].Acted? && w.log[..j][m].intent == w.log[j].intent;
    assert w.log[m].Acted?;
  }

  lemma CalledWasActed(w: World, k: int)
    requires Present(w) && 0 <= k < |w.log| && w.log[k].Called?
    ensures w.log[k].intent in w.ledger.intents
  {
    assert w.log[k] == Called(w.log[k].intent);
    assert HasActed(w.log, w.log[k].intent);
    ActedNotPending(w, w.log[k].intent);
  }

  /** A finalization that claims success or refusal has a stored receipt repeating an observation of that same intent. */
  lemma FinalizationsEvidenced(worlds: seq<World>, actions: seq<Action>, n: nat, i: Id)
    requires Run(worlds, actions) && n < |worlds|
    requires i in worlds[n].ledger.finalizations && worlds[n].ledger.finalizations[i].outcome != FinalFailed
    ensures var l := worlds[n].ledger;
            && i in l.receipts && i in l.intents && Terminal(l.intents[i].state)
            && l.finalizations[i].code == Some(l.receipts[i].code)
            && l.finalizations[i].outcome == FinalOf(OutcomeOf(l.receipts[i].code))
            && exists row :: row in l.observations && row.intent == Some(i) &&
                 row.reservation == l.intents[i].reservation && row.receipt.number == l.receipts[i].number &&
                 row.receipt.code == l.receipts[i].code
  {
    hide Run, ProcessesFit, HistoryFits, IntentsSafe, TargetsSafe;
    RunSound(worlds, actions, n);
    var l := worlds[n].ledger;
    assert ObservedFor(l, i, l.receipts[i].number, l.receipts[i].code);
  }

  // ---------------------------------------------------------------- what can never be settled

  /** An unfinished intent that is not unclear and whose process is gone. */
  ghost predicate Abandoned(w: World, i: Id) {
    && i in w.ledger.intents && i !in w.processes
    && !Terminal(w.ledger.intents[i].state) && w.ledger.intents[i].state != Unclear
  }

  lemma NoProcessNoChange(w: World, a: Action, i: Id)
    requires i in w.ledger.intents && i !in w.processes && w.ledger.intents[i].state != Unclear
    ensures i in Next(w, a).ledger.intents && Next(w, a).ledger.intents[i] == w.ledger.intents[i]
    ensures i !in Next(w, a).processes
  {
    if AboutIntent(a) == Some(i) {
      NoProcessNoStep(w, a, i);
    } else {
      hide Next;
      NextGrows(w, a);
      OtherProcesses(w, a);
    }
  }

  lemma NoProcessNoStep(w: World, a: Action, i: Id)
    requires i in w.ledger.intents && i !in w.processes && w.ledger.intents[i].state != Unclear
    requires AboutIntent(a) == Some(i)
    ensures i in Next(w, a).ledger.intents && Next(w, a).ledger.intents[i] == w.ledger.intents[i]
    ensures i !in Next(w, a).processes
  {
    hide Numbered, Unfinished;
  }

  /** An unclear intent that can still be recovered: no receipt was stored for it yet. */
  ghost predicate Recoverable(l: Ledger, i: Id) {
    i in l.intents && l.intents[i].state == Unclear && i !in l.receipts
  }

  ghost predicate SomeWayOut(w: World, r: Id) {
    exists i :: i in w.ledger.intents && w.ledger.intents[i].reservation == r && Recoverable(w.ledger, i)
  }

  /** An ambiguous reservation none of whose intents can be recovered, now or later. */
  ghost predicate Stuck(w: World, r: Id) {
    r in w.ledger.reservations && w.ledger.reservations[r].status == Ambiguous && !SomeWayOut(w, r)
  }

  /** An intent that has ended, or is unclear with a receipt stored: it cannot be recovered. */
  ghost predicate Closed(l: Ledger, i: Id) {
    i in l.intents && (Terminal(l.intents[i].state) || (l.intents[i].state == Unclear && i in l.receipts))
  }

  lemma EffectStaysClosed(w: World, a: Action, i: Id)
    requires ProcessesFit(w) && Closed(w.ledger, i) && (AboutIntent(a) == Some(i) && !a.DoPrepare? && !a.DoRecover?)
    ensures Closed(Next(w, a).ledger, i) && Next(w, a).ledger.reservations == w.ledger.reservations
  {
  }

  lemma RecoverStaysClosed(w: World, a: Action, i: Id)
    requires a.DoRecover? && a.intent == i && Closed(w.ledger, i)
    ensures Closed(Next(w, a).ledger, i)
    ensures forall r :: r in w.ledger.reservations && w.ledger.reservations[r].status == Ambiguous ==>
              r in Next(w, a).ledger.reservations && Next(w, a).ledger.reservations[r].status == Ambiguous
  {
    hide Numbered;
  }

  lemma PrepareStaysClosed(w: World, a: Action, i: Id)
    requires a.DoPrepare? && a.intent == i && Closed(w.ledger, i)
    ensures Closed(Next(w, a).ledger, i) && Next(w, a).ledger.reservations == w.ledger.reservations
  {
    hide Unfinished, Reached;
  }

  /** An ambiguous reservation of which this action touches no intent stays ambiguous. */
  ghost predicate StaysAmbiguous(l: Ledger, next: Ledger, r: Id) {
    r in l.reservations && l.reservations[r].status == Ambiguous ==>
      r in next.reservations && next.reservations[r].status == Ambiguous
  }

  lemma ReceiptElsewhere(l: Ledger, intent: Id, receipt: Receipt, now: nat, r: Id)
    requires intent in l.intents ==> l.intents[intent].reservation != r
    ensures StaysAmbiguous(l, RecordReceipt(l, intent, receipt, now).ledger, r)
  {
    hide RecordReceipt, ReservationStep, IntentStep, SameLease, Numbered;
    if RecordReceipt(l, intent, receipt, now).answer == Done {
      RecordReceiptShape(l, intent, receipt, now);
    } else {
      Unanswered(l, intent, receipt, now);
    }
  }

  lemma FailureElsewhere(l: Ledger, intent: Id, doubtful: bool, now: nat, r: Id)
    requires intent in l.intents ==> l.intents[intent].reservation != r
    ensures StaysAmbiguous(l, RecordFailure(l, intent, doubtful, now).ledger, r)
  {
  }

  lemma RecoverElsewhere(l: Ledger, intent: Id, id: Id, e: Expected, receipt: Receipt, now: nat, r: Id)
    requires intent in l.intents ==> l.intents[intent].reservation != r
    ensures StaysAmbiguous(l, Recover(l, intent, id, e, receipt, now).ledger, r)
  {
    hide Numbered;
  }

  lemma ReserveElsewhere(w: World, a: Action, r: Id)
    requires a.DoReserve?
    ensures StaysAmbiguous(w.ledger, Next(w, a).ledger, r)
  {
    hide TargetTaken, PriorUnsettled;
  }

  lemma MutateElsewhere(w: World, a: Action, r: Id)
    requires a.DoMutate?
    ensures StaysAmbiguous(w.ledger, Next(w, a).ledger, r)
  {
    hide Unfinished, LatestInspection;
  }

  lemma InspectElsewhere(w: World, a: Action, r: Id)
    requires a.DoInspect?
    ensures StaysAmbiguous(w.ledger, Next(w, a).ledger, r)
  {
    hide Numbered;
  }

  lemma LeaseElsewhere(w: World, a: Action, r: Id)
    requires a.DoReserve? || a.DoMutate? || a.DoInspect?
    ensures StaysAmbiguous(w.ledger, Next(w, a).ledger, r)
  {
    hide Next, StaysAmbiguous;
    if a.DoReserve? { ReserveElsewhere(w, a, r); } else if a.DoMutate? { MutateElsewhere(w, a, r); } else { InspectElsewhere(w, a, r); }
  }

  lemma ActElsewhere(w: World, a: Action, r: Id)
    requires a.DoPrepare? || a.DoAct? || a.DoVerify?
    ensures StaysAmbiguous(w.ledger, Next(w, a).ledger, r)
  {
    hide Unfinished, RowOf;
  }

  lemma FinalizeElsewhere(w: World, a: Action, r: Id)
    requires a.DoFinalize? && (a.intent in w.ledger.intents ==> w.ledger.intents[a.intent].reservation != r)
    ensures StaysAmbiguous(w.ledger, Next(w, a).ledger, r)
  {
  }

  lemma OtherReservations(w: World, a: Action, r: Id)
    requires AboutIntent(a).Some? && AboutIntent(a).value in w.ledger.intents ==>
               w.ledger.intents[AboutIntent(a).value].reservation != r
    ensures StaysAmbiguous(w.ledger, Next(w, a).ledger, r)
  {
    hide RecordReceipt, RecordFailure, Recover, StepAct, StepMutate, StepVerify, StepFinalize, StepPrepare, Reserve,
         RecordInspection;
    match a {
      case DoReserve(_, _, _, _, _, _, _, _) => LeaseElsewhere(w, a, r);
      case DoMutate(_, _, _, _, _, _, _, _, _) => LeaseElsewhere(w, a, r);
      case DoInspect(_, _, _) => LeaseElsewhere(w, a, r);
      case DoPrepare(_, _, _, _, _, _, _, _, _, _) => ActElsewhere(w, a, r);
      case DoAct(_, _, _, _) => ActElsewhere(w, a, r);
      case DoCall(_, _) =>
      case DoRecord(i, now) =>
        if i in w.processes && w.processes[i].CalledBackend? {
          match w.processes[i].result {
            case NoReceipt(doubtful) => FailureElsewhere(w.ledger, i, doubtful, now, r);
            case GotReceipt(receipt) => ReceiptElsewhere(w.ledger, i, receipt, now, r);
          }
        }
      case DoVerify(_, _) => ActElsewhere(w, a, r);
      case DoFinalize(_, _, _, _) => FinalizeElsewhere(w, a, r);
      case DoRecover(i, id, e, receipt, now) => RecoverElsewhere(w.ledger, i, id, e, receipt, now, r);
      case DoCrash(_) =>
    }
  }

  /** Acting on a closed intent leaves it closed, and its reservation ambiguous. */
  lemma TouchedStaysClosed(w: World, a: Action, i: Id)
    requires ProcessesFit(w) && AboutIntent(a) == Some(i) && Closed(w.ledger, i)
    ensures Closed(Next(w, a).ledger, i)
    ensures StaysAmbiguous(w.ledger, Next(w, a).ledger, w.ledger.intents[i].reservation)
  {
    hide Next, ProcessesFit, Closed;
    if a.DoPrepare? { PrepareStaysClosed(w, a, i); } else if a.DoRecover? { RecoverStaysClosed(w, a, i); }
    else { EffectStaysClosed(w, a, i); }
  }

  lemma UntouchedStaysClosed(w: World, a: Action, i: Id)
    requires AboutIntent(a) != Some(i) && Closed(w.ledger, i)
    ensures Closed(Next(w, a).ledger, i)
  {
    if a.DoPrepare? {
      PreparedReceipts(w, a);
    } else if a.DoReserve? {
      ReserveKeepsIntents(w, a);
    } else {
      AddsNothing(w, a);
    }
    hide Next;
    NextGrows(w, a);
  }

  lemma PreparedReceipts(w: World, a: Action)
    requires a.DoPrepare?
    ensures Next(w, a).ledger.receipts == w.ledger.receipts
  {
    hide Unfinished;
  }

  /** No intent is prepared on a reservation that is ambiguous. */
  lemma NothingPrepared(w: World, a: Action, r: Id, i: Id)
    requires r in w.ledger.reservations && w.ledger.reservations[r].status == Ambiguous
    requires i in Next(w, a).ledger.intents && Next(w, a).ledger.intents[i].reservation == r
    ensures i in w.ledger.intents && w.ledger.intents[i].reservation == r
  {
    if a.DoPrepare? {
      PreparedElsewhere(w, a, r, i);
    } else {
      if a.DoReserve? { ReserveKeepsIntents(w, a); } else { AddsNothing(w, a); }
      hide Next;
      NextGrows(w, a);
    }
  }

  lemma PreparedElsewhere(w: World, a: Action, r: Id, i: Id)
    requires a.DoPrepare? && r in w.ledger.reservations && w.ledger.reservations[r].status == Ambiguous
    requires i in Next(w, a).ledger.intents && Next(w, a).ledger.intents[i].reservation == r
    ensures i in w.ledger.intents && w.ledger.intents[i].reservation == r
  {
    hide Unfinished;
  }

  /** The intents of a stuck reservation are closed. */
  lemma StuckCloses(l: Ledger, r: Id, i: Id)
    requires IntentsSafe(l) && r in l.reservations && l.reservations[r].status == Ambiguous
    requires i in l.intents && l.intents[i].reservation == r && !Recoverable(l, i)
    ensures Closed(l, i)
  {
    BoundOf(l, i);
  }

  /** A stuck reservation stays ambiguous for ever, and its target can never be reserved again. */
  lemma StuckForEver(w: World, a: Action, r: Id)
    requires Sound(w) && Possible(w, a) && Stuck(w, r)
    ensures Stuck(Next(w, a), r)
    ensures TargetTaken(Next(w, a).ledger, w.ledger.reservations[r].target)
  {
    hide Next, HistoryFits, ProcessesFit, TargetsSafe, EvidenceSafe, IntentsSafe, Possible;
    var next := Next(w, a);
    NextGrows(w, a);
    StuckAmbiguous(w, a, r);
    forall i | i in next.ledger.intents && next.ledger.intents[i].reservation == r ensures !Recoverable(next.ledger, i) {
      NothingPrepared(w, a, r, i);
      StuckCloses(w.ledger, r, i);
      if AboutIntent(a) == Some(i) { TouchedStaysClosed(w, a, i); } else { UntouchedStaysClosed(w, a, i); }
    }
    assert next.ledger.reservations[r].target == w.ledger.reservations[r].target;
  }

  lemma StuckAmbiguous(w: World, a: Action, r: Id)
    requires Sound(w) && Stuck(w, r)
    ensures r in Next(w, a).ledger.reservations && Next(w, a).ledger.reservations[r].status == Ambiguous
  {
    hide Next, HistoryFits, ProcessesFit, TargetsSafe, EvidenceSafe, IntentsSafe, Recoverable;
    if AboutIntent(a).Some? && AboutIntent(a).value in w.ledger.intents &&
       w.ledger.intents[AboutIntent(a).value].reservation == r
    {
      StuckCloses(w.ledger, r, AboutIntent(a).value);
      TouchedStaysClosed(w, a, AboutIntent(a).value);
    } else {
      OtherReservations(w, a, r);
    }
  }

  // ---------------------------------------------------------------- and what can

  /** The world after some actions, all of them possible when they are taken. */
  function After(w: World, actions: seq<Action>): World
    decreases |actions|
  {
    if actions == [] then w else After(Next(w, actions[0]), actions[1..])
  }

  predicate AllPossible(w: World, actions: seq<Action>)
    decreases |actions|
  {
    actions == [] || (Possible(w, actions[0]) && AllPossible(Next(w, actions[0]), actions[1..]))
  }

  function GreatestNumber(rows: seq<Row>): (n: nat)
    ensures forall row :: row in rows ==> row.receipt.number <= n
  {
    if rows == [] then 0
    else
      var rest := GreatestNumber(rows[1..]);
      assert rows == [rows[0]] + rows[1..];
      if rows[0].receipt.number > rest then rows[0].receipt.number else rest
  }

  /** An inspection that found nothing changed, under a number not used yet. */
  function Unchanged(l: Ledger): Receipt {
    Receipt(Inspect, GreatestNumber(l.observations) + 1, InspectedUnchanged, false, 0)
  }

  function RecoverAction(w: World, i: Id, r: Id): Action
    requires r in w.ledger.reservations
  {
    DoRecover(i, r, ExpectedOf(w.ledger.reservations[r]), Unchanged(w.ledger), w.clock)
  }

  lemma RecoveryWorks(w: World, i: Id, r: Id)
    requires Sound(w) && Recoverable(w.ledger, i) && w.ledger.intents[i].reservation == r
    requires r in w.ledger.reservations && w.ledger.reservations[r].status == Ambiguous
    ensures Possible(w, RecoverAction(w, i, r))
    ensures var next := Next(w, RecoverAction(w, i, r));
            r in next.ledger.reservations && !Current(next.ledger.reservations[r])
  {
    hide HistoryFits, ProcessesFit, IntentsSafe, TargetsSafe;
    var receipt := Unchanged(w.ledger);
    assert !Numbered(w.ledger.observations, r, receipt.number);
    assert i !in w.ledger.finalizations;
  }

  lemma Prepended(w: World, a: Action, rest: seq<Action>)
    ensures After(w, [a] + rest) == After(Next(w, a), rest)
    ensures AllPossible(w, [a] + rest) <==> Possible(w, a) && AllPossible(Next(w, a), rest)
  {
    hide Next, Possible;
    var actions := [a] + rest;
    assert actions[0] == a && actions[1..] == rest;
  }

  lemma {:induction false} StuckThroughout(w: World, r: Id, actions: seq<Action>)
    requires Sound(w) && Stuck(w, r) && AllPossible(w, actions)
    ensures Stuck(After(w, actions), r)
    decreases |actions|
  {
    hide Sound, Next, Possible, Stuck;
    if actions != [] {
      StuckForEver(w, actions[0], r);
      StepSound(w, actions[0]);
      StuckThroughout(Next(w, actions[0]), r, actions[1..]);
    }
  }

  /** An ambiguous reservation can still be settled exactly when one of its intents is unclear and without a stored receipt. */
  lemma SettledExactly(w: World, r: Id)
    requires Sound(w) && r in w.ledger.reservations && w.ledger.reservations[r].status == Ambiguous
    ensures (exists actions :: AllPossible(w, actions) && r in After(w, actions).ledger.reservations &&
                               !Current(After(w, actions).ledger.reservations[r])) <==> SomeWayOut(w, r)
  {
    hide Sound, Next, Possible, Recoverable, After, AllPossible;
    if SomeWayOut(w, r) {
      var i :| i in w.ledger.intents && w.ledger.intents[i].reservation == r && Recoverable(w.ledger, i);
      var actions := Recovering(w, i, r);
    } else {
      forall actions | AllPossible(w, actions)
        ensures r in After(w, actions).ledger.reservations && Current(After(w, actions).ledger.reservations[r])
      {
        StuckThroughout(w, r, actions);
      }
    }
  }

  lemma Recovering(w: World, i: Id, r: Id) returns (actions: seq<Action>)
    requires Sound(w) && Recoverable(w.ledger, i) && w.ledger.intents[i].reservation == r
    requires r in w.ledger.reservations && w.ledger.reservations[r].status == Ambiguous
    ensures AllPossible(w, actions)
    ensures r in After(w, actions).ledger.reservations && !Current(After(w, actions).ledger.reservations[r])
  {
    hide Next, Possible, Safe, ProcessesFit, HistoryFits;
    RecoveryWorks(w, i, r);
    Prepended(w, RecoverAction(w, i, r), []);
    actions := [RecoverAction(w, i, r)] + [];
  }

  // ---------------------------------------------------------------- how a reservation gets stuck

  const SOME_TARGET: Target := Target(1, 1, 1)

  const FRESH: Reservation := Reservation(SOME_TARGET, 7, Active, 1, 5, 1, 1, 100, None)

  const RESERVED: Ledger := Ledger(map[SOME_TARGET := 1], map[1 := FRESH], {}, map[], [], map[], map[])

  const FIRST: Expected := Expected(1, 1, 1)

  /** Owner 5 reserves the target at time 0, for 100 milliseconds. */
  lemma FirstReservation()
    ensures Possible(START, DoReserve(1, SOME_TARGET, 7, 5, 0, 100, true, true))
    ensures Next(START, DoReserve(1, SOME_TARGET, 7, 5, 0, 100, true, true)) == World(RESERVED, map[], [], 0)
  {
  }

  const FOREIGN: Receipt := Receipt(Inspect, 1, InspectedForeign, true, 0)

  /** An inspection alone strands a reservation: it becomes ambiguous with no intent to recover. */
  lemma InspectionStrands()
    ensures exists worlds: seq<World>, actions: seq<Action> ::
              Run(worlds, actions) && |worlds| == 3 && Stuck(worlds[2], 1)
  {
    FirstReservation();
    var first := World(RESERVED, map[], [], 0);
    var second := Next(first, DoInspect(1, FIRST, FOREIGN));
    assert !Numbered(RESERVED.observations, 1, 1);
    var actions := [DoReserve(1, SOME_TARGET, 7, 5, 0, 100, true, true), DoInspect(1, FIRST, FOREIGN)];
    var worlds := [START, first, second];
    assert Run(worlds, actions);
    assert second.ledger.reservations[1].status == Ambiguous;
    assert Stuck(second, 1);
  }

  function Applying(state: IntentState, revision: nat, binding: nat, last: nat, at: nat): Intent {
    Intent(1, 9, 1, Apply, state, revision, binding, last, None, at)
  }

  const PREPARED: Ledger := RESERVED.(requests := {9}, intents := map[2 := Applying(Pending, 1, 1, 0, 0)])

  const EXECUTING: Ledger := PREPARED.(intents := map[2 := Applying(Executing, 2, 2, 0, 1)])

  const SUCCESS: Receipt := Receipt(Apply, 1, Applied, false, 0)

  const OBSERVED: Ledger := EXECUTING.(
    intents := map[2 := Applying(Observed, 3, 2, 1, 2)], observations := [Row(1, Some(2), SUCCESS)],
    reservations := map[1 := FRESH.(revision := 2, evidence := Some(1))])

  const VERIFIED: Ledger := OBSERVED.(
    intents := map[2 := Applying(Verified, 4, 2, 1, 3)], receipts := map[2 := VerifiedReceipt(1, Succeeded, Applied)])

  const DOUBTED: Ledger := VERIFIED.(
    intents := map[2 := Applying(Unclear, 5, 3, 1, 4)],
    reservations := map[1 := FRESH.(revision := 3, status := Ambiguous, evidence := Some(1))])

  const SECOND: Expected := Expected(2, 1, 1)

  const PREPARE: Action := DoPrepare(2, 9, 1, FIRST, Apply, 5, 0, 0, true, true)

  lemma PrepareAndAct()
    ensures var w := World(RESERVED, map[], [], 0);
            && Possible(w, PREPARE) && Next(w, PREPARE) == World(PREPARED, map[2 := ReadyToAct(FIRST, 5)], [], 0)
    ensures var w := World(PREPARED, map[2 := ReadyToAct(FIRST, 5)], [], 0);
            && Possible(w, DoAct(2, 0, true, true))
            && Next(w, DoAct(2, 0, true, true)) == World(EXECUTING, map[2 := ReadyToCall], [Acted(2, 1, 5, 0)], 0)
  {
    assert !Unfinished(RESERVED, 1);
  }

  lemma CallHappens()
    ensures var w := World(EXECUTING, map[2 := ReadyToCall], [Acted(2, 1, 5, 0)], 0);
            && Possible(w, DoCall(2, GotReceipt(SUCCESS)))
            && Next(w, DoCall(2, GotReceipt(SUCCESS))) ==
               World(EXECUTING, map[2 := CalledBackend(GotReceipt(SUCCESS))], [Acted(2, 1, 5, 0), Called(2)], 0)
  {
  }

  lemma RecordHappens()
    ensures var w := World(EXECUTING, map[2 := CalledBackend(GotReceipt(SUCCESS))], [Acted(2, 1, 5, 0), Called(2)], 0);
            && Possible(w, DoRecord(2, 0))
            && Next(w, DoRecord(2, 0)) == World(OBSERVED, map[2 := ReadyToVerify(1, SECOND)], w.log, 0)
  {
    assert !Numbered(EXECUTING.observations, 1, 1);
    assert RecordReceipt(EXECUTING, 2, SUCCESS, 0) == Step(OBSERVED, Done);
    assert EndOf(EXECUTING, OBSERVED, 2) == [];
  }

  lemma VerifyHappens()
    ensures var w := World(OBSERVED, map[2 := ReadyToVerify(1, SECOND)], [Acted(2, 1, 5, 0), Called(2)], 0);
            && Possible(w, DoVerify(2, 0))
            && Next(w, DoVerify(2, 0)) == World(VERIFIED, map[2 := ReadyToFinalize(SECOND)], w.log, 0)
  {
    assert RowOf(OBSERVED.observations, 1, 1) == Some(Row(1, Some(2), SUCCESS));
    assert Verify(OBSERVED, 2, 1, 0) == Step(VERIFIED, Done);
  }

  lemma DenialHappens()
    ensures var w := World(VERIFIED, map[2 := ReadyToFinalize(SECOND)], [Acted(2, 1, 5, 0), Called(2)], 0);
            && Possible(w, DoFinalize(2, 0, true, false))
            && Next(w, DoFinalize(2, 0, true, false)) == World(DOUBTED, map[], w.log, 0)
  {
    assert Finalize(VERIFIED, 2, SECOND, 0, true, false) == Step(DOUBTED, Done);
    assert EndOf(VERIFIED, DOUBTED, 2) == [];
  }

  /** So does a finalization that is denied after the receipt was verified: the stored receipt bars every recovery. */
  lemma DeniedFinalizationStrands()
    ensures exists worlds: seq<World>, actions: seq<Action> ::
              Run(worlds, actions) && |worlds| == 8 && Stuck(worlds[7], 1) && worlds[7].ledger.intents.Keys == {2} &&
              worlds[7].ledger.intents[2].state == Unclear
  {
    hide Next, Possible;
    FirstReservation();
    PrepareAndAct();
    CallHappens();
    RecordHappens();
    VerifyHappens();
    DenialHappens();
    var log := [Acted(2, 1, 5, 0), Called(2)];
    var worlds := [
      START, World(RESERVED, map[], [], 0), World(PREPARED, map[2 := ReadyToAct(FIRST, 5)], [], 0),
      World(EXECUTING, map[2 := ReadyToCall], [Acted(2, 1, 5, 0)], 0),
      World(EXECUTING, map[2 := CalledBackend(GotReceipt(SUCCESS))], log, 0),
      World(OBSERVED, map[2 := ReadyToVerify(1, SECOND)], log, 0),
      World(VERIFIED, map[2 := ReadyToFinalize(SECOND)], log, 0), World(DOUBTED, map[], log, 0)];
    var actions := [
      DoReserve(1, SOME_TARGET, 7, 5, 0, 100, true, true), PREPARE, DoAct(2, 0, true, true),
      DoCall(2, GotReceipt(SUCCESS)), DoRecord(2, 0), DoVerify(2, 0), DoFinalize(2, 0, true, false)];
    assert Run(worlds, actions);
    assert Stuck(worlds[7], 1);
  }

  lemma CrashHappens()
    ensures var w := World(EXECUTING, map[2 := ReadyToCall], [Acted(2, 1, 5, 0)], 0);
            Possible(w, DoCrash(2)) && Next(w, DoCrash(2)) == World(EXECUTING, map[], [Acted(2, 1, 5, 0)], 0)
  {
  }

  /** A crash between the act and the call abandons the intent. */
  lemma CrashAbandons()
    ensures exists worlds: seq<World>, actions: seq<Action> ::
              Run(worlds, actions) && |worlds| == 5 && Abandoned(worlds[4], 2)
  {
    hide Next, Possible;
    FirstReservation();
    PrepareAndAct();
    CrashHappens();
    var executing := World(EXECUTING, map[2 := ReadyToCall], [Acted(2, 1, 5, 0)], 0);
    var crashed := World(EXECUTING, map[], [Acted(2, 1, 5, 0)], 0);
    var worlds := [
      START, World(RESERVED, map[], [], 0), World(PREPARED, map[2 := ReadyToAct(FIRST, 5)], [], 0), executing, crashed];
    var actions := [DoReserve(1, SOME_TARGET, 7, 5, 0, 100, true, true), PREPARE, DoAct(2, 0, true, true), DoCrash(2)];
    assert Run(worlds, actions);
    assert Abandoned(worlds[4], 2);
  }
}
