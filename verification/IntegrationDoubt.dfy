/**
 An active reservation that nobody may release, and on which nothing more may be prepared.  It can still be given up
 exactly when its one unfinished intent may yet become unclear without a receipt, and so be recovered.
 */
module IntegrationDoubt {
  import opened Options
  import opened IntegrationModel
  import opened IntegrationSafety
  import opened IntegrationRuns
  import opened IntegrationHistory
  import opened IntegrationTheorems
  import opened IntegrationReach

  /**
   The process of the intent may still find its effect in doubt: it is allowed to act, or is at its call, or got no usable
   receipt, or got a doubtful one whose number is free.
   */
  predicate MayDoubt(w: World, r: Id, i: Id)
    requires r in w.ledger.reservations
  {
    && i in w.processes
    && match w.processes[i]
       case ReadyToAct(e, leaseOwner) =>
         Unmoved(w.ledger.reservations[r], e) && w.ledger.reservations[r].expiresAt > w.clock &&
         w.ledger.reservations[r].leaseOwner == leaseOwner
       case ReadyToCall => true
       case CalledBackend(NoReceipt(doubtful)) => doubtful
       case CalledBackend(GotReceipt(receipt)) => Doubtful(receipt) && !Numbered(w.ledger.observations, r, receipt.number)
       case _ => false
  }

  /** An active reservation none of whose unfinished intents may come to be in doubt. */
  ghost predicate Undoubting(w: World, r: Id) {
    && r in w.ledger.reservations && w.ledger.reservations[r].status == Active
    && forall i :: Pursues(w.ledger, i, r) ==> !MayDoubt(w, r, i)
  }

  /** The action asks to release the reservation of a completed owner, or to prepare an effect while the owner's task runs. */
  predicate NeedsOwner(a: Action, r: Id) {
    || (a.DoMutate? && a.id == r && a.completed)
    || (a.DoPrepare? && a.id == r && a.running)
  }

  // ---------------------------------------------------------------- steps of the intent itself

  /** What a step leaves of an intent that may not come to be in doubt. */
  ghost predicate StillUndoubting(next: World, r: Id, i: Id) {
    && r in next.ledger.reservations && i in next.ledger.intents && next.ledger.intents[i].reservation == r
    && if next.ledger.reservations[r].status == Active
       then Pursues(next.ledger, i, r) ==> !MayDoubt(next, r, i)
       else next.ledger.reservations[r].status == Ambiguous && !Recoverable(next.ledger, i)
  }

  lemma ActUndoubting(w: World, a: Action, r: Id, i: Id)
    requires Safe(w.ledger) && Pursued(w, r, i) && !MayDoubt(w, r, i) && Possible(w, a) && a.DoAct? && a.intent == i
    requires i in w.processes ==> Fits(w.processes[i], w.ledger.intents[i])
    ensures StillUndoubting(Next(w, a), r, i)
  {
    hide Safe, Numbered;
  }

  lemma RecordUndoubting(w: World, a: Action, r: Id, i: Id)
    requires Pursued(w, r, i) && !MayDoubt(w, r, i) && a.DoRecord? && a.intent == i
    requires i in w.processes ==> Fits(w.processes[i], w.ledger.intents[i])
    ensures StillUndoubting(Next(w, a), r, i)
  {
    hide Numbered, RecordFailure, RecordReceipt, Pursued, StillUndoubting;
    if i in w.processes && w.processes[i].CalledBackend? {
      match w.processes[i].result {
        case NoReceipt(_) => FailureUndoubting(w, a, r, i);
        case GotReceipt(receipt) => ReceiptUndoubting(w, a, r, i, receipt);
      }
    } else {
      Undisturbed(w, r, i);
    }
  }

  lemma Undisturbed(w: World, r: Id, i: Id)
    requires Pursued(w, r, i) && !MayDoubt(w, r, i)
    ensures StillUndoubting(w, r, i)
  {
    hide Numbered;
  }

  lemma FailureUndoubting(w: World, a: Action, r: Id, i: Id)
    requires Pursued(w, r, i) && !MayDoubt(w, r, i) && a.DoRecord? && a.intent == i
    requires i in w.processes && w.processes[i].CalledBackend? && w.processes[i].result.NoReceipt?
    requires w.ledger.intents[i].state == Executing
    ensures StillUndoubting(Next(w, a), r, i)
  {
  }

  lemma ReceiptUndoubting(w: World, a: Action, r: Id, i: Id, receipt: Receipt)
    requires Pursued(w, r, i) && !MayDoubt(w, r, i) && a.DoRecord? && a.intent == i
    requires i in w.processes && w.processes[i] == CalledBackend(GotReceipt(receipt))
    requires w.ledger.intents[i].state == Executing
    ensures StillUndoubting(Next(w, a), r, i)
  {
    hide Numbered;
  }

  lemma VerifyUndoubting(w: World, a: Action, r: Id, i: Id)
    requires Pursued(w, r, i) && !MayDoubt(w, r, i) && a.DoVerify? && a.intent == i
    requires i in w.processes ==> Fits(w.processes[i], w.ledger.intents[i])
    ensures StillUndoubting(Next(w, a), r, i)
  {
    hide RowOf;
  }

  lemma FinalizeUndoubting(w: World, a: Action, r: Id, i: Id)
    requires Pursued(w, r, i) && !MayDoubt(w, r, i) && a.DoFinalize? && a.intent == i
    requires i in w.processes ==> Fits(w.processes[i], w.ledger.intents[i])
    ensures StillUndoubting(Next(w, a), r, i)
  {
  }

  lemma RestUndoubting(w: World, a: Action, r: Id, i: Id)
    requires Possible(w, a) && Pursued(w, r, i) && w.ledger.intents[i].state != Unclear && !MayDoubt(w, r, i)
    requires (a.DoPrepare? || a.DoCall? || a.DoRecover? || a.DoCrash?) && a.intent == i
    requires i in w.processes ==> Fits(w.processes[i], w.ledger.intents[i])
    ensures StillUndoubting(Next(w, a), r, i)
  {
    hide Unfinished, Reached, Numbered;
  }

  lemma OwnUndoubting(w: World, a: Action, r: Id, i: Id)
    requires Safe(w.ledger) && ProcessesFit(w) && Possible(w, a) && Pursued(w, r, i) && !MayDoubt(w, r, i)
    requires AboutIntent(a) == Some(i)
    ensures StillUndoubting(Next(w, a), r, i)
  {
    hide Next, Possible, Safe, Pursued, MayDoubt, Fits;
    PursuedActive(w, r, i);
    if a.DoAct? { ActUndoubting(w, a, r, i); }
    else if a.DoRecord? { RecordUndoubting(w, a, r, i); }
    else if a.DoVerify? { VerifyUndoubting(w, a, r, i); }
    else if a.DoFinalize? { FinalizeUndoubting(w, a, r, i); }
    else { RestUndoubting(w, a, r, i); }
  }

  lemma PursuedActive(w: World, r: Id, i: Id)
    requires Safe(w.ledger) && Pursued(w, r, i)
    ensures i in w.ledger.intents && w.ledger.intents[i].state != Unclear
  {
    OnlyPursuer(w, r, i);
  }

  // ---------------------------------------------------------------- other steps

  /** A step about something else leaves the intent as little in doubt as it was. */
  lemma OtherUndoubting(w: World, a: Action, r: Id, i: Id)
    requires Steady(w) && Possible(w, a) && Pursued(w, r, i) && !MayDoubt(w, r, i) && AboutIntent(a) != Some(i)
    ensures StillUndoubting(Next(w, a), r, i)
  {
    hide Next, Possible, Safe, HistoryFits, Numbered;
    NextGrows(w, a);
    OtherProcesses(w, a);
    ClockGrows(w, a);
    StepSound(w, a);
    PursuedActive(w, r, i);
    StaysCurrent(w, a, r, i);
    CurrentIsActive(Next(w, a), r, i);
    if i in w.processes && w.processes[i].CalledBackend? && w.processes[i].result.GotReceipt? {
      NumberStays(w, a, r, w.processes[i].result.receipt.number);
    }
  }

  lemma CurrentIsActive(w: World, r: Id, i: Id)
    requires Safe(w.ledger) && i in w.ledger.intents && w.ledger.intents[i].reservation == r
    requires !Terminal(w.ledger.intents[i].state) && w.ledger.intents[i].state != Unclear
    ensures r in w.ledger.reservations && w.ledger.reservations[r].status == Active
  {
    hide TargetsSafe, EvidenceSafe;
    BoundOf(w.ledger, i);
  }

  lemma NumberStays(w: World, a: Action, r: Id, n: nat)
    ensures Numbered(w.ledger.observations, r, n) ==> Numbered(Next(w, a).ledger.observations, r, n)
  {
    hide Next, Numbered;
    if Numbered(w.ledger.observations, r, n) { NumbersStay(w, a, r, n); }
  }

  lemma ClockGrows(w: World, a: Action)
    requires Possible(w, a)
    ensures w.clock <= Next(w, a).clock
  {
    hide Reserve, Mutate, RecordInspection, Prepare, Act, RecordFailure, RecordReceipt, Verify, Finalize, Recover;
  }

  // ---------------------------------------------------------------- an idle reservation

  lemma LeaseRowKept(w: World, a: Action, r: Id)
    requires r in w.ledger.reservations && (a.DoReserve? || ((a.DoMutate? || a.DoInspect?) && a.id != r))
    ensures r in Next(w, a).ledger.reservations && Next(w, a).ledger.reservations[r] == w.ledger.reservations[r]
  {
    hide Reserve, RecordInspection, TargetTaken, PriorUnsettled, Unfinished, LatestInspection, MayTakeOver, Numbered, Undoubted;
    match a {
      case DoReserve(id, target, execution, leaseOwner, now, lease, bound, granted) =>
        ReserveRowKept(w.ledger, id, target, execution, leaseOwner, now, lease, bound, granted, r);
      case DoInspect(id, e, receipt) => InspectRowKept(w.ledger, id, e, receipt, r);
      case _ =>
    }
  }

  lemma ReserveRowKept(
    l: Ledger, id: Id, target: Target, execution: Id, leaseOwner: Id, now: nat, lease: nat, bound: bool, granted: bool, r: Id)
    ensures RowKept(l, Reserve(l, id, target, execution, leaseOwner, now, lease, bound, granted).ledger, r)
  {
    hide TargetTaken, PriorUnsettled;
  }

  lemma InspectRowKept(l: Ledger, id: Id, e: Expected, receipt: Receipt, r: Id)
    requires id != r
    ensures RowKept(l, RecordInspection(l, id, e, receipt).ledger, r)
  {
    hide Numbered, Undoubted;
  }

  lemma EffectRowKept(w: World, a: Action, r: Id)
    requires r in w.ledger.reservations && (a.DoPrepare? || a.DoAct? || a.DoCall? || a.DoVerify? || a.DoFinalize? || a.DoCrash?)
    requires a.intent in w.ledger.intents && w.ledger.intents[a.intent].reservation == r ==>
               Terminal(w.ledger.intents[a.intent].state)
    ensures r in Next(w, a).ledger.reservations && Next(w, a).ledger.reservations[r] == w.ledger.reservations[r]
  {
    hide Unfinished, Reached, RowOf;
  }

  /** The row of the reservation is as it was. */
  predicate RowKept(l: Ledger, next: Ledger, r: Id) {
    r in l.reservations ==> r in next.reservations && next.reservations[r] == l.reservations[r]
  }

  lemma FailureRowKept(l: Ledger, i: Id, doubtful: bool, now: nat, r: Id)
    requires i in l.intents && l.intents[i].reservation == r ==> Terminal(l.intents[i].state)
    ensures RowKept(l, RecordFailure(l, i, doubtful, now).ledger, r)
  {
  }

  lemma ReceiptRowKept(l: Ledger, i: Id, receipt: Receipt, now: nat, r: Id)
    requires i in l.intents && l.intents[i].reservation == r ==> Terminal(l.intents[i].state)
    ensures RowKept(l, RecordReceipt(l, i, receipt, now).ledger, r)
  {
    hide RecordReceipt, Numbered, ReservationStep, IntentStep, SameLease;
    if RecordReceipt(l, i, receipt, now).answer == Done { RecordReceiptShape(l, i, receipt, now); }
    else { Unanswered(l, i, receipt, now); }
  }

  lemma RecoverRowKept(l: Ledger, i: Id, id: Id, e: Expected, receipt: Receipt, now: nat, r: Id)
    requires i in l.intents && l.intents[i].reservation == r ==> Terminal(l.intents[i].state)
    ensures RowKept(l, Recover(l, i, id, e, receipt, now).ledger, r)
  {
    hide Recover, Numbered, ReservationStep, IntentStep, SameLease;
    if Recover(l, i, id, e, receipt, now).answer == Done { RecoverShape(l, i, id, e, receipt, now); }
    else { RecoverUnanswered(l, i, id, e, receipt, now); }
  }

  lemma RecordRowKept(w: World, a: Action, r: Id)
    requires a.DoRecord? || a.DoRecover?
    requires a.intent in w.ledger.intents && w.ledger.intents[a.intent].reservation == r ==>
               Terminal(w.ledger.intents[a.intent].state)
    ensures RowKept(w.ledger, Next(w, a).ledger, r)
  {
    hide RecordFailure, RecordReceipt, Recover;
    match a {
      case DoRecover(i, id, e, receipt, now) => RecoverRowKept(w.ledger, i, id, e, receipt, now, r);
      case DoRecord(i, now) =>
        if i in w.processes && w.processes[i].CalledBackend? {
          match w.processes[i].result {
            case NoReceipt(doubtful) => FailureRowKept(w.ledger, i, doubtful, now, r);
            case GotReceipt(receipt) => ReceiptRowKept(w.ledger, i, receipt, now, r);
          }
        }
    }
  }

  lemma OwnMutation(w: World, a: Action, r: Id)
    requires r in w.ledger.reservations && w.ledger.reservations[r].status == Active
    requires a.DoMutate? && a.id == r && !a.completed
    ensures r in Next(w, a).ledger.reservations && Next(w, a).ledger.reservations[r].status == Active
  {
    hide Unfinished, LatestInspection, MayTakeOver;
  }

  lemma OwnInspection(w: World, a: Action, r: Id)
    requires r in w.ledger.reservations && w.ledger.reservations[r].status == Active && a.DoInspect? && a.id == r
    ensures r in Next(w, a).ledger.reservations && Current(Next(w, a).ledger.reservations[r])
  {
    hide Numbered, Undoubted;
  }

  lemma IdleCurrent(w: World, a: Action, r: Id)
    requires Idle(w, r) && !NeedsOwner(a, r)
    ensures r in Next(w, a).ledger.reservations && Current(Next(w, a).ledger.reservations[r])
  {
    hide Next;
    if a.DoMutate? && a.id == r { OwnMutation(w, a, r); }
    else if a.DoInspect? && a.id == r { OwnInspection(w, a, r); }
    else if AboutIntent(a).None? { LeaseRowKept(w, a, r); }
    else if a.DoRecord? || a.DoRecover? { RecordRowKept(w, a, r); }
    else { EffectRowKept(w, a, r); }
  }

  /** Nothing is prepared for an owner whose task does not run. */
  lemma NothingPrepared(w: World, a: Action, r: Id, i: Id)
    requires r in w.ledger.reservations && !NeedsOwner(a, r)
    requires i in Next(w, a).ledger.intents && Next(w, a).ledger.intents[i].reservation == r
    ensures i in w.ledger.intents && w.ledger.intents[i].reservation == r
  {
    hide Next;
    NextGrows(w, a);
    if a.DoPrepare? {
      PreparesElsewhere(w, a, r, i);
    } else if a.DoReserve? {
      ReserveKeepsIntents(w, a);
    } else {
      AddsNothing(w, a);
    }
  }

  lemma PreparesElsewhere(w: World, a: Action, r: Id, i: Id)
    requires a.DoPrepare? && !NeedsOwner(a, r)
    requires i in Next(w, a).ledger.intents && Next(w, a).ledger.intents[i].reservation == r
    ensures i in w.ledger.intents && w.ledger.intents[i].reservation == r
  {
    hide Unfinished, Reached;
  }

  /** Without an unfinished intent nothing comes to be in doubt, but the reservation may be found ambiguous, and is stuck then. */
  lemma IdleStays(w: World, a: Action, r: Id)
    requires Idle(w, r) && !NeedsOwner(a, r)
    ensures Undoubting(Next(w, a), r) || Jammed(Next(w, a), r)
  {
    hide Next, NeedsOwner, MayDoubt;
    IdleCurrent(w, a, r);
    NextGrows(w, a);
    var next := Next(w, a);
    forall i | i in next.ledger.intents && next.ledger.intents[i].reservation == r
      ensures Terminal(next.ledger.intents[i].state)
    {
      NothingPrepared(w, a, r, i);
    }
  }

  // ---------------------------------------------------------------- all steps

  /** Without its owner's leave such a reservation stays as it is, or jams. */
  lemma UndoubtingStays(w: World, a: Action, r: Id)
    requires Steady(w) && Possible(w, a) && Undoubting(w, r) && !NeedsOwner(a, r)
    ensures Undoubting(Next(w, a), r) || Jammed(Next(w, a), r)
  {
    hide Next, Possible, Safe, HistoryFits, ProcessesFit, MemoriesFit, MayDoubt, NeedsOwner, Freeable, StillUndoubting;
    if i :| Pursues(w.ledger, i, r) {
      SoundPursuer(w, r, i);
      if AboutIntent(a) == Some(i) { OwnUndoubting(w, a, r, i); } else { OtherUndoubting(w, a, r, i); }
      AllUndoubting(w, a, r, i);
    } else {
      NothingPursues(w, r);
      IdleStays(w, a, r);
    }
  }

  lemma AllUndoubting(w: World, a: Action, r: Id, i: Id)
    requires Pursued(w, r, i) && !NeedsOwner(a, r) && StillUndoubting(Next(w, a), r, i)
    ensures Undoubting(Next(w, a), r) || Jammed(Next(w, a), r)
  {
    hide Next, MayDoubt, NeedsOwner;
    NextGrows(w, a);
    var next := Next(w, a);
    forall j | j in next.ledger.intents && next.ledger.intents[j].reservation == r && j != i
      ensures Terminal(next.ledger.intents[j].state)
    {
      NothingPrepared(w, a, r, j);
      assert !Pursues(w.ledger, j, r);
    }
  }

  // ---------------------------------------------------------------- a way through doubt

  /** The actions, none of which releases, prepares or reserves anything, give the reservation up. */
  ghost predicate Surrenders(w: World, r: Id, actions: seq<Action>) {
    && AllPossible(w, actions) && (forall a :: a in actions ==> !a.DoReserve? && !a.DoPrepare? && !a.DoMutate?)
    && r in After(w, actions).ledger.reservations && !Current(After(w, actions).ledger.reservations[r])
  }

  lemma SurrendersLater(w: World, a: Action, rest: seq<Action>, r: Id)
    requires Possible(w, a) && !a.DoReserve? && !a.DoPrepare? && !a.DoMutate? && Surrenders(Next(w, a), r, rest)
    ensures Surrenders(w, r, [a] + rest)
  {
    hide Next, Possible, After, AllPossible;
    Prepended(w, a, rest);
  }

  lemma SurrenderUnsettled(w: World, r: Id, i: Id) returns (actions: seq<Action>)
    requires Sound(w) && Unsettled(w, r, i)
    ensures Surrenders(w, r, actions)
  {
    hide Next, Possible, Safe, ProcessesFit, HistoryFits;
    RecoveryWorks(w, i, r);
    Prepended(w, RecoverAction(w, i, r), []);
    actions := [RecoverAction(w, i, r)] + [];
  }

  lemma ActsUnderLease(w: World, r: Id, i: Id)
    requires ProcessesFit(w) && Pursued(w, r, i) && MayDoubt(w, r, i) && w.processes[i].ReadyToAct?
    ensures var a := DoAct(i, w.clock, true, true);
            Possible(w, a) && Pursued(Next(w, a), r, i) && i in Next(w, a).processes && Next(w, a).processes[i] == ReadyToCall
  {
    var next := Next(w, DoAct(i, w.clock, true, true));
    forall j | Pursues(next.ledger, j, r) ensures j == i {
      if j != i { assert Pursues(w.ledger, j, r); }
    }
  }

  lemma CallDoubts(w: World, r: Id, i: Id)
    requires Pursued(w, r, i) && i in w.processes && w.processes[i] == ReadyToCall
    ensures var a := DoCall(i, NoReceipt(true));
            && Possible(w, a) && Pursued(Next(w, a), r, i)
            && i in Next(w, a).processes && Next(w, a).processes[i] == CalledBackend(NoReceipt(true))
  {
  }

  lemma ReceiptDoubts(w: World, r: Id, i: Id, receipt: Receipt)
    requires Safe(w.ledger) && Pursued(w, r, i) && w.ledger.intents[i].state == Executing
    requires i in w.processes && w.processes[i] == CalledBackend(GotReceipt(receipt))
    requires Doubtful(receipt) && !Numbered(w.ledger.observations, r, receipt.number)
    ensures var a := DoRecord(i, w.clock); Possible(w, a) && Unsettled(Next(w, a), r, i)
  {
    hide IntentsSafe, TargetsSafe, Numbered;
    assert i !in w.ledger.receipts;
  }

  lemma RecordDoubts(w: World, r: Id, i: Id)
    requires Sound(w) && Pursued(w, r, i) && MayDoubt(w, r, i) && w.processes[i].CalledBackend?
    ensures var a := DoRecord(i, w.clock); Possible(w, a) && Unsettled(Next(w, a), r, i)
  {
    hide Next, Possible, Safe, HistoryFits, IntegrationReach.SameElsewhere, Unsettled, Numbered;
    match w.processes[i].result {
      case NoReceipt(_) => FailureUnsettles(w, r, i);
      case GotReceipt(receipt) => ReceiptDoubts(w, r, i, receipt);
    }
  }

  /** An intent that may come to be in doubt leads to a recovery. */
  lemma {:induction false} Doubting(w: World, r: Id, i: Id) returns (actions: seq<Action>)
    requires Sound(w) && Pursued(w, r, i) && MayDoubt(w, r, i)
    ensures Surrenders(w, r, actions)
    decreases if w.processes[i].ReadyToAct? then 2 else if w.processes[i].ReadyToCall? then 1 else 0
  {
    hide Next, Possible, Safe, ProcessesFit, HistoryFits, Surrenders, Pursued;
    var a, rest;
    if w.processes[i].ReadyToAct? {
      a := DoAct(i, w.clock, true, true);
      ActsUnderLease(w, r, i);
      StepSound(w, a);
      StillDoubting(Next(w, a), r, i);
      rest := Doubting(Next(w, a), r, i);
    } else if w.processes[i].ReadyToCall? {
      a := DoCall(i, NoReceipt(true));
      CallDoubts(w, r, i);
      StepSound(w, a);
      StillDoubting(Next(w, a), r, i);
      rest := Doubting(Next(w, a), r, i);
    } else {
      a := DoRecord(i, w.clock);
      RecordDoubts(w, r, i);
      StepSound(w, a);
      rest := SurrenderUnsettled(Next(w, a), r, i);
    }
    SurrendersLater(w, a, rest, r);
    actions := [a] + rest;
  }

  lemma StillDoubting(w: World, r: Id, i: Id)
    requires Pursued(w, r, i) && i in w.processes
    requires w.processes[i] == ReadyToCall || w.processes[i] == CalledBackend(NoReceipt(true))
    ensures MayDoubt(w, r, i)
  {
  }
}
