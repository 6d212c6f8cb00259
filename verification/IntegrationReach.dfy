/**
 When a current reservation can still be given up: exactly, in every reachable world.  Its one unfinished intent, how
 far that intent has come, and the lease it was observed under decide.
 */
module IntegrationReach {
  import opened Options
  import opened IntegrationModel
  import opened IntegrationSafety
  import opened IntegrationRuns
  import opened IntegrationHistory
  import opened IntegrationTheorems

  // ---------------------------------------------------------------- what processes remember

  /** The reservation as the process prepared its effect under, or as the observation it made left it. */
  function Remembered(p: Progress): Option<Expected> {
    match p
    case ReadyToAct(e, _) => Some(e)
    case ReadyToVerify(_, observed) => Some(observed)
    case ReadyToFinalize(observed) => Some(observed)
    case _ => None
  }

  /** No process remembers a later revision of its reservation than the present one. */
  ghost predicate MemoriesFit(w: World) {
    forall i :: i in w.processes && Remembered(w.processes[i]).Some? ==> RemembersPast(w.ledger, i, Remembered(w.processes[i]).value)
  }

  predicate RemembersPast(l: Ledger, i: Id, e: Expected) {
    i in l.intents && l.intents[i].reservation in l.reservations && e.revision <= l.reservations[l.intents[i].reservation].revision
  }

  /** A memory is as old as the process, or is of the present reservation. */
  lemma MemoryFrom(w: World, a: Action, i: Id)
    requires ProcessesFit(w) && i in Next(w, a).processes && Remembered(Next(w, a).processes[i]).Some?
    ensures var next := Next(w, a);
            || (i in w.processes && Remembered(w.processes[i]) == Remembered(next.processes[i]))
            || (i in next.ledger.intents && next.ledger.intents[i].reservation in next.ledger.reservations &&
                Remembered(next.processes[i]) ==
                  Some(ExpectedOf(next.ledger.reservations[next.ledger.intents[i].reservation])))
  {
    if AboutIntent(a) == Some(i) {
      OwnMemory(w, a, i);
    } else {
      hide Next;
      OtherProcesses(w, a);
    }
  }

  lemma OwnMemory(w: World, a: Action, i: Id)
    requires AboutIntent(a) == Some(i) && i in Next(w, a).processes && Remembered(Next(w, a).processes[i]).Some?
    ensures var next := Next(w, a);
            || (i in w.processes && Remembered(w.processes[i]) == Remembered(next.processes[i]))
            || (i in next.ledger.intents && next.ledger.intents[i].reservation in next.ledger.reservations &&
                Remembered(next.processes[i]) ==
                  Some(ExpectedOf(next.ledger.reservations[next.ledger.intents[i].reservation])))
  {
    hide Prepare, Act, RecordFailure, RecordReceipt, Verify, Finalize, Recover, Reserve, Mutate, RecordInspection;
    if a.DoPrepare? &&
       Prepare(w.ledger, a.intent, a.key, a.id, a.e, a.operation, a.leaseOwner, a.last, a.now, a.running, a.granted).answer == Done
    {
      PrepareRemembers(w.ledger, a.intent, a.key, a.id, a.e, a.operation, a.leaseOwner, a.last, a.now, a.running, a.granted);
    }
  }

  lemma PrepareRemembers(
    l: Ledger, i: Id, key: Id, id: Id, e: Expected, operation: Operation, leaseOwner: Id, last: nat, now: nat, running: bool,
    granted: bool)
    requires Prepare(l, i, key, id, e, operation, leaseOwner, last, now, running, granted).answer == Done
    ensures var next := Prepare(l, i, key, id, e, operation, leaseOwner, last, now, running, granted).ledger;
            i in next.intents && next.intents[i].reservation == id && id in next.reservations && e == ExpectedOf(next.reservations[id])
  {
    hide Unfinished, Reached;
  }

  lemma MemoriesKept(w: World, a: Action)
    requires ProcessesFit(w) && MemoriesFit(w)
    ensures MemoriesFit(Next(w, a))
  {
    hide Next, ProcessesFit;
    NextGrows(w, a);
    forall i | i in Next(w, a).processes && Remembered(Next(w, a).processes[i]).Some?
      ensures RemembersPast(Next(w, a).ledger, i, Remembered(Next(w, a).processes[i]).value)
    {
      MemoryFrom(w, a, i);
    }
  }

  ghost predicate Steady(w: World) {
    Sound(w) && MemoriesFit(w)
  }

  lemma StepSteady(w: World, a: Action)
    requires Steady(w) && Possible(w, a)
    ensures Steady(Next(w, a))
  {
    hide Next, Possible, MemoriesFit, Safe, HistoryFits;
    StepSound(w, a);
    MemoriesKept(w, a);
  }

  lemma StartSteady()
    ensures Steady(START)
  {
    StartSound();
  }

  lemma RunStart(worlds: seq<World>, actions: seq<Action>)
    requires Run(worlds, actions)
    ensures |worlds| > 0 && worlds[0] == START
  {
  }

  lemma {:induction false} RunSteady(worlds: seq<World>, actions: seq<Action>, n: nat)
    requires Run(worlds, actions) && n < |worlds|
    ensures Steady(worlds[n])
  {
    hide Run, Next, Possible, Steady;
    if n == 0 {
      RunStart(worlds, actions);
      StartSteady();
    } else {
      RunStep(worlds, actions, n - 1);
      RunSteady(worlds, actions, n - 1);
      StepSteady(worlds[n - 1], actions[n - 1]);
    }
  }

  // ---------------------------------------------------------------- what decides

  /**
   The process of an unfinished intent of an active reservation can still end it: it has not yet got a receipt, or got
   one whose number is free, or observed the reservation just as it still is.
   */
  predicate CanEnd(w: World, r: Id, i: Id)
    requires r in w.ledger.reservations
  {
    && i in w.processes
    && match w.processes[i]
       case ReadyToAct(_, _) => true
       case ReadyToCall => true
       case CalledBackend(NoReceipt(_)) => true
       case CalledBackend(GotReceipt(receipt)) => !Numbered(w.ledger.observations, r, receipt.number)
       case ReadyToVerify(_, observed) => Unmoved(w.ledger.reservations[r], observed)
       case ReadyToFinalize(observed) => Unmoved(w.ledger.reservations[r], observed)
  }

  predicate Pursues(l: Ledger, i: Id, r: Id) {
    i in l.intents && l.intents[i].reservation == r && !Terminal(l.intents[i].state)
  }

  /** An ambiguous reservation has an intent with a way out; an active one no unfinished intent that cannot end. */
  ghost predicate Freeable(w: World, r: Id)
    requires r in w.ledger.reservations
  {
    if w.ledger.reservations[r].status == Ambiguous then SomeWayOut(w, r)
    else forall i :: Pursues(w.ledger, i, r) ==> CanEnd(w, r, i)
  }

  ghost predicate Jammed(w: World, r: Id) {
    r in w.ledger.reservations && Current(w.ledger.reservations[r]) && !Freeable(w, r)
  }

  // ---------------------------------------------------------------- jammed for ever

  /** An intent that cannot end, on an active reservation. */
  ghost predicate Jams(w: World, r: Id, i: Id) {
    r in w.ledger.reservations && w.ledger.reservations[r].status == Active && Pursues(w.ledger, i, r) && !CanEnd(w, r, i)
  }

  /** What a step leaves of a jam: the jam, or an ambiguous reservation whose intents have no way out. */
  ghost predicate StillJammed(next: World, r: Id, i: Id) {
    || Jams(next, r, i)
    || (r in next.ledger.reservations && next.ledger.reservations[r].status == Ambiguous && Pursues(next.ledger, i, r) &&
        !Recoverable(next.ledger, i))
  }

  lemma OwnStepJams(w: World, a: Action, r: Id, i: Id)
    requires Safe(w.ledger) && ProcessesFit(w) && Jams(w, r, i) && AboutIntent(a) == Some(i)
    ensures StillJammed(Next(w, a), r, i)
  {
    hide StepAct, StepVerify, StepFinalize, StepPrepare, StepRecord, Recover, Safe, ProcessesFit, IntentsSafe;
    JamState(w, r, i);
    match a {
      case DoPrepare(_, _, _, _, _, _, _, _, _, _) => PrepareJams(w, a, r, i);
      case DoAct(_, _, _, _) =>
      case DoCall(_, _) =>
      case DoRecord(_, _) => RecordJams(w, a, r, i);
      case DoVerify(_, _) => VerifyJams(w, a, r, i);
      case DoFinalize(_, _, _, _) => FinalizeJams(w, a, r, i);
      case DoRecover(_, _, _, _, _) => RecoverJams(w, a, r, i);
      case DoCrash(_) =>
    }
  }

  lemma PrepareJams(w: World, a: Action, r: Id, i: Id)
    requires Jams(w, r, i) && a.DoPrepare? && a.intent == i
    ensures StillJammed(Next(w, a), r, i)
  {
    hide Unfinished;
  }

  lemma RecordJams(w: World, a: Action, r: Id, i: Id)
    requires Jams(w, r, i) && a.DoRecord? && a.intent == i
    ensures StillJammed(Next(w, a), r, i)
  {
    hide Numbered;
  }

  lemma VerifyJams(w: World, a: Action, r: Id, i: Id)
    requires Jams(w, r, i) && a.DoVerify? && a.intent == i
    ensures StillJammed(Next(w, a), r, i)
  {
    hide RowOf;
  }

  lemma FinalizeJams(w: World, a: Action, r: Id, i: Id)
    requires Jams(w, r, i) && a.DoFinalize? && a.intent == i
    ensures StillJammed(Next(w, a), r, i)
  {
  }

  lemma RecoverJams(w: World, a: Action, r: Id, i: Id)
    requires Jams(w, r, i) && a.DoRecover? && a.intent == i && w.ledger.intents[i].state != Unclear
    ensures StillJammed(Next(w, a), r, i)
  {
    hide Numbered;
  }

  /** Numbers that are taken stay taken. */
  lemma NumbersStay(w: World, a: Action, r: Id, n: nat)
    requires Numbered(w.ledger.observations, r, n)
    ensures Numbered(Next(w, a).ledger.observations, r, n)
  {
    ObservationsGrow(w, a);
  }

  lemma LeaseObservations(w: World, a: Action)
    requires a.DoReserve? || a.DoMutate? || a.DoPrepare?
    ensures Next(w, a).ledger.observations == w.ledger.observations
  {
    hide Unfinished, TargetTaken, PriorUnsettled, MayTakeOver, LatestInspection;
  }

  lemma EffectObservations(w: World, a: Action)
    requires a.DoAct? || a.DoVerify? || a.DoFinalize? || a.DoCall? || a.DoCrash?
    ensures Next(w, a).ledger.observations == w.ledger.observations
  {
    hide RowOf;
  }

  lemma ReceiptObservations(l: Ledger, i: Id, receipt: Receipt, now: nat)
    ensures l.observations <= RecordReceipt(l, i, receipt, now).ledger.observations
  {
    hide Numbered;
  }

  lemma FailureObservations(l: Ledger, i: Id, doubtful: bool, now: nat)
    ensures RecordFailure(l, i, doubtful, now).ledger.observations == l.observations
  {
  }

  lemma RecordObservations(w: World, a: Action)
    requires a.DoRecord?
    ensures w.ledger.observations <= Next(w, a).ledger.observations
  {
    hide RecordReceipt, RecordFailure;
    if a.intent in w.processes && w.processes[a.intent].CalledBackend? {
      match w.processes[a.intent].result {
        case NoReceipt(doubtful) => FailureObservations(w.ledger, a.intent, doubtful, a.now);
        case GotReceipt(receipt) => ReceiptObservations(w.ledger, a.intent, receipt, a.now);
      }
    }
  }

  lemma InspectObservations(w: World, a: Action)
    requires a.DoInspect? || a.DoRecover?
    ensures w.ledger.observations <= Next(w, a).ledger.observations
  {
    hide Numbered;
  }

  lemma ObservationsGrow(w: World, a: Action)
    ensures w.ledger.observations <= Next(w, a).ledger.observations
  {
    hide Next;
    if a.DoReserve? || a.DoMutate? || a.DoPrepare? { LeaseObservations(w, a); }
    else if a.DoRecord? { RecordObservations(w, a); }
    else if a.DoInspect? || a.DoRecover? { InspectObservations(w, a); }
    else { EffectObservations(w, a); }
  }

  /** A step about something else leaves the reservation as it is, or moves it on, but not out of being current. */
  lemma StaysCurrent(w: World, a: Action, r: Id, i: Id)
    requires Safe(w.ledger) && r in w.ledger.reservations && w.ledger.reservations[r].status == Active && Pursues(w.ledger, i, r)
    requires AboutIntent(a) != Some(i) && Possible(w, a) && ProcessesFit(w)
    ensures r in Next(w, a).ledger.reservations && Current(Next(w, a).ledger.reservations[r])
  {
    hide Next, Possible, ProcessesFit, TargetsSafe, EvidenceSafe;
    NextGrows(w, a);
    NextSafe(w, a);
    assert Pursues(Next(w, a).ledger, i, r);
  }

  lemma OtherStepJams(w: World, a: Action, r: Id, i: Id)
    requires Safe(w.ledger) && ProcessesFit(w) && MemoriesFit(w) && Jams(w, r, i) && AboutIntent(a) != Some(i) && Possible(w, a)
    ensures StillJammed(Next(w, a), r, i)
  {
    hide Next, Possible, Safe, Numbered;
    NextGrows(w, a);
    OtherProcesses(w, a);
    StaysCurrent(w, a, r, i);
    JamState(w, r, i);
    if i in w.processes && w.processes[i].CalledBackend? && w.processes[i].result.GotReceipt? {
      NumbersStay(w, a, r, w.processes[i].result.receipt.number);
    }
  }

  lemma JamState(w: World, r: Id, i: Id)
    requires Safe(w.ledger) && Jams(w, r, i)
    ensures w.ledger.intents[i].state != Unclear
  {
    hide TargetsSafe, EvidenceSafe;
    BoundOf(w.ledger, i);
  }

  lemma JamStays(w: World, a: Action, r: Id, i: Id)
    requires Steady(w) && Jams(w, r, i) && Possible(w, a)
    ensures StillJammed(Next(w, a), r, i)
  {
    hide Next, Possible, Safe, HistoryFits, MemoriesFit, ProcessesFit, Jams, StillJammed;
    if AboutIntent(a) == Some(i) { OwnStepJams(w, a, r, i); } else { OtherStepJams(w, a, r, i); }
  }

  /** What is left of a jam jams the reservation. */
  lemma JamsStill(next: World, r: Id, i: Id)
    requires Safe(next.ledger) && ProcessesFit(next) && StillJammed(next, r, i)
    ensures Jammed(next, r)
  {
    hide TargetsSafe, EvidenceSafe;
    if Jams(next, r, i) {
      assert !Freeable(next, r);
    } else {
      forall j | j in next.ledger.intents && next.ledger.intents[j].reservation == r
        ensures !Recoverable(next.ledger, j)
      {
        if j != i { assert Terminal(next.ledger.intents[j].state); }
      }
    }
  }

  /** A jammed reservation stays current and jammed for ever. */
  lemma JammedForEver(w: World, a: Action, r: Id)
    requires Steady(w) && Possible(w, a) && Jammed(w, r)
    ensures Jammed(Next(w, a), r)
  {
    hide Next, Possible, Safe, HistoryFits, MemoriesFit, Stuck, StillJammed;
    StepSound(w, a);
    if w.ledger.reservations[r].status == Ambiguous {
      StuckIsJammed(w, r);
      StuckForEver(w, a, r);
      StuckIsJammed(Next(w, a), r);
    } else {
      var i :| Pursues(w.ledger, i, r) && !CanEnd(w, r, i);
      JamStays(w, a, r, i);
      JamsStill(Next(w, a), r, i);
    }
  }

  lemma StuckIsJammed(w: World, r: Id)
    ensures Stuck(w, r) <==> Jammed(w, r) && w.ledger.reservations[r].status == Ambiguous
  {
  }

  // ---------------------------------------------------------------- freeing

  /** Everything that is not about reservation r is as it was, and no intent was added or re-bound. */
  ghost predicate SameElsewhere(w: World, next: World, r: Id) {
    && next.clock == w.clock
    && next.ledger.reservations.Keys == w.ledger.reservations.Keys && next.ledger.intents.Keys == w.ledger.intents.Keys
    && (forall q :: q in w.ledger.reservations && q != r ==> next.ledger.reservations[q] == w.ledger.reservations[q])
    && (r in w.ledger.reservations ==> next.ledger.reservations[r].ownerExecution == w.ledger.reservations[r].ownerExecution)
    && (forall i :: i in w.ledger.intents ==> next.ledger.intents[i].reservation == w.ledger.intents[i].reservation)
    && (forall i :: i in w.ledger.intents && w.ledger.intents[i].reservation != r ==>
          && next.ledger.intents[i] == w.ledger.intents[i]
          && (i in next.processes <==> i in w.processes) && (i in w.processes ==> next.processes[i] == w.processes[i])
          && (i in next.ledger.receipts <==> i in w.ledger.receipts))
    && (forall q, n :: q != r ==> Numbered(next.ledger.observations, q, n) == Numbered(w.ledger.observations, q, n))
  }

  lemma SameElsewhereTrans(w: World, v: World, u: World, r: Id)
    requires SameElsewhere(w, v, r) && SameElsewhere(v, u, r)
    ensures SameElsewhere(w, u, r)
  {
    hide Numbered;
  }

  /** Freeing one reservation does not make another one harder, or easier, to free. */
  lemma FreeableElsewhere(w: World, next: World, r: Id, q: Id)
    requires SameElsewhere(w, next, r) && q != r && q in w.ledger.reservations
    ensures q in next.ledger.reservations && (Freeable(next, q) <==> Freeable(w, q))
  {
    hide Numbered;
    forall i ensures Pursues(next.ledger, i, q) <==> Pursues(w.ledger, i, q) {
    }
    forall i | i in w.ledger.intents && w.ledger.intents[i].reservation == q
      ensures CanEnd(next, q, i) <==> CanEnd(w, q, i)
      ensures Recoverable(next.ledger, i) <==> Recoverable(w.ledger, i)
    {
    }
  }

  /** An active reservation without an unfinished intent. */
  predicate Idle(w: World, r: Id) {
    r in w.ledger.reservations && w.ledger.reservations[r].status == Active && !Unfinished(w.ledger, r)
  }

  function Releasing(w: World, r: Id): Action
    requires r in w.ledger.reservations
  {
    DoMutate(r, ExpectedOf(w.ledger.reservations[r]), Release, 0, w.clock, 1, true, true, true)
  }

  lemma ReleaseFrees(w: World, r: Id)
    requires Idle(w, r)
    ensures Possible(w, Releasing(w, r)) && SameElsewhere(w, Next(w, Releasing(w, r)), r)
    ensures var next := Next(w, Releasing(w, r)); r in next.ledger.reservations && !Current(next.ledger.reservations[r])
  {
    hide Unfinished, LatestInspection, MayTakeOver;
  }

  /** The intent is the only unfinished one of the active reservation. */
  ghost predicate Pursued(w: World, r: Id, i: Id) {
    && r in w.ledger.reservations && w.ledger.reservations[r].status == Active && Pursues(w.ledger, i, r)
    && forall j :: Pursues(w.ledger, j, r) ==> j == i
  }

  lemma OnlyPursuer(w: World, r: Id, i: Id)
    requires Safe(w.ledger) && r in w.ledger.reservations && w.ledger.reservations[r].status == Active && Pursues(w.ledger, i, r)
    ensures Pursued(w, r, i) && w.ledger.intents[i].state != Unclear
  {
    hide TargetsSafe, EvidenceSafe;
    BoundOf(w.ledger, i);
  }

  /** An intent that has ended leaves its reservation idle. */
  lemma EndedIdle(w: World, next: World, r: Id, i: Id)
    requires Pursued(w, r, i) && r in next.ledger.reservations && next.ledger.reservations[r].status == Active
    requires forall j :: j != i ==> (j in next.ledger.intents <==> j in w.ledger.intents)
    requires forall j :: j != i && j in w.ledger.intents ==> next.ledger.intents[j] == w.ledger.intents[j]
    requires i in next.ledger.intents && Terminal(next.ledger.intents[i].state)
    ensures Idle(next, r)
  {
    forall j | j in next.ledger.intents && next.ledger.intents[j].reservation == r
      ensures Terminal(next.ledger.intents[j].state)
    {
      if j != i { assert !Pursues(w.ledger, j, r); }
    }
  }

  lemma DenyEnds(w: World, r: Id, i: Id)
    requires Safe(w.ledger) && Pursued(w, r, i) && w.ledger.intents[i].state == Pending
    requires i in w.processes && w.processes[i].ReadyToAct?
    ensures var a := DoAct(i, w.clock, false, false);
            Possible(w, a) && SameElsewhere(w, Next(w, a), r) && Idle(Next(w, a), r)
  {
    hide IntentsSafe, TargetsSafe;
    var a := DoAct(i, w.clock, false, false);
    assert i !in w.ledger.finalizations;
    EndedIdle(w, Next(w, a), r, i);
  }

  lemma CallFails(w: World, r: Id, i: Id)
    requires Pursued(w, r, i) && i in w.processes && w.processes[i] == ReadyToCall
    ensures var a := DoCall(i, NoReceipt(false));
            && Possible(w, a) && SameElsewhere(w, Next(w, a), r) && Next(w, a).ledger == w.ledger
            && i in Next(w, a).processes && Next(w, a).processes[i] == CalledBackend(NoReceipt(false))
  {
  }

  lemma FailureEnds(w: World, r: Id, i: Id)
    requires Safe(w.ledger) && Pursued(w, r, i) && w.ledger.intents[i].state == Executing
    requires i in w.processes && w.processes[i] == CalledBackend(NoReceipt(false))
    ensures var a := DoRecord(i, w.clock); Possible(w, a) && SameElsewhere(w, Next(w, a), r) && Idle(Next(w, a), r)
  {
    hide IntentsSafe, TargetsSafe;
    assert i !in w.ledger.finalizations;
    EndedIdle(w, Next(w, DoRecord(i, w.clock)), r, i);
  }

  /** The reservation is ambiguous, and the intent can be recovered. */
  ghost predicate Unsettled(w: World, r: Id, i: Id) {
    && r in w.ledger.reservations && w.ledger.reservations[r].status == Ambiguous
    && i in w.ledger.intents && w.ledger.intents[i].reservation == r && Recoverable(w.ledger, i)
  }

  lemma FailureUnsettles(w: World, r: Id, i: Id)
    requires Safe(w.ledger) && Pursued(w, r, i) && w.ledger.intents[i].state == Executing
    requires i in w.processes && w.processes[i] == CalledBackend(NoReceipt(true))
    ensures var a := DoRecord(i, w.clock); Possible(w, a) && SameElsewhere(w, Next(w, a), r) && Unsettled(Next(w, a), r, i)
  {
    hide IntentsSafe, TargetsSafe;
    assert i !in w.ledger.receipts;
  }

  lemma {:induction false} NumbersElsewhere(rows: seq<Row>, row: Row)
    ensures forall q, n :: q != row.reservation ==> Numbered(rows + [row], q, n) == Numbered(rows, q, n)
  {
    forall q, n | q != row.reservation ensures Numbered(rows + [row], q, n) == Numbered(rows, q, n) {
      if Numbered(rows, q, n) {
        var x :| x in rows && x.reservation == q && x.receipt.number == n;
        assert x in rows + [row];
      }
    }
  }

  /** What the transaction does with a receipt under a free number. */
  lemma ReceiptDone(l: Ledger, r: Id, i: Id, receipt: Receipt, now: nat)
    requires Safe(l) && i in l.intents && l.intents[i].state == Executing && l.intents[i].reservation == r
    requires r in l.reservations && l.reservations[r].status == Active && !Numbered(l.observations, r, receipt.number)
    ensures var next := RecordReceipt(l, i, receipt, now).ledger;
            && RecordReceipt(l, i, receipt, now).answer == Done
            && next.observations == l.observations + [Row(r, Some(i), receipt)]
            && (forall j :: j != i ==> (j in next.receipts <==> j in l.receipts))
            && i in next.intents && r in next.reservations
            && (next.intents[i].state == Failed || next.intents[i].state == Unclear || next.intents[i].state == Observed)
            && (next.intents[i].state == Unclear <==> next.reservations[r].status == Ambiguous)
            && (next.intents[i].state != Unclear ==> next.reservations[r].status == Active)
            && (next.intents[i].state == Unclear ==> i !in next.receipts)
  {
    hide IntentsSafe, TargetsSafe, Numbered;
    assert i !in l.receipts && i !in l.finalizations;
  }

  /** Recording a receipt touches its intent and its reservation alone. */
  lemma ReceiptElsewhere(w: World, r: Id, i: Id, receipt: Receipt)
    requires Pursued(w, r, i) && w.ledger.intents[i].state == Executing
    requires i in w.processes && w.processes[i] == CalledBackend(GotReceipt(receipt))
    requires RecordReceipt(w.ledger, i, receipt, w.clock).answer == Done
    requires forall j :: j != i ==>
               (j in RecordReceipt(w.ledger, i, receipt, w.clock).ledger.receipts <==> j in w.ledger.receipts)
    ensures SameElsewhere(w, Next(w, DoRecord(i, w.clock)), r)
  {
    hide Safe, RecordReceipt, Numbered, IntentStep, SameLease;
    RecordReceiptShape(w.ledger, i, receipt, w.clock);
    SameStep(w.ledger, RecordReceipt(w.ledger, i, receipt, w.clock).ledger, i);
    NumbersElsewhere(w.ledger.observations, Row(r, Some(i), receipt));
  }

  lemma SameStep(l: Ledger, next: Ledger, i: Id)
    requires i in l.intents && i in next.intents && IntentStep(l.intents[i], next.intents[i])
    ensures next.intents[i].reservation == l.intents[i].reservation
  {
  }

  /** A receipt under a free number ends the intent, leaves it recoverable, or is observed. */
  lemma ReceiptMoves(w: World, r: Id, i: Id, receipt: Receipt)
    requires Safe(w.ledger) && Pursued(w, r, i) && w.ledger.intents[i].state == Executing
    requires i in w.processes && w.processes[i] == CalledBackend(GotReceipt(receipt))
    requires !Numbered(w.ledger.observations, r, receipt.number)
    ensures var a := DoRecord(i, w.clock);
            var next := Next(w, a);
            && Possible(w, a) && SameElsewhere(w, next, r)
            && (Idle(next, r) || Unsettled(next, r, i) || Observing(next, r, i))
  {
    hide Safe, RecordReceipt, Numbered, ReservationStep, SameLease, Idle, SameElsewhere;
    ReceiptDone(w.ledger, r, i, receipt, w.clock);
    ReceiptElsewhere(w, r, i, receipt);
    RecordReceiptShape(w.ledger, i, receipt, w.clock);
    var next := Next(w, DoRecord(i, w.clock));
    if next.ledger.intents[i].state == Failed {
      EndedIdle(w, next, r, i);
    } else if next.ledger.intents[i].state == Unclear {
      assert Unsettled(next, r, i);
    } else {
      assert Observing(next, r, i);
    }
  }

  /** The process remembers the reservation just as it is. */
  ghost predicate Observing(w: World, r: Id, i: Id) {
    && r in w.ledger.reservations && w.ledger.reservations[r].status == Active && Pursues(w.ledger, i, r)
    && i in w.processes && (w.processes[i].ReadyToVerify? || w.processes[i].ReadyToFinalize?)
    && Remembered(w.processes[i]) == Some(ExpectedOf(w.ledger.reservations[r]))
  }

  lemma VerifyMoves(w: World, r: Id, i: Id)
    requires Safe(w.ledger) && ProcessesFit(w) && Pursued(w, r, i)
    requires i in w.processes && w.processes[i].ReadyToVerify?
    ensures var a := DoVerify(i, w.clock);
            var next := Next(w, a);
            && Possible(w, a) && SameElsewhere(w, next, r) && next.ledger.reservations == w.ledger.reservations
            && i in next.processes && next.processes[i] == ReadyToFinalize(w.processes[i].observed)
  {
    hide IntentsSafe, TargetsSafe, Numbered;
    ObservedRow(w.ledger, i);
    assert i !in w.ledger.receipts;
  }

  lemma FinalizeEnds(w: World, r: Id, i: Id)
    requires Safe(w.ledger) && ProcessesFit(w) && Pursued(w, r, i)
    requires i in w.processes && w.processes[i].ReadyToFinalize? && Unmoved(w.ledger.reservations[r], w.processes[i].observed)
    ensures var a := DoFinalize(i, w.clock, true, true);
            Possible(w, a) && SameElsewhere(w, Next(w, a), r) && Idle(Next(w, a), r)
  {
    hide IntentsSafe, TargetsSafe;
    assert i in w.ledger.receipts && i !in w.ledger.finalizations;
    EndedIdle(w, Next(w, DoFinalize(i, w.clock, true, true)), r, i);
  }

  /** Actions that reserve and prepare nothing, and mutate reservation r alone. */
  predicate OnlyFor(actions: seq<Action>, r: Id) {
    forall a :: a in actions ==> !a.DoReserve? && !a.DoPrepare? && (a.DoMutate? ==> a.id == r)
  }

  /** Actions, all at the present time, after which the reservation is given up and nothing else has changed. */
  ghost predicate Frees(w: World, r: Id, actions: seq<Action>) {
    && AllPossible(w, actions) && OnlyFor(actions, r) && SameElsewhere(w, After(w, actions), r)
    && r in After(w, actions).ledger.reservations && !Current(After(w, actions).ledger.reservations[r])
  }

  lemma FreesNow(w: World, a: Action, r: Id)
    requires Possible(w, a) && SameElsewhere(w, Next(w, a), r) && OnlyFor([a], r)
    requires r in Next(w, a).ledger.reservations && !Current(Next(w, a).ledger.reservations[r])
    ensures Frees(w, r, [a])
  {
    hide Next, Possible, SameElsewhere;
    assert [a][1..] == [];
    assert After(w, [a]) == After(Next(w, a), []);
    assert AllPossible(Next(w, a), []);
  }

  lemma FreesLater(w: World, a: Action, rest: seq<Action>, r: Id)
    requires Possible(w, a) && SameElsewhere(w, Next(w, a), r) && OnlyFor([a], r) && Frees(Next(w, a), r, rest)
    ensures Frees(w, r, [a] + rest)
  {
    hide Next, Possible, SameElsewhere, After, AllPossible;
    Prepended(w, a, rest);
    SameElsewhereTrans(w, Next(w, a), After(Next(w, a), rest), r);
    assert a in [a];
  }

  lemma FreeIdle(w: World, r: Id) returns (actions: seq<Action>)
    requires Idle(w, r)
    ensures Frees(w, r, actions)
  {
    hide Next, Possible, SameElsewhere, Frees;
    ReleaseFrees(w, r);
    FreesNow(w, Releasing(w, r), r);
    actions := [Releasing(w, r)];
  }

  lemma RecoveryElsewhere(w: World, r: Id, i: Id)
    requires Unsettled(w, r, i)
    ensures SameElsewhere(w, Next(w, RecoverAction(w, i, r)), r)
  {
    hide Numbered;
    NumbersElsewhere(w.ledger.observations, Row(r, Some(i), Unchanged(w.ledger)));
  }

  lemma FreeUnsettled(w: World, r: Id, i: Id) returns (actions: seq<Action>)
    requires Sound(w) && Unsettled(w, r, i)
    ensures Frees(w, r, actions)
  {
    hide Next, Possible, SameElsewhere, Frees, Sound, Recoverable;
    RecoveryWorks(w, i, r);
    RecoveryElsewhere(w, r, i);
    FreesNow(w, RecoverAction(w, i, r), r);
    actions := [RecoverAction(w, i, r)];
  }

  lemma FreeFinalizing(w: World, r: Id, i: Id) returns (actions: seq<Action>)
    requires Sound(w) && Observing(w, r, i) && w.processes[i].ReadyToFinalize?
    ensures Frees(w, r, actions)
  {
    hide Next, Possible, SameElsewhere, Frees, Safe, ProcessesFit, HistoryFits, Idle, Pursued;
    OnlyPursuer(w, r, i);
    FinalizeEnds(w, r, i);
    var a := DoFinalize(i, w.clock, true, true);
    var rest := FreeIdle(Next(w, a), r);
    FreesLater(w, a, rest, r);
    actions := [a] + rest;
  }

  lemma StillObserving(w: World, next: World, r: Id, i: Id)
    requires Observing(w, r, i) && w.processes[i].ReadyToVerify? && next.ledger.reservations == w.ledger.reservations
    requires ProcessesFit(next) && i in next.processes && next.processes[i] == ReadyToFinalize(w.processes[i].observed)
    requires SameElsewhere(w, next, r)
    ensures Observing(next, r, i)
  {
  }

  lemma FreeObserving(w: World, r: Id, i: Id) returns (actions: seq<Action>)
    requires Sound(w) && Observing(w, r, i)
    ensures Frees(w, r, actions)
  {
    hide Next, Possible, SameElsewhere, Frees, Safe, ProcessesFit, HistoryFits, Pursued;
    if w.processes[i].ReadyToFinalize? {
      actions := FreeFinalizing(w, r, i);
    } else {
      OnlyPursuer(w, r, i);
      VerifyMoves(w, r, i);
      var a := DoVerify(i, w.clock);
      StepSound(w, a);
      StillObserving(w, Next(w, a), r, i);
      var rest := FreeFinalizing(Next(w, a), r, i);
      FreesLater(w, a, rest, r);
      actions := [a] + rest;
    }
  }

  lemma FreeCalled(w: World, r: Id, i: Id) returns (actions: seq<Action>)
    requires Sound(w) && Pursued(w, r, i) && w.ledger.intents[i].state == Executing && CanEnd(w, r, i)
    requires w.processes[i].CalledBackend?
    ensures Frees(w, r, actions)
  {
    hide Next, Possible, SameElsewhere, Frees, Safe, ProcessesFit, HistoryFits, Pursued, Idle, Unsettled, Observing;
    var a := DoRecord(i, w.clock);
    match w.processes[i].result {
      case NoReceipt(false) => FailureEnds(w, r, i);
      case NoReceipt(true) => FailureUnsettles(w, r, i);
      case GotReceipt(receipt) => ReceiptMoves(w, r, i, receipt);
    }
    StepSound(w, a);
    var rest;
    if Idle(Next(w, a), r) { rest := FreeIdle(Next(w, a), r); }
    else if Unsettled(Next(w, a), r, i) { rest := FreeUnsettled(Next(w, a), r, i); }
    else { rest := FreeObserving(Next(w, a), r, i); }
    FreesLater(w, a, rest, r);
    actions := [a] + rest;
  }

  /** An intent whose process can still end it, on an active reservation. */
  lemma FreePursued(w: World, r: Id, i: Id) returns (actions: seq<Action>)
    requires Sound(w) && Pursued(w, r, i) && CanEnd(w, r, i)
    ensures Frees(w, r, actions)
  {
    hide Next, Possible, SameElsewhere, Frees, Safe, HistoryFits, Idle;
    match w.processes[i] {
      case ReadyToAct(_, _) =>
        DenyEnds(w, r, i);
        var a := DoAct(i, w.clock, false, false);
        var rest := FreeIdle(Next(w, a), r);
        FreesLater(w, a, rest, r);
        actions := [a] + rest;
      case ReadyToCall =>
        CallFails(w, r, i);
        var a := DoCall(i, NoReceipt(false));
        StepSound(w, a);
        var rest := FreeCalled(Next(w, a), r, i);
        FreesLater(w, a, rest, r);
        actions := [a] + rest;
      case CalledBackend(_) => actions := FreeCalled(w, r, i);
      case _ => actions := FreeObserving(w, r, i);
    }
  }

  lemma Freeing(w: World, r: Id) returns (actions: seq<Action>)
    requires Sound(w) && r in w.ledger.reservations && Current(w.ledger.reservations[r]) && Freeable(w, r)
    ensures Frees(w, r, actions)
  {
    hide Sound, Frees, CanEnd, Recoverable;
    if w.ledger.reservations[r].status == Ambiguous {
      var i :| i in w.ledger.intents && w.ledger.intents[i].reservation == r && Recoverable(w.ledger, i);
      actions := FreeUnsettled(w, r, i);
    } else if i :| Pursues(w.ledger, i, r) {
      SoundPursuer(w, r, i);
      actions := FreePursued(w, r, i);
    } else {
      NothingPursues(w, r);
      actions := FreeIdle(w, r);
    }
  }

  lemma SoundPursuer(w: World, r: Id, i: Id)
    requires Sound(w) && r in w.ledger.reservations && w.ledger.reservations[r].status == Active && Pursues(w.ledger, i, r)
    ensures Pursued(w, r, i)
  {
    OnlyPursuer(w, r, i);
  }

  lemma NothingPursues(w: World, r: Id)
    requires r in w.ledger.reservations && w.ledger.reservations[r].status == Active && forall i :: !Pursues(w.ledger, i, r)
    ensures Idle(w, r)
  {
    forall i | i in w.ledger.intents && w.ledger.intents[i].reservation == r ensures Terminal(w.ledger.intents[i].state) {
      assert !Pursues(w.ledger, i, r);
    }
  }

  // ---------------------------------------------------------------- main results

  lemma {:induction false} JammedThroughout(w: World, r: Id, actions: seq<Action>)
    requires Steady(w) && Jammed(w, r) && AllPossible(w, actions)
    ensures Jammed(After(w, actions), r)
    decreases |actions|
  {
    hide Steady, Next, Possible, Jammed;
    if actions != [] {
      JammedForEver(w, actions[0], r);
      StepSteady(w, actions[0]);
      JammedThroughout(Next(w, actions[0]), r, actions[1..]);
    }
  }

  /** In every reachable world a current reservation can still be given up exactly when it is freeable. */
  lemma FreedExactly(worlds: seq<World>, actions: seq<Action>, n: nat, r: Id)
    requires Run(worlds, actions) && n < |worlds|
    requires r in worlds[n].ledger.reservations && Current(worlds[n].ledger.reservations[r])
    ensures (exists more :: AllPossible(worlds[n], more) && r in After(worlds[n], more).ledger.reservations &&
                            !Current(After(worlds[n], more).ledger.reservations[r])) <==> Freeable(worlds[n], r)
  {
    hide Run, Freeable, After, AllPossible, MemoriesFit, Sound;
    RunSteady(worlds, actions, n);
    var w := worlds[n];
    if Freeable(w, r) {
      var more := Freeing(w, r);
      assert AllPossible(worlds[n], more) && !Current(After(worlds[n], more).ledger.reservations[r]);
    } else {
      forall more | AllPossible(w, more)
        ensures r in After(w, more).ledger.reservations && Current(After(w, more).ledger.reservations[r])
      {
        JammedThroughout(w, r, more);
      }
    }
  }

  /** In every run a jammed reservation is jammed from then on, and its target cannot be reserved again. */
  lemma {:induction false} JammedInRuns(worlds: seq<World>, actions: seq<Action>, n: nat, m: nat, r: Id)
    requires Run(worlds, actions) && n <= m < |worlds| && Jammed(worlds[n], r)
    ensures Jammed(worlds[m], r) && worlds[m].ledger.reservations[r].target == worlds[n].ledger.reservations[r].target
    ensures TargetTaken(worlds[m].ledger, worlds[n].ledger.reservations[r].target)
  {
    hide Run, Next, Possible, Steady, Freeable;
    if n < m {
      RunStep(worlds, actions, m - 1);
      JammedInRuns(worlds, actions, n, m - 1, r);
      RunSteady(worlds, actions, m - 1);
      JammedForEver(worlds[m - 1], actions[m - 1], r);
      NextGrows(worlds[m - 1], actions[m - 1]);
    }
  }

  /** An intent abandoned by its process jams its reservation. */
  lemma AbandonedJams(worlds: seq<World>, actions: seq<Action>, n: nat, i: Id)
    requires Run(worlds, actions) && n < |worlds| && Abandoned(worlds[n], i)
    ensures var r := worlds[n].ledger.intents[i].reservation;
            && r in worlds[n].ledger.reservations
            && (worlds[n].ledger.reservations[r].status == Active ==> Jammed(worlds[n], r))
            && forall m :: n <= m < |worlds| ==> Abandoned(worlds[m], i)
  {
    hide Run, Next, Possible, HistoryFits, MemoriesFit, TargetsSafe, EvidenceSafe, ProcessesFit;
    RunSteady(worlds, actions, n);
    BoundOf(worlds[n].ledger, i);
    assert Pursues(worlds[n].ledger, i, worlds[n].ledger.intents[i].reservation);
    forall m | n <= m < |worlds| ensures Abandoned(worlds[m], i) { AbandonedInRuns(worlds, actions, n, m, i); }
  }

  lemma {:induction false} AbandonedInRuns(worlds: seq<World>, actions: seq<Action>, n: nat, m: nat, i: Id)
    requires Run(worlds, actions) && n <= m < |worlds| && Abandoned(worlds[n], i)
    ensures Abandoned(worlds[m], i) && worlds[m].ledger.intents[i] == worlds[n].ledger.intents[i]
  {
    hide Run, Next, Possible;
    if n < m {
      RunStep(worlds, actions, m - 1);
      AbandonedInRuns(worlds, actions, n, m - 1, i);
      NoProcessNoChange(worlds[m - 1], actions[m - 1], i);
    }
  }

  // ---------------------------------------------------------------- a taken number

  const CLEAR: Receipt := Receipt(Inspect, 1, InspectedUnchanged, false, 0)

  const INSPECTED: Ledger := EXECUTING.(observations := [Row(1, None, CLEAR)])

  /** While the effect is at its call an inspection records the next number, and the call is answered under that number. */
  lemma InspectAndCall()
    ensures var w := World(EXECUTING, map[2 := ReadyToCall], [Acted(2, 1, 5, 0)], 0);
            Possible(w, DoInspect(1, FIRST, CLEAR)) && Next(w, DoInspect(1, FIRST, CLEAR)) == w.(ledger := INSPECTED)
    ensures var w := World(INSPECTED, map[2 := ReadyToCall], [Acted(2, 1, 5, 0)], 0);
            && Possible(w, DoCall(2, GotReceipt(SUCCESS)))
            && Next(w, DoCall(2, GotReceipt(SUCCESS))) ==
               World(INSPECTED, map[2 := CalledBackend(GotReceipt(SUCCESS))], [Acted(2, 1, 5, 0), Called(2)], 0)
  {
    assert !Numbered(EXECUTING.observations, 1, 1);
    assert EXECUTING.observations + [Row(1, None, CLEAR)] == [Row(1, None, CLEAR)];
  }

  lemma TakenJams()
    ensures Jammed(World(INSPECTED, map[2 := CalledBackend(GotReceipt(SUCCESS))], [Acted(2, 1, 5, 0), Called(2)], 0), 1)
  {
    var w := World(INSPECTED, map[2 := CalledBackend(GotReceipt(SUCCESS))], [Acted(2, 1, 5, 0), Called(2)], 0);
    assert INSPECTED.observations[0] == Row(1, None, CLEAR);
    assert Numbered(INSPECTED.observations, 1, 1);
    assert Pursues(w.ledger, 2, 1) && !CanEnd(w, 1, 2);
  }

  /** So a reservation may jam though nothing crashes and nothing is in doubt: an inspection took the number of the answer. */
  lemma InspectionTakesNumber()
    ensures exists worlds: seq<World>, actions: seq<Action> ::
              && Run(worlds, actions) && |worlds| == 6 && Jammed(worlds[5], 1)
              && worlds[5].ledger.reservations[1].status == Active && forall a :: a in actions ==> !a.DoCrash?
  {
    hide Next, Possible, Jammed;
    FirstReservation();
    PrepareAndAct();
    InspectAndCall();
    TakenJams();
    var log := [Acted(2, 1, 5, 0)];
    var worlds := [
      START, World(RESERVED, map[], [], 0), World(PREPARED, map[2 := ReadyToAct(FIRST, 5)], [], 0),
      World(EXECUTING, map[2 := ReadyToCall], log, 0), World(INSPECTED, map[2 := ReadyToCall], log, 0),
      World(INSPECTED, map[2 := CalledBackend(GotReceipt(SUCCESS))], [Acted(2, 1, 5, 0), Called(2)], 0)];
    var actions := [
      DoReserve(1, SOME_TARGET, 7, 5, 0, 100, true, true), PREPARE, DoAct(2, 0, true, true), DoInspect(1, FIRST, CLEAR),
      DoCall(2, GotReceipt(SUCCESS))];
    assert Run(worlds, actions);
    assert worlds[5].ledger == INSPECTED;
  }
}
