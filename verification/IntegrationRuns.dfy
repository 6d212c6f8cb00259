/**
 Runs of the integration protocol.  An effect is a process that prepares, acts, calls the backend, records what it
 answered, verifies and finalizes, each in its own transaction; any other transaction, or a crash of the process,
 may come in between.  A log remembers what has happened.
 */
module IntegrationRuns {
  import opened Options
  import opened IntegrationModel
  import opened IntegrationSafety

  datatype BackendResult = NoReceipt(doubtful: bool) | GotReceipt(receipt: Receipt)

  /** How far the process of an intent has come, and what it remembers. */
  datatype Progress =
    | ReadyToAct(e: Expected, leaseOwner: Id)
    | ReadyToCall
    | CalledBackend(result: BackendResult)
    | ReadyToVerify(number: nat, observed: Expected)
    | ReadyToFinalize(observed: Expected)

  datatype Event =
    | Acted(intent: Id, reservation: Id, leaseOwner: Id, at: nat)
    | Called(intent: Id)
    | Ended(intent: Id)
    | TookOver(reservation: Id, expired: nat, inspected: nat)

  datatype World = World(ledger: Ledger, processes: map<Id, Progress>, log: seq<Event>, clock: nat)

  datatype Action =
    | DoReserve(id: Id, target: Target, execution: Id, leaseOwner: Id, now: nat, lease: nat, bound: bool, granted: bool)
    | DoMutate(id: Id, e: Expected, mutation: Mutation, leaseOwner: Id, now: nat, lease: nat, granted: bool,
               policyCurrent: bool, completed: bool)
    | DoInspect(id: Id, e: Expected, receipt: Receipt)
    | DoPrepare(intent: Id, key: Id, id: Id, e: Expected, operation: Operation, leaseOwner: Id, last: nat, now: nat,
                running: bool, granted: bool)
    | DoAct(intent: Id, now: nat, policyCurrent: bool, granted: bool)
    | DoCall(intent: Id, result: BackendResult)
    | DoRecord(intent: Id, now: nat)
    | DoVerify(intent: Id, now: nat)
    | DoFinalize(intent: Id, now: nat, policyCurrent: bool, granted: bool)
    | DoRecover(intent: Id, id: Id, e: Expected, receipt: Receipt, now: nat)
    | DoCrash(intent: Id)

  // ---------------------------------------------------------------- one step

  function ExpectedOf(r: Reservation): Expected {
    Expected(r.revision, r.leaseRevision, r.fence)
  }

  /** The end of an intent, if the transaction ended it. */
  function EndOf(l: Ledger, next: Ledger, intent: Id): seq<Event> {
    if intent in l.intents && !Terminal(l.intents[intent].state) &&
       intent in next.intents && Terminal(next.intents[intent].state)
    then [Ended(intent)] else []
  }

  function StepMutate(w: World, a: Action): World
    requires a.DoMutate?
  {
    var s := Mutate(w.ledger, a.id, a.e, a.mutation, a.leaseOwner, a.now, a.lease, a.granted, a.policyCurrent, a.completed);
    var inspected := LatestInspection(w.ledger.observations, a.id);
    var event := if a.mutation == Takeover && s.answer == Done && a.id in w.ledger.reservations && inspected.Some?
                 then [TookOver(a.id, w.ledger.reservations[a.id].expiresAt, inspected.value.observedAt)] else [];
    w.(ledger := s.ledger, log := w.log + event, clock := a.now)
  }

  function StepPrepare(w: World, a: Action): World
    requires a.DoPrepare?
  {
    var s := Prepare(w.ledger, a.intent, a.key, a.id, a.e, a.operation, a.leaseOwner, a.last, a.now, a.running, a.granted);
    World(s.ledger, if s.answer == Done then w.processes[a.intent := ReadyToAct(a.e, a.leaseOwner)] else w.processes,
          w.log, a.now)
  }

  function StepAct(w: World, a: Action, p: Progress): World
    requires a.DoAct? && p.ReadyToAct?
  {
    var s := Act(w.ledger, a.intent, p.e, p.leaseOwner, a.now, a.policyCurrent, a.granted);
    var event := if s.answer == Done && a.intent in w.ledger.intents
                 then [Acted(a.intent, w.ledger.intents[a.intent].reservation, p.leaseOwner, a.now)]
                 else EndOf(w.ledger, s.ledger, a.intent);
    World(s.ledger, if s.answer == Done then w.processes[a.intent := ReadyToCall] else w.processes - {a.intent},
          w.log + event, a.now)
  }

  /** What the port lets through as an answer to the call of an intent. */
  predicate Answers(l: Ledger, intent: Id, result: BackendResult) {
    result.GotReceipt? ==>
      intent in l.intents && EffectReceipt(result.receipt, l.intents[intent].operation, l.intents[intent].lastObservation)
  }

  function StepRecord(w: World, a: Action, p: Progress): World
    requires a.DoRecord? && p.CalledBackend?
  {
    match p.result
    case NoReceipt(doubtful) =>
      var s := RecordFailure(w.ledger, a.intent, doubtful, a.now);
      World(s.ledger, w.processes - {a.intent}, w.log + EndOf(w.ledger, s.ledger, a.intent), a.now)
    case GotReceipt(receipt) =>
      var s := RecordReceipt(w.ledger, a.intent, receipt, a.now);
      var observed := a.intent in s.ledger.intents && s.ledger.intents[a.intent].state == Observed && s.answer == Done &&
                      s.ledger.intents[a.intent].reservation in s.ledger.reservations;
      World(s.ledger,
            if observed
            then w.processes[a.intent := ReadyToVerify(receipt.number,
                   ExpectedOf(s.ledger.reservations[s.ledger.intents[a.intent].reservation]))]
            else w.processes - {a.intent},
            w.log + EndOf(w.ledger, s.ledger, a.intent), a.now)
  }

  function StepVerify(w: World, a: Action, p: Progress): World
    requires a.DoVerify? && p.ReadyToVerify?
  {
    var s := Verify(w.ledger, a.intent, p.number, a.now);
    World(s.ledger,
          if s.answer == Done then w.processes[a.intent := ReadyToFinalize(p.observed)] else w.processes - {a.intent},
          w.log, a.now)
  }

  function StepFinalize(w: World, a: Action, p: Progress): World
    requires a.DoFinalize? && p.ReadyToFinalize?
  {
    var s := Finalize(w.ledger, a.intent, p.observed, a.now, a.policyCurrent, a.granted);
    World(s.ledger, w.processes - {a.intent}, w.log + EndOf(w.ledger, s.ledger, a.intent), a.now)
  }

  /** Any action in any world; one whose process is not at that point changes nothing. */
  function Next(w: World, a: Action): World {
    match a
    case DoReserve(id, target, execution, leaseOwner, now, lease, bound, granted) =>
      w.(ledger := Reserve(w.ledger, id, target, execution, leaseOwner, now, lease, bound, granted).ledger, clock := now)
    case DoMutate(_, _, _, _, _, _, _, _, _) => StepMutate(w, a)
    case DoInspect(id, e, receipt) => w.(ledger := RecordInspection(w.ledger, id, e, receipt).ledger)
    case DoPrepare(_, _, _, _, _, _, _, _, _, _) => StepPrepare(w, a)
    case DoAct(i, _, _, _) => if i in w.processes && w.processes[i].ReadyToAct? then StepAct(w, a, w.processes[i]) else w
    case DoCall(i, result) =>
      if i in w.processes && w.processes[i] == ReadyToCall
      then w.(processes := w.processes[i := CalledBackend(result)], log := w.log + [Called(i)]) else w
    case DoRecord(i, _) =>
      if i in w.processes && w.processes[i].CalledBackend? then StepRecord(w, a, w.processes[i]) else w
    case DoVerify(i, _) =>
      if i in w.processes && w.processes[i].ReadyToVerify? then StepVerify(w, a, w.processes[i]) else w
    case DoFinalize(i, _, _, _) =>
      if i in w.processes && w.processes[i].ReadyToFinalize? then StepFinalize(w, a, w.processes[i]) else w
    case DoRecover(i, id, e, receipt, now) =>
      var s := Recover(w.ledger, i, id, e, receipt, now);
      World(s.ledger, w.processes, w.log + EndOf(w.ledger, s.ledger, i), now)
    case DoCrash(i) => w.(processes := w.processes - {i})
  }

  function TimeOf(a: Action): Option<nat> {
    match a
    case DoInspect(_, _, _) => None
    case DoCall(_, _) => None
    case DoCrash(_) => None
    case _ => Some(a.now)
  }

  /** Time does not run backwards, leases are positive, and the port has checked every receipt. */
  predicate Possible(w: World, a: Action) {
    && (TimeOf(a).Some? ==> TimeOf(a).value >= w.clock)
    && (a.DoReserve? || a.DoMutate? ==> a.lease > 0)
    && (a.DoInspect? ==> CodeFits(Inspect, a.receipt.code) && a.receipt.operation == Inspect)
    && (a.DoRecover? ==> CodeFits(Inspect, a.receipt.code) && a.receipt.operation == Inspect)
    && (a.DoCall? ==> Answers(w.ledger, a.intent, a.result))
  }

  const START: World := World(EMPTY, map[], [], 0)

  ghost predicate Run(worlds: seq<World>, actions: seq<Action>) {
    && |worlds| == |actions| + 1 && worlds[0] == START
    && forall k :: 0 <= k < |actions| ==> Possible(worlds[k], actions[k]) && worlds[k + 1] == Next(worlds[k], actions[k])
  }

  // ---------------------------------------------------------------- processes fit their intents

  predicate Fits(p: Progress, i: Intent) {
    match p
    case ReadyToAct(_, _) => i.state == Pending
    case ReadyToCall => i.state == Executing
    case CalledBackend(_) => i.state == Executing
    case ReadyToVerify(number, _) => i.state == Observed && number == i.lastObservation
    case ReadyToFinalize(_) => i.state == Verified
  }

  ghost predicate ProcessesFit(w: World) {
    forall i :: i in w.processes ==> i in w.ledger.intents && Fits(w.processes[i], w.ledger.intents[i])
  }

  // ---------------------------------------------------------------- what transactions leave alone

  /** Intents and reservations are never lost or re-bound, and nothing leaves a terminal state. */
  ghost predicate Grows(l: Ledger, next: Ledger) {
    && (forall i :: i in l.intents ==>
          && i in next.intents && next.intents[i].reservation == l.intents[i].reservation
          && next.intents[i].key == l.intents[i].key && next.intents[i].operation == l.intents[i].operation
          && (Terminal(l.intents[i].state) ==> next.intents[i] == l.intents[i])
          && (next.intents[i].state == Pending ==> next.intents[i] == l.intents[i]))
    && (forall r :: r in l.reservations ==>
          && r in next.reservations && ReservationStep(l.reservations[r], next.reservations[r]))
  }

  /** The leases of all reservations are as they were. */
  ghost predicate SameLeases(l: Ledger, next: Ledger) {
    forall r :: r in l.reservations && r in next.reservations ==>
      next.reservations[r].leaseOwner == l.reservations[r].leaseOwner &&
      next.reservations[r].expiresAt == l.reservations[r].expiresAt
  }

  /** At most one intent has changed. */
  ghost predicate SameIntentsBut(l: Ledger, next: Ledger, intent: Id) {
    forall i :: i != intent ==> (i in next.intents <==> i in l.intents) && (i in l.intents ==> next.intents[i] == l.intents[i])
  }

  lemma GrowsReserve(w: World, a: Action)
    requires a.DoReserve?
    ensures Grows(w.ledger, Next(w, a).ledger) && SameLeases(w.ledger, Next(w, a).ledger)
    ensures Next(w, a).ledger.intents == w.ledger.intents && Next(w, a).log == w.log && Next(w, a).processes == w.processes
  {
    hide TargetTaken, PriorUnsettled;
  }

  lemma GrowsInspect(w: World, a: Action)
    requires a.DoInspect?
    ensures Grows(w.ledger, Next(w, a).ledger) && SameLeases(w.ledger, Next(w, a).ledger)
    ensures Next(w, a).ledger.intents == w.ledger.intents && Next(w, a).log == w.log && Next(w, a).processes == w.processes
  {
  }

  lemma GrowsMutate(w: World, a: Action)
    requires a.DoMutate?
    ensures Grows(w.ledger, Next(w, a).ledger)
    ensures Next(w, a).ledger.intents == w.ledger.intents && Next(w, a).processes == w.processes
  {
    hide LatestInspection, Unfinished;
  }

  /** The intent an action is about. */
  function AboutIntent(a: Action): Option<Id> {
    match a
    case DoPrepare(i, _, _, _, _, _, _, _, _, _) => Some(i)
    case DoAct(i, _, _, _) => Some(i)
    case DoCall(i, _) => Some(i)
    case DoRecord(i, _) => Some(i)
    case DoVerify(i, _) => Some(i)
    case DoFinalize(i, _, _, _) => Some(i)
    case DoRecover(i, _, _, _, _) => Some(i)
    case DoCrash(i) => Some(i)
    case _ => None
  }

  lemma GrowsPrepare(w: World, a: Action)
    requires a.DoPrepare?
    ensures Grows(w.ledger, Next(w, a).ledger) && SameLeases(w.ledger, Next(w, a).ledger)
    ensures SameIntentsBut(w.ledger, Next(w, a).ledger, a.intent) && Next(w, a).log == w.log
  {
    hide Unfinished;
  }

  lemma GrowsAct(w: World, a: Action)
    requires a.DoAct?
    ensures Grows(w.ledger, Next(w, a).ledger) && SameLeases(w.ledger, Next(w, a).ledger)
    ensures SameIntentsBut(w.ledger, Next(w, a).ledger, a.intent)
  {
  }

  lemma GrowsOne(l: Ledger, next: Ledger, intent: Id, id: Id)
    requires intent in l.intents && intent in next.intents && next.intents == l.intents[intent := next.intents[intent]]
    requires IntentStep(l.intents[intent], next.intents[intent])
    requires id in l.reservations && id in next.reservations
    requires next.reservations == l.reservations[id := next.reservations[id]]
    requires ReservationStep(l.reservations[id], next.reservations[id])
    requires SameLease(l.reservations[id], next.reservations[id])
    ensures Grows(l, next) && SameLeases(l, next) && SameIntentsBut(l, next, intent)
  {
  }

  lemma GrowsReceipt(l: Ledger, intent: Id, receipt: Receipt, now: nat)
    ensures var next := RecordReceipt(l, intent, receipt, now).ledger;
            Grows(l, next) && SameLeases(l, next) && SameIntentsBut(l, next, intent)
  {
    hide RecordReceipt, Numbered, Grows, SameLeases, SameIntentsBut, ReservationStep, IntentStep, SameLease;
    if RecordReceipt(l, intent, receipt, now).answer == Done {
      RecordReceiptShape(l, intent, receipt, now);
      GrowsOne(l, RecordReceipt(l, intent, receipt, now).ledger, intent, l.intents[intent].reservation);
    } else {
      Unanswered(l, intent, receipt, now);
      SameGrows(l, intent);
    }
  }

  lemma GrowsFailure(l: Ledger, intent: Id, doubtful: bool, now: nat)
    ensures var next := RecordFailure(l, intent, doubtful, now).ledger;
            Grows(l, next) && SameLeases(l, next) && SameIntentsBut(l, next, intent)
  {
  }

  lemma GrowsRecord(w: World, a: Action)
    requires a.DoRecord?
    ensures Grows(w.ledger, Next(w, a).ledger) && SameLeases(w.ledger, Next(w, a).ledger)
    ensures SameIntentsBut(w.ledger, Next(w, a).ledger, a.intent)
  {
    hide RecordReceipt, RecordFailure, Grows, SameLeases, SameIntentsBut;
    SameGrows(w.ledger, a.intent);
    if a.intent in w.processes && w.processes[a.intent].CalledBackend? {
      match w.processes[a.intent].result {
        case NoReceipt(doubtful) => GrowsFailure(w.ledger, a.intent, doubtful, a.now);
        case GotReceipt(receipt) => GrowsReceipt(w.ledger, a.intent, receipt, a.now);
      }
    }
  }

  lemma GrowsVerify(w: World, a: Action)
    requires a.DoVerify?
    ensures Grows(w.ledger, Next(w, a).ledger) && SameLeases(w.ledger, Next(w, a).ledger)
    ensures SameIntentsBut(w.ledger, Next(w, a).ledger, a.intent) && Next(w, a).log == w.log
  {
    hide RowOf;
  }

  lemma GrowsFinalize(w: World, a: Action)
    requires a.DoFinalize?
    ensures Grows(w.ledger, Next(w, a).ledger) && SameLeases(w.ledger, Next(w, a).ledger)
    ensures SameIntentsBut(w.ledger, Next(w, a).ledger, a.intent)
  {
  }

  lemma GrowsRecover(l: Ledger, intent: Id, id: Id, e: Expected, receipt: Receipt, now: nat)
    ensures var next := Recover(l, intent, id, e, receipt, now).ledger;
            Grows(l, next) && SameLeases(l, next) && SameIntentsBut(l, next, intent)
  {
    hide Recover, Numbered, Grows, SameLeases, SameIntentsBut, ReservationStep, IntentStep, SameLease;
    if Recover(l, intent, id, e, receipt, now).answer == Done {
      RecoverShape(l, intent, id, e, receipt, now);
      GrowsOne(l, Recover(l, intent, id, e, receipt, now).ledger, intent, id);
    } else {
      RecoverUnanswered(l, intent, id, e, receipt, now);
      SameGrows(l, intent);
    }
  }

  /** Every action: nothing lost, at most one intent touched, and leases changed by renewal and takeover alone. */
  lemma NextGrows(w: World, a: Action)
    ensures Grows(w.ledger, Next(w, a).ledger)
    ensures !a.DoMutate? ==> SameLeases(w.ledger, Next(w, a).ledger)
    ensures AboutIntent(a).None? ==> Next(w, a).ledger.intents == w.ledger.intents && Next(w, a).processes == w.processes
    ensures AboutIntent(a).Some? ==> SameIntentsBut(w.ledger, Next(w, a).ledger, AboutIntent(a).value)
  {
    hide Grows, SameLeases, SameIntentsBut, StepMutate, StepPrepare, StepAct, StepRecord, StepVerify, StepFinalize,
         Recover, Reserve, RecordInspection;
    match a {
      case DoReserve(_, _, _, _, _, _, _, _) => GrowsReserve(w, a);
      case DoMutate(_, _, _, _, _, _, _, _, _) => GrowsMutate(w, a);
      case DoInspect(_, _, _) => GrowsInspect(w, a);
      case DoPrepare(_, _, _, _, _, _, _, _, _, _) => GrowsPrepare(w, a);
      case DoAct(_, _, _, _) => GrowsAct(w, a);
      case DoCall(i, _) => SameGrows(w.ledger, i);
      case DoRecord(_, _) => GrowsRecord(w, a);
      case DoVerify(_, _) => GrowsVerify(w, a);
      case DoFinalize(_, _, _, _) => GrowsFinalize(w, a);
      case DoRecover(i, id, e, receipt, now) => GrowsRecover(w.ledger, i, id, e, receipt, now);
      case DoCrash(i) => SameGrows(w.ledger, i);
    }
  }

  lemma SameGrows(l: Ledger, i: Id)
    ensures Grows(l, l) && SameLeases(l, l) && SameIntentsBut(l, l, i)
  {
  }

  // ---------------------------------------------------------------- safety of every run

  lemma NextSafe(w: World, a: Action)
    requires Safe(w.ledger) && ProcessesFit(w) && Possible(w, a)
    ensures Safe(Next(w, a).ledger)
  {
    hide Safe, Reserve, Mutate, RecordInspection, Prepare, Act, RecordFailure, RecordReceipt, Verify, Finalize, Recover;
    var l := w.ledger;
    match a {
      case DoReserve(id, t, x, o, now, lease, b, g) => ReserveSafe(l, id, t, x, o, now, lease, b, g);
      case DoMutate(id, e, m, o, now, lease, g, p, c) => MutateSafe(l, id, e, m, o, now, lease, g, p, c);
      case DoInspect(id, e, receipt) => RecordInspectionSafe(l, id, e, receipt);
      case DoPrepare(i, k, id, e, op, o, last, now, run, g) => PrepareSafe(l, i, k, id, e, op, o, last, now, run, g);
      case DoAct(i, now, p, g) =>
        if i in w.processes && w.processes[i].ReadyToAct? {
          ActSafe(l, i, w.processes[i].e, w.processes[i].leaseOwner, now, p, g);
        }
      case DoCall(_, _) =>
      case DoRecord(i, now) =>
        if i in w.processes && w.processes[i].CalledBackend? {
          match w.processes[i].result {
            case NoReceipt(doubtful) => RecordFailureSafe(l, i, doubtful, now);
            case GotReceipt(receipt) => RecordReceiptSafe(l, i, receipt, now);
          }
        }
      case DoVerify(i, now) =>
        if i in w.processes && w.processes[i].ReadyToVerify? { VerifySafe(l, i, w.processes[i].number, now); }
      case DoFinalize(i, now, p, g) =>
        if i in w.processes && w.processes[i].ReadyToFinalize? {
          FinalizeSafe(l, i, w.processes[i].observed, now, p, g);
        }
      case DoRecover(i, id, e, receipt, now) => RecoverSafe(l, i, id, e, receipt, now);
      case DoCrash(_) =>
    }
  }

  /** The process of the one intent an action is about still fits it. */
  lemma TouchedFits(w: World, a: Action, i: Id)
    requires Safe(w.ledger) && ProcessesFit(w) && AboutIntent(a) == Some(i) && i in Next(w, a).processes
    ensures i in Next(w, a).ledger.intents && Fits(Next(w, a).processes[i], Next(w, a).ledger.intents[i])
  {
    hide Safe, Unfinished, Numbered, RowOf, ReservationStep, IntentStep;
    if a.DoRecover? && i in w.processes { RecoverLeavesProcesses(w, a, i); }
    if a.DoRecord? && i in w.processes && w.processes[i].CalledBackend? && w.processes[i].result.GotReceipt? &&
       RecordReceipt(w.ledger, i, w.processes[i].result.receipt, a.now).answer == Done
    {
      RecordReceiptShape(w.ledger, i, w.processes[i].result.receipt, a.now);
    }
  }

  lemma RecoverLeavesProcesses(w: World, a: Action, i: Id)
    requires ProcessesFit(w) && a.DoRecover? && a.intent == i && i in w.processes
    ensures Next(w, a).ledger == w.ledger
  {
  }

  lemma NextFits(w: World, a: Action)
    requires Safe(w.ledger) && ProcessesFit(w)
    ensures ProcessesFit(Next(w, a))
  {
    hide Safe, Next, Grows, Fits, SameLeases;
    NextGrows(w, a);
    OtherProcesses(w, a);
    forall i | i in Next(w, a).processes
      ensures i in Next(w, a).ledger.intents && Fits(Next(w, a).processes[i], Next(w, a).ledger.intents[i])
    {
      if AboutIntent(a) == Some(i) { TouchedFits(w, a, i); }
    }
  }

  /** An action leaves the processes of other intents alone. */
  lemma OtherProcesses(w: World, a: Action)
    ensures forall i :: AboutIntent(a) != Some(i) ==>
              (i in Next(w, a).processes <==> i in w.processes) &&
              (i in w.processes ==> Next(w, a).processes[i] == w.processes[i])
  {
    hide Reserve, Mutate, RecordInspection, Prepare, Act, RecordFailure, RecordReceipt, Verify, Finalize, Recover;
  }
}
