/**
 What the history of every run shows: the backend is called at most once for an intent and only after its act was
 allowed; acts by different lease owners are separated by a takeover that found the first intent ended and an
 inspection later than the expired lease; fences only grow; and which reservations can never be settled.
 */
module IntegrationHistory {
  import opened Options
  import opened IntegrationModel
  import opened IntegrationSafety
  import opened IntegrationRuns

  ghost predicate TerminalIn(l: Ledger, i: Id) {
    i in l.intents && Terminal(l.intents[i].state)
  }

  // ---------------------------------------------------------------- what a step adds to the log

  ghost predicate AddsActed(w: World, a: Action, e: Event) {
    && a.DoAct? && e.Acted? && e.intent == a.intent && e.at == a.now
    && e.intent in w.ledger.intents && w.ledger.intents[e.intent].state == Pending
    && w.ledger.intents[e.intent].reservation == e.reservation && e.reservation in w.ledger.reservations
    && w.ledger.reservations[e.reservation].leaseOwner == e.leaseOwner
    && w.ledger.reservations[e.reservation].expiresAt > a.now
    && Next(w, a).ledger == w.ledger.(intents := Next(w, a).ledger.intents)
    && e.intent in Next(w, a).ledger.intents && Next(w, a).ledger.intents[e.intent].state == Executing
    && Next(w, a).processes == w.processes[a.intent := ReadyToCall]
  }

  ghost predicate AddsCalled(w: World, a: Action, e: Event) {
    && a.DoCall? && e == Called(a.intent) && a.intent in w.processes && w.processes[a.intent] == ReadyToCall
    && Next(w, a).ledger == w.ledger && Next(w, a).processes == w.processes[a.intent := CalledBackend(a.result)]
  }

  ghost predicate AddsEnded(w: World, a: Action, e: Event) {
    && e.Ended? && AboutIntent(a) == Some(e.intent) && !a.DoMutate? && e.intent in w.ledger.intents
    && !TerminalIn(w.ledger, e.intent) && TerminalIn(Next(w, a).ledger, e.intent)
    && (e.intent in Next(w, a).processes ==>
          e.intent in w.processes && Next(w, a).processes[e.intent] == w.processes[e.intent])
  }

  ghost predicate AddsTookOver(w: World, a: Action, e: Event) {
    && a.DoMutate? && e.TookOver? && e.reservation == a.id && a.id in w.ledger.reservations
    && e.expired == w.ledger.reservations[a.id].expiresAt && e.expired <= a.now && e.expired <= e.inspected
    && !Unfinished(w.ledger, a.id)
  }

  /** Without an event no intent ends, none is acted on or called, and no lease changes hands. */
  predicate AtBackend(p: Progress) {
    p == ReadyToCall || p.CalledBackend?
  }

  ghost predicate Quiet(w: World, a: Action) {
    && (forall i :: TerminalIn(Next(w, a).ledger, i) ==> TerminalIn(w.ledger, i))
    && (forall i :: i in Next(w, a).processes && AtBackend(Next(w, a).processes[i]) ==>
          i in w.processes && Next(w, a).processes[i] == w.processes[i])
    && (forall r :: r in w.ledger.reservations && r in Next(w, a).ledger.reservations ==>
          Next(w, a).ledger.reservations[r].leaseOwner == w.ledger.reservations[r].leaseOwner)
  }

  ghost predicate Logs(w: World, a: Action) {
    var next := Next(w, a);
    || (next.log == w.log && Quiet(w, a))
    || (exists e :: next.log == w.log + [e] &&
          (AddsActed(w, a, e) || AddsCalled(w, a, e) || AddsEnded(w, a, e) || AddsTookOver(w, a, e)))
  }

  lemma QuietIf(w: World, a: Action)
    requires Next(w, a).ledger.intents == w.ledger.intents && Next(w, a).processes == w.processes
    requires SameLeases(w.ledger, Next(w, a).ledger)
    ensures Quiet(w, a)
  {
  }

  lemma LogsMutate(w: World, a: Action)
    requires a.DoMutate?
    ensures Logs(w, a)
  {
    hide LatestInspection, Unfinished;
    GrowsMutate(w, a);
    if Next(w, a).log != w.log {
      var e := Next(w, a).log[|w.log|];
      assert Next(w, a).log == w.log + [e];
      assert AddsTookOver(w, a, e);
    } else {
      MutateQuiet(w, a);
    }
  }

  lemma MutateQuiet(w: World, a: Action)
    requires a.DoMutate? && Next(w, a).log == w.log
    ensures Quiet(w, a)
  {
    hide LatestInspection, Unfinished;
    GrowsMutate(w, a);
  }

  lemma LogsAct(w: World, a: Action)
    requires a.DoAct?
    ensures Logs(w, a)
  {
    if a.intent in w.processes && w.processes[a.intent].ReadyToAct? {
      var p := w.processes[a.intent];
      var s := Act(w.ledger, a.intent, p.e, p.leaseOwner, a.now, a.policyCurrent, a.granted);
      if s.answer == Done {
        var e := Acted(a.intent, w.ledger.intents[a.intent].reservation, p.leaseOwner, a.now);
        assert AddsActed(w, a, e);
      } else if s.answer == Denied {
        var e := Ended(a.intent);
        assert AddsEnded(w, a, e);
      } else {
        assert s.ledger == w.ledger;
      }
    }
  }

  lemma OneIntentQuiet(w: World, a: Action, i: Id)
    requires AboutIntent(a) == Some(i) && Next(w, a).log == w.log && !a.DoMutate?
    requires TerminalIn(Next(w, a).ledger, i) ==> TerminalIn(w.ledger, i)
    requires i in Next(w, a).processes && AtBackend(Next(w, a).processes[i]) ==>
               i in w.processes && Next(w, a).processes[i] == w.processes[i]
    ensures Quiet(w, a)
  {
    hide Next;
    NextGrows(w, a);
    OtherProcesses(w, a);
  }

  /** A step that logs the end of its intent, or nothing. */
  lemma LogsEnd(w: World, a: Action, i: Id)
    requires AboutIntent(a) == Some(i) && !a.DoMutate?
    requires Next(w, a).log == w.log + EndOf(w.ledger, Next(w, a).ledger, i)
    requires i !in w.ledger.intents ==> i !in Next(w, a).ledger.intents
    requires i in Next(w, a).processes ==>
               (!AtBackend(Next(w, a).processes[i]) && !TerminalIn(Next(w, a).ledger, i)) ||
               (i in w.processes && Next(w, a).processes[i] == w.processes[i])
    ensures Logs(w, a)
  {
    hide Next;
    if EndOf(w.ledger, Next(w, a).ledger, i) == [] {
      OneIntentQuiet(w, a, i);
    } else {
      assert AddsEnded(w, a, Ended(i));
    }
  }

  lemma RecordKeepsProcess(w: World, a: Action)
    requires a.DoRecord? && a.intent in w.processes && w.processes[a.intent].CalledBackend?
    ensures a.intent !in w.ledger.intents ==> a.intent !in Next(w, a).ledger.intents
    ensures Next(w, a).log == w.log + EndOf(w.ledger, Next(w, a).ledger, a.intent)
    ensures a.intent in Next(w, a).processes ==>
              Next(w, a).processes[a.intent].ReadyToVerify? && !TerminalIn(Next(w, a).ledger, a.intent)
  {
    hide Numbered, Doubtful, RefusedWithoutEffect;
  }

  lemma LogsRecord(w: World, a: Action)
    requires a.DoRecord?
    ensures Logs(w, a)
  {
    hide RecordFailure, RecordReceipt;
    GrowsRecord(w, a);
    if a.intent in w.processes && w.processes[a.intent].CalledBackend? {
      RecordKeepsProcess(w, a);
      LogsEnd(w, a, a.intent);
    } else {
      QuietIf(w, a);
    }
  }

  lemma LogsFinalize(w: World, a: Action)
    requires a.DoFinalize?
    ensures Logs(w, a)
  {
    if a.intent in w.processes && w.processes[a.intent].ReadyToFinalize? {
      LogsEnd(w, a, a.intent);
    } else {
      GrowsFinalize(w, a);
      QuietIf(w, a);
    }
  }

  lemma RecoverKnows(l: Ledger, intent: Id, id: Id, e: Expected, receipt: Receipt, now: nat)
    requires intent !in l.intents
    ensures Recover(l, intent, id, e, receipt, now).ledger == l
  {
  }

  lemma LogsRecover(w: World, a: Action)
    requires a.DoRecover?
    ensures Logs(w, a)
  {
    hide Recover;
    if a.intent !in w.ledger.intents { RecoverKnows(w.ledger, a.intent, a.id, a.e, a.receipt, a.now); }
    LogsEnd(w, a, a.intent);
  }

  lemma LogsVerify(w: World, a: Action)
    requires a.DoVerify?
    ensures Logs(w, a)
  {
    hide RowOf;
    if a.intent in w.processes && w.processes[a.intent].ReadyToVerify? {
      VerifyEndsNothing(w, a);
      OneIntentQuiet(w, a, a.intent);
    } else {
      GrowsVerify(w, a);
      QuietIf(w, a);
    }
  }

  lemma VerifyEndsNothing(w: World, a: Action)
    requires a.DoVerify? && a.intent in w.processes && w.processes[a.intent].ReadyToVerify?
    ensures TerminalIn(Next(w, a).ledger, a.intent) ==> TerminalIn(w.ledger, a.intent)
    ensures a.intent in Next(w, a).processes ==> Next(w, a).processes[a.intent].ReadyToFinalize?
    ensures Next(w, a).log == w.log
  {
    hide RowOf;
  }

  lemma LogsPrepare(w: World, a: Action)
    requires a.DoPrepare?
    ensures Logs(w, a)
  {
    hide Unfinished;
    OneIntentQuiet(w, a, a.intent);
  }

  /** Every action adds one of the four events, or is quiet. */
  lemma NextLogs(w: World, a: Action)
    ensures Logs(w, a)
  {
    hide Logs, Reserve, Mutate, RecordInspection, Prepare, Act, RecordFailure, RecordReceipt, Verify, Finalize, Recover;
    match a {
      case DoReserve(_, _, _, _, _, _, _, _) => GrowsReserve(w, a); QuietLogs(w, a);
      case DoMutate(_, _, _, _, _, _, _, _, _) => LogsMutate(w, a);
      case DoInspect(_, _, _) => GrowsInspect(w, a); QuietLogs(w, a);
      case DoPrepare(_, _, _, _, _, _, _, _, _, _) => LogsPrepare(w, a);
      case DoAct(_, _, _, _) => LogsAct(w, a);
      case DoCall(i, result) => LogsCall(w, a);
      case DoRecord(_, _) => LogsRecord(w, a);
      case DoVerify(_, _) => LogsVerify(w, a);
      case DoFinalize(_, _, _, _) => LogsFinalize(w, a);
      case DoRecover(_, _, _, _, _) => LogsRecover(w, a);
      case DoCrash(i) => LogsCrash(w, a);
    }
  }

  lemma QuietLogs(w: World, a: Action)
    requires Next(w, a).ledger.intents == w.ledger.intents && Next(w, a).processes == w.processes && Next(w, a).log == w.log
    requires SameLeases(w.ledger, Next(w, a).ledger)
    ensures Logs(w, a)
  {
    hide Next;
    QuietIf(w, a);
  }

  lemma LogsCall(w: World, a: Action)
    requires a.DoCall?
    ensures Logs(w, a)
  {
    if a.intent in w.processes && w.processes[a.intent] == ReadyToCall {
      assert AddsCalled(w, a, Called(a.intent));
    }
  }

  lemma LogsCrash(w: World, a: Action)
    requires a.DoCrash?
    ensures Logs(w, a)
  {
  }

  // ---------------------------------------------------------------- what the log says about the present

  /** An act is of an intent past pending, within a lease that has not been shortened since. */
  ghost predicate ActFits(w: World, e: Event) {
    e.Acted? ==>
      && e.intent in w.ledger.intents && w.ledger.intents[e.intent].state != Pending
      && w.ledger.intents[e.intent].reservation == e.reservation && e.reservation in w.ledger.reservations
      && e.at <= w.clock && e.at < w.ledger.reservations[e.reservation].expiresAt
  }

  ghost predicate HasActed(log: seq<Event>, intent: Id) {
    exists k :: 0 <= k < |log| && log[k].Acted? && log[k].intent == intent
  }

  ghost predicate HasEnded(log: seq<Event>, intent: Id) {
    Ended(intent) in log
  }

  ghost predicate Present(w: World) {
    && (forall e :: e in w.log ==> ActFits(w, e))
    && (forall i :: i in w.processes && AtBackend(w.processes[i]) ==> HasActed(w.log, i))
    && (forall i :: i in w.processes && w.processes[i] == ReadyToCall ==> Called(i) !in w.log)
    && (forall i :: Called(i) in w.log ==> HasActed(w.log, i))
    && (forall i :: HasEnded(w.log, i) <==> TerminalIn(w.ledger, i))
  }

  /** Called at most once, and after the act; nothing acts after it has ended. */
  ghost predicate Ordered(log: seq<Event>) {
    && (forall j, k | 0 <= j < k < |log| && log[j].Called? && log[k].Called? :: log[j] != log[k])
    && (forall k | 0 <= k < |log| && log[k].Called? :: HasActed(log[..k], log[k].intent))
    && (forall j, k | 0 <= j < k < |log| && log[j].Ended? && log[k].Acted? :: log[j].intent != log[k].intent)
  }

  ghost predicate TakenOverSince(log: seq<Event>, k: int, reservation: Id) {
    exists m :: 0 <= m < |log| && k < m && log[m].TookOver? && log[m].reservation == reservation
  }

  /** The lease owner of an act still owns the lease, unless it was taken over since. */
  ghost predicate Owned(w: World) {
    forall k | 0 <= k < |w.log| && w.log[k].Acted? && !TakenOverSince(w.log, k, w.log[k].reservation) ::
      w.log[k].reservation in w.ledger.reservations &&
      w.ledger.reservations[w.log[k].reservation].leaseOwner == w.log[k].leaseOwner
  }

  ghost predicate EndedBetween(log: seq<Event>, j: int, m: int, intent: Id) {
    exists n :: 0 <= n < |log| && j < n < m && log[n] == Ended(intent)
  }

  /** A takeover separates what came before it: every act was within the expired lease, and its intent has ended. */
  ghost predicate Separates(log: seq<Event>, m: int)
    requires 0 <= m < |log| && log[m].TookOver?
  {
    && log[m].expired <= log[m].inspected
    && forall j | 0 <= j < m && log[j].Acted? && log[j].reservation == log[m].reservation ::
         log[j].at < log[m].expired && EndedBetween(log, j, m, log[j].intent)
  }

  ghost predicate AllSeparate(log: seq<Event>) {
    forall m | 0 <= m < |log| && log[m].TookOver? :: Separates(log, m)
  }

  ghost predicate TakenOverBetween(log: seq<Event>, j: int, k: int, reservation: Id) {
    exists m :: 0 <= m < |log| && j < m < k && log[m].TookOver? && log[m].reservation == reservation
  }

  /** Acts by different owners on one reservation have a takeover of it between them. */
  ghost predicate OwnersApart(log: seq<Event>) {
    forall j, k | 0 <= j < k < |log| && log[j].Acted? && log[k].Acted? && log[j].reservation == log[k].reservation &&
                  log[j].leaseOwner != log[k].leaseOwner ::
      TakenOverBetween(log, j, k, log[j].reservation)
  }

  ghost predicate HistoryFits(w: World) {
    Present(w) && Ordered(w.log) && Owned(w) && AllSeparate(w.log) && OwnersApart(w.log)
  }

  // ---------------------------------------------------------------- every step keeps the history fitting

  lemma ClockOnwards(w: World, a: Action)
    requires Possible(w, a)
    ensures Next(w, a).clock >= w.clock
    ensures a.DoAct? && Next(w, a).log != w.log ==> Next(w, a).clock == a.now
  {
    hide Reserve, Mutate, RecordInspection, Prepare, Act, RecordFailure, RecordReceipt, Verify, Finalize, Recover;
  }

  /** A mutation changes one lease at most, and sets its expiry later than now or not at all. */
  lemma MutateLease(w: World, a: Action)
    requires a.DoMutate? && a.lease > 0
    ensures forall r :: r in w.ledger.reservations ==>
              && r in Next(w, a).ledger.reservations
              && (r != a.id ==> Next(w, a).ledger.reservations[r] == w.ledger.reservations[r])
              && (Next(w, a).ledger.reservations[r].expiresAt == w.ledger.reservations[r].expiresAt ||
                  Next(w, a).ledger.reservations[r].expiresAt > a.now)
  {
    hide LatestInspection, Unfinished;
  }

  lemma LeaseLasts(w: World, a: Action, r: Id, at: nat)
    requires Possible(w, a) && r in w.ledger.reservations && at <= w.clock && at < w.ledger.reservations[r].expiresAt
    ensures r in Next(w, a).ledger.reservations && at < Next(w, a).ledger.reservations[r].expiresAt
  {
    hide Next;
    NextGrows(w, a);
    if a.DoMutate? { MutateLease(w, a); }
  }

  lemma ActStillFits(w: World, a: Action, e: Event)
    requires Possible(w, a) && ActFits(w, e)
    ensures ActFits(Next(w, a), e)
  {
    hide Next, Possible;
    if e.Acted? {
      NextGrows(w, a);
      ClockOnwards(w, a);
      LeaseLasts(w, a, e.reservation, e.at);
    }
  }

  lemma HasActedStill(log: seq<Event>, e: Event, i: Id)
    ensures HasActed(log + [e], i) <==> HasActed(log, i) || (e.Acted? && e.intent == i)
  {
    var next := log + [e];
    if HasActed(log, i) {
      var k :| 0 <= k < |log| && log[k].Acted? && log[k].intent == i;
      assert next[k].Acted?;
    }
    if e.Acted? && e.intent == i { assert next[|log|].Acted?; }
  }

  lemma PresentQuiet(w: World, a: Action)
    requires Present(w) && ProcessesFit(w) && Possible(w, a) && Next(w, a).log == w.log && Quiet(w, a)
    ensures Present(Next(w, a))
  {
    hide Next, Possible, ActFits;
    NextGrows(w, a);
    forall e | e in w.log ensures ActFits(Next(w, a), e) { ActStillFits(w, a, e); }
  }

  lemma TerminalAfter(w: World, a: Action, e: Event, i: Id)
    requires AddsActed(w, a, e) || AddsCalled(w, a, e) || AddsEnded(w, a, e) || AddsTookOver(w, a, e)
    ensures TerminalIn(Next(w, a).ledger, i) <==> TerminalIn(w.ledger, i) || e == Ended(i)
  {
    hide Next;
    NextGrows(w, a);
  }

  lemma PresentEvent(w: World, a: Action, e: Event)
    requires Present(w) && ProcessesFit(w) && Possible(w, a) && Next(w, a).log == w.log + [e]
    requires AddsActed(w, a, e) || AddsCalled(w, a, e) || AddsEnded(w, a, e) || AddsTookOver(w, a, e)
    ensures Present(Next(w, a))
  {
    hide Next, Possible, ActFits, HasActed, TerminalIn, Unfinished;
    var next := Next(w, a);
    NextGrows(w, a);
    OtherProcesses(w, a);
    forall x | x in next.log ensures ActFits(next, x) {
      if x in w.log { ActStillFits(w, a, x); } else { NewActFits(w, a, e); }
    }
    forall i ensures HasEnded(next.log, i) <==> TerminalIn(next.ledger, i) {
      TerminalAfter(w, a, e, i);
    }
    forall i ensures HasActed(next.log, i) <==> HasActed(w.log, i) || (e.Acted? && e.intent == i) {
      HasActedStill(w.log, e, i);
    }
    forall i | i in next.processes && AtBackend(next.processes[i]) ensures HasActed(next.log, i) {
      ProcessKnown(w, a, e, i);
    }
    forall i | i in next.processes && next.processes[i] == ReadyToCall ensures Called(i) !in next.log {
      CallUnknown(w, a, e, i);
    }
  }

  lemma NewActFits(w: World, a: Action, e: Event)
    requires Possible(w, a) && Next(w, a).log == w.log + [e]
    requires AddsActed(w, a, e) || AddsCalled(w, a, e) || AddsEnded(w, a, e) || AddsTookOver(w, a, e)
    ensures ActFits(Next(w, a), e)
  {
    hide Next;
    NextGrows(w, a);
    ClockOnwards(w, a);
  }

  lemma ProcessKnown(w: World, a: Action, e: Event, i: Id)
    requires Present(w) && Next(w, a).log == w.log + [e]
    requires AddsActed(w, a, e) || AddsCalled(w, a, e) || AddsEnded(w, a, e) || AddsTookOver(w, a, e)
    requires i in Next(w, a).processes && AtBackend(Next(w, a).processes[i])
    ensures HasActed(w.log, i) || (e.Acted? && e.intent == i)
  {
    hide Next, HasActed;
    OtherProcesses(w, a);
    NextGrows(w, a);
  }

  lemma CallUnknown(w: World, a: Action, e: Event, i: Id)
    requires Present(w) && ProcessesFit(w) && Next(w, a).log == w.log + [e]
    requires AddsActed(w, a, e) || AddsCalled(w, a, e) || AddsEnded(w, a, e) || AddsTookOver(w, a, e)
    requires i in Next(w, a).processes && Next(w, a).processes[i] == ReadyToCall
    ensures Called(i) !in w.log + [e]
  {
    hide Next;
    OtherProcesses(w, a);
    NextGrows(w, a);
    if HasActed(w.log, i) { ActedNotPending(w, i); }
  }

  lemma ActedNotPending(w: World, i: Id)
    requires Present(w) && HasActed(w.log, i)
    ensures i in w.ledger.intents && w.ledger.intents[i].state != Pending
  {
    var k :| 0 <= k < |w.log| && w.log[k].Acted? && w.log[k].intent == i;
    assert ActFits(w, w.log[k]);
  }

  lemma PresentKept(w: World, a: Action)
    requires Present(w) && ProcessesFit(w) && Possible(w, a)
    ensures Present(Next(w, a))
  {
    hide Present, ProcessesFit, Possible, Next, Quiet, AddsActed, AddsCalled, AddsEnded, AddsTookOver;
    NextLogs(w, a);
    if Next(w, a).log == w.log && Quiet(w, a) {
      PresentQuiet(w, a);
    } else {
      var e :| Next(w, a).log == w.log + [e] &&
               (AddsActed(w, a, e) || AddsCalled(w, a, e) || AddsEnded(w, a, e) || AddsTookOver(w, a, e));
      PresentEvent(w, a, e);
    }
  }

  // ---------------------------------------------------------------- order

  lemma OrderedEvent(w: World, a: Action, e: Event)
    requires Present(w) && Ordered(w.log)
    requires AddsActed(w, a, e) || AddsCalled(w, a, e) || AddsEnded(w, a, e) || AddsTookOver(w, a, e)
    ensures Ordered(w.log + [e])
  {
    hide Next, HasActed, ActFits;
    var next := w.log + [e];
    forall k | 0 <= k < |next| && next[k].Called? ensures HasActed(next[..k], next[k].intent) {
      if k < |w.log| {
        assert next[..k] == w.log[..k];
      } else {
        assert next[..k] == w.log;
      }
    }
    forall j, k | 0 <= j < k < |next| && next[j].Called? && next[k].Called? ensures next[j] != next[k] {
      if k == |w.log| { assert next[j] in w.log; }
    }
    forall j, k | 0 <= j < k < |next| && next[j].Ended? && next[k].Acted? ensures next[j].intent != next[k].intent {
      if k == |w.log| {
        assert next[j] == Ended(next[j].intent) && next[j] in w.log;
        assert HasEnded(w.log, next[j].intent);
      }
    }
  }

  // ---------------------------------------------------------------- ownership

  lemma OwnedQuiet(w: World, a: Action)
    requires Owned(w) && Next(w, a).log == w.log && Quiet(w, a)
    ensures Owned(Next(w, a))
  {
    hide Next;
    NextGrows(w, a);
  }

  lemma TakenOverStill(log: seq<Event>, e: Event, k: int, r: Id)
    requires 0 <= k < |log|
    ensures TakenOverSince(log + [e], k, r) <==> TakenOverSince(log, k, r) || (e.TookOver? && e.reservation == r)
  {
    var next := log + [e];
    if TakenOverSince(log, k, r) {
      var m :| 0 <= m < |log| && k < m && log[m].TookOver? && log[m].reservation == r;
      assert next[m].TookOver?;
    }
    if e.TookOver? && e.reservation == r { assert next[|log|].TookOver?; }
  }

  lemma OwnerAfter(w: World, a: Action, e: Event, r: Id)
    requires AddsActed(w, a, e) || AddsCalled(w, a, e) || AddsEnded(w, a, e) || (AddsTookOver(w, a, e) && e.reservation != r)
    requires r in w.ledger.reservations && Possible(w, a)
    ensures r in Next(w, a).ledger.reservations
    ensures Next(w, a).ledger.reservations[r].leaseOwner == w.ledger.reservations[r].leaseOwner
  {
    hide Next;
    NextGrows(w, a);
    if a.DoMutate? { MutateLease(w, a); }
  }

  lemma OwnedEvent(w: World, a: Action, e: Event)
    requires Owned(w) && Possible(w, a) && Next(w, a).log == w.log + [e]
    requires AddsActed(w, a, e) || AddsCalled(w, a, e) || AddsEnded(w, a, e) || AddsTookOver(w, a, e)
    ensures Owned(Next(w, a))
  {
    hide Next, Possible, TakenOverSince;
    var next := Next(w, a);
    forall k | 0 <= k < |next.log| && next.log[k].Acted? && !TakenOverSince(next.log, k, next.log[k].reservation)
      ensures next.log[k].reservation in next.ledger.reservations &&
              next.ledger.reservations[next.log[k].reservation].leaseOwner == next.log[k].leaseOwner
    {
      if k < |w.log| {
        TakenOverStill(w.log, e, k, w.log[k].reservation);
        OwnerAfter(w, a, e, w.log[k].reservation);
      } else {
        OwnerAfter(w, a, e, e.reservation);
      }
    }
  }

  lemma ApartEvent(w: World, a: Action, e: Event)
    requires Owned(w) && OwnersApart(w.log)
    requires AddsActed(w, a, e) || AddsCalled(w, a, e) || AddsEnded(w, a, e) || AddsTookOver(w, a, e)
    ensures OwnersApart(w.log + [e])
  {
    hide Next;
    var next := w.log + [e];
    forall j, k | 0 <= j < k < |next| && next[j].Acted? && next[k].Acted? && next[j].reservation == next[k].reservation &&
                  next[j].leaseOwner != next[k].leaseOwner
      ensures TakenOverBetween(next, j, k, next[j].reservation)
    {
      if k < |w.log| {
        assert TakenOverBetween(w.log, j, k, w.log[j].reservation);
        var m :| 0 <= m < |w.log| && j < m < k && w.log[m].TookOver? && w.log[m].reservation == w.log[j].reservation;
        assert next[m].TookOver?;
      } else {
        assert TakenOverSince(w.log, j, w.log[j].reservation);
        var m :| 0 <= m < |w.log| && j < m && w.log[m].TookOver? && w.log[m].reservation == w.log[j].reservation;
        assert next[m].TookOver?;
      }
    }
  }

  lemma EndedAfterAct(w: World, j: int)
    requires Present(w) && Ordered(w.log) && 0 <= j < |w.log| && w.log[j].Acted?
    requires !Unfinished(w.ledger, w.log[j].reservation)
    ensures EndedBetween(w.log, j, |w.log|, w.log[j].intent)
  {
    hide HasActed;
    var act := w.log[j];
    assert ActFits(w, act);
    assert TerminalIn(w.ledger, act.intent);
    assert HasEnded(w.log, act.intent);
    var n :| 0 <= n < |w.log| && w.log[n] == Ended(act.intent);
  }

  lemma SeparateEvent(w: World, a: Action, e: Event)
    requires Present(w) && Ordered(w.log) && AllSeparate(w.log)
    requires AddsActed(w, a, e) || AddsCalled(w, a, e) || AddsEnded(w, a, e) || AddsTookOver(w, a, e)
    ensures AllSeparate(w.log + [e])
  {
    hide Next, Present, Ordered, Unfinished;
    var next := w.log + [e];
    forall m | 0 <= m < |next| && next[m].TookOver? ensures Separates(next, m) {
      forall j | 0 <= j < m && next[j].Acted? && next[j].reservation == next[m].reservation
        ensures next[j].at < next[m].expired && EndedBetween(next, j, m, next[j].intent)
      {
        if m < |w.log| {
          assert Separates(w.log, m);
          EndedStill(w.log, e, j, m, w.log[j].intent);
        } else {
          ActWithin(w, w.log[j]);
          EndedAfterAct(w, j);
          EndedStill(w.log, e, j, m, w.log[j].intent);
        }
      }
      if m < |w.log| { assert Separates(w.log, m); }
    }
  }

  lemma ActWithin(w: World, e: Event)
    requires Present(w) && e in w.log && e.Acted?
    ensures e.reservation in w.ledger.reservations && e.at < w.ledger.reservations[e.reservation].expiresAt
  {
    assert ActFits(w, e);
  }

  lemma EndedStill(log: seq<Event>, e: Event, j: int, m: int, i: Id)
    requires EndedBetween(log, j, m, i)
    ensures EndedBetween(log + [e], j, m, i)
  {
    var n :| 0 <= n < |log| && j < n < m && log[n] == Ended(i);
    assert (log + [e])[n] == Ended(i);
  }

  lemma HistoryKept(w: World, a: Action)
    requires HistoryFits(w) && ProcessesFit(w) && Possible(w, a)
    ensures HistoryFits(Next(w, a))
  {
    hide Present, ProcessesFit, Possible, Next, Quiet, AddsActed, AddsCalled, AddsEnded, AddsTookOver, Ordered, Owned,
         AllSeparate, OwnersApart;
    PresentKept(w, a);
    NextLogs(w, a);
    if Next(w, a).log == w.log && Quiet(w, a) {
      OwnedQuiet(w, a);
    } else {
      var e :| Next(w, a).log == w.log + [e] &&
               (AddsActed(w, a, e) || AddsCalled(w, a, e) || AddsEnded(w, a, e) || AddsTookOver(w, a, e));
      OrderedEvent(w, a, e);
      OwnedEvent(w, a, e);
      ApartEvent(w, a, e);
      SeparateEvent(w, a, e);
    }
  }

  // ---------------------------------------------------------------- all runs

  ghost predicate Sound(w: World) {
    Safe(w.ledger) && ProcessesFit(w) && HistoryFits(w)
  }

  lemma StepSound(w: World, a: Action)
    requires Sound(w) && Possible(w, a)
    ensures Sound(Next(w, a))
  {
    hide Safe, ProcessesFit, HistoryFits, Possible, Next;
    NextSafe(w, a);
    NextFits(w, a);
    HistoryKept(w, a);
  }

  lemma StartSound()
    ensures Sound(START)
  {
    EmptySafe();
  }

  /** Every world of every run is sound. */
  lemma {:induction false} RunSound(worlds: seq<World>, actions: seq<Action>, n: nat)
    requires Run(worlds, actions) && n < |worlds|
    ensures Sound(worlds[n])
    decreases n
  {
    hide Sound, Possible, Next;
    if n == 0 {
      StartSound();
    } else {
      RunSound(worlds, actions, n - 1);
      assert Possible(worlds[n - 1], actions[n - 1]) && worlds[n] == Next(worlds[n - 1], actions[n - 1]);
      StepSound(worlds[n - 1], actions[n - 1]);
    }
  }
}
