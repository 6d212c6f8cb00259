/**
 The history of gate operations in the machine of module Phase3Model: what the log of their transactions says about
 their intents, in every interleaving.
 */
module Phase3History {
  import opened Options
  import opened IntegrationModel
  import opened GateModel
  import opened Phase3Model
  import opened Phase3Safety
  import D = DomainModel

  /** The state an operation left its intent in when it comes to its next step. */
  function StateAt(p: GateProgress): IntentState {
    match p
    case GateToAct => Pending
    case GateToCall => Executing
    case GateCalled(_) => Executing
    case GateToVerify => Observed
    case GateToFinalize => Verified
  }

  ghost predicate ProgressFits(w: World) {
    forall i :: i in w.gateProcesses ==>
      && i in w.gates.intents && w.gates.intents[i].state == StateAt(w.gateProcesses[i])
      && (w.gateProcesses[i].GateToCall? ==> GateActed(i) in w.gateLog && CalledGate(i) !in w.gateLog)
  }

  /** Gates are decided exactly when finalized, acted on once no longer pending, and called at most once, after that. */
  ghost predicate LogFits(w: World) {
    && (forall e :: e in w.gateLog ==> e.intent in w.gates.intents)
    && (forall i :: i in w.gates.intents ==> (Decided(i) in w.gateLog <==> w.gates.intents[i].state == Finalized))
    && (forall i :: i in w.gates.intents && GateActed(i) in w.gateLog ==> w.gates.intents[i].state != Pending)
    && (forall k :: 0 <= k < |w.gateLog| && w.gateLog[k].CalledGate? ==> GateActed(w.gateLog[k].intent) in w.gateLog[..k])
    && (forall j, k | 0 <= j < k < |w.gateLog| && w.gateLog[j].CalledGate? :: w.gateLog[j] != w.gateLog[k])
  }

  ghost predicate GateHistory(w: World) {
    ProgressFits(w) && LogFits(w)
  }

  // ---------------------------------------------------------------- what one gate step adds

  /** Where a gate operation is after a step, and the event the step leaves. */
  datatype GateTurn = GateIdle | GateTurn(progress: Option<GateProgress>, event: Option<GateEvent>)

  ghost predicate Turned(w: World, next: World, i: Id, turn: GateTurn) {
    match turn
    case GateIdle => next.gateProcesses == w.gateProcesses && next.gateLog == w.gateLog
    case GateTurn(progress, event) =>
      && next.gateProcesses == (match progress case None => w.gateProcesses - {i} case Some(p) => w.gateProcesses[i := p])
      && next.gateLog == (match event case None => w.gateLog case Some(e) => w.gateLog + [e])
  }

  ghost predicate NowIn(g: GateTables, i: Id, state: IntentState) {
    i in g.intents && g.intents[i].state == state
  }

  /** What the tables say before and after a step that leaves the given event and progress. */
  ghost predicate TurnFits(w: World, next: World, i: Id, turn: GateTurn) {
    match turn
    case GateIdle => i in w.gates.intents ==> i in next.gates.intents && next.gates.intents[i] == w.gates.intents[i]
    case GateTurn(progress, event) =>
      && (progress.Some? ==> NowIn(next.gates, i, StateAt(progress.value)))
      && match event
         case None => (progress.Some? ==> !progress.value.GateToCall?) &&
                      (!NowIn(next.gates, i, Finalized) || NowIn(w.gates, i, Finalized))
         case Some(Prepared(j)) => j == i && progress == Some(GateToAct) && i !in w.gates.intents
         case Some(GateActed(j)) => j == i && progress == Some(GateToCall) && NowIn(w.gates, i, Pending)
         case Some(CalledGate(j)) => j == i && GateAt(w, i, GateToCall) && progress.Some? && progress.value.GateCalled? &&
                                     next.gates == w.gates
         case Some(Decided(j)) => j == i && progress == None && NowIn(next.gates, i, Finalized)
  }

  lemma PrepareTurn(w: World, a: Action) returns (turn: GateTurn)
    requires a.GatePrepare?
    ensures Turned(w, Next(w, a), a.intent, turn) && TurnFits(w, Next(w, a), a.intent, turn)
  {
    hide StillBinds, Noted, NextCleanup, NextCompletion, NextEnv;
    var s := PrepareGate(w.gates, a.intent, a.key, a.operation, a.capture.b, a.policy, a.gate,
                         StillBinds(w, a.capture, D.Running), a.resolved, a.granted);
    turn := if s.answer == Done then GateTurn(Some(GateToAct), Some(Prepared(a.intent))) else GateIdle;
  }

  lemma ActRows(w: World, a: Action, s: GateStep)
    requires a.GateAct? && s == ActGate(w.gates, a.intent, GateBound(w, a.intent), a.resolved, a.granted)
    ensures StepGateAct(w, a).gates == s.tables
    ensures Turned(w, StepGateAct(w, a), a.intent,
                   if s.answer == Done then GateTurn(Some(GateToCall), Some(GateActed(a.intent))) else GateTurn(None, None))
  {
    hide GateBound, ActGate;
  }

  lemma OnlyGateIn(g: GateTables, h: GateTables, i: Id)
    requires OnlyGate(g, h, i)
    ensures i in g.intents && i in h.intents
  {
  }

  lemma ActTurn(w: World, a: Action) returns (turn: GateTurn)
    requires a.GateAct? && GatesSafe(w.gates)
    ensures Turned(w, Next(w, a), a.intent, turn) && TurnFits(w, Next(w, a), a.intent, turn)
  {
    hide GateBound, ActGate, GatesSafe, GateFits, NextCleanup, NextCompletion, NextEnv, StepGateAct, OnlyGate;
    var s := ActGate(w.gates, a.intent, GateBound(w, a.intent), a.resolved, a.granted);
    ActGateFits(w.gates, a.intent, GateBound(w, a.intent), a.resolved, a.granted);
    ActRows(w, a, s);
    if s.tables != w.gates { OnlyGateIn(w.gates, s.tables, a.intent); }
    turn := if !GateAt(w, a.intent, GateToAct) then GateIdle
            else if s.answer == Done then GateTurn(Some(GateToCall), Some(GateActed(a.intent))) else GateTurn(None, None);
  }

  lemma CallTurn(w: World, a: Action) returns (turn: GateTurn)
    requires (a.GateCall? || a.GateCrash?) && ProgressFits(w)
    ensures Turned(w, Next(w, a), a.intent, turn) && TurnFits(w, Next(w, a), a.intent, turn)
  {
    turn := if a.GateCrash? then GateTurn(None, None)
            else if GateAt(w, a.intent, GateToCall)
            then GateTurn(Some(GateCalled(a.gateResult)), Some(CalledGate(a.intent))) else GateIdle;
  }

  lemma RecordRows(w: World, a: Action, result: GateResult)
    requires a.GateRecord?
    ensures var next := StepGateRecord(w, a, result);
            || Turned(w, next, a.intent, GateTurn(None, None))
            || (NowIn(next.gates, a.intent, Observed) && Turned(w, next, a.intent, GateTurn(Some(GateToVerify), None)))
  {
    hide StillCurrent, RecordGateFailure, RecordGateReceipt;
  }

  lemma RecordTurn(w: World, a: Action) returns (turn: GateTurn)
    requires a.GateRecord? && GatesSafe(w.gates)
    ensures Turned(w, Next(w, a), a.intent, turn) && TurnFits(w, Next(w, a), a.intent, turn)
  {
    hide GatesSafe, GateFits, NextCleanup, NextCompletion, NextEnv, StepGateRecord, OnlyGate, Turned;
    if a.intent !in w.gateProcesses || !w.gateProcesses[a.intent].GateCalled? {
      StaysTurned(w, a.intent);
      turn := GateIdle;
    } else {
      var result := w.gateProcesses[a.intent].result;
      RecordedTables(w, a, result);
      RecordRows(w, a, result);
      turn := if Turned(w, StepGateRecord(w, a, result), a.intent, GateTurn(None, None)) then GateTurn(None, None)
              else GateTurn(Some(GateToVerify), None);
    }
  }

  lemma StaysTurned(w: World, i: Id)
    ensures Turned(w, w, i, GateIdle)
  {
  }

  lemma VerifyRows(w: World, a: Action, s: GateStep)
    requires a.GateVerify? && s == VerifyGate(w.gates, a.intent, a.now)
    ensures StepGateVerify(w, a).gates == s.tables
    ensures Turned(w, StepGateVerify(w, a), a.intent,
                   if s.answer == Done then GateTurn(Some(GateToFinalize), None) else GateTurn(None, None))
  {
    hide VerifyGate;
  }

  lemma VerifyTurn(w: World, a: Action) returns (turn: GateTurn)
    requires a.GateVerify? && GatesSafe(w.gates)
    ensures Turned(w, Next(w, a), a.intent, turn) && TurnFits(w, Next(w, a), a.intent, turn)
  {
    hide VerifyGate, GatesSafe, GateFits, NextCleanup, NextCompletion, NextEnv, StepGateVerify, OnlyGate;
    var s := VerifyGate(w.gates, a.intent, a.now);
    VerifyGateFits(w.gates, a.intent, a.now);
    VerifyRows(w, a, s);
    turn := if !GateAt(w, a.intent, GateToVerify) then GateIdle
            else if s.answer == Done then GateTurn(Some(GateToFinalize), None) else GateTurn(None, None);
  }

  lemma FinalizeRows(w: World, a: Action, s: GateStep)
    requires a.GateFinalize? && s == FinalizeGate(w.gates, a.intent, GateBound(w, a.intent), a.resolved, a.granted)
    ensures StepGateFinalize(w, a).gates == s.tables
    ensures Turned(w, StepGateFinalize(w, a), a.intent,
                   GateTurn(None, if s.answer == Done && NowIn(s.tables, a.intent, Finalized) then Some(Decided(a.intent)) else None))
  {
    hide GateBound, FinalizeGate;
  }

  lemma FinalizeTurn(w: World, a: Action) returns (turn: GateTurn)
    requires a.GateFinalize? && GatesSafe(w.gates)
    ensures Turned(w, Next(w, a), a.intent, turn) && TurnFits(w, Next(w, a), a.intent, turn)
  {
    hide FinalizeGate, GateBound, GatesSafe, GateFits, NextCleanup, NextCompletion, NextEnv, StepGateFinalize, OnlyGate;
    FinalizeGateFits(w.gates, a.intent, GateBound(w, a.intent), a.resolved, a.granted);
    var s := FinalizeGate(w.gates, a.intent, GateBound(w, a.intent), a.resolved, a.granted);
    FinalizeRows(w, a, s);
    turn := if !GateAt(w, a.intent, GateToFinalize) then GateIdle
            else if s.answer == Done && NowIn(s.tables, a.intent, Finalized) then GateTurn(None, Some(Decided(a.intent)))
            else GateTurn(None, None);
  }

  lemma TurnOf(w: World, a: Action) returns (turn: GateTurn)
    requires GateAction(a) && GatesSafe(w.gates) && ProgressFits(w)
    ensures Turned(w, Next(w, a), a.intent, turn) && TurnFits(w, Next(w, a), a.intent, turn)
  {
    hide Next, GatesSafe, ProgressFits, Turned, TurnFits;
    if a.GatePrepare? { turn := PrepareTurn(w, a); }
    else if a.GateAct? { turn := ActTurn(w, a); }
    else if a.GateRecord? { turn := RecordTurn(w, a); }
    else if a.GateVerify? { turn := VerifyTurn(w, a); }
    else if a.GateFinalize? { turn := FinalizeTurn(w, a); }
    else { turn := CallTurn(w, a); }
  }

  // ---------------------------------------------------------------- the history is kept

  /** Intents other than the one a step is about stay, none is lost, and the one it is about leaves pending for good. */
  ghost predicate IntentsMoved(g: GateTables, h: GateTables, i: Id) {
    && (forall j :: j in g.intents ==> j in h.intents)
    && (forall j :: j != i && j in h.intents ==> j in g.intents && h.intents[j] == g.intents[j])
    && (i in g.intents ==> h.intents[i] == g.intents[i] || (h.intents[i].state != Pending && g.intents[i].state != Finalized))
    && (i !in g.intents && i in h.intents ==> h.intents[i].state == Pending)
  }

  lemma ChangeMoves(w: World, a: Action)
    requires GatesSafe(w.gates) && GateAction(a)
    ensures IntentsMoved(w.gates, Next(w, a).gates, a.intent)
  {
    hide Next, GatesSafe, GateFits, StillBinds;
    NextGateChange(w, a);
  }

  lemma ProgressKept(w: World, next: World, i: Id, turn: GateTurn)
    requires GateHistory(w) && IntentsMoved(w.gates, next.gates, i) && Turned(w, next, i, turn) && TurnFits(w, next, i, turn)
    ensures ProgressFits(next)
  {
    forall j | j in next.gateProcesses
      ensures j in next.gates.intents && next.gates.intents[j].state == StateAt(next.gateProcesses[j])
      ensures next.gateProcesses[j].GateToCall? ==> GateActed(j) in next.gateLog && CalledGate(j) !in next.gateLog
    {
      if j == i && turn.GateTurn? {
        if next.gateProcesses[j].GateToCall? { NeverCalled(w, i); }
      } else {
        assert j in w.gateProcesses;
      }
    }
  }

  /** A pending gate has not been called. */
  lemma NeverCalled(w: World, i: Id)
    requires LogFits(w) && NowIn(w.gates, i, Pending)
    ensures CalledGate(i) !in w.gateLog
  {
  }

  /** What the log says about the intents. */
  lemma LogStatesKept(w: World, next: World, i: Id, turn: GateTurn)
    requires GateHistory(w) && IntentsMoved(w.gates, next.gates, i) && Turned(w, next, i, turn) && TurnFits(w, next, i, turn)
    ensures forall e :: e in next.gateLog ==> e.intent in next.gates.intents
    ensures forall j :: j in next.gates.intents ==> (Decided(j) in next.gateLog <==> next.gates.intents[j].state == Finalized)
    ensures forall j :: j in next.gates.intents && GateActed(j) in next.gateLog ==> next.gates.intents[j].state != Pending
  {
  }

  /** What the log says about calls. */
  lemma LogOrderKept(w: World, next: World, i: Id, turn: GateTurn)
    requires GateHistory(w) && Turned(w, next, i, turn) && TurnFits(w, next, i, turn)
    ensures forall k :: 0 <= k < |next.gateLog| && next.gateLog[k].CalledGate? ==>
              GateActed(next.gateLog[k].intent) in next.gateLog[..k]
    ensures forall j, k | 0 <= j < k < |next.gateLog| && next.gateLog[j].CalledGate? :: next.gateLog[j] != next.gateLog[k]
  {
    if turn.GateTurn? && turn.event.Some? {
      assert next.gateLog == w.gateLog + [turn.event.value];
      forall k | 0 <= k < |next.gateLog| && next.gateLog[k].CalledGate?
        ensures GateActed(next.gateLog[k].intent) in next.gateLog[..k]
      {
        if k < |w.gateLog| { assert next.gateLog[..k] == w.gateLog[..k]; } else { assert next.gateLog[..k] == w.gateLog; }
      }
    }
  }

  lemma LogKept(w: World, next: World, i: Id, turn: GateTurn)
    requires GateHistory(w) && IntentsMoved(w.gates, next.gates, i) && Turned(w, next, i, turn) && TurnFits(w, next, i, turn)
    ensures LogFits(next)
  {
    hide GateHistory, IntentsMoved, Turned, TurnFits;
    LogStatesKept(w, next, i, turn);
    LogOrderKept(w, next, i, turn);
  }

  lemma HistoryKept(w: World, a: Action)
    requires GatesSafe(w.gates) && GateHistory(w)
    ensures GateHistory(Next(w, a))
  {
    hide Next, GatesSafe, ProgressFits, LogFits, Turned, TurnFits, IntentsMoved;
    if GateAction(a) {
      var turn := TurnOf(w, a);
      ChangeMoves(w, a);
      ProgressKept(w, Next(w, a), a.intent, turn);
      LogKept(w, Next(w, a), a.intent, turn);
    } else {
      OtherGatesSame(w, a);
      SameHistory(w, Next(w, a));
    }
  }

  lemma SameHistory(w: World, next: World)
    requires GateHistory(w)
    requires next.gates == w.gates && next.gateLog == w.gateLog && next.gateProcesses == w.gateProcesses
    ensures GateHistory(next)
  {
  }

  /** The log only grows. */
  lemma LogGrows(w: World, a: Action)
    requires GatesSafe(w.gates) && ProgressFits(w)
    ensures |w.gateLog| <= |Next(w, a).gateLog| && Next(w, a).gateLog[..|w.gateLog|] == w.gateLog
  {
    hide Next, GatesSafe, ProgressFits, TurnFits;
    if GateAction(a) { var turn := TurnOf(w, a); } else { OtherGatesSame(w, a); }
  }

  /** A finalized gate keeps its intent and its evidence. */
  lemma FinalizedStays(w: World, a: Action, i: Id)
    requires GatesSafe(w.gates) && NowIn(w.gates, i, Finalized)
    ensures var next := Next(w, a).gates;
            && i in next.intents && next.intents[i] == w.gates.intents[i]
            && i in w.gates.finalizations && i in next.finalizations && next.finalizations[i] == w.gates.finalizations[i]
            && i in w.gates.receipts && i in next.receipts && next.receipts[i] == w.gates.receipts[i]
  {
    hide Next, StillBinds;
    assert GateFits(w.gates, i);
    NextGateChange(w, a);
  }
}
