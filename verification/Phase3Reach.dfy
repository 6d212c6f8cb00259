/**
 When a completed execution's workspace can still be cleaned: exactly, in every reachable world.  Open gates, intents on
 the workspace and current reservations decide, each by how far its operation has come.
 */
module Phase3Reach {
  import opened Options
  import opened IntegrationModel
  import opened GateModel
  import opened Phase3Model
  import opened Phase3Safety
  import opened Phase3History
  import opened Phase3Decisions
  import opened Phase3Theorems
  import I = IntegrationRuns
  import H = IntegrationHistory
  import T = IntegrationTheorems
  import R = IntegrationReach
  import S = IntegrationSafety
  import D = DomainModel
  import DM = DomainMutations

  // ---------------------------------------------------------------- what was read before stays behind

  /** A capture names rows at revisions that are past or present; at the present one its workspace is ready. */
  ghost predicate CaptureBehind(w: World, c: Capture) {
    && c.b.workspace in w.workspaces && w.workspaces[c.b.workspace].execution == c.b.execution
    && w.workspaces[c.b.workspace].revision >= c.b.workspaceRevision
    && (w.workspaces[c.b.workspace].revision == c.b.workspaceRevision ==> w.workspaces[c.b.workspace].status == Ready)
    && c.b.execution in w.executions && w.executions[c.b.execution].revision >= c.b.executionRevision
  }

  /** Gates and cleanups were prepared under bindings that were read before. */
  ghost predicate Captured(w: World) {
    && (forall c :: c in w.captures ==> CaptureBehind(w, c))
    && (forall i :: i in w.gates.intents ==> Capture(w.gates.intents[i].binding, D.Running) in w.captures)
    && (forall c :: c in w.cleanups && w.cleanups[c].CleanupToAct? ==> ActsOnCapture(w, c))
  }

  /** A cleanup about to act is pending, under a binding that was read for a completed task. */
  predicate ActsOnCapture(w: World, c: Id)
    requires c in w.cleanups && w.cleanups[c].CleanupToAct?
  {
    && Capture(w.cleanups[c].b, D.Completed) in w.captures
    && c in w.workspaceIntents && w.workspaceIntents[c].state == Pending && w.workspaceIntents[c].kind == CleanupIntent
  }

  /** What a decision has made of its task and execution, and the reservation its policy asked for. */
  ghost predicate DecisionStands(w: World, e: Id) {
    e in w.decisions ==>
      var d := w.decisions[e];
      && e in w.executions && w.executions[e].task == d.b.task && d.b.execution == e && CompletedExecution(w, e)
      && d.b.task in w.tasks && w.tasks[d.b.task] == TaskRow(D.Completed, d.b.taskRevision + 1)
      && d.policy in w.policies
      && (w.policies[d.policy].integrationRequired ==> Reserves(w, e))
  }

  predicate Reserves(w: World, e: Id) {
    exists r :: r in w.integration.ledger.reservations && w.integration.ledger.reservations[r].ownerExecution == e
  }

  ghost predicate Rooted(w: World) {
    Captured(w) && (forall e :: DecisionStands(w, e)) && R.MemoriesFit(w.integration)
  }

  // ---------------------------------------------------------------- how rows grow

  /** Workspaces keep their execution, and executions and workspaces never go back to an earlier revision. */
  ghost predicate RevisionsGrow(w: World, next: World) {
    && (forall x :: x in w.workspaces ==>
          && x in next.workspaces && next.workspaces[x].execution == w.workspaces[x].execution
          && next.workspaces[x].task == w.workspaces[x].task
          && (next.workspaces[x] == w.workspaces[x] || next.workspaces[x].revision > w.workspaces[x].revision))
    && (forall e :: e in w.executions ==>
          e in next.executions && next.executions[e].revision >= w.executions[e].revision)
  }

  lemma MoveGrows(
    w: World, c: Id, state: IntentState, status: Option<WorkspaceStatus>, progress: Option<CleanupProgress>)
    requires InWorkspace(w, c)
    ensures RevisionsGrow(w, CleanupMove(w, c, state, status, progress))
  {
  }

  lemma SameGrow(w: World, next: World)
    requires next.workspaces == w.workspaces && next.executions == w.executions
    ensures RevisionsGrow(w, next)
  {
  }

  lemma CleanupGrows(w: World, a: Action)
    requires CleanupAction(a)
    ensures RevisionsGrow(w, Next(w, a))
  {
    hide Next, CleanupMove, RevisionsGrow, Quiescent, Binds, StillBinds;
    CleanupRowsSame(w, a);
    var shape := ShapeOf(w, a);
    match shape {
      case Unmoved => SameGrow(w, Next(w, a));
      case Newly => SameGrow(w, Next(w, a));
      case Acting(b) =>
        MoveGrows(w, a.cleanup, Failed, None, None);
        MoveGrows(w, a.cleanup, Executing, Some(Cleaning), Some(CleanupToCall(b)));
      case Moving(from, state, status, progress) =>
        InCleaning(w, a.cleanup, from);
        MoveGrows(w, a.cleanup, state, status, progress);
    }
  }

  lemma DecideRevisions(w: World, a: Action)
    requires a.CompletionDecide?
    ensures RevisionsGrow(w, Next(w, a))
  {
    hide GateSet, Proves, NextGate, NextCleanup, NextEnv;
  }

  lemma EnvRevisions(w: World, a: Action)
    requires !GateAction(a) && !CleanupAction(a) && !CompletionAction(a) && Possible(w, a)
    ensures RevisionsGrow(w, Next(w, a))
  {
    hide NextGate, NextCleanup, NextCompletion, I.Next, I.Possible, Faithful, DM.SomeTransition;
  }

  lemma NextRevisions(w: World, a: Action)
    requires Possible(w, a)
    ensures RevisionsGrow(w, Next(w, a))
  {
    hide Next, Possible, RevisionsGrow;
    if GateAction(a) {
      GateRowsSame(w, a);
      SameGrow(w, Next(w, a));
    } else if CleanupAction(a) {
      CleanupGrows(w, a);
    } else if a.CompletionDecide? {
      DecideRevisions(w, a);
    } else if CompletionAction(a) {
      CallRowsSame(w, a);
      SameGrow(w, Next(w, a));
    } else {
      EnvRevisions(w, a);
    }
  }

  // ---------------------------------------------------------------- the roots are kept

  lemma BehindStays(w: World, next: World, c: Capture)
    requires CaptureBehind(w, c) && RevisionsGrow(w, next)
    ensures CaptureBehind(next, c)
  {
  }

  lemma NewBehind(w: World, a: Action)
    requires a.Preflight? && Possible(w, a)
    ensures CaptureBehind(Next(w, a), a.capture)
  {
    hide NextGate, NextCleanup, NextCompletion;
  }

  lemma CapturesBehind(w: World, a: Action)
    requires Captured(w) && Possible(w, a)
    ensures forall c :: c in Next(w, a).captures ==> CaptureBehind(Next(w, a), c)
  {
    hide Next, Possible, CaptureBehind, RevisionsGrow, RowsGrow;
    NextRowsGrow(w, a);
    NextRevisions(w, a);
    forall c | c in Next(w, a).captures ensures CaptureBehind(Next(w, a), c) {
      if c in w.captures { BehindStays(w, Next(w, a), c); } else { NewBehind(w, a); }
    }
  }

  lemma GatesCaptured(w: World, a: Action)
    requires Captured(w) && Possible(w, a) && GatesSafe(w.gates)
    ensures forall i :: i in Next(w, a).gates.intents ==>
              Capture(Next(w, a).gates.intents[i].binding, D.Running) in Next(w, a).captures
  {
    hide Next, Possible, CaptureBehind, RowsGrow, GatesSafe, GateFits, Binds;
    NextRowsGrow(w, a);
    NextGateChange(w, a);
  }

  lemma CleanupsCaptured(w: World, a: Action)
    requires Captured(w) && Possible(w, a)
    ensures forall c :: c in Next(w, a).cleanups && Next(w, a).cleanups[c].CleanupToAct? ==> ActsOnCapture(Next(w, a), c)
  {
    hide Next, Possible, CaptureBehind, RowsGrow, HasShape, StillBinds;
    NextRowsGrow(w, a);
    var next := Next(w, a);
    if CleanupAction(a) {
      var shape := ShapeOf(w, a);
      ShapeRows(w, a, next, shape);
      forall c | c in next.cleanups && next.cleanups[c].CleanupToAct? ensures ActsOnCapture(next, c) {
        ShapeCleanups(w, a, next, shape, c);
        if shape.Newly? && a.cleanup == c { NewlyCaptured(w, a, next, shape); }
        else if a.cleanup == c { ShapePending(w, a, next, shape, c); }
      }
    } else {
      OtherCleanupsSame(w, a);
      OtherIntentsPending(w, a);
    }
  }

  /** A cleanup that is still about to act has not moved. */
  lemma ShapePending(w: World, a: Action, next: World, shape: Shape, c: Id)
    requires CleanupAction(a) && HasShape(w, a, next, shape) && c == a.cleanup && !shape.Newly?
    requires c in next.cleanups && next.cleanups[c].CleanupToAct?
    ensures next.workspaceIntents == w.workspaceIntents
  {
    hide CleanupMove, Quiescent, StillBinds, Binds, BeingCleaned;
    match shape {
      case Unmoved =>
      case Newly =>
      case Acting(b) =>
        MoveRows(w, a.cleanup, Failed, None, None);
        MoveRows(w, a.cleanup, Executing, Some(Cleaning), Some(CleanupToCall(b)));
      case Moving(from, state, status, progress) =>
        InCleaning(w, a.cleanup, from);
        MoveRows(w, a.cleanup, state, status, progress);
    }
  }

  /** Cleanup intents move by cleanup steps alone. */
  lemma OtherIntentsPending(w: World, a: Action)
    requires !CleanupAction(a) && Possible(w, a)
    ensures forall c :: c in w.workspaceIntents && (w.workspaceIntents[c].kind == CleanupIntent || w.workspaceIntents[c].state == Unclear) ==>
              c in Next(w, a).workspaceIntents && Next(w, a).workspaceIntents[c] == w.workspaceIntents[c]
  {
    if GateAction(a) {
      GateRowsSame(w, a);
    } else if CompletionAction(a) {
      CompletionKeepsWorkspaces(w, a);
    } else {
      EnvIntentsPending(w, a);
    }
  }

  lemma EnvIntentsPending(w: World, a: Action)
    requires !CleanupAction(a) && !GateAction(a) && !CompletionAction(a) && Possible(w, a)
    ensures forall c :: c in w.workspaceIntents && (w.workspaceIntents[c].kind == CleanupIntent || w.workspaceIntents[c].state == Unclear) ==>
              c in Next(w, a).workspaceIntents && Next(w, a).workspaceIntents[c] == w.workspaceIntents[c]
  {
    hide I.Next, I.Possible, Faithful;
  }

  lemma NewlyCaptured(w: World, a: Action, next: World, shape: Shape)
    requires CleanupAction(a) && HasShape(w, a, next, shape) && shape.Newly?
    ensures a.cleanup in next.cleanups && next.cleanups[a.cleanup].CleanupToAct? && ActsOnCapture(next, a.cleanup)
  {
    assert a.capture == Capture(a.capture.b, a.capture.wanted);
  }

  lemma StandsAfterDecision(w: World, a: Action, d: Decision)
    requires a.CompletionDecide? && a.call in w.calls && DecidedOn(w, a, w.calls[a.call], d) && DecisionsFit(w)
    ensures DecisionStands(Next(w, a), d.b.execution)
  {
    hide Next, GateSet, DecisionFits;
    DecideKeepsIntegration(w, a);
    DecideGrows(w, a);
    var e := d.b.execution;
    if w.policies[d.policy].integrationRequired {
      var r := d.proof.reservation;
      assert r in w.integration.ledger.reservations && w.integration.ledger.reservations[r].ownerExecution == e;
    }
  }

  lemma ReservesStays(w: World, a: Action, e: Id)
    requires Reserves(w, e) && Possible(w, a)
    ensures Reserves(Next(w, a), e)
  {
    hide Next, Possible, I.Next;
    var r :| r in w.integration.ledger.reservations && w.integration.ledger.reservations[r].ownerExecution == e;
    if a.Integrate? {
      IntegrateGrows(w, a);
    } else {
      OthersIntegration(w, a);
    }
    assert r in Next(w, a).integration.ledger.reservations;
  }

  lemma IntegrateGrows(w: World, a: Action)
    requires a.Integrate?
    ensures Next(w, a).integration == I.Next(w.integration, a.action)
    ensures I.Grows(w.integration.ledger, Next(w, a).integration.ledger)
  {
    hide I.Next, I.Grows;
    I.NextGrows(w.integration, a.action);
  }

  lemma DecisionStandsKept(w: World, a: Action, e: Id)
    requires DecisionsFit(w) && DecisionStands(w, e) && Possible(w, a)
    ensures DecisionStands(Next(w, a), e)
  {
    hide Next, Possible, DecisionFits, Reserves, GateSet, Proves;
    NextRowsGrow(w, a);
    if e in w.decisions {
      DecisionsKeep(w, a, e);
      if Reserves(w, e) { ReservesStays(w, a, e); }
    } else if e in Next(w, a).decisions {
      if a.CompletionDecide? {
        var d := DecideStep(w, a);
        StandsAfterDecision(w, a, d);
      } else {
        OnlyDecideDecides(w, a);
      }
    }
  }

  lemma DecisionsKeep(w: World, a: Action, e: Id)
    requires DecisionsFit(w) && e in w.decisions
    ensures e in Next(w, a).decisions && Next(w, a).decisions[e] == w.decisions[e]
  {
    hide Next, DecisionsFit;
    DecisionStays(w, a, e);
  }

  lemma IntegrationMemories(w: World, a: Action)
    requires H.Sound(w.integration) && R.MemoriesFit(w.integration)
    ensures R.MemoriesFit(Next(w, a).integration)
  {
    hide Next, R.MemoriesFit, I.Next;
    if a.Integrate? {
      IntegrateGrows(w, a);
      R.MemoriesKept(w.integration, a.action);
    } else {
      OthersIntegration(w, a);
    }
  }

  lemma RootedKept(w: World, a: Action)
    requires Sound(w) && Rooted(w) && Possible(w, a)
    ensures Rooted(Next(w, a))
  {
    hide Next, Possible, H.Sound, GatesSafe, GateHistory, CapturesFit, CleanupsFit, QuietWhileCleaning, CallsFit,
         DecisionsFit, CaptureBehind, DecisionStands, R.MemoriesFit;
    CapturesBehind(w, a);
    GatesCaptured(w, a);
    CleanupsCaptured(w, a);
    IntegrationMemories(w, a);
    forall e ensures DecisionStands(Next(w, a), e) { DecisionStandsKept(w, a, e); }
  }

  ghost predicate Steady(w: World) {
    Sound(w) && Rooted(w)
  }

  lemma StepSteady(w: World, a: Action)
    requires Steady(w) && Possible(w, a)
    ensures Steady(Next(w, a))
  {
    hide Next, Possible, Sound, Rooted;
    StepSound(w, a);
    RootedKept(w, a);
  }

  lemma StartSteady()
    ensures Steady(START)
  {
    StartSound();
  }

  lemma RunStep(worlds: seq<World>, actions: seq<Action>, k: nat)
    requires Run(worlds, actions) && k < |actions|
    ensures Possible(worlds[k], actions[k]) && worlds[k + 1] == Next(worlds[k], actions[k])
  {
  }

  lemma RunStart(worlds: seq<World>, actions: seq<Action>)
    requires Run(worlds, actions)
    ensures |worlds| == |actions| + 1 && worlds[0] == START
  {
  }

  lemma {:induction false} RunSteady(worlds: seq<World>, actions: seq<Action>, n: nat)
    requires Run(worlds, actions) && n <= |actions|
    ensures n < |worlds| && Steady(worlds[n])
  {
    hide Run, Next, Possible, Steady;
    RunStart(worlds, actions);
    if n == 0 {
      StartSteady();
    } else {
      RunStep(worlds, actions, n - 1);
      RunSteady(worlds, actions, n - 1);
      StepSteady(worlds[n - 1], actions[n - 1]);
    }
  }

  // ---------------------------------------------------------------- gates of a decided execution

  /** An unfinished gate of the execution. */
  predicate OpenGate(w: World, e: Id, i: Id) {
    i in w.gates.intents && w.gates.intents[i].binding.execution == e && !Terminal(w.gates.intents[i].state)
  }

  /** The gate's operation is about to call, or has called and got a failure that leaves no doubt. */
  predicate GateEnds(w: World, i: Id) {
    i in w.gateProcesses && (w.gateProcesses[i].GateToCall? || w.gateProcesses[i] == GateCalled(NoGateReceipt(false)))
  }

  ghost predicate GateJam(w: World, e: Id, i: Id) {
    OpenGate(w, e, i) && !GateEnds(w, i)
  }

  /** The bindings of a decided execution's gates hold no more. */
  lemma Unbound(w: World, e: Id, i: Id)
    requires CapturesFit(w) && Captured(w) && DecisionStands(w, e) && e in w.decisions
    requires i in w.gates.intents && w.gates.intents[i].binding.execution == e
    ensures !GateBound(w, i)
  {
    assert Capture(w.gates.intents[i].binding, D.Running) in w.captures;
  }

  lemma ActUnbound(w: World, a: Action)
    requires a.GateAct? && !GateBound(w, a.intent)
    ensures Next(w, a).gates == w.gates
    ensures Next(w, a).gateProcesses ==
            if GateAt(w, a.intent, GateToAct) then w.gateProcesses - {a.intent} else w.gateProcesses
  {
    hide GateBound;
  }

  lemma FinalizeUnbound(w: World, a: Action)
    requires a.GateFinalize? && !GateBound(w, a.intent)
    ensures Next(w, a).gates == w.gates
    ensures Next(w, a).gateProcesses ==
            if GateAt(w, a.intent, GateToFinalize) then w.gateProcesses - {a.intent} else w.gateProcesses
  {
    hide GateBound;
  }

  /** What a recorded result leaves of an open gate: it ends only by a failure without doubt, or under a binding that holds. */
  lemma RecordUnbound(w: World, a: Action, e: Id)
    requires a.GateRecord? && !GateBound(w, a.intent) && GateJam(w, e, a.intent)
    ensures GateJam(Next(w, a), e, a.intent)
  {
    hide GateBound;
    if a.intent in w.gateProcesses && w.gateProcesses[a.intent].GateCalled? {
      RecordedUnbound(w, a, e, w.gateProcesses[a.intent].result);
    }
  }

  lemma RecordedUnbound(w: World, a: Action, e: Id, result: GateResult)
    requires a.GateRecord? && !GateBound(w, a.intent) && GateJam(w, e, a.intent) && result != NoGateReceipt(false)
    ensures GateJam(StepGateRecord(w, a, result), e, a.intent)
  {
    hide GateBound;
  }

  lemma VerifyKeepsOpen(g: GateTables, i: Id, now: nat)
    requires i in g.intents && !Terminal(g.intents[i].state)
    ensures var next := VerifyGate(g, i, now).tables;
            && i in next.intents && !Terminal(next.intents[i].state) && next.intents[i].binding == g.intents[i].binding
  {
  }

  lemma VerifyJams(w: World, a: Action, e: Id)
    requires a.GateVerify? && GateJam(w, e, a.intent)
    ensures GateJam(Next(w, a), e, a.intent)
  {
    hide StepGateVerify, VerifyGate, NextCleanup, NextCompletion, NextEnv;
    if GateAt(w, a.intent, GateToVerify) {
      VerifyKeepsOpen(w.gates, a.intent, a.now);
      VerifyRows(w, a, VerifyGate(w.gates, a.intent, a.now));
    }
  }

  lemma CallJams(w: World, a: Action, e: Id)
    requires (a.GateCall? || a.GateCrash?) && GateJam(w, e, a.intent)
    ensures GateJam(Next(w, a), e, a.intent)
  {
  }

  lemma OwnGateJams(w: World, a: Action, e: Id)
    requires GateAction(a) && GateJam(w, e, a.intent) && !GateBound(w, a.intent)
    ensures GateJam(Next(w, a), e, a.intent)
  {
    hide Next, GateBound;
    if a.GatePrepare? { PrepareTaken(w, a); }
    else if a.GateAct? { ActUnbound(w, a); }
    else if a.GateRecord? { RecordUnbound(w, a, e); }
    else if a.GateVerify? { VerifyJams(w, a, e); }
    else if a.GateFinalize? { FinalizeUnbound(w, a); }
    else { CallJams(w, a, e); }
  }

  lemma OtherGateJams(w: World, a: Action, e: Id, i: Id)
    requires GatesSafe(w.gates) && ProgressFits(w) && GateJam(w, e, i) && (!GateAction(a) || a.intent != i)
    ensures GateJam(Next(w, a), e, i)
  {
    hide Next, GatesSafe, ProgressFits, TurnFits;
    if GateAction(a) {
      ChangeMoves(w, a);
      var turn := TurnOf(w, a);
    } else {
      OtherGatesSame(w, a);
    }
  }

  lemma GateJamStays(w: World, a: Action, e: Id, i: Id)
    requires Steady(w) && e in w.decisions && GateJam(w, e, i)
    ensures GateJam(Next(w, a), e, i)
  {
    hide Next, H.Sound, GatesSafe, GateHistory, CapturesFit, CleanupsFit, QuietWhileCleaning, CallsFit, DecisionsFit, Captured,
         DecisionStands, GateJam, GateBound;
    if GateAction(a) && a.intent == i {
      UnboundJam(w, e, i);
      OwnGateJams(w, a, e);
    } else {
      HistoryProgress(w);
      OtherGateJams(w, a, e, i);
    }
  }

  lemma UnboundJam(w: World, e: Id, i: Id)
    requires CapturesFit(w) && Captured(w) && DecisionStands(w, e) && e in w.decisions && GateJam(w, e, i)
    ensures !GateBound(w, i)
  {
    hide Captured, CapturesFit, DecisionStands, GateBound;
    Unbound(w, e, i);
  }

  lemma HistoryProgress(w: World)
    requires GateHistory(w)
    ensures ProgressFits(w)
  {
  }

  // ---------------------------------------------------------------- intents on the workspace

  /** An unfinished intent on the workspace. */
  predicate OpenIntent(w: World, x: Id, c: Id) {
    c in w.workspaceIntents && w.workspaceIntents[c].workspace == x && !Terminal(w.workspaceIntents[c].state)
  }

  /** An unfinished intent that is unclear, or a pending cleanup that cannot act any more. */
  ghost predicate IntentJam(w: World, x: Id, c: Id) {
    && OpenIntent(w, x, c)
    && (w.workspaceIntents[c].state == Unclear ||
        (w.workspaceIntents[c].kind == CleanupIntent && w.workspaceIntents[c].state == Pending && !CanAct(w, c)))
  }

  predicate CanAct(w: World, c: Id) {
    c in w.cleanups && w.cleanups[c].CleanupToAct? && Binds(w, w.cleanups[c].b, Ready)
  }

  /** A binding that was read and holds no more will never hold again. */
  lemma NeverAgain(w: World, a: Action, c: Capture)
    requires CapturesFit(w) && Captured(w) && c in w.captures && Possible(w, a) && Binds(Next(w, a), c.b, Ready)
    ensures Binds(w, c.b, Ready)
  {
    hide Next, Possible;
    NextRowsGrow(w, a);
    NextRevisions(w, a);
    assert CaptureBehind(w, c);
  }

  /** Cleanups about to act are those that were about to, or one just prepared. */
  lemma CanActBefore(w: World, a: Action, c: Id)
    requires CapturesFit(w) && Captured(w) && Possible(w, a) && CanAct(Next(w, a), c) && c in w.workspaceIntents
    ensures CanAct(w, c)
  {
    hide Next, Possible, CapturesFit, Binds, HasShape, CaptureBehind;
    var next := Next(w, a);
    if CleanupAction(a) {
      var shape := ShapeOf(w, a);
      ShapeCleanups(w, a, next, shape, c);
      if shape.Newly? { NewlyNew(w, a, next, shape); }
    } else {
      OtherCleanupsSame(w, a);
    }
    NeverAgain(w, a, Capture(w.cleanups[c].b, D.Completed));
  }

  lemma NewlyNew(w: World, a: Action, next: World, shape: Shape)
    requires CleanupAction(a) && HasShape(w, a, next, shape) && shape.Newly?
    ensures a.cleanup !in w.workspaceIntents
  {
  }

  lemma IntentJamStays(w: World, a: Action, x: Id, c: Id)
    requires CapturesFit(w) && Captured(w) && Possible(w, a) && IntentJam(w, x, c)
    ensures IntentJam(Next(w, a), x, c)
  {
    hide Next, Possible, CapturesFit, Captured, CanAct;
    JamRowStays(w, a, x, c);
    if CanAct(Next(w, a), c) { CanActBefore(w, a, c); }
  }

  lemma JamRowStays(w: World, a: Action, x: Id, c: Id)
    requires Possible(w, a) && IntentJam(w, x, c)
    ensures c in Next(w, a).workspaceIntents && Next(w, a).workspaceIntents[c] == w.workspaceIntents[c]
  {
    hide Next, Possible, HasShape, CanAct;
    if CleanupAction(a) {
      var shape := ShapeOf(w, a);
      ShapeRows(w, a, Next(w, a), shape);
      if a.cleanup == c { OwnJamRow(w, a, x, shape); }
    } else {
      OtherIntentsPending(w, a);
    }
  }

  lemma OwnJamRow(w: World, a: Action, x: Id, shape: Shape)
    requires CleanupAction(a) && IntentJam(w, x, a.cleanup) && HasShape(w, a, Next(w, a), shape)
    ensures Next(w, a).workspaceIntents == w.workspaceIntents
  {
    hide Next, CleanupMove, Quiescent, StillBinds, Binds;
  }

  // ---------------------------------------------------------------- what decides

  /** A decided execution and its workspace, ready. */
  predicate AtRest(w: World, e: Id, x: Id) {
    && e in w.decisions && x in w.workspaces && w.workspaces[x].execution == e
    && w.workspaces[x].task == w.decisions[e].b.task && w.workspaces[x].status == Ready
  }

  /** Other intents end unless they are unclear; a cleanup ends as long as it can act. */
  predicate IntentEnds(w: World, c: Id)
    requires c in w.workspaceIntents
  {
    if w.workspaceIntents[c].kind == OtherIntent then w.workspaceIntents[c].state != Unclear else CanAct(w, c)
  }

  predicate CurrentOf(w: World, e: Id, r: Id) {
    && r in w.integration.ledger.reservations && w.integration.ledger.reservations[r].ownerExecution == e
    && Current(w.integration.ledger.reservations[r])
  }

  /** Every open gate, every open intent on the workspace and every current reservation of the execution can still end. */
  ghost predicate Cleanable(w: World, e: Id, x: Id) {
    && (forall i :: OpenGate(w, e, i) ==> GateEnds(w, i))
    && (forall c :: OpenIntent(w, x, c) ==> IntentEnds(w, c))
    && (forall r :: CurrentOf(w, e, r) ==> R.Freeable(w.integration, r))
  }

  /** A cleanup of the workspace is going ahead. */
  ghost predicate CleaningAt(w: World, x: Id) {
    exists c :: c in w.workspaceIntents && w.workspaceIntents[c].kind == CleanupIntent &&
                w.workspaceIntents[c].workspace == x && Cleans(w.workspaceIntents[c].state)
  }

  ghost predicate Obstructed(w: World, e: Id, x: Id) {
    || (exists i :: GateJam(w, e, i))
    || (exists c :: IntentJam(w, x, c))
    || (exists r :: CurrentOf(w, e, r) && R.Jammed(w.integration, r))
  }

  lemma NotCleanable(w: World, e: Id, x: Id)
    requires Steady(w) && AtRest(w, e, x) && !Cleanable(w, e, x)
    ensures Obstructed(w, e, x)
  {
    hide H.Sound, GatesSafe, GateHistory, CapturesFit, CleanupsFit, CallsFit, DecisionsFit, Rooted, R.Freeable, CanAct, GateEnds;
    if i :| OpenGate(w, e, i) && !GateEnds(w, i) {
      assert GateJam(w, e, i);
    } else if c :| OpenIntent(w, x, c) && !IntentEnds(w, c) {
      if w.workspaceIntents[c].kind == CleanupIntent && Cleans(w.workspaceIntents[c].state) { NotReady(w, c); }
      assert IntentJam(w, x, c);
    } else {
      var r :| CurrentOf(w, e, r) && !R.Freeable(w.integration, r);
      assert R.Jammed(w.integration, r);
    }
  }

  lemma NotReady(w: World, c: Id)
    requires QuietWhileCleaning(w) && c in w.workspaceIntents && w.workspaceIntents[c].kind == CleanupIntent
    requires Cleans(w.workspaceIntents[c].state)
    ensures w.workspaceIntents[c].workspace in w.workspaces && w.workspaces[w.workspaceIntents[c].workspace].status == Cleaning
  {
    hide Quiet, OnlyIntent;
    assert CleanedFor(w, c);
  }

  /** While a cleanup of the workspace is going ahead, nothing is jammed. */
  lemma CleaningUnobstructed(w: World, e: Id, x: Id)
    requires QuietWhileCleaning(w) && x in w.workspaces && w.workspaces[x].execution == e && CleaningAt(w, x)
    ensures !Obstructed(w, e, x)
  {
    hide R.Freeable, CanAct, GateEnds, IntegrationDone;
    var c :| c in w.workspaceIntents && w.workspaceIntents[c].kind == CleanupIntent &&
             w.workspaceIntents[c].workspace == x && Cleans(w.workspaceIntents[c].state);
    assert CleanedFor(w, c);
  }

  lemma ObstructedNotCleaning(w: World, e: Id, x: Id)
    requires QuietWhileCleaning(w) && x in w.workspaces && w.workspaces[x].execution == e && Obstructed(w, e, x)
    ensures !CleaningAt(w, x)
  {
    hide QuietWhileCleaning, Obstructed, CleaningAt;
    if CleaningAt(w, x) { CleaningUnobstructed(w, e, x); }
  }

  lemma ReservationJamStays(w: World, a: Action, e: Id, r: Id)
    requires R.Steady(w.integration) && Possible(w, a) && CurrentOf(w, e, r) && R.Jammed(w.integration, r)
    ensures CurrentOf(Next(w, a), e, r) && R.Jammed(Next(w, a).integration, r)
  {
    hide Next, I.Next, I.Possible, R.Steady, R.Freeable;
    if a.Integrate? {
      IntegrateGrows(w, a);
      PossibleStep(w, a);
      R.JammedForEver(w.integration, a.action, r);
    } else {
      OthersIntegration(w, a);
    }
  }

  lemma PossibleStep(w: World, a: Action)
    requires a.Integrate? && Possible(w, a)
    ensures I.Possible(w.integration, a.action)
  {
    hide I.Possible, Faithful;
  }

  lemma ObstructedStays(w: World, a: Action, e: Id, x: Id)
    requires Steady(w) && Possible(w, a) && e in w.decisions && Obstructed(w, e, x)
    ensures e in Next(w, a).decisions && Obstructed(Next(w, a), e, x)
  {
    hide Next, Possible, H.Sound, GatesSafe, GateHistory, CapturesFit, CleanupsFit, QuietWhileCleaning, CallsFit, DecisionsFit,
         Captured, DecisionStands, GateJam, IntentJam, R.Jammed, CurrentOf, R.MemoriesFit;
    DecisionsKeep(w, a, e);
    if i :| GateJam(w, e, i) {
      GateJamStays(w, a, e, i);
    } else if c :| IntentJam(w, x, c) {
      IntentJamStays(w, a, x, c);
    } else {
      var r :| CurrentOf(w, e, r) && R.Jammed(w.integration, r);
      SteadyIntegration(w);
      ReservationJamStays(w, a, e, r);
    }
  }

  lemma SteadyIntegration(w: World)
    requires Steady(w)
    ensures R.Steady(w.integration)
  {
    hide H.Sound, R.MemoriesFit;
  }

  // ---------------------------------------------------------------- continuations

  /** The world after some actions, all of them possible when they are taken. */
  function After(w: World, actions: seq<Action>): World
    decreases |actions|
  {
    if actions == [] then w else After(Next(w, actions[0]), actions[1..])
  }

  predicate AllPossible(w: World, actions: seq<Action>)
    decreases |actions|
  {
    actions == [] || (Possible(w, actions[0]) && AllPossible(Next(w, actions[0]), actions[1..]))
  }

  lemma Prepended(w: World, a: Action, rest: seq<Action>)
    ensures After(w, [a] + rest) == After(Next(w, a), rest)
    ensures AllPossible(w, [a] + rest) <==> Possible(w, a) && AllPossible(Next(w, a), rest)
  {
    hide Next, Possible;
    var actions := [a] + rest;
    assert actions[0] == a && actions[1..] == rest;
  }

  lemma {:induction false} Appended(w: World, first: seq<Action>, rest: seq<Action>)
    ensures After(w, first + rest) == After(After(w, first), rest)
    ensures AllPossible(w, first) && AllPossible(After(w, first), rest) ==> AllPossible(w, first + rest)
    decreases |first|
  {
    hide Next, Possible;
    if first == [] {
      assert first + rest == rest;
    } else {
      Appended(Next(w, first[0]), first[1..], rest);
      assert first + rest == [first[0]] + (first[1..] + rest);
      Prepended(w, first[0], first[1..] + rest);
    }
  }

  lemma {:induction false} SteadyAfter(w: World, actions: seq<Action>)
    requires Steady(w) && AllPossible(w, actions)
    ensures Steady(After(w, actions))
    decreases |actions|
  {
    hide Next, Possible, Steady;
    if actions != [] {
      StepSteady(w, actions[0]);
      SteadyAfter(Next(w, actions[0]), actions[1..]);
    }
  }

  lemma {:induction false} ObstructedThroughout(w: World, e: Id, x: Id, actions: seq<Action>)
    requires Steady(w) && x in w.workspaces && w.workspaces[x].execution == e && e in w.decisions && Obstructed(w, e, x)
    requires AllPossible(w, actions)
    ensures !CleaningAt(After(w, actions), x)
    decreases |actions|
  {
    hide Next, Possible, Sound, Rooted, Obstructed, CleaningAt, RevisionsGrow;
    if actions == [] {
      SoundCleaning(w);
      ObstructedNotCleaning(w, e, x);
    } else {
      ObstructedStays(w, actions[0], e, x);
      StepSteady(w, actions[0]);
      WorkspaceStays(w, actions[0], x);
      ObstructedThroughout(Next(w, actions[0]), e, x, actions[1..]);
    }
  }

  lemma SoundCleaning(w: World)
    requires Sound(w)
    ensures QuietWhileCleaning(w)
  {
  }

  lemma WorkspaceStays(w: World, a: Action, x: Id)
    requires Possible(w, a) && x in w.workspaces
    ensures x in Next(w, a).workspaces && Next(w, a).workspaces[x].execution == w.workspaces[x].execution
  {
    hide Next, Possible;
    NextRevisions(w, a);
  }

  // ---------------------------------------------------------------- clearing the way

  ghost function OpenGates(w: World, e: Id): set<Id> {
    set i | i in w.gates.intents && OpenGate(w, e, i)
  }

  ghost function OpenIntents(w: World, x: Id): set<Id> {
    set c | c in w.workspaceIntents && OpenIntent(w, x, c)
  }

  ghost function CurrentReservations(w: World, e: Id): set<Id> {
    set r | r in w.integration.ledger.reservations && CurrentOf(w, e, r)
  }

  /** How much is in the way. */
  ghost function Outstanding(w: World, e: Id, x: Id): nat {
    |OpenGates(w, e)| + |OpenIntents(w, x)| + |CurrentReservations(w, e)|
  }

  lemma Fewer(a: set<Id>, b: set<Id>, i: Id)
    requires i in a && b == a - {i}
    ensures |b| == |a| - 1
  {
  }

  /** Another world at the same tasks, executions, workspaces and decisions. */
  predicate SameRows(w: World, next: World) {
    && next.tasks == w.tasks && next.executions == w.executions && next.workspaces == w.workspaces
    && next.decisions == w.decisions
  }

  predicate SameGates(w: World, next: World) {
    next.gates == w.gates && next.gateProcesses == w.gateProcesses
  }

  predicate SameIntents(w: World, next: World) {
    next.workspaceIntents == w.workspaceIntents && next.cleanups == w.cleanups
  }

  lemma SameActs(w: World, next: World, c: Id)
    requires SameRows(w, next) && (c in next.cleanups <==> c in w.cleanups)
    requires c in w.cleanups ==> next.cleanups[c] == w.cleanups[c]
    ensures CanAct(next, c) <==> CanAct(w, c)
  {
  }

  /** One gate less: the way is as clear as before otherwise. */
  lemma GateCleared(w: World, next: World, e: Id, x: Id, i: Id)
    requires AtRest(w, e, x) && Cleanable(w, e, x) && SameRows(w, next) && SameIntents(w, next)
    requires next.integration == w.integration && OpenGate(w, e, i)
    requires forall j :: j != i ==> (j in next.gates.intents <==> j in w.gates.intents)
    requires forall j :: j != i && j in w.gates.intents ==> next.gates.intents[j] == w.gates.intents[j]
    requires forall j :: j != i ==> (j in next.gateProcesses <==> j in w.gateProcesses)
    requires forall j :: j != i && j in w.gateProcesses ==> next.gateProcesses[j] == w.gateProcesses[j]
    requires i in next.gates.intents && Terminal(next.gates.intents[i].state)
    ensures AtRest(next, e, x) && Cleanable(next, e, x) && Outstanding(next, e, x) < Outstanding(w, e, x)
  {
    hide R.Freeable, CanAct;
    forall j | OpenGate(next, e, j) ensures GateEnds(next, j) { assert OpenGate(w, e, j) && GateEnds(w, j); }
    forall c | OpenIntent(next, x, c) ensures IntentEnds(next, c) {
      assert OpenIntent(w, x, c) && IntentEnds(w, c);
      SameActs(w, next, c);
    }
    forall r ensures CurrentOf(next, e, r) <==> CurrentOf(w, e, r) {
    }
    assert OpenGates(next, e) == OpenGates(w, e) - {i};
    Fewer(OpenGates(w, e), OpenGates(next, e), i);
    assert OpenIntents(next, x) == OpenIntents(w, x);
    assert CurrentReservations(next, e) == CurrentReservations(w, e);
  }

  lemma IntentCleared(w: World, next: World, e: Id, x: Id, c: Id)
    requires AtRest(w, e, x) && Cleanable(w, e, x) && SameRows(w, next) && SameGates(w, next)
    requires next.integration == w.integration && OpenIntent(w, x, c)
    requires forall j :: j != c ==> (j in next.workspaceIntents <==> j in w.workspaceIntents)
    requires forall j :: j != c && j in w.workspaceIntents ==> next.workspaceIntents[j] == w.workspaceIntents[j]
    requires forall j :: j != c ==> (j in next.cleanups <==> j in w.cleanups)
    requires forall j :: j != c && j in w.cleanups ==> next.cleanups[j] == w.cleanups[j]
    requires c in next.workspaceIntents && Terminal(next.workspaceIntents[c].state)
    ensures AtRest(next, e, x) && Cleanable(next, e, x) && Outstanding(next, e, x) < Outstanding(w, e, x)
  {
    hide R.Freeable, CanAct;
    forall j | OpenIntent(next, x, j) ensures IntentEnds(next, j) {
      assert OpenIntent(w, x, j) && IntentEnds(w, j);
      SameActs(w, next, j);
    }
    forall i ensures OpenGate(next, e, i) <==> OpenGate(w, e, i) {
    }
    forall i ensures GateEnds(next, i) <==> GateEnds(w, i) {
    }
    forall r ensures CurrentOf(next, e, r) <==> CurrentOf(w, e, r) {
    }
    assert OpenIntents(next, x) == OpenIntents(w, x) - {c};
    Fewer(OpenIntents(w, x), OpenIntents(next, x), c);
    assert OpenGates(next, e) == OpenGates(w, e);
    assert CurrentReservations(next, e) == CurrentReservations(w, e);
  }

  lemma ReservationCleared(w: World, next: World, e: Id, x: Id, r: Id)
    requires AtRest(w, e, x) && Cleanable(w, e, x) && next == w.(integration := next.integration)
    requires CurrentOf(w, e, r) && R.SameElsewhere(w.integration, next.integration, r)
    requires r in next.integration.ledger.reservations && !Current(next.integration.ledger.reservations[r])
    ensures AtRest(next, e, x) && Cleanable(next, e, x) && Outstanding(next, e, x) < Outstanding(w, e, x)
  {
    hide R.Freeable, CanAct;
    forall q | CurrentOf(next, e, q) ensures CurrentOf(w, e, q) && R.Freeable(next.integration, q) {
      assert q != r;
      R.FreeableElsewhere(w.integration, next.integration, r, q);
    }
    forall q | CurrentOf(w, e, q) && q != r ensures CurrentOf(next, e, q) {
    }
    forall c | OpenIntent(next, x, c) ensures IntentEnds(next, c) {
      assert OpenIntent(w, x, c) && IntentEnds(w, c);
      SameActs(w, next, c);
    }
    forall i | OpenGate(next, e, i) ensures GateEnds(next, i) { assert OpenGate(w, e, i) && GateEnds(w, i); }
    assert CurrentReservations(next, e) == CurrentReservations(w, e) - {r};
    Fewer(CurrentReservations(w, e), CurrentReservations(next, e), r);
    assert OpenGates(next, e) == OpenGates(w, e);
    assert OpenIntents(next, x) == OpenIntents(w, x);
  }

  /** The actions lead to a world that is steady and at rest, with less in the way. */
  ghost predicate Clears(w: World, e: Id, x: Id, actions: seq<Action>) {
    && AllPossible(w, actions)
    && var v := After(w, actions);
       Steady(v) && AtRest(v, e, x) && Cleanable(v, e, x) && Outstanding(v, e, x) < Outstanding(w, e, x)
  }

  lemma ClearsNow(w: World, a: Action, e: Id, x: Id)
    requires Steady(w) && Possible(w, a)
    requires AtRest(Next(w, a), e, x) && Cleanable(Next(w, a), e, x) && Outstanding(Next(w, a), e, x) < Outstanding(w, e, x)
    ensures Clears(w, e, x, [a])
  {
    hide Next, Possible, Steady, AtRest, Cleanable, Outstanding;
    StepSteady(w, a);
    assert [a][1..] == [];
    assert After(w, [a]) == After(Next(w, a), []);
    assert AllPossible(Next(w, a), []);
  }

  // gates

  lemma RecordFails(w: World, i: Id)
    requires GatesSafe(w.gates) && i in w.gates.intents && w.gates.intents[i].state == Executing
    requires i in w.gateProcesses && w.gateProcesses[i] == GateCalled(NoGateReceipt(false))
    ensures var next := Next(w, GateRecord(i, false));
            && next.gates.intents == w.gates.intents[i := InState(w.gates.intents[i], Failed)]
            && next.gateProcesses == w.gateProcesses - {i}
  {
    hide GateBound;
    assert GateFits(w.gates, i);
  }

  lemma FailedGateClears(w: World, e: Id, x: Id, i: Id)
    requires Steady(w) && AtRest(w, e, x) && Cleanable(w, e, x) && OpenGate(w, e, i)
    requires i in w.gateProcesses && w.gateProcesses[i] == GateCalled(NoGateReceipt(false))
    ensures Clears(w, e, x, [GateRecord(i, false)])
  {
    hide Next, Rooted, H.Sound, CapturesFit, CleanupsFit, QuietWhileCleaning, CallsFit, DecisionsFit, AtRest, Cleanable,
         Outstanding, Clears, LogFits, GatesSafe;
    var a := GateRecord(i, false);
    RecordFails(w, i);
    GateRowsSame(w, a);
    GateCleared(w, Next(w, a), e, x, i);
    ClearsNow(w, a, e, x);
  }

  /** Failing at the backend keeps the gate one that can end. */
  lemma FailingGate(w: World, e: Id, x: Id, i: Id)
    requires AtRest(w, e, x) && Cleanable(w, e, x) && OpenGate(w, e, i) && GateAt(w, i, GateToCall)
    ensures var next := Next(w, GateCall(i, NoGateReceipt(false)));
            && AtRest(next, e, x) && Cleanable(next, e, x) && OpenGate(next, e, i)
            && i in next.gateProcesses && next.gateProcesses[i] == GateCalled(NoGateReceipt(false))
            && Outstanding(next, e, x) == Outstanding(w, e, x)
  {
    hide R.Freeable, CanAct, NextCleanup, NextCompletion, NextEnv;
    var next := Next(w, GateCall(i, NoGateReceipt(false)));
    assert next.gates == w.gates && next.workspaceIntents == w.workspaceIntents && next.integration == w.integration;
    forall c | OpenIntent(next, x, c) ensures IntentEnds(next, c) {
      assert OpenIntent(w, x, c) && IntentEnds(w, c);
      SameActs(w, next, c);
    }
    forall j | OpenGate(next, e, j) ensures GateEnds(next, j) { assert OpenGate(w, e, j) && GateEnds(w, j); }
    forall r | CurrentOf(next, e, r) ensures R.Freeable(next.integration, r) { assert CurrentOf(w, e, r); }
    assert OpenGates(next, e) == OpenGates(w, e);
    assert OpenIntents(next, x) == OpenIntents(w, x);
    assert CurrentReservations(next, e) == CurrentReservations(w, e);
  }

  lemma ClearsLater(w: World, a: Action, rest: seq<Action>, e: Id, x: Id)
    requires Possible(w, a) && Clears(Next(w, a), e, x, rest) && Outstanding(Next(w, a), e, x) == Outstanding(w, e, x)
    ensures Clears(w, e, x, [a] + rest)
  {
    hide Next, Possible, Steady, AtRest, Cleanable, Outstanding, After, AllPossible;
    Prepended(w, a, rest);
  }

  lemma ClearGate(w: World, e: Id, x: Id, i: Id) returns (actions: seq<Action>)
    requires Steady(w) && AtRest(w, e, x) && Cleanable(w, e, x) && OpenGate(w, e, i)
    ensures Clears(w, e, x, actions)
  {
    hide Next, Steady, AtRest, Outstanding, Clears;
    assert GateEnds(w, i);
    if GateAt(w, i, GateToCall) {
      var a := GateCall(i, NoGateReceipt(false));
      FailingGate(w, e, x, i);
      StepSteady(w, a);
      FailedGateClears(Next(w, a), e, x, i);
      ClearsLater(w, a, [GateRecord(i, false)], e, x);
      actions := [a] + [GateRecord(i, false)];
    } else {
      FailedGateClears(w, e, x, i);
      actions := [GateRecord(i, false)];
    }
  }

  // intents on the workspace

  /** Another operation on the workspace comes to its end. */
  function Ending(w: World, c: Id): Action
    requires c in w.workspaceIntents
  {
    EnvWorkspaceIntent(c, w.workspaceIntents[c].(state := if w.workspaceIntents[c].state == Verified then Finalized else Failed))
  }

  lemma OtherClears(w: World, e: Id, x: Id, c: Id)
    requires Steady(w) && AtRest(w, e, x) && Cleanable(w, e, x) && OpenIntent(w, x, c)
    requires w.workspaceIntents[c].kind == OtherIntent
    ensures Clears(w, e, x, [Ending(w, c)])
  {
    hide Steady, Cleanable, Outstanding, Clears, NextGate, NextCleanup, NextCompletion;
    var a := Ending(w, c);
    EndsNotUnclear(w, e, x, c);
    IntentCleared(w, Next(w, a), e, x, c);
    ClearsNow(w, a, e, x);
  }

  lemma EndsNotUnclear(w: World, e: Id, x: Id, c: Id)
    requires Cleanable(w, e, x) && OpenIntent(w, x, c) && w.workspaceIntents[c].kind == OtherIntent
    ensures w.workspaceIntents[c].state != Unclear
  {
    assert IntentEnds(w, c);
  }

  lemma DenialMoves(w: World, c: Id)
    requires CleanupsFit(w) && Captured(w) && CanAct(w, c)
    ensures InWorkspace(w, c) && Next(w, CleanupAct(c, false)) == CleanupMove(w, c, Failed, None, None)
  {
    hide CleanupMove, CaptureBehind;
    assert ActsOnCapture(w, c) && ReadyToClean(w, c, w.cleanups[c].b);
  }

  lemma DeniedClears(w: World, e: Id, x: Id, c: Id)
    requires Steady(w) && AtRest(w, e, x) && Cleanable(w, e, x) && OpenIntent(w, x, c)
    requires w.workspaceIntents[c].kind == CleanupIntent
    ensures Clears(w, e, x, [CleanupAct(c, false)])
  {
    hide Next, H.Sound, GatesSafe, GateHistory, CapturesFit, CleanupsFit, QuietWhileCleaning, CallsFit, DecisionsFit,
         Captured, DecisionStands, R.MemoriesFit, AtRest, Outstanding, Clears, CleanupMove, CanAct;
    assert IntentEnds(w, c);
    DenialMoves(w, c);
    MoveRows(w, c, Failed, None, None);
    CleanupMoveFrame(w, c, Failed, None, None);
    IntentCleared(w, Next(w, CleanupAct(c, false)), e, x, c);
    ClearsNow(w, CleanupAct(c, false), e, x);
  }

  lemma ClearIntent(w: World, e: Id, x: Id, c: Id) returns (actions: seq<Action>)
    requires Steady(w) && AtRest(w, e, x) && Cleanable(w, e, x) && OpenIntent(w, x, c)
    ensures Clears(w, e, x, actions)
  {
    hide Steady, AtRest, Cleanable, Clears;
    if w.workspaceIntents[c].kind == OtherIntent {
      OtherClears(w, e, x, c);
      actions := [Ending(w, c)];
    } else {
      DeniedClears(w, e, x, c);
      actions := [CleanupAct(c, false)];
    }
  }

  // reservations

  function Lifted(steps: seq<I.Action>): (r: seq<Action>)
    ensures |r| == |steps|
  {
    if steps == [] then [] else [Integrate(steps[0])] + Lifted(steps[1..])
  }

  /** Steps of the integration protocol that prepare nothing can be taken here for a completed execution. */
  lemma {:induction false} LiftedSteps(w: World, e: Id, r: Id, steps: seq<I.Action>)
    requires CompletedExecution(w, e) && r in w.integration.ledger.reservations
    requires w.integration.ledger.reservations[r].ownerExecution == e
    requires T.AllPossible(w.integration, steps) && R.OnlyFor(steps, r)
    ensures AllPossible(w, Lifted(steps))
    ensures After(w, Lifted(steps)) == w.(integration := T.After(w.integration, steps))
    decreases |steps|
  {
    hide I.Next, I.Possible;
    if steps != [] {
      var next := Next(w, Integrate(steps[0]));
      OwnerStays(w, e, r, steps[0]);
      assert steps[0] in steps;
      assert R.OnlyFor(steps[1..], r);
      LiftedSteps(next, e, r, steps[1..]);
      Prepended(w, Integrate(steps[0]), Lifted(steps[1..]));
    }
  }

  lemma OwnerStays(w: World, e: Id, r: Id, step: I.Action)
    requires r in w.integration.ledger.reservations && w.integration.ledger.reservations[r].ownerExecution == e
    ensures var next := Next(w, Integrate(step));
            && next == w.(integration := I.Next(w.integration, step)) && r in next.integration.ledger.reservations
            && next.integration.ledger.reservations[r].ownerExecution == e
  {
    hide I.Next, NextGate, NextCleanup, NextCompletion;
    I.NextGrows(w.integration, step);
  }

  lemma ClearReservation(w: World, e: Id, x: Id, r: Id) returns (actions: seq<Action>)
    requires Steady(w) && AtRest(w, e, x) && Cleanable(w, e, x) && CurrentOf(w, e, r)
    ensures Clears(w, e, x, actions)
  {
    hide H.Sound, GatesSafe, GateHistory, CapturesFit, CleanupsFit, QuietWhileCleaning, CallsFit, DecisionsFit,
         Captured, R.MemoriesFit, Outstanding, T.After, T.AllPossible, R.SameElsewhere, R.Freeable, R.OnlyFor, OpenGate,
         OpenIntent, IntentEnds, GateEnds, After, AllPossible;
    var steps := R.Freeing(w.integration, r);
    assert DecisionStands(w, e);
    LiftedSteps(w, e, r, steps);
    actions := Lifted(steps);
    ReservationCleared(w, After(w, actions), e, x, r);
    SteadyAfter(w, actions);
  }

  /** Nothing is in the way any more. */
  ghost predicate Clear(w: World, e: Id, x: Id) {
    (forall i :: !OpenGate(w, e, i)) && (forall c :: !OpenIntent(w, x, c)) && forall r :: !CurrentOf(w, e, r)
  }

  lemma {:induction false} Clearing(w: World, e: Id, x: Id) returns (actions: seq<Action>)
    requires Steady(w) && AtRest(w, e, x) && Cleanable(w, e, x)
    ensures AllPossible(w, actions) && Steady(After(w, actions)) && AtRest(After(w, actions), e, x) && Clear(After(w, actions), e, x)
    decreases Outstanding(w, e, x)
  {
    hide Steady, AtRest, Cleanable, Outstanding, OpenGate, OpenIntent, CurrentOf;
    var first;
    if i :| OpenGate(w, e, i) { first := ClearGate(w, e, x, i); }
    else if c :| OpenIntent(w, x, c) { first := ClearIntent(w, e, x, c); }
    else if r :| CurrentOf(w, e, r) { first := ClearReservation(w, e, x, r); }
    else { return []; }
    var rest := Clearing(After(w, first), e, x);
    Appended(w, first, rest);
    actions := first + rest;
  }

  // ---------------------------------------------------------------- cleaning

  /** The binding of the execution's rows as they are. */
  function PresentBinding(w: World, e: Id, x: Id): Binding
    requires AtRest(w, e, x) && e in w.executions && w.executions[e].task in w.tasks
  {
    var t := w.executions[e].task;
    Binding(t, w.tasks[t].revision, e, w.executions[e].revision, x, w.workspaces[x].revision)
  }

  lemma PresentBinds(w: World, e: Id, x: Id)
    requires AtRest(w, e, x) && DecisionStands(w, e)
    ensures e in w.executions && w.executions[e].task in w.tasks
    ensures var b := PresentBinding(w, e, x);
            && Binds(w, b, Ready) && TaskIn(w, b.task, D.Completed) && b.execution == e && b.workspace == x
            && w.decisions[e].b.task == b.task && w.decisions[e].b.taskRevision + 1 == b.taskRevision
  {
  }

  /** The world and the binding it is about to be cleaned under. */
  ghost predicate Presents(w: World, e: Id, x: Id, b: Binding) {
    && AtRest(w, e, x) && DecisionStands(w, e) && Clear(w, e, x)
    && Binds(w, b, Ready) && TaskIn(w, b.task, D.Completed) && b.execution == e && b.workspace == x
    && w.decisions[e].b.task == b.task && w.decisions[e].b.taskRevision + 1 == b.taskRevision
  }

  lemma HasEvidence(w: World, e: Id, x: Id, b: Binding)
    requires Presents(w, e, x, b)
    ensures CleanupEvidence(w, b)
  {
    hide Binds, OpenGate, OpenIntent;
    if w.policies[w.decisions[e].policy].integrationRequired {
      var r :| r in w.integration.ledger.reservations && w.integration.ledger.reservations[r].ownerExecution == e;
      assert !CurrentOf(w, e, r);
    }
  }

  lemma IntegrationOver(w: World, e: Id, x: Id)
    requires H.Sound(w.integration) && Clear(w, e, x)
    ensures ReservationFree(w, e) && IntegrationDone(w, e) && GatesDone(w, e)
  {
    hide I.ProcessesFit, H.HistoryFits, S.TargetsSafe, S.EvidenceSafe;
    var l := w.integration.ledger;
    forall r | r in l.reservations && l.reservations[r].ownerExecution == e ensures !Current(l.reservations[r]) {
      assert !CurrentOf(w, e, r);
    }
    forall i | i in l.intents && OwnedBy(l, i, e) ensures Terminal(l.intents[i].state) {
      assert !CurrentOf(w, e, l.intents[i].reservation);
    }
    forall i | i in w.gates.intents && w.gates.intents[i].binding.execution == e ensures Terminal(w.gates.intents[i].state) {
      assert !OpenGate(w, e, i);
    }
  }

  lemma CapturesPresent(w: World, e: Id, x: Id, b: Binding)
    requires Presents(w, e, x, b)
    ensures var a := Preflight(Capture(b, D.Completed));
            Possible(w, a) && Presents(Next(w, a), e, x, b) && a.capture in Next(w, a).captures &&
            Next(w, a).workspaceIntents == w.workspaceIntents
  {
    hide NextGate, NextCleanup, NextCompletion;
    var next := Next(w, Preflight(Capture(b, D.Completed)));
    assert next == w.(captures := next.captures);
    forall i ensures !OpenGate(next, e, i) { assert !OpenGate(w, e, i); }
    forall c ensures !OpenIntent(next, x, c) { assert !OpenIntent(w, x, c); }
    forall r ensures !CurrentOf(next, e, r) { assert !CurrentOf(w, e, r); }
  }

  lemma PreparesPresent(w: World, e: Id, x: Id, b: Binding, c: Id)
    requires Presents(w, e, x, b) && Capture(b, D.Completed) in w.captures && c !in w.workspaceIntents
    ensures var a := CleanupPrepare(c, Capture(b, D.Completed), true);
            && Possible(w, a)
            && Next(w, a) == w.(workspaceIntents := w.workspaceIntents[c := WorkspaceIntent(x, CleanupIntent, Pending)],
                                cleanups := w.cleanups[c := CleanupToAct(b)])
  {
    hide CleanupEvidence, Clear;
    HasEvidence(w, e, x, b);
  }

  /** The prepared cleanup is the only open intent of the workspace, and everything else is over. */
  lemma PreparedQuiescent(w: World, e: Id, x: Id, b: Binding, c: Id, state: IntentState)
    requires Presents(w, e, x, b) && H.Sound(w.integration) && c !in w.workspaceIntents && !Terminal(state)
    ensures var next := w.(workspaceIntents := w.workspaceIntents[c := WorkspaceIntent(x, CleanupIntent, state)],
                           cleanups := w.cleanups[c := CleanupToAct(b)]);
            Quiescent(next, b, c, state) && Binds(next, b, Ready)
  {
    hide H.Sound;
    HasEvidence(w, e, x, b);
    IntegrationOver(w, e, x);
    forall i | i in w.workspaceIntents && w.workspaceIntents[i].workspace == x ensures Terminal(w.workspaceIntents[i].state) {
      assert !OpenIntent(w, x, i);
    }
  }

  lemma ActsPresent(w: World, c: Id, b: Binding)
    requires c in w.cleanups && w.cleanups[c] == CleanupToAct(b) && InWorkspace(w, c)
    requires w.workspaceIntents[c] == WorkspaceIntent(b.workspace, CleanupIntent, Pending)
    requires Binds(w, b, Ready) && Quiescent(w, b, c, Pending)
    ensures Next(w, CleanupAct(c, true)) == CleanupMove(w, c, Executing, Some(Cleaning), Some(CleanupToCall(b)))
  {
    hide Quiescent, CleanupMove;
  }

  /** With nothing in the way a cleanup goes ahead. */
  lemma CleaningBegins(w: World, e: Id, x: Id) returns (actions: seq<Action>)
    requires Steady(w) && AtRest(w, e, x) && Clear(w, e, x)
    ensures AllPossible(w, actions) && CleaningAt(After(w, actions), x)
  {
    hide Next, Possible, H.Sound, GatesSafe, GateHistory, CapturesFit, CleanupsFit, QuietWhileCleaning, CallsFit, DecisionsFit,
         Captured, R.MemoriesFit, Clear, CleanupMove, Quiescent, Binds;
    PresentBinds(w, e, x);
    var b := PresentBinding(w, e, x);
    var c := FreshId(w.workspaceIntents.Keys);
    var read, prepare, act := Preflight(Capture(b, D.Completed)), CleanupPrepare(c, Capture(b, D.Completed), true), CleanupAct(c, true);
    CapturesPresent(w, e, x, b);
    var v := Next(w, read);
    OthersIntegration(w, read);
    PreparesPresent(v, e, x, b, c);
    PreparedQuiescent(v, e, x, b, c, Pending);
    var u := Next(v, prepare);
    ActsPresent(u, c, b);
    MovedCleans(u, c, b);
    ActPossible(u, c);
    Prepended(u, act, []);
    Prepended(v, prepare, [act] + []);
    Prepended(w, read, [prepare] + ([act] + []));
    actions := [read] + ([prepare] + ([act] + []));
  }

  lemma MovedCleans(w: World, c: Id, b: Binding)
    requires InWorkspace(w, c) && w.workspaceIntents[c].kind == CleanupIntent
    ensures CleaningAt(CleanupMove(w, c, Executing, Some(Cleaning), Some(CleanupToCall(b))), w.workspaceIntents[c].workspace)
  {
    hide CleanupMove;
    MoveRows(w, c, Executing, Some(Cleaning), Some(CleanupToCall(b)));
    var next := CleanupMove(w, c, Executing, Some(Cleaning), Some(CleanupToCall(b)));
    assert next.workspaceIntents[c] == w.workspaceIntents[c].(state := Executing);
  }

  lemma ActPossible(w: World, c: Id)
    ensures Possible(w, CleanupAct(c, true)) && After(Next(w, CleanupAct(c, true)), []) == Next(w, CleanupAct(c, true))
    ensures AllPossible(Next(w, CleanupAct(c, true)), [])
  {
    hide Next;
  }

  lemma {:induction false} FreshId(ids: set<Id>) returns (c: Id)
    ensures forall y :: y in ids ==> y < c
    decreases ids
  {
    if y :| y in ids {
      var z := FreshId(ids - {y});
      assert forall v :: v in ids ==> v == y || v in ids - {y};
      c := if y < z then z else y + 1;
    } else {
      c := 0;
    }
  }

  // ---------------------------------------------------------------- main results

  /**
   In every reachable world, a cleanup of a decided execution's workspace can still go ahead exactly when everything in
   its way can still end: the gates by a failing call, the intents on the workspace, and the reservations.
   */
  lemma CleanedExactly(worlds: seq<World>, actions: seq<Action>, n: nat, e: Id, x: Id)
    requires Run(worlds, actions) && n <= |actions| && AtRest(worlds[n], e, x)
    ensures (exists more :: AllPossible(worlds[n], more) && CleaningAt(After(worlds[n], more), x)) <==> Cleanable(worlds[n], e, x)
  {
    hide Run, Next, Possible, Steady, Cleanable, After, AllPossible, CleaningAt, Clear, Obstructed;
    RunSteady(worlds, actions, n);
    var w := worlds[n];
    if Cleanable(w, e, x) {
      var first := Clearing(w, e, x);
      var rest := CleaningBegins(After(w, first), e, x);
      Appended(w, first, rest);
      assert AllPossible(w, first + rest) && CleaningAt(After(w, first + rest), x);
    } else {
      NotCleanable(w, e, x);
      forall more | AllPossible(w, more) ensures !CleaningAt(After(w, more), x) {
        ObstructedThroughout(w, e, x, more);
      }
    }
  }
}
