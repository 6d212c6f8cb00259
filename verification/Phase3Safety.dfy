/**
 What the machine of module Phase3Model keeps in every interleaving: quiescence while a workspace is being cleaned,
 completion at most once and only on gates that passed again during the same call, and gates called at most once.
 */
module Phase3Safety {
  import opened Options
  import opened IntegrationModel
  import opened GateModel
  import opened Phase3Model
  import S = IntegrationSafety
  import I = IntegrationRuns
  import H = IntegrationHistory
  import T = IntegrationTheorems
  import D = DomainModel
  import DM = DomainMutations

  // ---------------------------------------------------------------- revisions identify states

  /** A task still at the revision an operation read is still in the state it read. */
  ghost predicate CapturesFit(w: World) {
    forall c :: c in w.captures ==>
      && c.b.task in w.tasks && c.b.execution in w.executions && w.executions[c.b.execution].task == c.b.task
      && w.tasks[c.b.task].revision >= c.b.taskRevision
      && (w.tasks[c.b.task].revision == c.b.taskRevision ==> w.tasks[c.b.task].state == c.wanted)
  }

  /** What any step does to tasks, executions and policies. */
  ghost predicate RowsGrow(w: World, next: World) {
    && (forall t :: t in w.tasks ==>
          && t in next.tasks
          && (next.tasks[t] == w.tasks[t] || next.tasks[t].revision > w.tasks[t].revision)
          && (DM.Terminal(w.tasks[t].state) ==> next.tasks[t] == w.tasks[t]))
    && (forall e :: e in w.executions ==>
          && e in next.executions && next.executions[e].task == w.executions[e].task
          && (w.executions[e].terminal.Some? ==> next.executions[e].terminal == w.executions[e].terminal))
    && (forall p :: p in w.policies ==> p in next.policies && next.policies[p] == w.policies[p])
    && (forall e :: e in w.decisions ==> e in next.decisions)
  }

  lemma DecideGrows(w: World, a: Action)
    requires a.CompletionDecide?
    ensures RowsGrow(w, Next(w, a)) && Next(w, a).captures == w.captures
  {
    hide GateSet, Proves;
  }

  /** A gate step changes the gates, their processes and log, and the calls, and nothing else. */
  predicate GateFrame(w: World, next: World) {
    next == w.(gates := next.gates, gateProcesses := next.gateProcesses, gateLog := next.gateLog, calls := next.calls)
  }

  lemma GatePrepareFrame(w: World, a: Action)
    requires a.GatePrepare?
    ensures GateFrame(w, Next(w, a))
  {
    hide PrepareGate, StillBinds;
  }

  lemma RecordFrame(w: World, a: Action, result: GateResult)
    requires a.GateRecord?
    ensures GateFrame(w, StepGateRecord(w, a, result)) && StepGateRecord(w, a, result).calls == w.calls
  {
    hide RecordGateFailure, RecordGateReceipt, StillCurrent;
  }

  lemma GateRecordFrame(w: World, a: Action)
    requires a.GateRecord?
    ensures GateFrame(w, Next(w, a)) && Next(w, a).calls == w.calls
  {
    hide StepGateRecord, GateFrame;
    SameGates(w);
    if a.intent in w.gateProcesses && w.gateProcesses[a.intent].GateCalled? {
      RecordFrame(w, a, w.gateProcesses[a.intent].result);
    }
  }

  lemma SameGates(w: World)
    ensures GateFrame(w, w)
  {
  }

  lemma GateOtherFrame(w: World, a: Action)
    requires a.GateAct? || a.GateCall? || a.GateVerify? || a.GateFinalize? || a.GateCrash?
    ensures GateFrame(w, Next(w, a)) && Next(w, a).calls == w.calls
  {
    hide ActGate, VerifyGate, FinalizeGate, GateBound;
  }

  lemma GateRowsSame(w: World, a: Action)
    requires GateAction(a)
    ensures GateFrame(w, Next(w, a))
  {
    hide Next, GateFrame;
    if a.GatePrepare? { GatePrepareFrame(w, a); } else if a.GateRecord? { GateRecordFrame(w, a); } else { GateOtherFrame(w, a); }
  }

  /** A cleanup step changes workspaces, their intents and the cleanup processes, and nothing else. */
  predicate CleanupFrame(w: World, next: World) {
    next == w.(workspaces := next.workspaces, workspaceIntents := next.workspaceIntents, cleanups := next.cleanups)
  }

  lemma CleanupMoveFrame(
    w: World, intent: Id, state: IntentState, status: Option<WorkspaceStatus>, progress: Option<CleanupProgress>)
    requires intent in w.workspaceIntents && w.workspaceIntents[intent].workspace in w.workspaces
    ensures CleanupFrame(w, CleanupMove(w, intent, state, status, progress))
  {
  }

  lemma CleanupActFrame(w: World, a: Action, b: Binding)
    requires a.CleanupAct?
    ensures CleanupFrame(w, StepCleanupAct(w, a, b))
  {
    hide Quiescent, CleanupMove, CleanupFrame;
    DroppedFrame(w, a.cleanup);
    if a.cleanup in w.workspaceIntents && w.workspaceIntents[a.cleanup].workspace in w.workspaces {
      CleanupMoveFrame(w, a.cleanup, Failed, None, None);
      CleanupMoveFrame(w, a.cleanup, Executing, Some(Cleaning), Some(CleanupToCall(b)));
    }
  }

  lemma DroppedFrame(w: World, intent: Id)
    ensures CleanupFrame(w, w.(cleanups := w.cleanups - {intent}))
  {
  }

  lemma CleanupRecordFrame(w: World, a: Action, result: CleanupResult)
    requires a.CleanupRecord?
    ensures CleanupFrame(w, StepCleanupRecord(w, a, result))
  {
    hide CleanupMove, CleanupFrame;
    DroppedFrame(w, a.cleanup);
    if BeingCleaned(w, a.cleanup, Executing) {
      CleanupMoveFrame(w, a.cleanup, Unclear, Some(RecoveryRequired), None);
      CleanupMoveFrame(w, a.cleanup, Failed, Some(Ready), None);
      if result.CleanupReceipt? { CleanupMoveFrame(w, a.cleanup, Observed, None, Some(CleanupToVerify(result.succeeded))); }
    }
  }

  lemma CleanupEndFrame(w: World, a: Action, succeeded: bool)
    ensures a.CleanupVerify? ==> CleanupFrame(w, StepCleanupVerify(w, a, succeeded))
    ensures a.CleanupFinalize? ==> CleanupFrame(w, StepCleanupFinalize(w, a, succeeded))
  {
    hide CleanupMove, CleanupFrame;
    if a.CleanupVerify? || a.CleanupFinalize? {
      DroppedFrame(w, a.cleanup);
      if a.cleanup in w.workspaceIntents && w.workspaceIntents[a.cleanup].workspace in w.workspaces {
        CleanupMoveFrame(w, a.cleanup, Verified, None, Some(CleanupToFinalize(succeeded)));
        CleanupMoveFrame(w, a.cleanup, Unclear, Some(RecoveryRequired), None);
        CleanupMoveFrame(w, a.cleanup, Finalized, Some(if succeeded then Cleaned else Ready), None);
      }
    }
  }

  lemma CleanupPrepareFrame(w: World, a: Action)
    requires a.CleanupPrepare?
    ensures CleanupFrame(w, StepCleanupPrepare(w, a))
  {
    hide CleanupEvidence, Binds, StillBinds, TaskIn;
  }

  lemma CleanupCallFrame(w: World, a: Action, b: Binding)
    requires a.CleanupCall?
    ensures CleanupFrame(w, StepCleanupCall(w, a, b))
  {
    hide Quiescent, Binds, BeingCleaned;
  }

  lemma CleanupRowsSame(w: World, a: Action)
    requires CleanupAction(a)
    ensures CleanupFrame(w, Next(w, a))
  {
    hide CleanupFrame, StepCleanupAct, StepCleanupPrepare, StepCleanupCall, StepCleanupRecord, StepCleanupVerify,
         StepCleanupFinalize;
    DroppedFrame(w, a.cleanup);
    SameFrame(w);
    if a.CleanupPrepare? { CleanupPrepareFrame(w, a); }
    if a.cleanup in w.cleanups {
      match w.cleanups[a.cleanup] {
        case CleanupToAct(b) => if a.CleanupAct? { CleanupActFrame(w, a, b); }
        case CleanupCalled(result) => if a.CleanupRecord? { CleanupRecordFrame(w, a, result); }
        case CleanupToVerify(succeeded) => CleanupEndFrame(w, a, succeeded);
        case CleanupToFinalize(succeeded) => CleanupEndFrame(w, a, succeeded);
        case CleanupToCall(b) => if a.CleanupCall? { CleanupCallFrame(w, a, b); }
      }
    }
  }

  lemma SameFrame(w: World)
    ensures CleanupFrame(w, w)
  {
  }

  lemma CallRowsSame(w: World, a: Action)
    requires (CompletionAction(a) && !a.CompletionDecide?)
    ensures Next(w, a) == w.(calls := Next(w, a).calls)
  {
    hide GateSet, Proves, Underway, PassedAgain, Binds;
  }

  lemma SameRowsGrow(w: World, next: World)
    requires next.tasks == w.tasks && next.executions == w.executions && next.policies == w.policies
    requires next.decisions == w.decisions
    ensures RowsGrow(w, next)
  {
  }

  /** Of the steps in this file, only an accepted completion touches tasks, executions and decisions. */
  lemma RowsSame(w: World, a: Action)
    requires GateAction(a) || CleanupAction(a) || (CompletionAction(a) && !a.CompletionDecide?)
    ensures var next := Next(w, a);
            && next.tasks == w.tasks && next.executions == w.executions && next.policies == w.policies
            && next.decisions == w.decisions && next.captures == w.captures
  {
    hide Next;
    if GateAction(a) { GateRowsSame(w, a); }
    else if CleanupAction(a) { CleanupRowsSame(w, a); }
    else { CallRowsSame(w, a); }
  }

  lemma NextRowsGrow(w: World, a: Action)
    requires Possible(w, a)
    ensures RowsGrow(w, Next(w, a))
    ensures Next(w, a).captures == if a.Preflight? then w.captures + {a.capture} else w.captures
  {
    hide Next, Possible, RowsGrow;
    if GateAction(a) || CleanupAction(a) || (CompletionAction(a) && !a.CompletionDecide?) {
      RowsSame(w, a);
      SameRowsGrow(w, Next(w, a));
    } else if a.CompletionDecide? {
      DecideGrows(w, a);
    } else if a.EnvTask? || a.EnvExecution? {
      RowGrows(w, a);
    } else {
      EnvGrows(w, a);
    }
  }

  lemma RowGrows(w: World, a: Action)
    requires a.EnvTask? || a.EnvExecution?
    requires Possible(w, a)
    ensures RowsGrow(w, Next(w, a)) && Next(w, a).captures == w.captures
  {
    hide DM.SomeTransition, NextGate, NextCleanup, NextCompletion, Referenced, Resumable, HasAttempt;
  }

  lemma EnvGrows(w: World, a: Action)
    requires a.EnvWorkspace? || a.EnvWorkspaceIntent? || a.EnvPolicy? || a.Preflight? || a.Integrate?
    requires Possible(w, a)
    ensures RowsGrow(w, Next(w, a))
    ensures Next(w, a).captures == if a.Preflight? then w.captures + {a.capture} else w.captures
  {
    hide Faithful, I.Next, I.Possible, NextGate, NextCleanup, NextCompletion, MayBecome, MayBegin, Resumable, HasAttempt,
         WorkspaceMoves, IntentMoves, Binds;
  }

  lemma CapturesKept(w: World, a: Action)
    requires CapturesFit(w) && Possible(w, a)
    ensures CapturesFit(Next(w, a))
  {
    hide Next;
    NextRowsGrow(w, a);
    forall c | c in Next(w, a).captures
      ensures var next := Next(w, a);
              && c.b.task in next.tasks && c.b.execution in next.executions && next.executions[c.b.execution].task == c.b.task
              && next.tasks[c.b.task].revision >= c.b.taskRevision
              && (next.tasks[c.b.task].revision == c.b.taskRevision ==> next.tasks[c.b.task].state == c.wanted)
    {
      if c !in w.captures { CaptureFits(w, a); }
    }
  }

  lemma CaptureFits(w: World, a: Action)
    requires a.Preflight? && Possible(w, a)
    ensures var next := Next(w, a);
            && a.capture.b.task in next.tasks && a.capture.b.execution in next.executions
            && next.executions[a.capture.b.execution].task == a.capture.b.task
            && next.tasks[a.capture.b.task] == TaskRow(a.capture.wanted, a.capture.b.taskRevision)
  {
  }

  /** An operation that still binds what it read finds the task in the state it read. */
  lemma BoundState(w: World, c: Capture)
    requires CapturesFit(w) && c in w.captures && Binds(w, c.b, Ready)
    ensures TaskIn(w, c.b.task, c.wanted) && w.executions[c.b.execution].task == c.b.task
  {
  }

  // ---------------------------------------------------------------- gates

  /** The state a gate action finds its intent in when it does anything. */
  function FromState(a: Action): IntentState {
    if a.GateRecord? then Executing else if a.GateVerify? then Observed else if a.GateFinalize? then Verified else Pending
  }

  /** What a gate step does to the gates: one new pending intent, or one intent moved on. */
  ghost predicate GateChange(w: World, a: Action) {
    var next := Next(w, a);
    || next.gates == w.gates
    || (GateAction(a) && !a.GatePrepare? && OnlyGate(w.gates, next.gates, a.intent) &&
        GateFits(next.gates, a.intent) && w.gates.intents[a.intent].state == FromState(a) &&
        GateMoves(FromState(a), next.gates.intents[a.intent].state))
    || (a.GatePrepare? && next.gates == w.gates.(keys := next.gates.keys))
    || (a.GatePrepare? && a.intent !in w.gates.intents && a.intent in next.gates.intents &&
        next.gates.intents == w.gates.intents[a.intent := next.gates.intents[a.intent]] &&
        next.gates.intents[a.intent].state == Pending && next.gates.intents[a.intent].binding == a.capture.b &&
        StillBinds(w, a.capture, D.Running) &&
        next.gates.observations == w.gates.observations && next.gates.receipts == w.gates.receipts &&
        next.gates.finalizations == w.gates.finalizations)
  }

  /** Preparing leaves the gates alone, uses up a key, or adds one pending intent under a binding that holds. */
  ghost predicate GatePrepared(g: GateTables, h: GateTables, intent: Id, b: Binding, bound: bool) {
    || h == g.(keys := h.keys)
    || (bound && intent !in g.intents && intent in h.intents
        && h == g.(order := g.order + [intent], keys := h.keys, intents := g.intents[intent := h.intents[intent]])
        && h.intents[intent].state == Pending && h.intents[intent].binding == b)
  }

  lemma PrepareGateShape(
    g: GateTables, intent: Id, key: Id, operation: GateOperation, b: Binding, policy: Id, gate: Id, bound: bool,
    resolved: bool, granted: bool)
    ensures GatePrepared(g, PrepareGate(g, intent, key, operation, b, policy, gate, bound, resolved, granted).tables,
                         intent, b, bound)
  {
  }

  lemma PreparedTables(w: World, a: Action)
    requires a.GatePrepare?
    ensures GatePrepared(w.gates, StepGatePrepare(w, a).gates, a.intent, a.capture.b, StillBinds(w, a.capture, D.Running))
  {
    hide StillBinds, PrepareGate, GatePrepared, Noted;
    PrepareGateShape(w.gates, a.intent, a.key, a.operation, a.capture.b, a.policy, a.gate,
                     StillBinds(w, a.capture, D.Running), a.resolved, a.granted);
  }

  lemma PreparedSafe(w: World, a: Action)
    requires a.GatePrepare? && GatesSafe(w.gates)
    ensures GatesSafe(StepGatePrepare(w, a).gates)
  {
    hide StillBinds, PrepareGate, GatesSafe, Noted;
    PrepareGateSafe(w.gates, a.intent, a.key, a.operation, a.capture.b, a.policy, a.gate,
                    StillBinds(w, a.capture, D.Running), a.resolved, a.granted);
  }

  lemma GatePrepareChange(w: World, a: Action)
    requires a.GatePrepare?
    ensures GateChange(w, a)
    ensures GatesSafe(w.gates) ==> GatesSafe(Next(w, a).gates)
  {
    hide StillBinds, StepGatePrepare, GatesSafe;
    PreparedTables(w, a);
    if GatesSafe(w.gates) { PreparedSafe(w, a); }
  }

  lemma StepOfFits(w: World, a: Action, s: GateStep)
    requires GateAction(a) && !a.GatePrepare? && GateStepFits(w.gates, s, a.intent, FromState(a)) && Next(w, a).gates == s.tables
    ensures GateChange(w, a)
  {
    hide Next, GateFits, OnlyGate;
  }

  lemma GateActChange(w: World, a: Action)
    requires GatesSafe(w.gates) && a.GateAct?
    ensures GateChange(w, a)
  {
    hide GatesSafe, GateStepFits, ActGate, GateBound;
    ActGateFits(w.gates, a.intent, GateBound(w, a.intent), a.resolved, a.granted);
    if GateAt(w, a.intent, GateToAct) {
      StepOfFits(w, a, ActGate(w.gates, a.intent, GateBound(w, a.intent), a.resolved, a.granted));
    }
  }

  lemma RecordedTables(w: World, a: Action, result: GateResult)
    requires a.GateRecord? && GatesSafe(w.gates)
    ensures StepGateRecord(w, a, result).gates == w.gates || GateMoved(w.gates, StepGateRecord(w, a, result).gates, a.intent)
  {
    hide GatesSafe, RecordGateFailure, RecordGateReceipt, StillCurrent, OnlyGate, GateFits;
    match result {
      case NoGateReceipt(doubtful) => RecordGateFailureFits(w.gates, a.intent, doubtful);
      case GotGateReceipt(receipt) =>
        RecordGateReceiptFits(w.gates, a.intent, receipt, StillCurrent(w, a.intent, a.resolved));
    }
  }

  /** One intent moved on, with the evidence its new state calls for. */
  ghost predicate GateMoved(g: GateTables, h: GateTables, intent: Id) {
    && OnlyGate(g, h, intent) && GateFits(h, intent) && g.intents[intent].state == Executing
    && GateMoves(Executing, h.intents[intent].state)
  }

  lemma GateRecordChange(w: World, a: Action)
    requires GatesSafe(w.gates) && a.GateRecord?
    ensures GateChange(w, a)
  {
    hide GatesSafe, StepGateRecord, OnlyGate, GateFits, GateMoves;
    if a.intent in w.gateProcesses && w.gateProcesses[a.intent].GateCalled? {
      RecordedTables(w, a, w.gateProcesses[a.intent].result);
    }
  }

  lemma GateVerifyChange(w: World, a: Action)
    requires GatesSafe(w.gates) && a.GateVerify?
    ensures GateChange(w, a)
  {
    hide GatesSafe, GateStepFits, VerifyGate;
    VerifyGateFits(w.gates, a.intent, a.now);
    if GateAt(w, a.intent, GateToVerify) { StepOfFits(w, a, VerifyGate(w.gates, a.intent, a.now)); }
  }

  lemma FinalizedTables(w: World, a: Action)
    requires a.GateFinalize?
    ensures StepGateFinalize(w, a).gates ==
            FinalizeGate(w.gates, a.intent, GateBound(w, a.intent), a.resolved, a.granted).tables
  {
    hide FinalizeGate, GateBound;
  }

  lemma GateFinalizeChange(w: World, a: Action)
    requires GatesSafe(w.gates) && a.GateFinalize?
    ensures GateChange(w, a)
  {
    hide GatesSafe, GateStepFits, FinalizeGate, GateBound, StepGateFinalize, GateChange;
    FinalizeGateFits(w.gates, a.intent, GateBound(w, a.intent), a.resolved, a.granted);
    FinalizedTables(w, a);
    if GateAt(w, a.intent, GateToFinalize) {
      StepOfFits(w, a, FinalizeGate(w.gates, a.intent, GateBound(w, a.intent), a.resolved, a.granted));
    } else {
      UnmovedGates(w, a);
    }
  }

  lemma UnmovedGates(w: World, a: Action)
    requires Next(w, a).gates == w.gates
    ensures GateChange(w, a)
  {
    hide Next;
  }

  lemma OtherGatesSame(w: World, a: Action)
    requires !GateAction(a)
    ensures Next(w, a).gates == w.gates && Next(w, a).gateLog == w.gateLog && Next(w, a).gateProcesses == w.gateProcesses
  {
    if CleanupAction(a) {
      CleanupRowsSame(w, a);
    } else if (CompletionAction(a) && !a.CompletionDecide?) {
      CallRowsSame(w, a);
    } else if a.CompletionDecide? {
      DecideKeepsGates(w, a);
    }
  }

  lemma DecideKeepsGates(w: World, a: Action)
    requires a.CompletionDecide?
    ensures Next(w, a).gates == w.gates && Next(w, a).gateLog == w.gateLog && Next(w, a).gateProcesses == w.gateProcesses
  {
    hide GateSet, Proves, Underway;
  }

  lemma NextGateChange(w: World, a: Action)
    requires GatesSafe(w.gates)
    ensures GateChange(w, a)
  {
    hide Next, GateChange, GatesSafe;
    if a.GatePrepare? { GatePrepareChange(w, a); }
    else if a.GateAct? { GateActChange(w, a); }
    else if a.GateRecord? { GateRecordChange(w, a); }
    else if a.GateVerify? { GateVerifyChange(w, a); }
    else if a.GateFinalize? { GateFinalizeChange(w, a); }
    else if GateAction(a) { GateCallChange(w, a); }
    else { UnchangedGates(w, a); }
  }

  lemma UnchangedGates(w: World, a: Action)
    requires !GateAction(a)
    ensures GateChange(w, a)
  {
    hide Next;
    OtherGatesSame(w, a);
  }

  lemma GateCallChange(w: World, a: Action)
    requires a.GateCall? || a.GateCrash?
    ensures GateChange(w, a)
  {
  }

  lemma NextGatesSafe(w: World, a: Action)
    requires GatesSafe(w.gates)
    ensures GatesSafe(Next(w, a).gates)
  {
    hide Next, GatesSafe, OnlyGate, GateFits;
    NextGateChange(w, a);
    if a.GatePrepare? {
      GatePrepareChange(w, a);
    } else if Next(w, a).gates != w.gates {
      OnlyGateSafe(w.gates, Next(w, a).gates, a.intent);
    }
  }

  // ---------------------------------------------------------------- quiescence

  predicate Cleans(state: IntentState) {
    state == Executing || state == Observed || state == Verified
  }

  /** Nothing goes on any more in an execution: no gate, no integration, no reservation, and no way back. */
  ghost predicate Quiet(w: World, e: Id) {
    && e in w.executions && TaskIn(w, w.executions[e].task, D.Completed) && CompletedExecution(w, e) && e in w.decisions
    && ReservationFree(w, e) && GatesDone(w, e) && IntegrationDone(w, e)
  }

  /** The workspace is being cleaned for this intent alone. */
  ghost predicate CleanedFor(w: World, i: Id)
    requires i in w.workspaceIntents
  {
    var x := w.workspaceIntents[i].workspace;
    && x in w.workspaces && w.workspaces[x].status == Cleaning
    && OnlyIntent(w, x, i, w.workspaceIntents[i].state) && Quiet(w, w.workspaces[x].execution)
  }

  ghost predicate QuietWhileCleaning(w: World) {
    forall i | i in w.workspaceIntents && w.workspaceIntents[i].kind == CleanupIntent && Cleans(w.workspaceIntents[i].state) ::
      CleanedFor(w, i)
  }

  lemma QuietRows(w: World, a: Action, e: Id)
    requires Possible(w, a) && e in w.executions && TaskIn(w, w.executions[e].task, D.Completed) && CompletedExecution(w, e)
    requires e in w.decisions
    ensures var next := Next(w, a);
            e in next.executions && TaskIn(next, next.executions[e].task, D.Completed) && CompletedExecution(next, e) &&
            e in next.decisions
  {
    hide Next, Possible;
    NextRowsGrow(w, a);
  }

  lemma NotRunning(w: World, c: Capture, e: Id)
    requires CapturesFit(w) && e in w.executions && TaskIn(w, w.executions[e].task, D.Completed)
    requires StillBinds(w, c, D.Running)
    ensures c.b.execution != e
  {
    BoundState(w, c);
  }

  lemma QuietGates(w: World, a: Action, e: Id)
    requires CapturesFit(w) && GatesSafe(w.gates) && Quiet(w, e)
    ensures GatesDone(Next(w, a), e)
  {
    hide Next, CapturesFit, GatesSafe, GateFits, ReservationFree, IntegrationDone, StillBinds, TaskIn, CompletedExecution;
    NextGateChange(w, a);
    if a.GatePrepare? && StillBinds(w, a.capture, D.Running) {
      NotRunning(w, a.capture, e);
    }
  }

  lemma IntegrateKeepsOwner(w: World, step: I.Action, r: Id)
    requires r in I.Next(w.integration, step).ledger.reservations
    ensures r in w.integration.ledger.reservations ==>
              S.ReservationStep(w.integration.ledger.reservations[r], I.Next(w.integration, step).ledger.reservations[r])
    ensures r !in w.integration.ledger.reservations ==>
              step.DoReserve? && step.bound &&
              I.Next(w.integration, step).ledger.reservations[r].ownerExecution == step.execution
  {
    if step.DoReserve? {
      if r !in w.integration.ledger.reservations { ReservedOwner(w, step, r); }
    } else if step.DoPrepare? {
      T.PrepareKeepsReservations(w.integration, step);
    } else {
      T.AddsNothing(w.integration, step);
    }
    hide I.Next;
    I.NextGrows(w.integration, step);
  }

  lemma ReservedOwner(w: World, step: I.Action, r: Id)
    requires step.DoReserve? && r in I.Next(w.integration, step).ledger.reservations && r !in w.integration.ledger.reservations
    ensures step.bound && I.Next(w.integration, step).ledger.reservations[r].ownerExecution == step.execution
  {
    hide TargetTaken, PriorUnsettled;
  }

  lemma NewIntent(w: World, step: I.Action, i: Id)
    requires i in I.Next(w.integration, step).ledger.intents && i !in w.integration.ledger.intents
    ensures step.DoPrepare? && step.running && step.id in w.integration.ledger.reservations
    ensures I.Next(w.integration, step).ledger.intents[i].reservation == step.id
    ensures I.Next(w.integration, step).ledger.reservations == w.integration.ledger.reservations
  {
    if step.DoReserve? {
      T.ReserveKeepsIntents(w.integration, step);
    } else if step.DoPrepare? {
      PreparedIntent(w, step, i);
    } else {
      T.AddsNothing(w.integration, step);
    }
  }

  lemma PreparedIntent(w: World, step: I.Action, i: Id)
    requires step.DoPrepare? && i in I.Next(w.integration, step).ledger.intents && i !in w.integration.ledger.intents
    ensures step.running && step.id in w.integration.ledger.reservations
    ensures I.Next(w.integration, step).ledger.intents[i].reservation == step.id
    ensures I.Next(w.integration, step).ledger.reservations == w.integration.ledger.reservations
  {
    hide Unfinished;
  }

  lemma QuietReservations(w: World, step: I.Action, e: Id)
    requires CapturesFit(w) && Quiet(w, e) && Possible(w, Integrate(step))
    ensures ReservationFree(Next(w, Integrate(step)), e)
  {
    hide I.Next, I.Possible, CapturesFit, GatesDone, IntegrationDone, StillBinds;
    var next := I.Next(w.integration, step).ledger;
    forall r | r in next.reservations && next.reservations[r].ownerExecution == e ensures !Current(next.reservations[r]) {
      IntegrateKeepsOwner(w, step, r);
      if r !in w.integration.ledger.reservations {
        var c :| c in w.captures && c.b.execution == step.execution && StillBinds(w, c, D.Running);
        NotRunning(w, c, e);
      }
    }
  }

  lemma QuietIntents(w: World, step: I.Action, e: Id)
    requires H.Sound(w.integration) && Quiet(w, e) && Possible(w, Integrate(step))
    ensures IntegrationDone(Next(w, Integrate(step)), e)
  {
    hide I.Next, I.Possible, GatesDone, H.HistoryFits, I.ProcessesFit, S.TargetsSafe, S.EvidenceSafe;
    var l, next := w.integration.ledger, I.Next(w.integration, step).ledger;
    I.NextGrows(w.integration, step);
    forall i | i in next.intents && OwnedBy(next, i, e) ensures Terminal(next.intents[i].state) {
      if i in l.intents {
        S.BoundOf(l, i);
        assert S.ReservationStep(l.reservations[l.intents[i].reservation], next.reservations[l.intents[i].reservation]);
        assert OwnedBy(l, i, e);
      } else {
        NewIntent(w, step, i);
      }
    }
  }

  lemma OthersIntegration(w: World, a: Action)
    requires !a.Integrate?
    ensures Next(w, a).integration == w.integration
  {
    if GateAction(a) { GateRowsSame(w, a); }
    else if CleanupAction(a) { CleanupRowsSame(w, a); }
    else if (CompletionAction(a) && !a.CompletionDecide?) { CallRowsSame(w, a); }
    else if a.CompletionDecide? { DecideKeepsIntegration(w, a); }
  }

  lemma DecideKeepsIntegration(w: World, a: Action)
    requires a.CompletionDecide?
    ensures Next(w, a).integration == w.integration && Next(w, a).workspaces == w.workspaces
    ensures Next(w, a).workspaceIntents == w.workspaceIntents && Next(w, a).cleanups == w.cleanups
  {
    hide GateSet, Proves, Underway;
  }

  /** A quiet execution stays quiet, whatever happens. */
  lemma QuietStays(w: World, a: Action, e: Id)
    requires H.Sound(w.integration) && GatesSafe(w.gates) && CapturesFit(w) && Quiet(w, e) && Possible(w, a)
    ensures Quiet(Next(w, a), e)
  {
    hide Next, H.Sound, GatesSafe, CapturesFit, Possible, ReservationFree, GatesDone, IntegrationDone;
    QuietRows(w, a, e);
    QuietGates(w, a, e);
    if a.Integrate? {
      QuietReservations(w, a.action, e);
      QuietIntents(w, a.action, e);
    } else {
      OthersIntegration(w, a);
      SameIntegration(w, Next(w, a), e);
    }
  }

  lemma SameIntegration(w: World, next: World, e: Id)
    requires next.integration == w.integration
    ensures ReservationFree(next, e) == ReservationFree(w, e) && IntegrationDone(next, e) == IntegrationDone(w, e)
  {
  }

  // ---------------------------------------------------------------- what cleanup steps do

  ghost predicate Dropped(w: World, next: World) {
    && next == w.(cleanups := next.cleanups)
    && forall c :: c in next.cleanups && next.cleanups[c].CleanupToAct? ==> c in w.cleanups && w.cleanups[c] == next.cleanups[c]
  }

  ghost predicate PreparedFor(w: World, a: Action, next: World)
    requires a.CleanupPrepare?
  {
    && StillBinds(w, a.capture, D.Completed) && TaskIn(w, a.capture.b.task, D.Completed)
    && a.cleanup !in w.workspaceIntents
    && next == w.(workspaceIntents :=
                    w.workspaceIntents[a.cleanup := WorkspaceIntent(a.capture.b.workspace, CleanupIntent, Pending)],
                  cleanups := w.cleanups[a.cleanup := CleanupToAct(a.capture.b)])
  }

  predicate InWorkspace(w: World, c: Id) {
    c in w.workspaceIntents && w.workspaceIntents[c].workspace in w.workspaces
  }

  ghost predicate ActedOn(w: World, c: Id, b: Binding, next: World) {
    && c in w.cleanups && w.cleanups[c] == CleanupToAct(b) && InWorkspace(w, c)
    && w.workspaceIntents[c].state == Pending && w.workspaceIntents[c].workspace == b.workspace && Binds(w, b, Ready)
    && (next == CleanupMove(w, c, Failed, None, None) ||
        (Quiescent(w, b, c, Pending) && next == CleanupMove(w, c, Executing, Some(Cleaning), Some(CleanupToCall(b)))))
  }

  ghost predicate MovedOn(
    w: World, c: Id, from: IntentState, state: IntentState, status: Option<WorkspaceStatus>,
    progress: Option<CleanupProgress>, next: World)
  {
    && BeingCleaned(w, c, from) && Cleans(from) && next == CleanupMove(w, c, state, status, progress)
    && (status.None? <==> Cleans(state)) && (progress.Some? ==> !progress.value.CleanupToAct?)
  }

  ghost predicate CleanupChange(w: World, a: Action, next: World)
    requires CleanupAction(a)
  {
    || Dropped(w, next)
    || (a.CleanupPrepare? && PreparedFor(w, a, next))
    || (a.CleanupAct? && exists b :: ActedOn(w, a.cleanup, b, next))
    || (exists from, state, status, progress :: MovedOn(w, a.cleanup, from, state, status, progress, next))
  }

  lemma ActChange(w: World, a: Action, b: Binding)
    requires a.CleanupAct? && a.cleanup in w.cleanups && w.cleanups[a.cleanup] == CleanupToAct(b)
    ensures var next := StepCleanupAct(w, a, b); Dropped(w, next) || ActedOn(w, a.cleanup, b, next)
  {
    hide Quiescent, CleanupMove;
  }

  lemma RecordChange(w: World, a: Action, result: CleanupResult)
    requires a.CleanupRecord?
    ensures var next := StepCleanupRecord(w, a, result);
            Dropped(w, next) || exists from, state, status, progress :: MovedOn(w, a.cleanup, from, state, status, progress, next)
  {
    hide CleanupMove, BeingCleaned;
    var next := StepCleanupRecord(w, a, result);
    if BeingCleaned(w, a.cleanup, Executing) {
      match result {
        case CleanupFailure(true) => assert MovedOn(w, a.cleanup, Executing, Unclear, Some(RecoveryRequired), None, next);
        case CleanupFailure(false) => assert MovedOn(w, a.cleanup, Executing, Failed, Some(Ready), None, next);
        case CleanupReceipt(true, succeeded) =>
          assert MovedOn(w, a.cleanup, Executing, Observed, None, Some(CleanupToVerify(succeeded)), next);
        case CleanupReceipt(false, _) => assert MovedOn(w, a.cleanup, Executing, Unclear, Some(RecoveryRequired), None, next);
      }
    }
  }

  lemma VerifyChange(w: World, a: Action, succeeded: bool)
    requires a.CleanupVerify?
    ensures var next := StepCleanupVerify(w, a, succeeded);
            Dropped(w, next) || exists from, state, status, progress :: MovedOn(w, a.cleanup, from, state, status, progress, next)
  {
    hide CleanupMove, BeingCleaned;
    var next := StepCleanupVerify(w, a, succeeded);
    if BeingCleaned(w, a.cleanup, Observed) {
      assert MovedOn(w, a.cleanup, Observed, Verified, None, Some(CleanupToFinalize(succeeded)), next);
    }
  }

  lemma FinalizeChange(w: World, a: Action, succeeded: bool)
    requires a.CleanupFinalize?
    ensures var next := StepCleanupFinalize(w, a, succeeded);
            Dropped(w, next) || exists from, state, status, progress :: MovedOn(w, a.cleanup, from, state, status, progress, next)
  {
    hide CleanupMove, BeingCleaned;
    var next := StepCleanupFinalize(w, a, succeeded);
    if BeingCleaned(w, a.cleanup, Verified) {
      if a.granted {
        assert MovedOn(w, a.cleanup, Verified, Finalized, Some(if succeeded then Cleaned else Ready), None, next);
      } else {
        assert MovedOn(w, a.cleanup, Verified, Unclear, Some(RecoveryRequired), None, next);
      }
    }
  }

  lemma PrepareChange(w: World, a: Action)
    requires a.CleanupPrepare?
    ensures var next := StepCleanupPrepare(w, a); next == w || PreparedFor(w, a, next)
  {
    hide CleanupEvidence, StillBinds, TaskIn;
  }

  lemma CallChange(w: World, a: Action, b: Binding)
    requires a.CleanupCall?
    ensures Dropped(w, StepCleanupCall(w, a, b))
  {
    hide Quiescent, Binds, BeingCleaned, Dropped;
    SameDropped(w, a.cleanup);
    CalledDropped(w, a.cleanup, a.cleanupResult);
  }

  lemma CalledDropped(w: World, c: Id, result: CleanupResult)
    ensures Dropped(w, w.(cleanups := w.cleanups[c := CleanupCalled(result)]))
  {
  }

  lemma SameDropped(w: World, c: Id)
    ensures Dropped(w, w) && Dropped(w, w.(cleanups := w.cleanups - {c}))
  {
  }

  lemma NextCleanupChange(w: World, a: Action)
    requires CleanupAction(a)
    ensures CleanupChange(w, a, NextCleanup(w, a))
  {
    hide Dropped, PreparedFor, ActedOn, MovedOn, StepCleanupAct, StepCleanupPrepare, StepCleanupCall, StepCleanupRecord,
         StepCleanupVerify, StepCleanupFinalize;
    SameDropped(w, a.cleanup);
    if a.CleanupPrepare? { PrepareChange(w, a); }
    if a.cleanup in w.cleanups {
      match w.cleanups[a.cleanup] {
        case CleanupToAct(b) => if a.CleanupAct? { ActChange(w, a, b); }
        case CleanupToCall(b) => if a.CleanupCall? { CallChange(w, a, b); }
        case CleanupCalled(result) => if a.CleanupRecord? { RecordChange(w, a, result); }
        case CleanupToVerify(succeeded) => if a.CleanupVerify? { VerifyChange(w, a, succeeded); }
        case CleanupToFinalize(succeeded) => if a.CleanupFinalize? { FinalizeChange(w, a, succeeded); }
      }
    }
  }

  /** The four shapes of a cleanup step, for proofs by cases. */
  datatype Shape =
    | Unmoved
    | Newly
    | Acting(b: Binding)
    | Moving(from: IntentState, state: IntentState, status: Option<WorkspaceStatus>, progress: Option<CleanupProgress>)

  ghost predicate HasShape(w: World, a: Action, next: World, shape: Shape)
    requires CleanupAction(a)
  {
    match shape
    case Unmoved => Dropped(w, next)
    case Newly => a.CleanupPrepare? && PreparedFor(w, a, next)
    case Acting(b) => a.CleanupAct? && ActedOn(w, a.cleanup, b, next)
    case Moving(from, state, status, progress) => MovedOn(w, a.cleanup, from, state, status, progress, next)
  }

  lemma ShapeOf(w: World, a: Action) returns (shape: Shape)
    requires CleanupAction(a)
    ensures HasShape(w, a, Next(w, a), shape)
  {
    hide Dropped, PreparedFor, ActedOn, MovedOn, NextGate, NextCompletion, NextEnv, NextCleanup;
    NextCleanupChange(w, a);
    var next := Next(w, a);
    if Dropped(w, next) {
      shape := Unmoved;
    } else if a.CleanupPrepare? && PreparedFor(w, a, next) {
      shape := Newly;
    } else if b :| a.CleanupAct? && ActedOn(w, a.cleanup, b, next) {
      shape := Acting(b);
    } else {
      var from, state, status, progress :| MovedOn(w, a.cleanup, from, state, status, progress, next);
      shape := Moving(from, state, status, progress);
    }
  }

  lemma MoveRows(
    w: World, c: Id, state: IntentState, status: Option<WorkspaceStatus>, progress: Option<CleanupProgress>)
    requires InWorkspace(w, c)
    ensures var next := CleanupMove(w, c, state, status, progress);
            var x := w.workspaceIntents[c].workspace;
            && next.workspaceIntents == w.workspaceIntents[c := w.workspaceIntents[c].(state := state)]
            && next.workspaces.Keys == w.workspaces.Keys
            && (forall y :: y in w.workspaces && y != x ==> next.workspaces[y] == w.workspaces[y])
            && (status.None? ==> next.workspaces == w.workspaces)
            && next.workspaces[x].execution == w.workspaces[x].execution
            && (status.Some? ==> next.workspaces[x].status == status.value)
            && next.cleanups == if progress.None? then w.cleanups - {c} else w.cleanups[c := progress.value]
  {
  }

  /** Only the intent a cleanup step is about changes, and it keeps its workspace and kind. */
  ghost predicate OwnIntentOnly(w: World, next: World, c: Id) {
    && (forall i :: i != c ==> (i in next.workspaceIntents <==> i in w.workspaceIntents))
    && (forall i :: i != c && i in w.workspaceIntents ==> next.workspaceIntents[i] == w.workspaceIntents[i])
    && (c in w.workspaceIntents ==>
          && c in next.workspaceIntents
          && next.workspaceIntents[c] == w.workspaceIntents[c].(state := next.workspaceIntents[c].state))
    && next.workspaces.Keys == w.workspaces.Keys
    && (forall x :: x in w.workspaces ==> next.workspaces[x].execution == w.workspaces[x].execution)
  }

  lemma ShapeRows(w: World, a: Action, next: World, shape: Shape)
    requires CleanupAction(a) && HasShape(w, a, next, shape)
    ensures OwnIntentOnly(w, next, a.cleanup)
  {
    hide CleanupMove, Quiescent, StillBinds, Binds, BeingCleaned;
    match shape {
      case Unmoved =>
      case Newly =>
      case Acting(b) =>
        MoveRows(w, a.cleanup, Failed, None, None);
        MoveRows(w, a.cleanup, Executing, Some(Cleaning), Some(CleanupToCall(b)));
      case Moving(from, state, status, progress) =>
        InCleaning(w, a.cleanup, from);
        MoveRows(w, a.cleanup, state, status, progress);
    }
  }

  lemma InCleaning(w: World, c: Id, from: IntentState)
    requires BeingCleaned(w, c, from)
    ensures InWorkspace(w, c) && w.workspaceIntents[c].state == from
    ensures w.workspaces[w.workspaceIntents[c].workspace].status == Cleaning
  {
  }

  lemma ShapeCleanups(w: World, a: Action, next: World, shape: Shape, c: Id)
    requires CleanupAction(a) && HasShape(w, a, next, shape) && c in next.cleanups && next.cleanups[c].CleanupToAct?
    ensures (c in w.cleanups && w.cleanups[c] == next.cleanups[c]) || (shape.Newly? && a.cleanup == c)
  {
    hide CleanupMove, Quiescent, StillBinds, Binds, BeingCleaned;
    match shape {
      case Unmoved =>
      case Newly =>
      case Acting(b) =>
        MoveRows(w, a.cleanup, Failed, None, None);
        MoveRows(w, a.cleanup, Executing, Some(Cleaning), Some(CleanupToCall(b)));
      case Moving(from, state, status, progress) =>
        InCleaning(w, a.cleanup, from);
        MoveRows(w, a.cleanup, state, status, progress);
    }
  }

  lemma NewlyReady(w: World, a: Action, next: World)
    requires a.CleanupPrepare? && PreparedFor(w, a, next)
    ensures ReadyToClean(next, a.cleanup, a.capture.b) && next.cleanups[a.cleanup] == CleanupToAct(a.capture.b)
  {
  }

  // ---------------------------------------------------------------- cleanups about to act

  /** A cleanup about to act was prepared for a completed task, and still is. */
  ghost predicate CleanupsFit(w: World) {
    forall c :: c in w.cleanups && w.cleanups[c].CleanupToAct? ==> ReadyToClean(w, c, w.cleanups[c].b)
  }

  ghost predicate ReadyToClean(w: World, c: Id, b: Binding) {
    && b.execution in w.executions && w.executions[b.execution].task == b.task && TaskIn(w, b.task, D.Completed)
    && c in w.workspaceIntents && w.workspaceIntents[c].kind == CleanupIntent && w.workspaceIntents[c].workspace == b.workspace
  }

  /** Intents keep their workspace and kind. */
  ghost predicate IntentsStay(w: World, next: World) {
    forall c :: c in w.workspaceIntents ==>
      && c in next.workspaceIntents && next.workspaceIntents[c].kind == w.workspaceIntents[c].kind
      && next.workspaceIntents[c].workspace == w.workspaceIntents[c].workspace
  }

  lemma CleanupIntentsStay(w: World, a: Action)
    requires CleanupAction(a)
    ensures IntentsStay(w, Next(w, a))
    ensures forall c :: c in Next(w, a).cleanups && Next(w, a).cleanups[c].CleanupToAct? ==>
              (c in w.cleanups && w.cleanups[c] == Next(w, a).cleanups[c]) ||
              ReadyToClean(Next(w, a), c, Next(w, a).cleanups[c].b)
  {
    hide Next, HasShape, ReadyToClean;
    var next := Next(w, a);
    var shape := ShapeOf(w, a);
    ShapeRows(w, a, next, shape);
    forall c | c in next.cleanups && next.cleanups[c].CleanupToAct?
      ensures (c in w.cleanups && w.cleanups[c] == next.cleanups[c]) || ReadyToClean(next, c, next.cleanups[c].b)
    {
      ShapeCleanups(w, a, next, shape, c);
      if shape.Newly? && a.cleanup == c { NewlyShaped(w, a, next, shape); }
    }
  }

  lemma NewlyShaped(w: World, a: Action, next: World, shape: Shape)
    requires CleanupAction(a) && HasShape(w, a, next, shape) && shape.Newly?
    ensures a.CleanupPrepare? && ReadyToClean(next, a.cleanup, a.capture.b)
    ensures a.cleanup in next.cleanups && next.cleanups[a.cleanup] == CleanupToAct(a.capture.b)
  {
    NewlyReady(w, a, next);
  }

  lemma CompletionKeepsWorkspaces(w: World, a: Action)
    requires CompletionAction(a)
    ensures Next(w, a).workspaces == w.workspaces && Next(w, a).workspaceIntents == w.workspaceIntents
    ensures Next(w, a).cleanups == w.cleanups
  {
    hide Next;
    if a.CompletionDecide? { DecideKeepsIntegration(w, a); } else { CallRowsSame(w, a); }
  }

  lemma OtherCleanupsSame(w: World, a: Action)
    requires !CleanupAction(a)
    ensures Next(w, a).cleanups == w.cleanups
    ensures Possible(w, a) ==> IntentsStay(w, Next(w, a))
  {
    if GateAction(a) {
      GateRowsSame(w, a);
    } else if CompletionAction(a) {
      CompletionKeepsWorkspaces(w, a);
    } else {
      EnvCleanupsSame(w, a);
    }
  }

  lemma EnvCleanupsSame(w: World, a: Action)
    requires !CleanupAction(a) && !GateAction(a) && !CompletionAction(a)
    ensures Next(w, a).cleanups == w.cleanups
    ensures Possible(w, a) ==> IntentsStay(w, Next(w, a))
  {
    hide I.Next, I.Possible, Faithful;
  }

  lemma CleanupsKept(w: World, a: Action)
    requires CleanupsFit(w) && Possible(w, a)
    ensures CleanupsFit(Next(w, a))
  {
    hide Next, Possible;
    NextRowsGrow(w, a);
    if CleanupAction(a) { CleanupIntentsStay(w, a); } else { OtherCleanupsSame(w, a); }
    forall c | c in Next(w, a).cleanups && Next(w, a).cleanups[c].CleanupToAct?
      ensures ReadyToClean(Next(w, a), c, Next(w, a).cleanups[c].b)
    {
    }
  }

  // ---------------------------------------------------------------- cleaning stays quiet

  /** The workspace row and the intents of a workspace being cleaned are left alone. */
  ghost predicate LeftAlone(w: World, next: World, i: Id)
    requires i in w.workspaceIntents
  {
    var x := w.workspaceIntents[i].workspace;
    && i in next.workspaceIntents && next.workspaceIntents[i] == w.workspaceIntents[i]
    && x in w.workspaces && x in next.workspaces && next.workspaces[x] == w.workspaces[x]
    && OnlyIntent(next, x, i, w.workspaceIntents[i].state)
  }

  lemma OtherMove(
    w: World, i: Id, c: Id, state: IntentState, status: Option<WorkspaceStatus>, progress: Option<CleanupProgress>)
    requires i in w.workspaceIntents && CleanedFor(w, i) && c != i && InWorkspace(w, c)
    requires w.workspaceIntents[c].workspace != w.workspaceIntents[i].workspace
    ensures LeftAlone(w, CleanupMove(w, c, state, status, progress), i)
  {
    hide Quiet;
  }

  /** A step of another cleanup leaves a workspace that is being cleaned alone. */
  lemma OtherCleanup(w: World, a: Action, i: Id)
    requires CleanupAction(a) && i in w.workspaceIntents && CleanedFor(w, i) && Cleans(w.workspaceIntents[i].state)
    requires a.cleanup != i
    ensures LeftAlone(w, Next(w, a), i)
  {
    hide Next, CleanupMove, Quiet, Quiescent;
    var shape := ShapeOf(w, a);
    match shape {
      case Unmoved =>
      case Newly =>
      case Acting(b) =>
        OtherMove(w, i, a.cleanup, Failed, None, None);
        OtherMove(w, i, a.cleanup, Executing, Some(Cleaning), Some(CleanupToCall(b)));
      case Moving(from, state, status, progress) => OtherMove(w, i, a.cleanup, state, status, progress);
    }
  }

  lemma EnvAlone(w: World, a: Action, i: Id)
    requires !CleanupAction(a) && i in w.workspaceIntents && CleanedFor(w, i) && w.workspaceIntents[i].kind == CleanupIntent
    requires Possible(w, a)
    ensures LeftAlone(w, Next(w, a), i)
  {
    hide NextGate, NextCompletion, I.Next, I.Possible, Faithful, Quiet;
    if GateAction(a) {
      GateRowsSame(w, a);
    } else if CompletionAction(a) {
      CompletionKeepsWorkspaces(w, a);
    }
  }

  /** An intent that cleans after its own step was cleaning before it, or has just acted on a quiet execution. */
  lemma OwnStep(w: World, a: Action, i: Id)
    requires CleanupAction(a) && a.cleanup == i && CleanupsFit(w)
    requires i in w.workspaceIntents ==> Cleans(w.workspaceIntents[i].state) ==> CleanedFor(w, i)
    requires i in Next(w, a).workspaceIntents && Cleans(Next(w, a).workspaceIntents[i].state)
    ensures var next := Next(w, a);
            var x := next.workspaceIntents[i].workspace;
            && x in w.workspaces && Quiet(w, w.workspaces[x].execution)
            && x in next.workspaces && next.workspaces[x].status == Cleaning
            && OnlyIntent(next, x, i, next.workspaceIntents[i].state)
  {
    hide Next, Quiet, Quiescent, CleanupMove, CleanupsFit;
    var next := Next(w, a);
    var shape := ShapeOf(w, a);
    match shape {
      case Unmoved =>
      case Newly =>
      case Acting(b) =>
        MoveRows(w, i, Failed, None, None);
        MoveRows(w, i, Executing, Some(Cleaning), Some(CleanupToCall(b)));
        ActsOnQuiet(w, i, b, next);
      case Moving(from, state, status, progress) => MoveRows(w, i, state, status, progress);
    }
  }

  /** A cleanup that goes ahead has checked that everything is quiet. */
  lemma ActsOnQuiet(w: World, i: Id, b: Binding, next: World)
    requires ActedOn(w, i, b, next) && CleanupsFit(w)
    requires i in next.workspaceIntents && next.workspaceIntents[i].state == Executing
    ensures b.workspace in w.workspaces && Quiet(w, w.workspaces[b.workspace].execution)
    ensures OnlyIntent(w, b.workspace, i, Pending)
  {
    hide CleanupMove, WasReserved, ReservationFree, GatesDone, IntegrationDone;
    MoveRows(w, i, Failed, None, None);
  }

  lemma CleaningBefore(w: World, a: Action, i: Id)
    requires Possible(w, a) && i in Next(w, a).workspaceIntents && Cleans(Next(w, a).workspaceIntents[i].state)
    requires Next(w, a).workspaceIntents[i].kind == CleanupIntent
    requires !CleanupAction(a) || a.cleanup != i
    ensures i in w.workspaceIntents && w.workspaceIntents[i] == Next(w, a).workspaceIntents[i]
  {
    if CleanupAction(a) {
      OthersBefore(w, a, i);
    } else if GateAction(a) {
      GateRowsSame(w, a);
    } else if CompletionAction(a) {
      CompletionKeepsWorkspaces(w, a);
    } else {
      CleaningBeforeEnv(w, a, i);
    }
  }

  lemma OthersBefore(w: World, a: Action, i: Id)
    requires CleanupAction(a) && a.cleanup != i && i in Next(w, a).workspaceIntents
    ensures i in w.workspaceIntents && w.workspaceIntents[i] == Next(w, a).workspaceIntents[i]
  {
    hide Next, HasShape;
    var shape := ShapeOf(w, a);
    ShapeRows(w, a, Next(w, a), shape);
  }

  lemma CleaningBeforeEnv(w: World, a: Action, i: Id)
    requires Possible(w, a) && !CleanupAction(a) && !GateAction(a) && !CompletionAction(a)
    requires i in Next(w, a).workspaceIntents && Next(w, a).workspaceIntents[i].kind == CleanupIntent
    ensures i in w.workspaceIntents && w.workspaceIntents[i] == Next(w, a).workspaceIntents[i]
  {
    hide I.Next, I.Possible, Faithful;
  }

  lemma OwnKind(w: World, a: Action, i: Id)
    requires CleanupAction(a) && i in w.workspaceIntents
    ensures i in Next(w, a).workspaceIntents && Next(w, a).workspaceIntents[i].kind == w.workspaceIntents[i].kind
  {
    hide Next;
    CleanupIntentsStay(w, a);
  }

  lemma CleaningKeptFor(w: World, a: Action, i: Id)
    requires H.Sound(w.integration) && GatesSafe(w.gates) && CapturesFit(w) && CleanupsFit(w) && QuietWhileCleaning(w)
    requires Possible(w, a)
    requires i in Next(w, a).workspaceIntents && Cleans(Next(w, a).workspaceIntents[i].state)
    requires Next(w, a).workspaceIntents[i].kind == CleanupIntent
    ensures CleanedFor(Next(w, a), i)
  {
    hide Next, H.Sound, GatesSafe, CapturesFit, CleanupsFit, Possible, Quiet, OnlyIntent;
    var x := Next(w, a).workspaceIntents[i].workspace;
    if CleanupAction(a) && a.cleanup == i {
      if i in w.workspaceIntents { OwnKind(w, a, i); }
      OwnStep(w, a, i);
    } else {
      CleaningBefore(w, a, i);
      assert CleanedFor(w, i);
      if CleanupAction(a) { OtherCleanup(w, a, i); } else { EnvAlone(w, a, i); }
    }
    QuietStays(w, a, w.workspaces[x].execution);
    ExecutionsOf(w, a, x);
  }

  lemma ExecutionsOf(w: World, a: Action, x: Id)
    requires x in w.workspaces && x in Next(w, a).workspaces && Possible(w, a)
    ensures Next(w, a).workspaces[x].execution == w.workspaces[x].execution
  {
    if CleanupAction(a) {
      ExecutionsOfCleanup(w, a, x);
    } else if GateAction(a) {
      GateRowsSame(w, a);
    } else if CompletionAction(a) {
      CompletionKeepsWorkspaces(w, a);
    } else {
      ExecutionsOfEnv(w, a, x);
    }
  }

  lemma ExecutionsOfCleanup(w: World, a: Action, x: Id)
    requires CleanupAction(a) && x in w.workspaces && x in Next(w, a).workspaces
    ensures Next(w, a).workspaces[x].execution == w.workspaces[x].execution
  {
    hide Next, HasShape;
    var shape := ShapeOf(w, a);
    ShapeRows(w, a, Next(w, a), shape);
  }

  lemma ExecutionsOfEnv(w: World, a: Action, x: Id)
    requires !CleanupAction(a) && !GateAction(a) && !CompletionAction(a)
    requires x in w.workspaces && x in Next(w, a).workspaces && Possible(w, a)
    ensures Next(w, a).workspaces[x].execution == w.workspaces[x].execution
  {
    hide I.Next, I.Possible, Faithful;
  }

  lemma CleaningKept(w: World, a: Action)
    requires H.Sound(w.integration) && GatesSafe(w.gates) && CapturesFit(w) && CleanupsFit(w) && QuietWhileCleaning(w)
    requires Possible(w, a)
    ensures QuietWhileCleaning(Next(w, a))
  {
    hide Next, H.Sound, GatesSafe, CapturesFit, CleanupsFit, Possible, CleanedFor;
    var next := Next(w, a);
    forall i | i in next.workspaceIntents && next.workspaceIntents[i].kind == CleanupIntent &&
               Cleans(next.workspaceIntents[i].state)
      ensures CleanedFor(next, i)
    {
      CleaningKeptFor(w, a, i);
    }
  }
}
