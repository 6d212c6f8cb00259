/**
 Two runs of the machine of module Phase3Model.  In one, a gate passes while an execution is being completed, and its
 workspace comes to be cleaned.  In the other, completion itself leaves a gate behind that can never end, and with it a
 workspace that can never be cleaned, though nothing crashed and nothing was left unclear.
 */
module Phase3Example {
  import opened Options
  import opened IntegrationModel
  import opened GateModel
  import opened Phase3Model
  import opened Phase3Reach
  import D = DomainModel
  import DM = DomainMutations
  import I = IntegrationRuns
  import IT = IntegrationTheorems
  import R = IntegrationReach
  import L = Phase3Release
  import T = Phase3Theorems

  predicate Leads(w: World, a: Action, next: World) {
    Possible(w, a) && Next(w, a) == next
  }

  lemma LeadsLater(w: World, a: Action, next: World, rest: seq<Action>)
    requires Leads(w, a, next) && AllPossible(next, rest)
    ensures AllPossible(w, [a] + rest) && After(w, [a] + rest) == After(next, rest)
  {
    hide Next, Possible;
    Prepended(w, a, rest);
  }

  // ---------------------------------------------------------------- a task, its execution, its workspace, a policy

  const B: Binding := Binding(1, 1, 2, 1, 3, 1)
  const RUNNING: Capture := Capture(B, D.Running)

  const HAS_TASK: World := START.(tasks := map[1 := TaskRow(D.Running, 1)])
  const HAS_EXECUTION: World := HAS_TASK.(executions := map[2 := ExecutionRow(1, 1, false, false, None)])
  const HAS_WORKSPACE: World := HAS_EXECUTION.(workspaces := map[3 := WorkspaceRow(1, 2, 1, Ready)])

  function Founded(policy: PolicyRow): World {
    HAS_WORKSPACE.(policies := map[4 := policy])
  }

  function Read(policy: PolicyRow): World {
    Founded(policy).(captures := {RUNNING})
  }

  lemma FoundsTask()
    ensures Leads(START, EnvTask(1, TaskRow(D.Running, 1)), HAS_TASK)
  {
  }

  lemma FoundsExecution()
    ensures Leads(HAS_TASK, EnvExecution(2, ExecutionRow(1, 1, false, false, None)), HAS_EXECUTION)
  {
  }

  lemma FoundsWorkspace()
    ensures Leads(HAS_EXECUTION, EnvWorkspace(3, WorkspaceRow(1, 2, 1, Ready)), HAS_WORKSPACE)
  {
  }

  lemma FoundsPolicy(policy: PolicyRow)
    ensures Leads(HAS_WORKSPACE, EnvPolicy(4, policy), Founded(policy))
  {
  }

  lemma Reads(policy: PolicyRow)
    ensures Leads(Founded(policy), Preflight(RUNNING), Read(policy))
  {
    hide NextGate, NextCleanup, NextCompletion;
    assert {} + {RUNNING} == {RUNNING};
  }

  function Founding(policy: PolicyRow): seq<Action> {
    [EnvTask(1, TaskRow(D.Running, 1))] + ([EnvExecution(2, ExecutionRow(1, 1, false, false, None))] +
      ([EnvWorkspace(3, WorkspaceRow(1, 2, 1, Ready))] + ([EnvPolicy(4, policy)] + ([Preflight(RUNNING)] + []))))
  }

  lemma Founds(policy: PolicyRow)
    ensures AllPossible(START, Founding(policy)) && After(START, Founding(policy)) == Read(policy)
  {
    hide Leads;
    FoundsTask(); FoundsExecution(); FoundsWorkspace(); FoundsPolicy(policy); Reads(policy);
    LeadsLater(Founded(policy), Preflight(RUNNING), Read(policy), []);
    LeadsLater(HAS_WORKSPACE, EnvPolicy(4, policy), Founded(policy), [Preflight(RUNNING)] + []);
    LeadsLater(HAS_EXECUTION, EnvWorkspace(3, WorkspaceRow(1, 2, 1, Ready)), HAS_WORKSPACE,
               [EnvPolicy(4, policy)] + ([Preflight(RUNNING)] + []));
    LeadsLater(HAS_TASK, EnvExecution(2, ExecutionRow(1, 1, false, false, None)), HAS_EXECUTION,
               [EnvWorkspace(3, WorkspaceRow(1, 2, 1, Ready))] + ([EnvPolicy(4, policy)] + ([Preflight(RUNNING)] + [])));
    LeadsLater(START, EnvTask(1, TaskRow(D.Running, 1)), HAS_TASK,
               [EnvExecution(2, ExecutionRow(1, 1, false, false, None))] + ([EnvWorkspace(3, WorkspaceRow(1, 2, 1, Ready))] +
                 ([EnvPolicy(4, policy)] + ([Preflight(RUNNING)] + []))));
  }

  // ---------------------------------------------------------------- completing

  lemma Starts(w: World)
    requires w.calls == map[] && StillBinds(w, RUNNING, D.Running)
    ensures Leads(w, CompletionStart(6, RUNNING, 4),
                  w.(calls := w.calls[6 := CompletionCall(B, 4, |w.gateLog|, {}, {}, None)]))
  {
    hide StillBinds;
  }

  /** A call whose evidence is complete. */
  ghost predicate Evidenced(w: World, call: CompletionCall, chosen: seq<Id>, now: nat) {
    && Underway(w, call.b) && Attempting(w, call.b.execution) && call.policy in w.policies
    && GateSet(w.gates, w.policies[call.policy].requiredGates, call.b, call.policy, now) == Some(chosen)
    && |chosen| == |call.reopened| && (forall i :: i in chosen ==> i in call.reopened)
    && Proves(w.integration.ledger, call.b, w.policies[call.policy], NotRequired)
  }

  function Refreshing(w: World, call: CompletionCall, chosen: seq<Id>, now: nat): World {
    w.(calls := w.calls[6 := call.(refreshed := Some(Refreshed(chosen, NotRequired, now)))])
  }

  lemma Refreshes(w: World, call: CompletionCall, chosen: seq<Id>, now: nat)
    requires 6 in w.calls && w.calls[6] == call && Evidenced(w, call, chosen, now)
    ensures Leads(w, CompletionRefresh(6, NotRequired, now), Refreshing(w, call, chosen, now))
  {
    hide GateSet, Proves, Underway, NextGate, NextCleanup, NextEnv;
  }

  lemma StillEvidenced(w: World, call: CompletionCall, chosen: seq<Id>, now: nat)
    requires Evidenced(w, call, chosen, now)
    ensures Evidenced(Refreshing(w, call, chosen, now), call, chosen, now)
  {
    hide GateSet, Proves;
  }

  function Deciding(w: World, call: CompletionCall, chosen: seq<Id>, now: nat): World
    requires call.b.execution in w.executions
  {
    w.(decisions := w.decisions[call.b.execution := Decision(call.b, call.policy, chosen, NotRequired, now, call.since)],
       tasks := w.tasks[call.b.task := TaskRow(D.Completed, call.b.taskRevision + 1)],
       executions := w.executions[call.b.execution := w.executions[call.b.execution].(terminal := Some(CompletedStatus))])
  }

  lemma Decides(w: World, call: CompletionCall, chosen: seq<Id>, now: nat)
    requires Evidenced(w, call, chosen, now)
    requires var v := Refreshing(w, call, chosen, now); 6 in v.calls
    ensures call.b.execution in w.executions
    ensures var v := Refreshing(w, call, chosen, now);
            Leads(v, CompletionDecide(6, NotRequired, true), Deciding(v, call, chosen, now))
  {
    hide GateSet, Proves, NextGate, NextCleanup, NextEnv;
    StillEvidenced(w, call, chosen, now);
    DecidesNow(Refreshing(w, call, chosen, now), call, chosen, now);
  }

  lemma DecidesNow(v: World, call: CompletionCall, chosen: seq<Id>, now: nat)
    requires Evidenced(v, call, chosen, now) && call.b.execution in v.executions
    requires 6 in v.calls && v.calls[6] == call.(refreshed := Some(Refreshed(chosen, NotRequired, now)))
    ensures Leads(v, CompletionDecide(6, NotRequired, true), Deciding(v, call, chosen, now))
  {
    hide GateSet, Proves, Underway, NextGate, NextCleanup, NextEnv;
  }

  // ---------------------------------------------------------------- runs

  lemma {:induction false} RunOf(w: World, actions: seq<Action>) returns (worlds: seq<World>)
    requires AllPossible(w, actions)
    ensures |worlds| == |actions| + 1 && worlds[0] == w && worlds[|actions|] == After(w, actions)
    ensures forall k :: 0 <= k < |actions| ==> Possible(worlds[k], actions[k]) && worlds[k + 1] == Next(worlds[k], actions[k])
    decreases |actions|
  {
    hide Next, Possible;
    if actions == [] { return [w]; }
    var rest := RunOf(Next(w, actions[0]), actions[1..]);
    worlds := [w] + rest;
    forall k | 0 <= k < |actions|
      ensures Possible(worlds[k], actions[k]) && worlds[k + 1] == Next(worlds[k], actions[k])
    {
      if k > 0 { assert worlds[k] == rest[k - 1] && actions[k] == actions[1..][k - 1]; }
    }
  }

  // ---------------------------------------------------------------- a gate that completion leaves behind

  const LAX: PolicyRow := PolicyRow([], false, false)
  const LEAVE: Action := GatePrepare(7, 8, RunGate, RUNNING, 4, 5, true, true, None)
  const LEFT_GATE: GateIntent := GateIntent(8, RunGate, B, 4, 5, Pending, 1)

  const LEFT: World := Read(LAX).(
    gates := NO_GATES.(order := [7], keys := {8}, intents := map[7 := LEFT_GATE]),
    gateProcesses := map[7 := GateToAct], gateLog := [Prepared(7)])

  const LAX_CALL: CompletionCall := CompletionCall(B, 4, 1, {}, {}, None)
  const LAX_CALLED: World := LEFT.(calls := map[6 := LAX_CALL])
  const LAX_REFRESHED: World := Refreshing(LAX_CALLED, LAX_CALL, [], 9)
  const LAX_DECIDED: World := Deciding(LAX_REFRESHED, LAX_CALL, [], 9)

  lemma Leaves()
    ensures Leads(Read(LAX), LEAVE, LEFT)
  {
    assert StillBinds(Read(LAX), RUNNING, D.Running);
    assert PrepareGate(NO_GATES, 7, 8, RunGate, B, 4, 5, true, true, true) == GateStep(LEFT.gates, Done);
  }

  lemma LaxCalls()
    ensures Leads(LEFT, CompletionStart(6, RUNNING, 4), LAX_CALLED)
  {
    Starts(LEFT);
  }

  lemma LaxEvidence()
    ensures Evidenced(LAX_CALLED, LAX_CALL, [], 9)
  {
  }

  lemma LaxDecides()
    ensures Leads(LAX_CALLED, CompletionRefresh(6, NotRequired, 9), LAX_REFRESHED)
    ensures Leads(LAX_REFRESHED, CompletionDecide(6, NotRequired, true), LAX_DECIDED)
  {
    hide Evidenced, Leads;
    LaxEvidence();
    Refreshes(LAX_CALLED, LAX_CALL, [], 9);
    Decides(LAX_CALLED, LAX_CALL, [], 9);
  }

  lemma LeftBehind()
    ensures AtRest(LAX_DECIDED, 2, 3) && LAX_DECIDED.gates.intents == map[7 := LEFT_GATE]
    ensures LAX_DECIDED.workspaceIntents == map[] && !Cleanable(LAX_DECIDED, 2, 3)
  {
    assert OpenGate(LAX_DECIDED, 2, 7) && !GateEnds(LAX_DECIDED, 7);
  }

  const LEAVING: seq<Action> :=
    [LEAVE] + ([CompletionStart(6, RUNNING, 4)] + ([CompletionRefresh(6, NotRequired, 9)] +
      ([CompletionDecide(6, NotRequired, true)] + [])))

  lemma LeavingLeads()
    ensures AllPossible(Read(LAX), LEAVING) && After(Read(LAX), LEAVING) == LAX_DECIDED
  {
    hide Leads;
    Leaves(); LaxCalls(); LaxDecides();
    LeadsLater(LAX_REFRESHED, CompletionDecide(6, NotRequired, true), LAX_DECIDED, []);
    LeadsLater(LAX_CALLED, CompletionRefresh(6, NotRequired, 9), LAX_REFRESHED, [CompletionDecide(6, NotRequired, true)] + []);
    LeadsLater(LEFT, CompletionStart(6, RUNNING, 4), LAX_CALLED,
               [CompletionRefresh(6, NotRequired, 9)] + ([CompletionDecide(6, NotRequired, true)] + []));
    LeadsLater(Read(LAX), LEAVE, LEFT,
               [CompletionStart(6, RUNNING, 4)] + ([CompletionRefresh(6, NotRequired, 9)] +
                 ([CompletionDecide(6, NotRequired, true)] + [])));
  }

  /**
   A run of nine actions after which an execution is completed and its workspace ready, with one gate pending and
   nothing unclear; and no continuation ever cleans the workspace.
   */
  lemma CompletionLeavesGateBehind()
    ensures exists worlds: seq<World>, actions: seq<Action> ::
              && Run(worlds, actions) && |actions| == 9 && (forall a :: a in actions ==> !a.GateCrash? && !a.CleanupCrash?)
              && AtRest(worlds[9], 2, 3) && worlds[9].gates.intents == map[7 := LEFT_GATE]
              && worlds[9].workspaceIntents == map[]
              && forall more :: AllPossible(worlds[9], more) ==> !CleaningAt(After(worlds[9], more), 3)
  {
    hide Next, Possible, AllPossible, After, Cleanable, AtRest, CleaningAt;
    var actions := Founding(LAX) + LEAVING;
    Founds(LAX);
    LeavingLeads();
    Appended(START, Founding(LAX), LEAVING);
    var worlds := RunOf(START, actions);
    LeftBehind();
    NoCrashes();
    assert Run(worlds, actions) && worlds[9] == LAX_DECIDED;
    CleanedExactly(worlds, actions, 9, 2, 3);
    assert forall more :: AllPossible(worlds[9], more) ==> !CleaningAt(After(worlds[9], more), 3);
  }

  lemma NoCrashes()
    ensures |Founding(LAX) + LEAVING| == 9
    ensures forall a :: a in Founding(LAX) + LEAVING ==> !a.GateCrash? && !a.CleanupCrash?
  {
  }

  const CRASHED: World := LEFT.(gateProcesses := map[])

  lemma Crashes()
    ensures Leads(LEFT, GateCrash(7), CRASHED) && T.Blocked(CRASHED, 7)
  {
    assert LEFT.gateProcesses - {7} == map[];
  }

  /** A run in which the operation of a gate crashes, so that the gate blocks every cleaning of its execution. */
  lemma CrashBlocks()
    ensures exists worlds: seq<World>, actions: seq<Action> :: Run(worlds, actions) && |actions| == 7 && T.Blocked(worlds[7], 7)
  {
    hide Next, Possible, AllPossible, After, T.Blocked, Leads;
    var last := [LEAVE] + ([GateCrash(7)] + []);
    Founds(LAX);
    Leaves();
    Crashes();
    NothingMore(CRASHED);
    LeadsLater(LEFT, GateCrash(7), CRASHED, []);
    LeadsLater(Read(LAX), LEAVE, LEFT, [GateCrash(7)] + []);
    Appended(START, Founding(LAX), last);
    var actions := Founding(LAX) + last;
    var worlds := RunOf(START, actions);
    assert Run(worlds, actions) && worlds[7] == CRASHED;
  }

  lemma NothingMore(w: World)
    ensures AllPossible(w, []) && After(w, []) == w
  {
  }

  // ---------------------------------------------------------------- a gate that passes, and a workspace that is cleaned

  const STRICT: PolicyRow := PolicyRow([5], false, false)
  const PASS: GateReceipt := GateReceipt(true, Some(Pass), None)

  function Inspecting(state: IntentState, revision: nat): GateIntent {
    GateIntent(8, InspectGate, B, 4, 5, state, revision)
  }

  const CALLED: World := Read(STRICT).(calls := map[6 := CompletionCall(B, 4, 0, {}, {}, None)])

  const PREPARED: World := CALLED.(
    gates := NO_GATES.(order := [7], keys := {8}, intents := map[7 := Inspecting(Pending, 1)]),
    gateProcesses := map[7 := GateToAct], gateLog := [Prepared(7)],
    calls := map[6 := CompletionCall(B, 4, 0, {7}, {}, None)])

  const ACTED: World := PREPARED.(
    gates := PREPARED.gates.(intents := map[7 := Inspecting(Executing, 2)]), gateProcesses := map[7 := GateToCall],
    gateLog := PREPARED.gateLog + [GateActed(7)])

  const ASKED: World := ACTED.(
    gateProcesses := map[7 := GateCalled(GotGateReceipt(PASS))], gateLog := ACTED.gateLog + [CalledGate(7)])

  const RECORDED: World := ASKED.(
    gates := ASKED.gates.(intents := map[7 := Inspecting(Observed, 3)], observations := map[7 := PASS]),
    gateProcesses := map[7 := GateToVerify])

  const VERIFIED: World := RECORDED.(
    gates := RECORDED.gates.(intents := map[7 := Inspecting(Verified, 4)], receipts := map[7 := GateVerified(Pass, None, 9)]),
    gateProcesses := map[7 := GateToFinalize])

  const PASSED: World := VERIFIED.(
    gates := VERIFIED.gates.(intents := map[7 := Inspecting(Finalized, 5)], finalizations := map[7 := GateAccepted]),
    gateProcesses := map[], gateLog := ASKED.gateLog + [Decided(7)])

  const STRICT_CALL: CompletionCall := CompletionCall(B, 4, 0, {7}, {7}, None)
  const REOPENED: World := PASSED.(calls := map[6 := STRICT_CALL])
  const REFRESHED: World := Refreshing(REOPENED, STRICT_CALL, [7], 9)
  const DECIDED: World := Deciding(REFRESHED, STRICT_CALL, [7], 9)

  const PREPARE: Action := GatePrepare(7, 8, InspectGate, RUNNING, 4, 5, true, true, Some(6))

  lemma CallsStrictly()
    ensures Leads(Read(STRICT), CompletionStart(6, RUNNING, 4), CALLED)
  {
    Starts(Read(STRICT));
  }

  lemma Prepares()
    ensures Leads(CALLED, PREPARE, PREPARED)
  {
    assert StillBinds(CALLED, RUNNING, D.Running);
    assert PrepareGate(NO_GATES, 7, 8, InspectGate, B, 4, 5, true, true, true) == GateStep(PREPARED.gates, Done);
    assert {} + {7} == {7};
    assert Noted(CALLED.calls, Some(6), 7) == PREPARED.calls;
  }

  // One step of a gate operation each, in any world.

  lemma ActLeads(w: World, i: Id, s: GateStep)
    requires GateAt(w, i, GateToAct) && GateBound(w, i) && s == ActGate(w.gates, i, true, true, true) && s.answer == Done
    ensures Leads(w, GateAct(i, true, true),
                  w.(gates := s.tables, gateProcesses := w.gateProcesses[i := GateToCall], gateLog := w.gateLog + [GateActed(i)]))
  {
    hide ActGate, GateBound, NextCleanup, NextCompletion, NextEnv;
  }

  lemma CallLeads(w: World, i: Id, result: GateResult)
    requires GateAt(w, i, GateToCall)
    ensures Leads(w, GateCall(i, result),
                  w.(gateProcesses := w.gateProcesses[i := GateCalled(result)], gateLog := w.gateLog + [CalledGate(i)]))
  {
  }

  lemma RecordLeads(w: World, i: Id, receipt: GateReceipt, s: GateStep)
    requires GateAt(w, i, GateCalled(GotGateReceipt(receipt))) && GateBound(w, i)
    requires s == RecordGateReceipt(w.gates, i, receipt, true) && s.answer == Done
    requires i in s.tables.intents && s.tables.intents[i].state == Observed
    ensures Leads(w, GateRecord(i, true), w.(gates := s.tables, gateProcesses := w.gateProcesses[i := GateToVerify]))
  {
    hide RecordGateReceipt, GateBound, NextCleanup, NextCompletion, NextEnv;
  }

  lemma VerifyLeads(w: World, i: Id, now: nat, s: GateStep)
    requires GateAt(w, i, GateToVerify) && s == VerifyGate(w.gates, i, now) && s.answer == Done
    ensures Leads(w, GateVerify(i, now), w.(gates := s.tables, gateProcesses := w.gateProcesses[i := GateToFinalize]))
  {
    hide VerifyGate, NextCleanup, NextCompletion, NextEnv;
  }

  lemma FinalizeLeads(w: World, i: Id, s: GateStep)
    requires GateAt(w, i, GateToFinalize) && GateBound(w, i) && s == FinalizeGate(w.gates, i, true, true, true)
    requires s.answer == Done && i in s.tables.intents && s.tables.intents[i].state == Finalized
    ensures Leads(w, GateFinalize(i, true, true),
                  w.(gates := s.tables, gateProcesses := w.gateProcesses - {i}, gateLog := w.gateLog + [Decided(i)]))
  {
    hide FinalizeGate, GateBound, NextCleanup, NextCompletion, NextEnv;
  }

  lemma Acts()
    ensures Leads(PREPARED, GateAct(7, true, true), ACTED)
  {
    hide Leads;
    assert GateBound(PREPARED, 7);
    assert ActGate(PREPARED.gates, 7, true, true, true) == GateStep(ACTED.gates, Done);
    ActLeads(PREPARED, 7, GateStep(ACTED.gates, Done));
    assert PREPARED.gateProcesses[7 := GateToCall] == ACTED.gateProcesses;
  }

  lemma Asks()
    ensures Leads(ACTED, GateCall(7, GotGateReceipt(PASS)), ASKED)
  {
    hide Leads;
    CallLeads(ACTED, 7, GotGateReceipt(PASS));
    assert ACTED.gateProcesses[7 := GateCalled(GotGateReceipt(PASS))] == ASKED.gateProcesses;
  }

  lemma Records()
    ensures Leads(ASKED, GateRecord(7, true), RECORDED)
  {
    hide Leads;
    assert GateBound(ASKED, 7);
    assert RecordGateReceipt(ASKED.gates, 7, PASS, true) == GateStep(RECORDED.gates, Done);
    RecordLeads(ASKED, 7, PASS, GateStep(RECORDED.gates, Done));
    assert ASKED.gateProcesses[7 := GateToVerify] == RECORDED.gateProcesses;
  }

  lemma Verifies()
    ensures Leads(RECORDED, GateVerify(7, 9), VERIFIED)
  {
    hide Leads;
    assert VerifyGate(RECORDED.gates, 7, 9) == GateStep(VERIFIED.gates, Done);
    VerifyLeads(RECORDED, 7, 9, GateStep(VERIFIED.gates, Done));
    assert RECORDED.gateProcesses[7 := GateToFinalize] == VERIFIED.gateProcesses;
  }

  lemma Finalizes()
    ensures Leads(VERIFIED, GateFinalize(7, true, true), PASSED)
  {
    hide Leads, FinalizeGate;
    assert GateBound(VERIFIED, 7);
    FinalizedGate();
    FinalizeLeads(VERIFIED, 7, GateStep(PASSED.gates, Done));
    assert VERIFIED.gateProcesses - {7} == map[];
  }

  lemma FinalizedGate()
    ensures FinalizeGate(VERIFIED.gates, 7, true, true, true) == GateStep(PASSED.gates, Done)
  {
  }

  lemma Reopening(w: World, call: CompletionCall, i: Id)
    requires 6 in w.calls && w.calls[6] == call && i in call.inspections && PassedAgain(w.gates, i)
    ensures Leads(w, CompletionReopen(6, i), w.(calls := w.calls[6 := call.(reopened := call.reopened + {i})]))
  {
    hide PassedAgain, NextGate, NextCleanup, NextEnv;
  }

  lemma Reopens()
    ensures Leads(PASSED, CompletionReopen(6, 7), REOPENED)
  {
    hide Leads;
    assert PassedAgain(PASSED.gates, 7);
    var call := CompletionCall(B, 4, 0, {7}, {}, None);
    assert PASSED.calls == map[6 := call];
    Reopening(PASSED, call, 7);
    assert {} + {7} == {7};
    assert PASSED.calls[6 := STRICT_CALL] == REOPENED.calls;
  }

  lemma GatesChosen()
    ensures GateSet(PASSED.gates, [5], B, 4, 9) == Some([7])
  {
    hide GateSet, Passing;
    PassesNow();
    GateSetPasses(PASSED.gates, [5], B, 4, 9);
    var chosen := GateSet(PASSED.gates, [5], B, 4, 9);
    assert chosen.Some?;
    assert chosen.value[0] in PASSED.gates.order;
    assert chosen.value == [7];
  }

  lemma PassesNow()
    ensures PASSED.gates.order == [7] && 7 in PASSED.gates.order
    ensures forall k :: 0 <= k < 1 ==> Passing(PASSED.gates, 7, B, 4, [5][k], 9)
  {
  }

  lemma StrictEvidence()
    ensures Evidenced(REOPENED, STRICT_CALL, [7], 9)
  {
    hide GateSet;
    GatesChosen();
  }

  lemma StrictDecides()
    ensures Leads(REOPENED, CompletionRefresh(6, NotRequired, 9), REFRESHED)
    ensures Leads(REFRESHED, CompletionDecide(6, NotRequired, true), DECIDED)
  {
    hide Evidenced, Leads;
    StrictEvidence();
    Refreshes(REOPENED, STRICT_CALL, [7], 9);
    Decides(REOPENED, STRICT_CALL, [7], 9);
  }

  lemma NothingOpen()
    ensures AtRest(DECIDED, 2, 3) && Cleanable(DECIDED, 2, 3)
    ensures 2 in DECIDED.decisions && DECIDED.decisions[2].gates == [7]
  {
  }

  const PASSING: seq<Action> :=
    [CompletionStart(6, RUNNING, 4)] + ([PREPARE] + ([GateAct(7, true, true)] + ([GateCall(7, GotGateReceipt(PASS))] +
      ([GateRecord(7, true)] + ([GateVerify(7, 9)] + ([GateFinalize(7, true, true)] + []))))))

  const ACCEPTING: seq<Action> :=
    [CompletionReopen(6, 7)] + ([CompletionRefresh(6, NotRequired, 9)] + ([CompletionDecide(6, NotRequired, true)] + []))

  lemma PassingLeads()
    ensures AllPossible(Read(STRICT), PASSING) && After(Read(STRICT), PASSING) == PASSED
  {
    hide Leads;
    CallsStrictly(); Prepares(); Acts(); Asks(); Records(); Verifies(); Finalizes();
    LeadsLater(VERIFIED, GateFinalize(7, true, true), PASSED, []);
    LeadsLater(RECORDED, GateVerify(7, 9), VERIFIED, [GateFinalize(7, true, true)] + []);
    LeadsLater(ASKED, GateRecord(7, true), RECORDED, [GateVerify(7, 9)] + ([GateFinalize(7, true, true)] + []));
    LeadsLater(ACTED, GateCall(7, GotGateReceipt(PASS)), ASKED,
               [GateRecord(7, true)] + ([GateVerify(7, 9)] + ([GateFinalize(7, true, true)] + [])));
    LeadsLater(PREPARED, GateAct(7, true, true), ACTED,
               [GateCall(7, GotGateReceipt(PASS))] + ([GateRecord(7, true)] + ([GateVerify(7, 9)] +
                 ([GateFinalize(7, true, true)] + []))));
    LeadsLater(CALLED, PREPARE, PREPARED,
               [GateAct(7, true, true)] + ([GateCall(7, GotGateReceipt(PASS))] + ([GateRecord(7, true)] +
                 ([GateVerify(7, 9)] + ([GateFinalize(7, true, true)] + [])))));
    LeadsLater(Read(STRICT), CompletionStart(6, RUNNING, 4), CALLED,
               [PREPARE] + ([GateAct(7, true, true)] + ([GateCall(7, GotGateReceipt(PASS))] + ([GateRecord(7, true)] +
                 ([GateVerify(7, 9)] + ([GateFinalize(7, true, true)] + []))))));
  }

  lemma AcceptingLeads()
    ensures AllPossible(PASSED, ACCEPTING) && After(PASSED, ACCEPTING) == DECIDED
  {
    hide Leads;
    Reopens(); StrictDecides();
    LeadsLater(REFRESHED, CompletionDecide(6, NotRequired, true), DECIDED, []);
    LeadsLater(REOPENED, CompletionRefresh(6, NotRequired, 9), REFRESHED, [CompletionDecide(6, NotRequired, true)] + []);
    LeadsLater(PASSED, CompletionReopen(6, 7), REOPENED,
               [CompletionRefresh(6, NotRequired, 9)] + ([CompletionDecide(6, NotRequired, true)] + []));
  }

  lemma ToDecision()
    ensures AllPossible(START, Founding(STRICT) + PASSING + ACCEPTING)
    ensures After(START, Founding(STRICT) + PASSING + ACCEPTING) == DECIDED
  {
    hide After, AllPossible;
    Founds(STRICT);
    PassingLeads();
    AcceptingLeads();
    Appended(START, Founding(STRICT), PASSING);
    Appended(START, Founding(STRICT) + PASSING, ACCEPTING);
  }

  /** A run that decides a completion on a gate that passed during the call, and goes on to clean the workspace. */
  lemma CleaningHappens()
    ensures exists worlds: seq<World>, actions: seq<Action>, n: nat ::
              && Run(worlds, actions) && n < |actions| && worlds[n] == DECIDED && CleaningAt(worlds[|actions|], 3)
  {
    hide Next, Possible, AllPossible, After, Cleanable, AtRest, CleaningAt;
    var first := Founding(STRICT) + PASSING + ACCEPTING;
    ToDecision();
    var prefix := RunOf(START, first);
    assert Run(prefix, first);
    NothingOpen();
    CleanedExactly(prefix, first, |first|, 2, 3);
    var more :| AllPossible(DECIDED, more) && CleaningAt(After(DECIDED, more), 3);
    NotYetCleaning(more);
    Appended(START, first, more);
    var rest := RunOf(DECIDED, more);
    var worlds := prefix + rest[1..];
    Joined(prefix, first, rest, more);
    assert Run(worlds, first + more) && worlds[|first|] == DECIDED;
  }

  lemma NotYetCleaning(more: seq<Action>)
    requires CleaningAt(After(DECIDED, more), 3)
    ensures more != []
  {
    assert !CleaningAt(DECIDED, 3);
  }

  /** A run goes on with what its last world leads to. */
  lemma Joined(worlds: seq<World>, actions: seq<Action>, rest: seq<World>, more: seq<Action>)
    requires Run(worlds, actions) && |rest| == |more| + 1 && rest[0] == worlds[|actions|]
    requires forall k :: 0 <= k < |more| ==> Possible(rest[k], more[k]) && rest[k + 1] == Next(rest[k], more[k])
    ensures Run(worlds + rest[1..], actions + more)
    ensures (worlds + rest[1..])[|actions| + |more|] == rest[|more|]
  {
    hide Next, Possible;
    var all, acts := worlds + rest[1..], actions + more;
    forall k | 0 <= k < |acts| ensures Possible(all[k], acts[k]) && all[k + 1] == Next(all[k], acts[k]) {
      if k < |actions| {
        assert all[k] == worlds[k] && all[k + 1] == worlds[k + 1];
      } else {
        assert all[k] == rest[k - |actions|] && all[k + 1] == rest[k + 1 - |actions|] && acts[k] == more[k - |actions|];
      }
    }
  }

  // ---------------------------------------------------------------- a cancelled owner

  const OWNER: Binding := Binding(1, 1, 7, 1, 3, 1)
  const OWNS: World := HAS_TASK.(executions := map[7 := ExecutionRow(1, 1, false, false, None)])
  const OWNS_WORKSPACE: World := OWNS.(workspaces := map[3 := WorkspaceRow(1, 7, 1, Ready)])
  const OWNS_CAPTURE: World := OWNS_WORKSPACE.(captures := {Capture(OWNER, D.Running)})
  const OWNS_RESERVATION: World := OWNS_CAPTURE.(integration := I.World(IT.RESERVED, map[], [], 0))
  const CANCELLED: World := OWNS_RESERVATION.(
    executions := map[7 := ExecutionRow(1, 1, false, false, Some(CancelledStatus))], tasks := map[1 := TaskRow(D.Cancelled, 2)])

  const RESERVING: Action := Integrate(I.DoReserve(1, IT.SOME_TARGET, 7, 5, 0, 100, true, true))
  const CANCELLING: Action := EnvExecution(7, ExecutionRow(1, 1, false, false, Some(CancelledStatus)))

  lemma Owns()
    ensures Leads(HAS_TASK, EnvExecution(7, ExecutionRow(1, 1, false, false, None)), OWNS)
    ensures Leads(OWNS, EnvWorkspace(3, WorkspaceRow(1, 7, 1, Ready)), OWNS_WORKSPACE)
  {
    hide NextGate, NextCleanup, NextCompletion;
  }

  lemma Captures()
    ensures Leads(OWNS_WORKSPACE, Preflight(Capture(OWNER, D.Running)), OWNS_CAPTURE)
  {
    hide NextGate, NextCleanup, NextCompletion;
    assert {} + {Capture(OWNER, D.Running)} == {Capture(OWNER, D.Running)};
  }

  lemma Reserves()
    ensures Leads(OWNS_CAPTURE, RESERVING, OWNS_RESERVATION)
  {
    hide NextGate, NextCleanup, NextCompletion, I.Next;
    IT.FirstReservation();
    assert StillBinds(OWNS_CAPTURE, Capture(OWNER, D.Running), D.Running);
  }

  lemma Cancels()
    ensures Leads(OWNS_RESERVATION, CANCELLING, CANCELLED)
  {
    hide NextGate, NextCleanup, NextCompletion;
  }

  const WAITS: World := OWNS_RESERVATION.(tasks := map[1 := TaskRow(D.Waiting, 2)])

  lemma Waits()
    ensures Leads(OWNS_RESERVATION, EnvTask(1, TaskRow(D.Waiting, 2)), WAITS)
  {
    hide NextGate, NextCleanup, NextCompletion;
    assert DM.Legal(D.Running, DM.ExecutionWait, D.Waiting);
  }

  /** The protocol could free the reservation if its owner were completed, which it never will be. */
  lemma HeldByOwner()
    ensures forall w :: w == CANCELLED || w == WAITS ==>
              L.Stands(w, 1) && R.Freeable(w.integration, 1) && !L.CanGiveUp(w, 1)
  {
  }

  /** The protocol alone could free the reservation, but no continuation gives it up. */
  ghost predicate Stranded(w: World, r: Id) {
    L.Stands(w, r) && R.Freeable(w.integration, r) && !L.IsGivenUp(w, r)
  }

  /** Whatever spends the owner strands the reservation. */
  lemma StrandedBy(a: Action, w: World) returns (actions: seq<Action>)
    requires Leads(OWNS_RESERVATION, a, w)
    requires L.Stands(w, 1) && R.Freeable(w.integration, 1) && !L.CanGiveUp(w, 1)
    ensures AllPossible(START, actions) && After(START, actions) == w && |actions| == 6 && actions[5] == a && Stranded(w, 1)
  {
    hide Next, Possible, Leads, L.Governed, L.CanGiveUp, L.IsGivenUp, R.Freeable;
    FoundsTask(); Owns(); Captures(); Reserves();
    var capture := Preflight(Capture(OWNER, D.Running));
    LeadsLater(OWNS_RESERVATION, a, w, []);
    LeadsLater(OWNS_CAPTURE, RESERVING, OWNS_RESERVATION, [a] + []);
    LeadsLater(OWNS_WORKSPACE, capture, OWNS_CAPTURE, [RESERVING] + ([a] + []));
    var owned := [capture] + ([RESERVING] + ([a] + []));
    LeadsLater(OWNS, EnvWorkspace(3, WorkspaceRow(1, 7, 1, Ready)), OWNS_WORKSPACE, owned);
    var placed := [EnvWorkspace(3, WorkspaceRow(1, 7, 1, Ready))] + owned;
    LeadsLater(HAS_TASK, EnvExecution(7, ExecutionRow(1, 1, false, false, None)), OWNS, placed);
    var begun := [EnvExecution(7, ExecutionRow(1, 1, false, false, None))] + placed;
    LeadsLater(START, EnvTask(1, TaskRow(D.Running, 1)), HAS_TASK, begun);
    actions := [EnvTask(1, TaskRow(D.Running, 1))] + begun;
    L.StartGoverned();
    L.GovernedAfter(START, actions);
    L.GivenUpFrom(w, 1);
  }

  /** A run without crashes in which the owner of a reservation is cancelled while it holds it. */
  lemma CancellationStrands()
    ensures exists actions :: AllPossible(START, actions) && |actions| == 6 && actions[5] == CANCELLING &&
                              Stranded(After(START, actions), 1)
  {
    hide Next, Possible, Leads, Stranded, L.Stands, L.CanGiveUp, R.Freeable, After, AllPossible;
    Cancels();
    HeldByOwner();
    var actions := StrandedBy(CANCELLING, CANCELLED);
  }

  /** And one in which the owner's task comes to wait, and only a successor could run it again. */
  lemma WaitingStrands()
    ensures exists actions :: AllPossible(START, actions) && |actions| == 6 && Stranded(After(START, actions), 1) &&
                              TaskIn(After(START, actions), 1, D.Waiting)
  {
    hide Next, Possible, Leads, Stranded, L.Stands, L.CanGiveUp, R.Freeable, After, AllPossible;
    Waits();
    HeldByOwner();
    var actions := StrandedBy(EnvTask(1, TaskRow(D.Waiting, 2)), WAITS);
  }
}
