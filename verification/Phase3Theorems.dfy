/**
 What holds in every run of the machine of module Phase3Model, however the operations interleave and wherever they
 crash.
 */
module Phase3Theorems {
  import opened IntegrationModel
  import opened GateModel
  import opened Phase3Model
  import opened Phase3Safety
  import opened Phase3History
  import opened Phase3Decisions
  import I = IntegrationRuns
  import H = IntegrationHistory

  ghost predicate Sound(w: World) {
    && H.Sound(w.integration) && GatesSafe(w.gates) && GateHistory(w) && CapturesFit(w) && CleanupsFit(w)
    && QuietWhileCleaning(w) && CallsFit(w) && DecisionsFit(w)
  }

  lemma StartSound()
    ensures Sound(START)
  {
    H.StartSound();
  }

  lemma IntegrationSound(w: World, a: Action)
    requires H.Sound(w.integration) && Possible(w, a)
    ensures H.Sound(Next(w, a).integration)
  {
    hide H.Sound, NextGate, NextCleanup, NextCompletion, I.Next, I.Possible, Faithful;
    if a.Integrate? { H.StepSound(w.integration, a.action); } else { OthersIntegration(w, a); }
  }

  lemma StepSound(w: World, a: Action)
    requires Sound(w) && Possible(w, a)
    ensures Sound(Next(w, a))
  {
    hide Next, Possible, H.Sound, GatesSafe, GateHistory, CapturesFit, CleanupsFit, QuietWhileCleaning, CallsFit, DecisionsFit;
    IntegrationSound(w, a);
    NextGatesSafe(w, a);
    HistoryKept(w, a);
    CapturesKept(w, a);
    CleanupsKept(w, a);
    CleaningKept(w, a);
    CallsKept(w, a);
    DecisionsKept(w, a);
  }

  lemma {:induction false} RunSound(worlds: seq<World>, actions: seq<Action>, n: nat)
    requires Run(worlds, actions) && n <= |actions|
    ensures Sound(worlds[n])
  {
    hide Sound, Next, Possible;
    if n == 0 { StartSound(); } else {
      RunSound(worlds, actions, n - 1);
      StepSound(worlds[n - 1], actions[n - 1]);
    }
  }

  // ---------------------------------------------------------------- cleaning

  /**
   From its Act until it leaves the cleaning states, a cleanup has its workspace to itself, and its execution has no
   unfinished gate or integration intent and no current reservation.
   */
  lemma QuiescenceStable(worlds: seq<World>, actions: seq<Action>, n: nat, c: Id)
    requires Run(worlds, actions) && n <= |actions|
    requires c in worlds[n].workspaceIntents && worlds[n].workspaceIntents[c].kind == CleanupIntent
    requires Cleans(worlds[n].workspaceIntents[c].state)
    ensures CleanedFor(worlds[n], c)
  {
    hide Next, Possible, H.Sound, CleanedFor;
    RunSound(worlds, actions, n);
  }

  /** A quiet execution is quiet for ever, long after the workspace has been cleaned. */
  lemma {:induction false} QuietForEver(worlds: seq<World>, actions: seq<Action>, n: nat, m: nat, e: Id)
    requires Run(worlds, actions) && n <= m <= |actions| && Quiet(worlds[n], e)
    ensures Quiet(worlds[m], e)
  {
    hide Next, Possible, Quiet, H.Sound, GateHistory, QuietWhileCleaning, CallsFit, DecisionsFit;
    if n < m {
      QuietForEver(worlds, actions, n, m - 1, e);
      RunSound(worlds, actions, m - 1);
      QuietStays(worlds[m - 1], actions[m - 1], e);
    }
  }

  /** A workspace is cleaned only for an execution whose required gates all passed again while it was being completed. */
  lemma CleanedOnlyWhenAccepted(worlds: seq<World>, actions: seq<Action>, n: nat, c: Id)
    requires Run(worlds, actions) && n <= |actions|
    requires c in worlds[n].workspaceIntents && worlds[n].workspaceIntents[c].kind == CleanupIntent
    requires Cleans(worlds[n].workspaceIntents[c].state)
    ensures var w := worlds[n];
            var x := w.workspaceIntents[c].workspace;
            && x in w.workspaces && w.workspaces[x].execution in w.decisions
            && DecisionFits(w, w.workspaces[x].execution, w.decisions[w.workspaces[x].execution])
  {
    hide Next, Possible, H.Sound, DecisionFits, ReservationFree, GatesDone, IntegrationDone, OnlyIntent;
    RunSound(worlds, actions, n);
    QuiescenceStable(worlds, actions, n, c);
  }

  // ---------------------------------------------------------------- completion

  /** Completion is decided on the evidence read again after reopening, by inspections finalized during that call. */
  lemma CompletionRestsOn(worlds: seq<World>, actions: seq<Action>, n: nat) returns (d: Decision)
    requires Run(worlds, actions) && n < |actions| && Decides(worlds[n], actions[n])
    ensures actions[n].call in worlds[n].calls && DecidedOn(worlds[n], actions[n], worlds[n].calls[actions[n].call], d)
    ensures DecisionFits(worlds[n + 1], d.b.execution, d)
    ensures d.b.execution !in worlds[n].decisions && NotTerminal(worlds[n], d.b.execution)
  {
    hide Next, Possible, H.Sound, GateSet, Proves, DecisionFits;
    RunSound(worlds, actions, n);
    d := DecideStep(worlds[n], actions[n]);
    NewDecisionFits(worlds[n], actions[n], d);
    Undecided(worlds[n], d.b);
  }

  lemma Undecided(w: World, b: Binding)
    requires DecisionsFit(w) && Underway(w, b)
    ensures b.execution !in w.decisions && NotTerminal(w, b.execution)
  {
    forall e | e in w.decisions ensures CompletedExecution(w, e) { assert DecisionFits(w, e, w.decisions[e]); }
  }

  /** An execution is completed by at most one decision, and the evidence of that decision stays. */
  lemma {:induction false} DecidedOnce(worlds: seq<World>, actions: seq<Action>, n: nat, m: nat, e: Id)
    requires Run(worlds, actions) && n <= m <= |actions| && e in worlds[n].decisions
    ensures e in worlds[m].decisions && worlds[m].decisions[e] == worlds[n].decisions[e]
    ensures DecisionFits(worlds[m], e, worlds[n].decisions[e])
  {
    hide Next, Possible, H.Sound, GatesSafe, GateHistory, CapturesFit, CleanupsFit, QuietWhileCleaning, CallsFit, DecisionFits;
    RunSound(worlds, actions, m);
    if n < m {
      DecidedOnce(worlds, actions, n, m - 1, e);
      RunSound(worlds, actions, m - 1);
      DecisionStays(worlds[m - 1], actions[m - 1], e);
    }
  }

  // ---------------------------------------------------------------- gates

  /** The backend is called at most once per gate intent and per key, and only after the Act was committed. */
  lemma GateCalledOnce(worlds: seq<World>, actions: seq<Action>, n: nat, j: nat, k: nat)
    requires Run(worlds, actions) && n <= |actions| && j < |worlds[n].gateLog| && k < |worlds[n].gateLog|
    requires worlds[n].gateLog[j].CalledGate? && worlds[n].gateLog[k].CalledGate?
    ensures var w, i := worlds[n], worlds[n].gateLog[j].intent;
            var h := w.gateLog[k].intent;
            && i in w.gates.intents && h in w.gates.intents && w.gates.intents[i].state != Pending
            && GateActed(i) in w.gateLog[..j]
            && (j != k ==> i != h && w.gates.intents[i].key != w.gates.intents[h].key)
  {
    hide Next, Possible, H.Sound, CapturesFit, CleanupsFit, QuietWhileCleaning, CallsFit, DecisionsFit, ProgressFits, GateFits;
    RunSound(worlds, actions, n);
    CallsApart(worlds[n], j, k);
  }

  lemma CallsApart(w: World, j: nat, k: nat)
    requires GatesSafe(w.gates) && LogFits(w) && j < |w.gateLog| && k < |w.gateLog|
    requires w.gateLog[j].CalledGate? && w.gateLog[k].CalledGate?
    ensures var i, h := w.gateLog[j].intent, w.gateLog[k].intent;
            && i in w.gates.intents && h in w.gates.intents && w.gates.intents[i].state != Pending
            && GateActed(i) in w.gateLog[..j]
            && (j != k ==> i != h && w.gates.intents[i].key != w.gates.intents[h].key)
  {
    hide GateFits;
    assert w.gateLog[j] in w.gateLog && w.gateLog[k] in w.gateLog;
    var i := w.gateLog[j].intent;
    assert GateActed(i) in w.gateLog[..j];
    assert GateActed(i) in w.gateLog;
    if j != k {
      assert w.gateLog[if j < k then j else k] != w.gateLog[if j < k then k else j];
    }
  }

  /** An Act is logged only by a step that moves a pending intent on, its binding and policy current and allowed. */
  lemma ActIsAllowed(w: World, a: Action, i: Id)
    requires GatesSafe(w.gates) && GateHistory(w) && GateActed(i) in Next(w, a).gateLog && GateActed(i) !in w.gateLog
    ensures a.GateAct? && a.intent == i && a.granted && a.resolved && GateBound(w, i)
    ensures NowIn(w.gates, i, Pending) && NowIn(Next(w, a).gates, i, Executing)
  {
    hide Next, GatesSafe, ProgressFits, LogFits;
    if !GateAction(a) { OtherGatesSame(w, a); } else {
      var turn := TurnOf(w, a);
      if a.GateAct? { ActAllowed(w, a); } else { NoAct(w, a, i); }
    }
  }

  lemma ActAllowed(w: World, a: Action)
    requires a.GateAct? && Next(w, a).gateLog != w.gateLog
    ensures a.granted && a.resolved && GateBound(w, a.intent)
  {
  }

  lemma NoAct(w: World, a: Action, i: Id)
    requires GateAction(a) && !a.GateAct? && GateActed(i) in Next(w, a).gateLog
    ensures GateActed(i) in w.gateLog
  {
    hide StillBinds, PrepareGate, Noted, StepGateRecord, StepGateVerify, FinalizeGate, GateBound, NextCleanup, NextCompletion, NextEnv;
    if a.GateRecord? { RecordLog(w, a); } else if a.GateVerify? { VerifyLog(w, a); }
  }

  lemma RecordLog(w: World, a: Action)
    requires a.GateRecord?
    ensures Next(w, a).gateLog == w.gateLog
  {
    hide StepGateRecord, NowIn;
    if a.intent in w.gateProcesses && w.gateProcesses[a.intent].GateCalled? {
      RecordRows(w, a, w.gateProcesses[a.intent].result);
    }
  }

  lemma VerifyLog(w: World, a: Action)
    requires a.GateVerify?
    ensures Next(w, a).gateLog == w.gateLog
  {
    hide VerifyGate;
  }

  // ---------------------------------------------------------------- gates that never end

  /** A gate that ended unclear, or whose operation crashed before it ended. */
  ghost predicate Blocked(w: World, i: Id) {
    && i in w.gates.intents && !Terminal(w.gates.intents[i].state)
    && (w.gates.intents[i].state == Unclear || i !in w.gateProcesses)
  }

  lemma NoProcessNoGateStep(w: World, a: Action)
    requires GateAction(a) && !a.GatePrepare? && a.intent !in w.gateProcesses
    ensures Next(w, a).gates == w.gates && Next(w, a).gateProcesses == w.gateProcesses
  {
    hide NextCleanup, NextCompletion, NextEnv, StepGateAct, StepGateRecord, StepGateVerify, StepGateFinalize;
    assert w.gateProcesses - {a.intent} == w.gateProcesses;
  }

  lemma PrepareTaken(w: World, a: Action)
    requires a.GatePrepare? && a.intent in w.gates.intents
    ensures Next(w, a).gates.intents == w.gates.intents && Next(w, a).gateProcesses == w.gateProcesses
  {
    hide StillBinds, Noted, NextCleanup, NextCompletion, NextEnv;
  }

  lemma BlockedStays(w: World, a: Action, i: Id)
    requires GatesSafe(w.gates) && ProgressFits(w) && Blocked(w, i)
    ensures Blocked(Next(w, a), i) && Next(w, a).gates.intents[i] == w.gates.intents[i]
  {
    hide Next, GatesSafe, ProgressFits, GateFits, StillBinds;
    if !GateAction(a) {
      OtherGatesSame(w, a);
    } else if a.GatePrepare? && a.intent == i {
      PrepareTaken(w, a);
    } else {
      NextGateChange(w, a);
      var turn := TurnOf(w, a);
      if a.intent == i && i !in w.gateProcesses { NoProcessNoGateStep(w, a); }
    }
  }

  /** One gate operation that crashed or ended unclear keeps every workspace of its execution from being cleaned. */
  lemma {:induction false} BlockedForEver(worlds: seq<World>, actions: seq<Action>, n: nat, m: nat, i: Id)
    requires Run(worlds, actions) && n <= m <= |actions| && Blocked(worlds[n], i)
    ensures Blocked(worlds[m], i) && worlds[m].gates.intents[i] == worlds[n].gates.intents[i]
  {
    hide Next, Possible, Blocked, GatesSafe, H.Sound, CapturesFit, CleanupsFit, QuietWhileCleaning, CallsFit, DecisionsFit;
    if n < m {
      BlockedForEver(worlds, actions, n, m - 1, i);
      RunSound(worlds, actions, m - 1);
      BlockedStays(worlds[m - 1], actions[m - 1], i);
    }
  }

  lemma BlockedNeverCleaned(worlds: seq<World>, actions: seq<Action>, n: nat, m: nat, i: Id, c: Id)
    requires Run(worlds, actions) && n <= m <= |actions| && Blocked(worlds[n], i)
    requires c in worlds[m].workspaceIntents && worlds[m].workspaceIntents[c].kind == CleanupIntent
    requires Cleans(worlds[m].workspaceIntents[c].state)
    ensures var x := worlds[m].workspaceIntents[c].workspace;
            && x in worlds[m].workspaces
            && worlds[m].workspaces[x].execution != worlds[n].gates.intents[i].binding.execution
  {
    hide Next, Possible, ReservationFree, IntegrationDone, OnlyIntent;
    BlockedForEver(worlds, actions, n, m, i);
    QuiescenceStable(worlds, actions, m, c);
  }
}
