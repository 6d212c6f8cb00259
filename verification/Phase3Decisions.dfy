/**
 Policy-gated completion in the machine of module Phase3Model: what a call has gathered, and what a decision rests on.
 */
module Phase3Decisions {
  import opened Options
  import opened IntegrationModel
  import opened GateModel
  import opened Phase3Model
  import opened Phase3Safety
  import opened Phase3History
  import D = DomainModel

  /** The gate intent was finalized while the log was longer than the given length. */
  predicate DecidedSince(log: seq<GateEvent>, i: Id, since: nat) {
    since <= |log| && Decided(i) in log && Decided(i) !in log[..since]
  }

  /** Inspections a call prepared were not yet decided when it began; those it saw pass again were finalized since. */
  ghost predicate CallFits(w: World, call: CompletionCall) {
    && call.since <= |w.gateLog|
    && (forall i :: i in call.inspections ==> i in w.gates.intents && Decided(i) !in w.gateLog[..call.since])
    && (forall i :: i in call.reopened ==> i in call.inspections && PassedAgain(w.gates, i))
  }

  ghost predicate CallsFit(w: World) {
    forall c :: c in w.calls ==> CallFits(w, w.calls[c])
  }

  /** A decision names, gate by gate, an inspection that passed, was finalized during the call, and was still valid. */
  ghost predicate DecisionFits(w: World, e: Id, d: Decision) {
    && d.b.execution == e && CompletedExecution(w, e)
    && d.policy in w.policies && |d.gates| == |w.policies[d.policy].requiredGates|
    && forall k :: 0 <= k < |d.gates| ==>
         Passing(w.gates, d.gates[k], d.b, d.policy, w.policies[d.policy].requiredGates[k], d.at) &&
         DecidedSince(w.gateLog, d.gates[k], d.since)
  }

  ghost predicate DecisionsFit(w: World) {
    forall e :: e in w.decisions ==> DecisionFits(w, e, w.decisions[e])
  }

  // ---------------------------------------------------------------- calls

  /** What a step may add to a call: the inspection it prepares, or one of its inspections that passed. */
  ghost predicate CallGrows(w: World, a: Action, was: CompletionCall, now: CompletionCall) {
    && now.since == was.since
    && (forall i :: i in now.inspections ==>
          i in was.inspections || (a.GatePrepare? && i == a.intent && i !in w.gates.intents && i in Next(w, a).gates.intents))
    && (forall i :: i in now.reopened ==> i in was.reopened || (i in was.inspections && PassedAgain(w.gates, i)))
    && was.inspections <= now.inspections
  }

  ghost predicate Began(w: World, call: CompletionCall) {
    call.since == |w.gateLog| && call.inspections == {} && call.reopened == {}
  }

  ghost predicate CallsGrow(w: World, a: Action) {
    forall c :: c in Next(w, a).calls ==>
      if c in w.calls then CallGrows(w, a, w.calls[c], Next(w, a).calls[c]) else Began(w, Next(w, a).calls[c])
  }

  lemma NotedCalls(w: World, a: Action)
    requires a.GatePrepare?
    ensures Next(w, a).calls == w.calls ||
            (Next(w, a).calls == Noted(w.calls, a.forCall, a.intent) && a.intent !in w.gates.intents &&
             a.intent in Next(w, a).gates.intents)
  {
    hide StillBinds, Noted, NextCleanup, NextCompletion, NextEnv;
  }

  lemma PrepareCallsGrow(w: World, a: Action)
    requires a.GatePrepare?
    ensures CallsGrow(w, a)
  {
    hide Next;
    NotedCalls(w, a);
  }

  /** At most one call changes, and it keeps what it has. */
  ghost predicate OneCall(w: World, a: Action, next: World)
    requires CompletionAction(a)
  {
    || next.calls == w.calls
    || (a.call !in w.calls && a.call in next.calls && next.calls == w.calls[a.call := next.calls[a.call]] &&
        Began(w, next.calls[a.call]))
    || (a.call in w.calls && a.call in next.calls && next.calls == w.calls[a.call := next.calls[a.call]] &&
        CallContinues(w, w.calls[a.call], next.calls[a.call]))
  }

  ghost predicate CallContinues(w: World, was: CompletionCall, now: CompletionCall) {
    && now.since == was.since && now.inspections == was.inspections
    && (now.reopened == was.reopened ||
        exists i :: i in was.inspections && PassedAgain(w.gates, i) && now.reopened == was.reopened + {i})
  }

  lemma RefreshOneCall(w: World, a: Action)
    requires a.CompletionRefresh?
    ensures OneCall(w, a, Next(w, a))
  {
    hide GateSet, Proves, Underway, PassedAgain, NextGate, NextCleanup, NextEnv;
  }

  lemma DecideOneCall(w: World, a: Action)
    requires a.CompletionDecide?
    ensures OneCall(w, a, Next(w, a))
  {
    hide GateSet, Proves, Underway, PassedAgain, NextGate, NextCleanup, NextEnv, Began, CallContinues;
  }

  lemma StartOneCall(w: World, a: Action)
    requires a.CompletionStart? || a.CompletionReopen?
    ensures OneCall(w, a, Next(w, a))
  {
    hide StillBinds, PassedAgain, NextGate, NextCleanup, NextEnv;
  }

  lemma CompletionCallsGrow(w: World, a: Action)
    requires CompletionAction(a)
    ensures CallsGrow(w, a)
  {
    hide Next, PassedAgain;
    if a.CompletionRefresh? { RefreshOneCall(w, a); }
    else if a.CompletionDecide? { DecideOneCall(w, a); }
    else { StartOneCall(w, a); }
  }

  lemma SameCallsGrow(w: World, a: Action)
    requires Next(w, a).calls == w.calls
    ensures CallsGrow(w, a)
  {
    hide Next, PassedAgain;
  }

  lemma OtherCallsSame(w: World, a: Action)
    requires !a.GatePrepare? && !CompletionAction(a)
    ensures Next(w, a).calls == w.calls && Next(w, a).decisions == w.decisions
  {
    if GateAction(a) {
      GateCallsSame(w, a);
    } else if CleanupAction(a) {
      CleanupRowsSame(w, a);
    }
  }

  lemma GateCallsSame(w: World, a: Action)
    requires GateAction(a) && !a.GatePrepare?
    ensures Next(w, a).calls == w.calls && Next(w, a).decisions == w.decisions
  {
    hide Next;
    GateRowsSame(w, a);
    if a.GateRecord? { GateRecordFrame(w, a); } else { GateOtherFrame(w, a); }
  }

  lemma AllCallsGrow(w: World, a: Action)
    ensures CallsGrow(w, a)
  {
    hide Next, CallsGrow;
    if a.GatePrepare? { PrepareCallsGrow(w, a); }
    else if CompletionAction(a) { CompletionCallsGrow(w, a); }
    else { OtherCallsSame(w, a); SameCallsGrow(w, a); }
  }

  lemma PassedStays(w: World, a: Action, i: Id)
    requires GatesSafe(w.gates) && PassedAgain(w.gates, i)
    ensures PassedAgain(Next(w, a).gates, i)
  {
    hide Next, GatesSafe;
    FinalizedStays(w, a, i);
  }

  lemma NoIntentLost(w: World, a: Action, i: Id)
    requires GatesSafe(w.gates) && i in w.gates.intents
    ensures i in Next(w, a).gates.intents
  {
    hide Next, GatesSafe;
    if GateAction(a) { ChangeMoves(w, a); } else { OtherGatesSame(w, a); }
  }

  lemma CallKept(w: World, a: Action, c: Id)
    requires GatesSafe(w.gates) && GateHistory(w) && CallsFit(w) && c in Next(w, a).calls
    ensures CallFits(Next(w, a), Next(w, a).calls[c])
  {
    hide Next, GatesSafe, ProgressFits, PassedAgain;
    AllCallsGrow(w, a);
    LogGrows(w, a);
    var next, call := Next(w, a), Next(w, a).calls[c];
    assert next.gateLog[..call.since] == w.gateLog[..call.since];
    forall i | i in call.inspections ensures i in next.gates.intents && Decided(i) !in w.gateLog[..call.since] {
      if i in w.gates.intents { NoIntentLost(w, a, i); } else { NeverDecided(w, i, call.since); }
    }
    forall i | i in call.reopened ensures PassedAgain(next.gates, i) {
      assert PassedAgain(w.gates, i);
      PassedStays(w, a, i);
    }
  }

  lemma NeverDecided(w: World, i: Id, since: nat)
    requires LogFits(w) && i !in w.gates.intents && since <= |w.gateLog|
    ensures Decided(i) !in w.gateLog[..since]
  {
  }

  lemma CallsKept(w: World, a: Action)
    requires GatesSafe(w.gates) && GateHistory(w) && CallsFit(w)
    ensures CallsFit(Next(w, a))
  {
    hide Next, GatesSafe, GateHistory, CallFits;
    forall c | c in Next(w, a).calls ensures CallFits(Next(w, a), Next(w, a).calls[c]) {
      CallKept(w, a, c);
    }
  }

  // ---------------------------------------------------------------- decisions

  /** The step completes the task of an execution that was under way. */
  ghost predicate Decides(w: World, a: Action) {
    a.CompletionDecide? && Next(w, a).decisions != w.decisions
  }

  /** What a completion decision is taken on, and what it does. */
  ghost predicate DecidedOn(w: World, a: Action, call: CompletionCall, d: Decision) {
    var next := Next(w, a);
    && a.CompletionDecide? && a.granted && a.call in w.calls && w.calls[a.call] == call
    && Underway(w, call.b) && d.b == call.b && d.policy == call.policy && d.since == call.since && d.policy in w.policies
    && call.refreshed == Some(Refreshed(d.gates, d.proof, d.at))
    && GateSet(w.gates, w.policies[d.policy].requiredGates, d.b, d.policy, d.at) == Some(d.gates)
    && (forall i :: i in d.gates ==> i in call.reopened) && |d.gates| == |call.reopened|
    && Proves(w.integration.ledger, d.b, w.policies[d.policy], d.proof)
    && next.decisions == w.decisions[d.b.execution := d]
    && next.tasks == w.tasks[d.b.task := TaskRow(D.Completed, d.b.taskRevision + 1)]
    && next.executions == w.executions[d.b.execution := w.executions[d.b.execution].(terminal := Some(CompletedStatus))]
  }

  lemma DecideStep(w: World, a: Action) returns (d: Decision)
    requires a.CompletionDecide? && Next(w, a).decisions != w.decisions
    ensures a.call in w.calls && DecidedOn(w, a, w.calls[a.call], d)
  {
    hide GateSet, Proves, Underway, NextGate, NextCleanup, NextEnv;
    var call := w.calls[a.call];
    var seen := call.refreshed.value;
    d := Decision(call.b, call.policy, seen.gates, a.proof, seen.now, call.since);
  }

  lemma OnlyDecideDecides(w: World, a: Action)
    requires !a.CompletionDecide?
    ensures Next(w, a).decisions == w.decisions
  {
    hide GateSet, Proves, Underway, PassedAgain, StillBinds;
    if GateAction(a) { GateRowsSame(w, a); }
    else if CleanupAction(a) { CleanupRowsSame(w, a); }
    else if CompletionAction(a) { CallRowsSame(w, a); }
  }

  /** An execution is decided once: its decision never changes. */
  lemma DecisionStays(w: World, a: Action, e: Id)
    requires DecisionsFit(w) && e in w.decisions
    ensures e in Next(w, a).decisions && Next(w, a).decisions[e] == w.decisions[e]
  {
    hide Next, Passing, GateSet, Proves;
    if Next(w, a).decisions != w.decisions {
      if a.CompletionDecide? {
        var d := DecideStep(w, a);
        assert CompletedExecution(w, e);
      } else {
        OnlyDecideDecides(w, a);
      }
    }
  }

  lemma {:induction false} ReopenedDecided(w: World, call: CompletionCall, i: Id)
    requires LogFits(w) && CallFits(w, call) && i in call.reopened
    ensures DecidedSince(w.gateLog, i, call.since)
  {
    assert PassedAgain(w.gates, i);
  }

  lemma NewDecisionFits(w: World, a: Action, d: Decision)
    requires GatesSafe(w.gates) && LogFits(w) && CallsFit(w)
    requires a.CompletionDecide? && a.call in w.calls && DecidedOn(w, a, w.calls[a.call], d)
    ensures DecisionFits(Next(w, a), d.b.execution, d)
  {
    hide Next, GatesSafe, Passing, GateSet, Proves, LogFits, CallFits;
    OtherGatesSame(w, a);
    DecideGrows(w, a);
    var required := w.policies[d.policy].requiredGates;
    GateSetPasses(w.gates, required, d.b, d.policy, d.at);
    forall k | 0 <= k < |d.gates|
      ensures Passing(w.gates, d.gates[k], d.b, d.policy, required[k], d.at) && DecidedSince(w.gateLog, d.gates[k], d.since)
    {
      assert d.gates[k] in d.gates;
      ReopenedDecided(w, w.calls[a.call], d.gates[k]);
    }
  }

  lemma OldDecisionFits(w: World, a: Action, e: Id, d: Decision)
    requires GatesSafe(w.gates) && ProgressFits(w) && DecisionFits(w, e, d) && Possible(w, a)
    ensures DecisionFits(Next(w, a), e, d)
  {
    hide Next, Possible, GatesSafe, ProgressFits;
    NextRowsGrow(w, a);
    LogGrows(w, a);
    var next := Next(w, a);
    var required := w.policies[d.policy].requiredGates;
    forall k | 0 <= k < |d.gates|
      ensures Passing(next.gates, d.gates[k], d.b, d.policy, required[k], d.at) && DecidedSince(next.gateLog, d.gates[k], d.since)
    {
      assert Passing(w.gates, d.gates[k], d.b, d.policy, required[k], d.at);
      FinalizedStays(w, a, d.gates[k]);
      StaysDecided(w.gateLog, next.gateLog, d.gates[k], d.since);
    }
  }

  lemma StaysDecided(log: seq<GateEvent>, longer: seq<GateEvent>, i: Id, since: nat)
    requires DecidedSince(log, i, since) && |log| <= |longer| && longer[..|log|] == log
    ensures DecidedSince(longer, i, since)
  {
    assert longer[..since] == log[..since];
    assert Decided(i) in longer[..|log|];
  }

  lemma DecisionsKept(w: World, a: Action)
    requires GatesSafe(w.gates) && GateHistory(w) && CallsFit(w) && DecisionsFit(w) && Possible(w, a)
    ensures DecisionsFit(Next(w, a))
  {
    hide Next, Possible, GatesSafe, CallsFit, DecisionFits, ProgressFits, LogFits;
    forall e | e in Next(w, a).decisions ensures DecisionFits(Next(w, a), e, Next(w, a).decisions[e]) {
      if e in w.decisions {
        DecisionStays(w, a, e);
        OldDecisionFits(w, a, e, w.decisions[e]);
      } else {
        FreshDecision(w, a, e);
      }
    }
  }

  lemma FreshDecision(w: World, a: Action, e: Id)
    requires GatesSafe(w.gates) && GateHistory(w) && CallsFit(w) && e in Next(w, a).decisions && e !in w.decisions
    ensures DecisionFits(Next(w, a), e, Next(w, a).decisions[e])
  {
    hide Next, GatesSafe, CallsFit, DecisionFits, ProgressFits, LogFits, GateSet, Proves, Underway;
    if a.CompletionDecide? {
      var d := DecideStep(w, a);
      NewDecisionFits(w, a, d);
    } else {
      OnlyDecideDecides(w, a);
    }
  }
}
