/**
 The read-only decisions agree with the transitions they foretell, on every input: a task is eligible exactly
 when claiming it with a current acceptance would succeed, and a waiting task may continue exactly when resuming
 or retrying it would.
 */
module DomainDecisions {
  import opened Options
  import opened Graphs
  import opened Sorting
  import opened DomainModel
  import opened DomainParsing
  import opened DomainMutations
  import opened DomainValidity
  import opened DomainOutcomes
  import opened DomainTransitions
  import opened DomainCommands
  import opened DomainRuns

  /** The task an input registers under the id, once parsed for a decision about it. */
  ghost function Decided(input: Snapshot, id: Id): Option<Task> {
    match ParseSnapshot(input, Decision(id)) case Ok(s) => TaskById(s.tasks, id) case Err(_) => None
  }

  lemma CompleteIsDecision(s: Snapshot, id: Id)
    requires WellFormed(s, Complete)
    ensures WellFormed(s, Decision(id))
  {
  }

  /** Only the references of the task decided about separate the two modes. */
  lemma DecisionIsComplete(s: Snapshot, id: Id)
    requires WellFormed(s, Decision(id))
    requires var t := TaskById(s.tasks, id); t.Some? ==> RefsOk(s.projects, s.tasks, Complete, t.value)
    ensures WellFormed(s, Complete)
  {
    hide Acyclic, TaskOk;
    CanonicalDistinctTasks(s.tasks);
    forall t | t in s.tasks ensures RefsOk(s.projects, s.tasks, Complete, t) {
      assert RefsOk(s.projects, s.tasks, Decision(id), t);
      FindTask(s.tasks, t);
    }
  }

  /** An input accepted for a decision is accepted completely exactly when that one task's references are good. */
  lemma ModesCompared(input: Snapshot, id: Id)
    ensures ParseSnapshot(input, Complete).Ok? ==> ParseSnapshot(input, Decision(id)) == ParseSnapshot(input, Complete)
    ensures ParseSnapshot(input, Decision(id)).Ok? ==>
              var s := ParseSnapshot(input, Decision(id)).value;
              (TaskById(s.tasks, id).Some? ==> RefsOk(s.projects, s.tasks, Complete, TaskById(s.tasks, id).value)) ==>
              ParseSnapshot(input, Complete) == Ok(s)
  {
    hide ParseSnapshot, WellFormed, RefsOk, TaskById, CanonicalForm, TaskShape;
    ParseAccepts(input, Complete);
    ParseAccepts(input, Decision(id));
    var s := CanonicalForm(input);
    if WellFormed(s, Complete) { CompleteIsDecision(s, id); }
    if WellFormed(s, Decision(id)) &&
       (TaskById(s.tasks, id).Some? ==> RefsOk(s.projects, s.tasks, Complete, TaskById(s.tasks, id).value))
    {
      DecisionIsComplete(s, id);
    }
  }

  lemma DecidedRefs(s: Snapshot, id: Id, t: Task)
    requires WellFormed(s, Decision(id)) && TaskById(s.tasks, id) == Some(t)
    requires ProjectById(s.projects, t.projectId).Some? && DependenciesDone(s, t)
    ensures RefsOk(s.projects, s.tasks, Complete, t)
  {
    assert RefsOk(s.projects, s.tasks, Decision(id), t);
  }

  /** On completed ground in a registered project the decision's snapshot is a complete one. */
  lemma GroundedIsComplete(input: Snapshot, id: Id)
    requires var s := ParseSnapshot(input, Decision(id));
             s.Ok? && var t := TaskById(s.value.tasks, id);
             t.Some? && ProjectById(s.value.projects, t.value.projectId).Some? && DependenciesDone(s.value, t.value)
    ensures ParseSnapshot(input, Complete) == ParseSnapshot(input, Decision(id))
  {
    hide ParseSnapshot, WellFormed, RefsOk, TaskById, DependenciesDone, ProjectById;
    var s := ParseSnapshot(input, Decision(id)).value;
    ParseIdempotent(input, Decision(id));
    ModesCompared(input, id);
    DecidedRefs(s, id, TaskById(s.tasks, id).value);
  }

  // ---------------------------------------------------------------- claiming

  function Claim(id: Id, a: ExternalAcceptance): TransitionCommand {
    TransitionCommand(id, ClaimAccepted, Running, AcceptancePayload(a))
  }

  lemma ClaimEnabled(s: Snapshot, t: Task, a: ExternalAcceptance)
    ensures Enabled(s, t, Claim(t.id, a)) <==> EligibilityReasons(s, t) == {} && CurrentAcceptance(a, t)
  {
    hide EligibilityReasons, DependenciesDone;
    NoEligibilityReasons(s, t);
  }

  lemma ClaimOnParsed(s: Snapshot, id: Id, a: ExternalAcceptance)
    requires Valid(s)
    ensures TransitionTask(s, Claim(id, a)).Ok? <==>
            var t := TaskById(s.tasks, id);
            t.Some? && EligibilityReasons(s, t.value) == {} && CurrentAcceptance(a, t.value) &&
            t.value.revision < MAX_SAFE_INTEGER
  {
    hide Valid, TransitionTask, Enabled, EligibilityReasons, OneTaskChanged, TaskById;
    TransitionOutcome(s, Claim(id, a));
    var t := TaskById(s.tasks, id);
    if t.Some? { ClaimEnabled(s, t.value, a); }
  }

  /** If a task is eligible, the snapshot it was decided on is valid in complete mode too. */
  lemma EligibleIsComplete(input: Snapshot, id: Id)
    requires EvaluateTaskEligibility(input, id) == Ok({})
    ensures ParseSnapshot(input, Complete) == ParseSnapshot(input, Decision(id))
  {
    hide ParseSnapshot, EligibilityReasons, TaskById, DependenciesDone, ProjectById;
    var s := ParseSnapshot(input, Decision(id)).value;
    var t := TaskById(s.tasks, id).value;
    NoEligibilityReasons(s, t);
    GroundedIsComplete(input, id);
  }

  /**
   Whatever the input, claiming a task succeeds exactly when it is eligible and the acceptance is current (and its
   revision is not exhausted).
   */
  lemma EligibleExactlyWhenClaimable(input: Snapshot, id: Id, a: ExternalAcceptance)
    ensures Apply(input, CTransition(Claim(id, a))).Ok? <==>
            var t := Decided(input, id);
            && EvaluateTaskEligibility(input, id) == Ok({})
            && t.Some? && CurrentAcceptance(a, t.value) && t.value.revision < MAX_SAFE_INTEGER
  {
    hide ParseSnapshot, EligibilityReasons, TaskById, TransitionTask, Valid, CurrentAcceptance;
    ModesCompared(input, id);
    if EvaluateTaskEligibility(input, id) == Ok({}) { EligibleIsComplete(input, id); }
    var s := ParseSnapshot(input, Complete);
    if s.Ok? {
      ParsedValid(input);
      ClaimOnParsed(s.value, id, a);
    }
  }

  // ---------------------------------------------------------------- continuing

  function EventOf(kind: ContinuationKind): TransitionEvent {
    match kind case Resume => ResumeAccepted case Retry => RetryAccepted
  }

  function Continue(id: Id, kind: ContinuationKind, c: Continuation, a: ExternalAcceptance): TransitionCommand {
    TransitionCommand(id, EventOf(kind), Running, ContinuationPayload(c, a))
  }

  lemma ContinueEnabled(s: Snapshot, t: Task, kind: ContinuationKind, c: Continuation, a: ExternalAcceptance)
    ensures Enabled(s, t, Continue(t.id, kind, c, a)) <==>
            && ParseContinuation(c).Ok? && c.taskId == t.id && c.kind == kind
            && ContinuationReasons(s, t, c) == {} && CurrentAcceptance(a, t)
  {
    hide ContinuationReasons, DependenciesDone, ParseContinuation;
    if ContinuationReasons(s, t, c) == {} { NoContinuationReasons(s, t, c); }
  }

  lemma ContinueOnParsed(s: Snapshot, id: Id, kind: ContinuationKind, c: Continuation, a: ExternalAcceptance)
    requires Valid(s)
    ensures TransitionTask(s, Continue(id, kind, c, a)).Ok? <==>
            var t := TaskById(s.tasks, id);
            && t.Some? && ParseContinuation(c).Ok? && c.taskId == id && c.kind == kind
            && ContinuationReasons(s, t.value, c) == {} && CurrentAcceptance(a, t.value)
            && t.value.revision < MAX_SAFE_INTEGER
  {
    hide Valid, TransitionTask, Enabled, ContinuationReasons, OneTaskChanged, TaskById, ParseContinuation;
    TransitionOutcome(s, Continue(id, kind, c, a));
    var t := TaskById(s.tasks, id);
    if t.Some? { ContinueEnabled(s, t.value, kind, c, a); }
  }

  lemma ParsedContinuation(c: Continuation)
    ensures ParseContinuation(c).Ok? ==> ParseContinuation(c) == Ok(c)
  {
  }

  lemma ContinuableIsComplete(input: Snapshot, c: Continuation)
    requires EvaluateWaitingContinuation(input, c) == Ok({})
    ensures ParseSnapshot(input, Complete) == ParseSnapshot(input, Decision(c.taskId))
  {
    hide ParseSnapshot, ContinuationReasons, TaskById, DependenciesDone, ProjectById, ParseContinuation;
    ParsedContinuation(c);
    var s := ParseSnapshot(input, Decision(c.taskId)).value;
    var t := TaskById(s.tasks, c.taskId).value;
    NoContinuationReasons(s, t, c);
    GroundedIsComplete(input, c.taskId);
  }

  /** Resuming or retrying succeeds exactly when the continuation has no reason against it and the acceptance is current. */
  lemma ContinuableExactlyWhenContinued(input: Snapshot, kind: ContinuationKind, c: Continuation, a: ExternalAcceptance)
    ensures Apply(input, CTransition(Continue(c.taskId, kind, c, a))).Ok? <==>
            var t := Decided(input, c.taskId);
            && EvaluateWaitingContinuation(input, c) == Ok({}) && c.kind == kind
            && t.Some? && CurrentAcceptance(a, t.value) && t.value.revision < MAX_SAFE_INTEGER
  {
    hide ParseSnapshot, ContinuationReasons, TaskById, TransitionTask, Valid, CurrentAcceptance, ParseContinuation;
    ParsedContinuation(c);
    ModesCompared(input, c.taskId);
    if EvaluateWaitingContinuation(input, c) == Ok({}) { ContinuableIsComplete(input, c); }
    var s := ParseSnapshot(input, Complete);
    if s.Ok? {
      ParsedValid(input);
      ContinueOnParsed(s.value, c.taskId, kind, c, a);
    }
  }
}
