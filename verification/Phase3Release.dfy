/**
 When a current reservation can still be given up: exactly, in every reachable world of the whole machine.  A release asks
 for a completed owner; when the owner will never be completed, doubt about an effect is the only way left.
 */
module Phase3Release {
  import opened Options
  import opened IntegrationModel
  import opened GateModel
  import opened Phase3Model
  import opened Phase3Safety
  import opened Phase3Theorems
  import opened Phase3Reach
  import I = IntegrationRuns
  import H = IntegrationHistory
  import T = IntegrationTheorems
  import R = IntegrationReach
  import B = IntegrationDoubt
  import S = IntegrationSafety
  import D = DomainModel
  import DM = DomainMutations

  // ---------------------------------------------------------------- owners

  ghost predicate OneAttempt(w: World) {
    forall e, f | Attempting(w, e) && Attempting(w, f) && e != f :: w.executions[e].task != w.executions[f].task
  }

  /** The task of an attempt that has not ended is running or waiting. */
  ghost predicate TasksOngoing(w: World) {
    forall e :: Attempting(w, e) && w.executions[e].terminal.None? ==>
      w.executions[e].task in w.tasks && Ongoing(w.tasks[w.executions[e].task].state)
  }

  ghost predicate OwnersAttempt(w: World) {
    forall r :: r in w.integration.ledger.reservations ==> Attempting(w, w.integration.ledger.reservations[r].ownerExecution)
  }

  ghost predicate Owned(w: World) {
    OneAttempt(w) && TasksOngoing(w) && OwnersAttempt(w)
  }

  lemma SameOwned(w: World, next: World)
    requires Owned(w) && next.tasks == w.tasks && next.executions == w.executions
    requires next.integration.ledger.reservations == w.integration.ledger.reservations
    ensures Owned(next)
  {
    forall e ensures Attempting(next, e) <==> Attempting(w, e) {
    }
    forall r | r in w.integration.ledger.reservations
      ensures Attempting(next, w.integration.ledger.reservations[r].ownerExecution)
    {
    }
  }

  lemma DecideOwned(w: World, a: Action)
    requires Owned(w) && a.CompletionDecide?
    ensures Owned(Next(w, a))
  {
    hide GateSet, Proves, OwnersAttempt;
    DecideOwners(w, a);
  }

  lemma DecideOwners(w: World, a: Action)
    requires OwnersAttempt(w) && a.CompletionDecide?
    ensures OwnersAttempt(Next(w, a))
  {
    hide GateSet, Proves, Underway;
  }

  lemma ExecutionOwned(w: World, a: Action)
    requires Owned(w) && a.EnvExecution? && Possible(w, a)
    ensures Owned(Next(w, a))
  {
    hide NextGate, NextCleanup, NextCompletion;
  }

  lemma TaskOwned(w: World, a: Action)
    requires Owned(w) && a.EnvTask? && Possible(w, a)
    ensures Owned(Next(w, a))
  {
    hide NextGate, NextCleanup, NextCompletion, DM.SomeTransition;
    var next := Next(w, a);
    forall e | Attempting(next, e) && next.executions[e].terminal.None?
      ensures next.executions[e].task in next.tasks && Ongoing(next.tasks[next.executions[e].task].state)
    {
      assert Attempting(w, e);
    }
    forall r | r in w.integration.ledger.reservations
      ensures Attempting(next, w.integration.ledger.reservations[r].ownerExecution)
    {
      assert Attempting(w, w.integration.ledger.reservations[r].ownerExecution);
    }
  }

  /** New reservations are of an attempt that was read. */
  lemma NewReservation(w: World, a: Action, r: Id)
    requires a.Integrate? && Possible(w, a)
    requires r in Next(w, a).integration.ledger.reservations && r !in w.integration.ledger.reservations
    ensures Attempting(w, Next(w, a).integration.ledger.reservations[r].ownerExecution)
  {
    hide Next, I.Next;
    IntegrateGrows(w, a);
    if a.action.DoReserve? {
      ReservedFor(w.integration, a.action, r);
    } else {
      NothingReserved(w.integration, a.action);
    }
  }

  lemma ReservedFor(w: I.World, a: I.Action, r: Id)
    requires a.DoReserve? && r in I.Next(w, a).ledger.reservations && r !in w.ledger.reservations
    ensures a.bound && I.Next(w, a).ledger.reservations[r].ownerExecution == a.execution
  {
    hide TargetTaken, PriorUnsettled;
  }

  lemma NothingReserved(w: I.World, a: I.Action)
    requires !a.DoReserve?
    ensures forall r :: r in I.Next(w, a).ledger.reservations ==> r in w.ledger.reservations
  {
    hide I.Next;
    if a.DoPrepare? { PrepareReserves(w, a); } else { T.AddsNothing(w, a); }
  }

  lemma PrepareReserves(w: I.World, a: I.Action)
    requires a.DoPrepare?
    ensures I.Next(w, a).ledger.reservations == w.ledger.reservations
  {
    hide Unfinished, Reached;
  }

  lemma IntegrateOwned(w: World, a: Action)
    requires Owned(w) && a.Integrate? && Possible(w, a)
    ensures Owned(Next(w, a))
  {
    hide I.Next, I.Possible, NextGate, NextCleanup, NextCompletion, Faithful;
    var next := Next(w, a);
    assert next.tasks == w.tasks && next.executions == w.executions;
    IntegrateGrows(w, a);
    forall e ensures Attempting(next, e) <==> Attempting(w, e) {
    }
    forall r | r in next.integration.ledger.reservations
      ensures Attempting(next, next.integration.ledger.reservations[r].ownerExecution)
    {
      if r in w.integration.ledger.reservations {
        assert Attempting(w, w.integration.ledger.reservations[r].ownerExecution);
      } else {
        NewReservation(w, a, r);
      }
    }
  }

  lemma StepOwned(w: World, a: Action)
    requires Owned(w) && Possible(w, a)
    ensures Owned(Next(w, a))
  {
    hide Next, Possible, Owned;
    if a.CompletionDecide? { DecideOwned(w, a); }
    else if a.EnvExecution? { ExecutionOwned(w, a); }
    else if a.EnvTask? { TaskOwned(w, a); }
    else if a.Integrate? { IntegrateOwned(w, a); }
    else {
      OthersIntegration(w, a);
      RestSame(w, a);
      SameOwned(w, Next(w, a));
    }
  }

  lemma RestSame(w: World, a: Action)
    requires !a.CompletionDecide? && !a.EnvExecution? && !a.EnvTask? && !a.Integrate?
    ensures Next(w, a).tasks == w.tasks && Next(w, a).executions == w.executions
  {
    if GateAction(a) { GateRowsSame(w, a); }
    else if CleanupAction(a) { CleanupRowsSame(w, a); }
    else if CompletionAction(a) { CallRowsSame(w, a); }
  }

  ghost predicate Governed(w: World) {
    Steady(w) && Owned(w)
  }

  lemma StepGoverned(w: World, a: Action)
    requires Governed(w) && Possible(w, a)
    ensures Governed(Next(w, a))
  {
    hide Next, Possible, Steady, Owned;
    StepSteady(w, a);
    StepOwned(w, a);
  }

  lemma StartGoverned()
    ensures Governed(START)
  {
    hide Steady;
    StartSteady();
  }

  lemma {:induction false} RunGoverned(worlds: seq<World>, actions: seq<Action>, n: nat)
    requires Run(worlds, actions) && n <= |actions|
    ensures n < |worlds| && Governed(worlds[n])
  {
    hide Run, Next, Possible, Governed;
    RunStart(worlds, actions);
    if n == 0 {
      StartGoverned();
    } else {
      RunStep(worlds, actions, n - 1);
      RunGoverned(worlds, actions, n - 1);
      StepGoverned(worlds[n - 1], actions[n - 1]);
    }
  }

  // ---------------------------------------------------------------- what decides

  predicate Stands(w: World, r: Id) {
    r in w.integration.ledger.reservations && Current(w.integration.ledger.reservations[r])
  }

  /** The execution was cancelled, or its task waits and it cannot run it again: it will never be completed. */
  predicate Spent(w: World, e: Id) {
    && e in w.executions
    && (w.executions[e].terminal == Some(CancelledStatus) ||
        (w.executions[e].terminal.None? && TaskIn(w, w.executions[e].task, D.Waiting) && !w.executions[e].resumable))
  }

  /**
   The protocol can still free the reservation; and where that takes a release, its owner is not spent, or else its
   unfinished intent may still come to be in doubt.
   */
  ghost predicate CanGiveUp(w: World, r: Id)
    requires r in w.integration.ledger.reservations
  {
    && R.Freeable(w.integration, r)
    && (w.integration.ledger.reservations[r].status == Active ==>
          || !Spent(w, w.integration.ledger.reservations[r].ownerExecution)
          || !B.Undoubting(w.integration, r))
  }

  /** Some continuation gives the reservation up. */
  ghost predicate IsGivenUp(w: World, r: Id) {
    exists more :: AllPossible(w, more) && r in After(w, more).integration.ledger.reservations && !Stands(After(w, more), r)
  }

  /** The protocol cannot free the reservation, or only by a release, and its owner is spent. */
  ghost predicate Held(w: World, r: Id) {
    || R.Jammed(w.integration, r)
    || (B.Undoubting(w.integration, r) && Spent(w, w.integration.ledger.reservations[r].ownerExecution))
  }

  lemma HeldExactly(w: World, r: Id)
    requires Stands(w, r)
    ensures Held(w, r) <==> !CanGiveUp(w, r)
  {
    hide R.Freeable;
  }

  // ---------------------------------------------------------------- held for ever

  /** A spent owner is not completed, and its task does not run. */
  lemma NoLeave(w: World, a: Action, r: Id)
    requires a.Integrate? && Possible(w, a) && r in w.integration.ledger.reservations
    requires Spent(w, w.integration.ledger.reservations[r].ownerExecution)
    ensures !B.NeedsOwner(a.action, r)
  {
    hide I.Possible;
  }

  lemma UndoubtingHeld(w: World, a: Action, r: Id)
    requires R.Steady(w.integration) && Owned(w) && Possible(w, a) && a.Integrate? && B.Undoubting(w.integration, r)
    requires Spent(w, w.integration.ledger.reservations[r].ownerExecution)
    ensures Held(Next(w, a), r)
  {
    hide Next, Possible, Owned, Spent, I.Next, I.Possible, R.Steady, R.Jammed, B.NeedsOwner;
    PossibleStep(w, a);
    NoLeave(w, a, r);
    IntegrateGrows(w, a);
    B.UndoubtingStays(w.integration, a.action, r);
    OwnerAttempts(w, r);
    OwnerReferenced(w, r);
    SpentStays(w, a, w.integration.ledger.reservations[r].ownerExecution);
  }

  /** The owner of a reservation, once spent, stays so: it is neither renewed nor superseded. */
  lemma SpentStays(w: World, a: Action, e: Id)
    requires Owned(w) && Possible(w, a) && Attempting(w, e) && Referenced(w, e) && Spent(w, e)
    ensures Spent(Next(w, a), e)
  {
    hide Next, Possible, Owned;
    NextRowsGrow(w, a);
    if w.executions[e].terminal.None? {
      if a.EnvTask? { WaitsOn(w, a, e); }
      else if a.EnvExecution? { ExecutionWaitsOn(w, a, e); }
      else if a.CompletionDecide? { DecideLeaves(w, a, e); }
      else if !a.Integrate? { RestSame(w, a); }
      else { IntegrateRows(w, a); }
    }
  }

  lemma IntegrateRows(w: World, a: Action)
    requires a.Integrate?
    ensures Next(w, a).tasks == w.tasks && Next(w, a).executions == w.executions
  {
    hide NextGate, NextCleanup, NextCompletion, I.Next;
  }

  lemma WaitsOn(w: World, a: Action, e: Id)
    requires Owned(w) && Possible(w, a) && a.EnvTask? && Attempting(w, e) && Spent(w, e) && w.executions[e].terminal.None?
    ensures Spent(Next(w, a), e)
  {
    hide NextGate, NextCleanup, NextCompletion, DM.SomeTransition;
  }

  lemma ExecutionWaitsOn(w: World, a: Action, e: Id)
    requires Owned(w) && Possible(w, a) && a.EnvExecution? && Attempting(w, e) && Referenced(w, e) && Spent(w, e)
    requires w.executions[e].terminal.None?
    ensures Spent(Next(w, a), e)
  {
    hide NextGate, NextCleanup, NextCompletion, Referenced, Owned, HasAttempt, Spent;
    if a.execution == e { OwnRowWaits(w, a, e); } else { OtherRowWaits(w, a, e); }
  }

  lemma OwnRowWaits(w: World, a: Action, e: Id)
    requires a.EnvExecution? && a.execution == e && e in w.executions && MayBecome(w, e, a.executionRow)
    requires Referenced(w, e) && Spent(w, e) && w.executions[e].terminal.None?
    ensures Spent(w.(executions := w.executions[e := a.executionRow], tasks := TasksAfter(w, e, a.executionRow)), e)
  {
    hide Referenced;
  }

  lemma OtherRowWaits(w: World, a: Action, e: Id)
    requires Owned(w) && Possible(w, a) && a.EnvExecution? && a.execution != e && Attempting(w, e) && Spent(w, e)
    requires w.executions[e].terminal.None?
    ensures var f := a.execution;
            Spent(w.(executions := w.executions[f := a.executionRow], tasks := TasksAfter(w, f, a.executionRow)), e)
  {
    hide Referenced, HasAttempt, TasksOngoing, OwnersAttempt;
    if a.execution in w.executions && !w.executions[a.execution].superseded {
      assert Attempting(w, a.execution);
    }
  }

  lemma DecideLeaves(w: World, a: Action, e: Id)
    requires Owned(w) && a.CompletionDecide? && Attempting(w, e) && Spent(w, e) && w.executions[e].terminal.None?
    ensures Spent(Next(w, a), e)
  {
    hide GateSet, Proves, OwnersAttempt;
  }

  lemma HeldStays(w: World, a: Action, r: Id)
    requires Governed(w) && Possible(w, a) && Held(w, r)
    ensures Held(Next(w, a), r)
  {
    hide Next, Possible, I.Next, I.Possible, Sound, Rooted, Owned, R.Jammed, B.Undoubting;
    SteadyIntegration(w);
    HeldStands(w, r);
    if !a.Integrate? {
      OthersIntegration(w, a);
      if B.Undoubting(w.integration, r) {
        OwnerAttempts(w, r);
        OwnerReferenced(w, r);
        if Spent(w, w.integration.ledger.reservations[r].ownerExecution) {
          SpentStays(w, a, w.integration.ledger.reservations[r].ownerExecution);
        }
      }
    } else if R.Jammed(w.integration, r) {
      IntegrateGrows(w, a);
      PossibleStep(w, a);
      R.JammedForEver(w.integration, a.action, r);
    } else {
      UndoubtingHeld(w, a, r);
    }
  }

  lemma HeldStands(w: World, r: Id)
    requires Held(w, r)
    ensures Stands(w, r)
  {
    hide R.Freeable;
  }

  lemma {:induction false} HeldThroughout(w: World, r: Id, actions: seq<Action>)
    requires Governed(w) && Held(w, r) && AllPossible(w, actions)
    ensures Stands(After(w, actions), r)
    decreases |actions|
  {
    hide Next, Possible, Governed, Held;
    if actions == [] {
      HeldStands(w, r);
    } else {
      HeldStays(w, actions[0], r);
      StepGoverned(w, actions[0]);
      HeldThroughout(Next(w, actions[0]), r, actions[1..]);
    }
  }

  // ---------------------------------------------------------------- giving up

  /** The owner's task runs again, if it waits, and is completed together with it. */
  lemma Completes(w: World, e: Id) returns (actions: seq<Action>)
    requires Owned(w) && Attempting(w, e) && !Spent(w, e)
    ensures AllPossible(w, actions) && After(w, actions).integration == w.integration && CompletedExecution(After(w, actions), e)
  {
    hide Next, Possible, Owned;
    if w.executions[e].terminal.Some? {
      assert w.executions[e].terminal.value != CancelledStatus;
      actions := [];
    } else {
      OngoingTask(w, e);
      assert Attempting(w, e) && (TaskIn(w, w.executions[e].task, D.Waiting) ==> w.executions[e].resumable);
      if w.tasks[w.executions[e].task].state == D.Running {
        actions := CompletesRunning(w, e);
      } else {
        var t := w.executions[e].task;
        var a := EnvTask(t, TaskRow(D.Running, w.tasks[t].revision + 1));
        RunsAgain(w, e);
        var rest := CompletesRunning(Next(w, a), e);
        Prepended(w, a, rest);
        actions := [a] + rest;
      }
    }
  }

  lemma OngoingTask(w: World, e: Id)
    requires Owned(w) && Attempting(w, e) && w.executions[e].terminal.None?
    ensures w.executions[e].task in w.tasks && Ongoing(w.tasks[w.executions[e].task].state)
  {
  }

  lemma RunsAgain(w: World, e: Id)
    requires Attempting(w, e) && w.executions[e].terminal.None? && w.executions[e].resumable
    requires w.executions[e].task in w.tasks && w.tasks[w.executions[e].task].state == D.Waiting
    ensures var t := w.executions[e].task;
            var a := EnvTask(t, TaskRow(D.Running, w.tasks[t].revision + 1));
            && Possible(w, a) && Next(w, a) == w.(tasks := w.tasks[t := TaskRow(D.Running, w.tasks[t].revision + 1)])
  {
    hide NextGate, NextCleanup, NextCompletion;
    assert DM.Legal(D.Waiting, DM.RetryAccepted, D.Running);
  }

  lemma CompletesRunning(w: World, e: Id) returns (actions: seq<Action>)
    requires Attempting(w, e) && w.executions[e].terminal.None?
    requires w.executions[e].task in w.tasks && w.tasks[w.executions[e].task].state == D.Running
    ensures AllPossible(w, actions) && After(w, actions).integration == w.integration && CompletedExecution(After(w, actions), e)
  {
    var a := EnvExecution(e, w.executions[e].(terminal := Some(CompletedStatus)));
    CompletesNow(w, e);
    hide Next, Possible;
    Prepended(w, a, []);
    actions := [a] + [];
  }

  lemma CompletesNow(w: World, e: Id)
    requires Attempting(w, e) && w.executions[e].terminal.None?
    requires w.executions[e].task in w.tasks && w.tasks[w.executions[e].task].state == D.Running
    ensures var a := EnvExecution(e, w.executions[e].(terminal := Some(CompletedStatus)));
            Possible(w, a) && Next(w, a).integration == w.integration && CompletedExecution(Next(w, a), e)
  {
    hide NextGate, NextCleanup, NextCompletion, Referenced;
  }

  /** Steps of the integration protocol that reserve, prepare and mutate nothing can always be taken here. */
  lemma {:induction false} LiftedFreely(w: World, steps: seq<I.Action>)
    requires T.AllPossible(w.integration, steps)
    requires forall s :: s in steps ==> !s.DoReserve? && !s.DoPrepare? && !s.DoMutate?
    ensures AllPossible(w, Lifted(steps))
    ensures After(w, Lifted(steps)) == w.(integration := T.After(w.integration, steps))
    decreases |steps|
  {
    hide I.Next, I.Possible;
    if steps != [] {
      var next := Next(w, Integrate(steps[0]));
      Lifts(w, steps[0]);
      assert forall s :: s in steps[1..] ==> s in steps;
      LiftedFreely(next, steps[1..]);
      Prepended(w, Integrate(steps[0]), Lifted(steps[1..]));
    }
  }

  lemma Lifts(w: World, step: I.Action)
    requires I.Possible(w.integration, step) && !step.DoReserve? && !step.DoPrepare? && !step.DoMutate?
    ensures Possible(w, Integrate(step)) && Next(w, Integrate(step)) == w.(integration := I.Next(w.integration, step))
  {
    hide I.Next, I.Possible, NextGate, NextCleanup, NextCompletion;
  }

  lemma GivesUpByDoubt(w: World, r: Id, steps: seq<I.Action>)
    requires B.Surrenders(w.integration, r, steps)
    ensures IsGivenUp(w, r)
  {
    hide I.Next, I.Possible, T.After, T.AllPossible, After, AllPossible;
    LiftedFreely(w, steps);
    var more := Lifted(steps);
    assert AllPossible(w, more) && r in After(w, more).integration.ledger.reservations && !Stands(After(w, more), r);
  }

  lemma GivesUpByRelease(w: World, r: Id)
    requires H.Sound(w.integration) && Owned(w) && Stands(w, r) && R.Freeable(w.integration, r)
    requires Attempting(w, w.integration.ledger.reservations[r].ownerExecution)
    requires !Spent(w, w.integration.ledger.reservations[r].ownerExecution)
    ensures IsGivenUp(w, r)
  {
    hide Next, Possible, I.Next, I.Possible, H.Sound, Owned, R.Freeable, R.SameElsewhere, T.After, T.AllPossible, After, AllPossible,
         R.OnlyFor, CompletedExecution;
    var e := w.integration.ledger.reservations[r].ownerExecution;
    var first := Completes(w, e);
    var v := After(w, first);
    var steps := R.Freeing(v.integration, r);
    LiftedSteps(v, e, r, steps);
    Appended(w, first, Lifted(steps));
    var more := first + Lifted(steps);
    assert AllPossible(w, more) && r in After(w, more).integration.ledger.reservations && !Stands(After(w, more), r);
  }

  lemma OwnerReferenced(w: World, r: Id)
    requires r in w.integration.ledger.reservations
    ensures Referenced(w, w.integration.ledger.reservations[r].ownerExecution)
  {
  }

  lemma OwnerAttempts(w: World, r: Id)
    requires Owned(w) && r in w.integration.ledger.reservations
    ensures Attempting(w, w.integration.ledger.reservations[r].ownerExecution)
  {
  }

  lemma GivesUp(w: World, r: Id)
    requires Governed(w) && Stands(w, r) && CanGiveUp(w, r)
    ensures IsGivenUp(w, r)
  {
    hide Steady, Owned, IsGivenUp, H.Sound, B.Surrenders, B.MayDoubt;
    SoundIntegration(w);
    OwnerAttempts(w, r);
    var v := w.integration;
    if v.ledger.reservations[r].status == Ambiguous {
      var i :| i in v.ledger.intents && v.ledger.intents[i].reservation == r && T.Recoverable(v.ledger, i);
      var steps := B.SurrenderUnsettled(v, r, i);
      GivesUpByDoubt(w, r, steps);
    } else if !Spent(w, v.ledger.reservations[r].ownerExecution) {
      GivesUpByRelease(w, r);
    } else {
      var i :| R.Pursues(v.ledger, i, r) && B.MayDoubt(v, r, i);
      R.SoundPursuer(v, r, i);
      var steps := B.Doubting(v, r, i);
      GivesUpByDoubt(w, r, steps);
    }
  }

  lemma SoundIntegration(w: World)
    requires Governed(w)
    ensures H.Sound(w.integration)
  {
    hide H.Sound, Rooted, Owned;
    SteadyIntegration(w);
  }

  // ---------------------------------------------------------------- main results

  /**
   In every reachable world a current reservation can still be given up, by some continuation, exactly when the protocol
   can free it and, where it would have to be released, its owner is not spent, or else its unfinished intent may still
   come to be in doubt.
   */
  lemma GivenUpExactly(worlds: seq<World>, actions: seq<Action>, n: nat, r: Id)
    requires Run(worlds, actions) && n <= |actions| && Stands(worlds[n], r)
    ensures IsGivenUp(worlds[n], r) <==> CanGiveUp(worlds[n], r)
  {
    hide Run, Next, Possible, Governed, CanGiveUp, IsGivenUp;
    RunGoverned(worlds, actions, n);
    GivenUpFrom(worlds[n], r);
  }

  lemma GivenUpFrom(w: World, r: Id)
    requires Governed(w) && Stands(w, r)
    ensures IsGivenUp(w, r) <==> CanGiveUp(w, r)
  {
    hide Next, Possible, Governed, CanGiveUp, After, AllPossible, Held;
    HeldExactly(w, r);
    if CanGiveUp(w, r) {
      GivesUp(w, r);
    } else {
      forall more | AllPossible(w, more) ensures Stands(After(w, more), r) { HeldThroughout(w, r, more); }
    }
  }

  lemma {:induction false} GovernedAfter(w: World, actions: seq<Action>)
    requires Governed(w) && AllPossible(w, actions)
    ensures Governed(After(w, actions))
    decreases |actions|
  {
    hide Next, Possible, Governed;
    if actions != [] {
      StepGoverned(w, actions[0]);
      GovernedAfter(Next(w, actions[0]), actions[1..]);
    }
  }

  /** In every run a reservation that cannot be given up stays current, and its target reserved. */
  lemma {:induction false} HeldInRuns(worlds: seq<World>, actions: seq<Action>, n: nat, m: nat, r: Id)
    requires Run(worlds, actions) && n <= m <= |actions| && Stands(worlds[n], r) && !CanGiveUp(worlds[n], r)
    ensures |worlds| == |actions| + 1 && Stands(worlds[m], r) && !CanGiveUp(worlds[m], r)
    ensures worlds[m].integration.ledger.reservations[r].target == worlds[n].integration.ledger.reservations[r].target
    ensures TargetTaken(worlds[m].integration.ledger, worlds[n].integration.ledger.reservations[r].target)
  {
    hide Run, Next, Possible, Governed, CanGiveUp, Held, I.Grows;
    RunStart(worlds, actions);
    if n < m {
      RunStep(worlds, actions, m - 1);
      HeldInRuns(worlds, actions, n, m - 1, r);
      RunGoverned(worlds, actions, m - 1);
      HeldExactly(worlds[m - 1], r);
      HeldStays(worlds[m - 1], actions[m - 1], r);
      HeldStands(worlds[m], r);
      HeldExactly(worlds[m], r);
      SameTarget(worlds[m - 1], actions[m - 1], r);
    }
  }

  lemma SameTarget(w: World, a: Action, r: Id)
    requires Possible(w, a) && r in w.integration.ledger.reservations
    ensures r in Next(w, a).integration.ledger.reservations
    ensures Next(w, a).integration.ledger.reservations[r].target == w.integration.ledger.reservations[r].target
  {
    hide Next, Possible;
    if a.Integrate? { IntegrateGrows(w, a); } else { OthersIntegration(w, a); }
  }
}
