/**
 Every run of a product operation: its driver runs at most once, only after an Act was committed, and an Act is granted
 only while nothing has been journaled for its intent.
 */
module CodexRuns {
  import opened Options
  import opened CodexProduct

  /** Operations keep their intent and execution, turns stay, and no intent becomes pending again. */
  ghost predicate Grows(w: World, next: World) {
    && (forall op :: op in w.operations ==>
          && op in next.operations && next.operations[op].intent == w.operations[op].intent
          && next.operations[op].execution == w.operations[op].execution)
    && (forall i :: i in w.intents ==>
          && i in next.intents && next.intents[i].execution == w.intents[i].execution
          && w.intents[i].acts <= next.intents[i].acts
          && (next.intents[i].state == Pending ==> w.intents[i].state == Pending))
    && (forall t :: t in w.turns ==> t in next.turns && next.turns[t] == w.turns[t])
  }

  lemma OperationsGrow(w: World, a: Action)
    requires Possible(w, a)
    ensures var next := Next(w, a);
            forall op :: op in w.operations ==>
              && op in next.operations && next.operations[op].intent == w.operations[op].intent
              && next.operations[op].execution == w.operations[op].execution
              && w.operations[op].acts <= next.operations[op].acts
  {
    hide InputMatches, Insertable, GoesToAct, EffectAbsent, Coherent, Commits;
  }

  lemma IntentsGrow(w: World, a: Action)
    requires Possible(w, a)
    ensures var next := Next(w, a);
            forall i :: i in w.intents ==>
              && i in next.intents && next.intents[i].execution == w.intents[i].execution
              && w.intents[i].acts <= next.intents[i].acts
              && (next.intents[i].state == Pending ==> w.intents[i].state == Pending)
  {
    hide InputMatches, Insertable, GoesToAct, EffectAbsent, Coherent, Commits;
  }

  lemma NextGrows(w: World, a: Action)
    requires Possible(w, a)
    ensures Grows(w, Next(w, a))
  {
    hide InputMatches, GoesToAct, EffectAbsent, Coherent, Commits, MayAct, Possible;
    OperationsGrow(w, a);
    IntentsGrow(w, a);
    assert forall t :: t in w.turns ==> t in Next(w, a).turns && Next(w, a).turns[t] == w.turns[t];
  }

  /** The event a step adds to the log. */
  function Added(w: World, a: Action): seq<Event> {
    if |w.log| <= |Next(w, a).log| then Next(w, a).log[|w.log|..] else []
  }

  lemma AddedOnce(w: World, a: Action)
    ensures Next(w, a).log == w.log + Added(w, a) && |Added(w, a)| <= 1
  {
    hide InputMatches, Insertable, GoesToAct, EffectAbsent;
  }

  lemma NoneJournaled(w: World, i: Id)
    requires LogFits(w) && forall t :: t in w.turns ==> w.turns[t].intent != i
    ensures forall t :: Journaled(i, t) !in w.log
  {
    forall t ensures Journaled(i, t) !in w.log {
      forall k | 0 <= k < |w.log| ensures w.log[k] != Journaled(i, t) { assert Due(w, w.log[..k], w.log[k]); }
    }
  }

  /** An Act is granted only while its intent has no turn. */
  lemma GrantedWhileAbsent(w: World, op: Id, structural: bool, granted: bool)
    requires TurnsFit(w) && Acted(w, op, structural, granted)
    ensures forall t :: t in w.turns ==> w.turns[t].intent != w.operations[op].intent
  {
  }

  lemma ActDue(w: World, a: Action)
    requires Sound(w) && a.DoAct? && Added(w, a) != []
    ensures Due(Next(w, a), w.log, Added(w, a)[0])
  {
    hide AttemptsFit, OperationsFit;
    var op := w.attempts[a.attempt].operation;
    GrantedWhileAbsent(w, op, a.structural, a.granted);
    NoneJournaled(w, w.operations[op].intent);
  }

  lemma OtherDue(w: World, a: Action)
    requires Sound(w) && Possible(w, a) && !a.DoAct? && Added(w, a) != []
    ensures Due(Next(w, a), w.log, Added(w, a)[0])
  {
    hide EffectAbsent, TurnsFit;
  }

  lemma StaysDue(w: World, next: World, before: seq<Event>, e: Event)
    requires Due(w, before, e) && Grows(w, next)
    ensures Due(next, before, e)
  {
  }

  lemma LogKept(w: World, a: Action)
    requires Sound(w) && Possible(w, a)
    ensures forall k :: 0 <= k < |Next(w, a).log| ==> Due(Next(w, a), Next(w, a).log[..k], Next(w, a).log[k])
  {
    hide Next, Possible, Added, Due, TurnsFit, AttemptsFit, OperationsFit;
    NextGrows(w, a);
    AddedOnce(w, a);
    var next := Next(w, a);
    forall k | 0 <= k < |next.log| ensures Due(next, next.log[..k], next.log[k]) {
      if k < |w.log| {
        assert next.log[..k] == w.log[..k];
        StaysDue(w, next, w.log[..k], w.log[k]);
      } else {
        assert next.log[..k] == w.log;
        if a.DoAct? { ActDue(w, a); } else { OtherDue(w, a); }
      }
    }
  }

  lemma TurnsJournaled(w: World, a: Action)
    requires LogFits(w) && Possible(w, a)
    ensures forall t :: t in Next(w, a).turns ==> Journaled(Next(w, a).turns[t].intent, t) in Next(w, a).log
  {
    hide InputMatches, Insertable, GoesToAct, EffectAbsent;
  }

  lemma NewResult(w: World, a: Action, i: Id)
    requires AttemptsFit(w) && i in Next(w, a).results && i !in w.results
    ensures exists t :: t in w.turns && w.turns[t].intent == i
  {
    hide InputMatches, Insertable, GoesToAct, EffectAbsent;
    assert OwnTurn(w, w.attempts[a.attempt].operation, w.attempts[a.attempt].point.turn);
  }

  lemma NewTurns(w: World, a: Action)
    requires TurnsFit(w)
    ensures var next := Next(w, a);
            forall t, u | t in next.turns && u in next.turns && t != u :: next.turns[t].intent != next.turns[u].intent
    ensures forall t :: t in Next(w, a).turns && t !in w.turns ==>
              && Next(w, a).turns[t].intent in w.intents && w.intents[Next(w, a).turns[t].intent].state != Pending
              && Next(w, a).turns[t].execution == w.intents[Next(w, a).turns[t].intent].execution
  {
    hide InputMatches, GoesToAct, EffectAbsent;
  }

  lemma TurnsKept(w: World, a: Action)
    requires TurnsFit(w) && AttemptsFit(w) && Possible(w, a)
    ensures TurnsFit(Next(w, a))
  {
    hide Next, Possible, AttemptsFit;
    NextGrows(w, a);
    NewTurns(w, a);
    forall i | i in Next(w, a).results ensures exists t :: t in Next(w, a).turns && Next(w, a).turns[t].intent == i {
      if i !in w.results { NewResult(w, a, i); }
      var t :| t in w.turns && w.turns[t].intent == i;
      assert t in Next(w, a).turns && Next(w, a).turns[t].intent == i;
    }
  }

  lemma OperationsKept(w: World, a: Action)
    requires OperationsFit(w) && Possible(w, a)
    ensures OperationsFit(Next(w, a))
  {
    hide Next, Possible, Coherent;
    CommitsAlways(w, a);
    OperationsLogged(w, a);
  }

  /** Whatever is written has passed the check. */
  lemma CommitsAlways(w: World, a: Action)
    requires Committable(w)
    ensures Committable(Next(w, a))
  {
    hide InputMatches, Insertable, GoesToAct, EffectAbsent, Coherent, Act, Deny;
    var next := Next(w, a);
    assert (next.operations == w.operations && next.intents == w.intents) || Committable(next);
  }

  lemma OperationsLogged(w: World, a: Action)
    requires OperationsFit(w) && Possible(w, a)
    ensures var next := Next(w, a);
            && (forall op :: op in next.operations && next.operations[op].stage == EffectPossible ==> Committed(op) in next.log)
            && forall op, other | op in next.operations && other in next.operations && op != other ::
                 next.operations[op].intent != next.operations[other].intent
  {
    hide InputMatches, Insertable, GoesToAct, EffectAbsent, Coherent, Commits;
  }

  // ---------------------------------------------------------------- attempts

  /** Where the attempt a step is about stands after it. */
  lemma OneAttempt(w: World, a: Action)
    ensures forall p :: AttemptOf(a) != Some(p) ==>
              (p in Next(w, a).attempts <==> p in w.attempts) &&
              (p in w.attempts ==> Next(w, a).attempts[p] == w.attempts[p])
  {
    hide InputMatches, Insertable, GoesToAct, EffectAbsent, Act, Deny;
  }

  /** The attempt a step is about gets a turn only by journaling it, and comes to run it by the second check. */
  ghost predicate Moved(w: World, a: Action)
    requires AttemptOf(a).Some? && a.attempt in Next(w, a).attempts
  {
    var p, next := a.attempt, Next(w, a);
    && (p in w.attempts ==> next.attempts[p].operation == w.attempts[p].operation)
    && (p !in w.attempts ==> next.attempts[p].operation in w.operations)
    && (TurnAt(next.attempts[p].point).Some? ==>
          && p in w.attempts
          && (TurnAt(w.attempts[p].point) == TurnAt(next.attempts[p].point) || Inserts(w, a)))
    && (next.attempts[p].point.ToRun? ==>
          p in w.attempts && (w.attempts[p].point == next.attempts[p].point ||
                              Checked(next.attempts[p].operation, next.attempts[p].point.turn) in next.log))
    && (TurnAt(next.attempts[p].point).Some? && !next.attempts[p].point.Running? && p in w.attempts ==>
          !w.attempts[p].point.Running?)
  }

  /** The step journals a turn for the attempt. */
  ghost predicate Inserts(w: World, a: Action) {
    && a.DoJournal? && a.attempt in w.attempts && a.turn !in w.turns && w.attempts[a.attempt].point.ToJournal?
    && var next := Next(w, a);
       a.attempt in next.attempts && next.attempts[a.attempt].point == ToVerifyAgain(a.turn) &&
       OwnTurn(next, w.attempts[a.attempt].operation, a.turn)
  }

  lemma Moving(w: World, a: Action)
    requires AttemptOf(a).Some? && a.attempt in Next(w, a).attempts && Possible(w, a)
    ensures Moved(w, a)
  {
    hide InputMatches, EffectAbsent, Act, Deny;
  }

  /** Whoever runs a turn held it, ready to run. */
  lemma RanBy(w: World, a: Action, t: Id)
    ensures forall op :: Ran(op, t) in Next(w, a).log && Ran(op, t) !in w.log ==>
              && a.DoRun? && a.attempt in w.attempts && w.attempts[a.attempt].point == ToRun(t)
              && (a.attempt in Next(w, a).attempts ==> Next(w, a).attempts[a.attempt].point.Running?)
  {
    hide InputMatches, Insertable, GoesToAct, EffectAbsent;
  }

  lemma NewTurnNeverRan(w: World, a: Action, t: Id)
    requires LogFits(w) && t !in w.turns && a.DoJournal?
    ensures forall op :: Ran(op, t) !in Next(w, a).log
  {
    hide InputMatches, GoesToAct, EffectAbsent;
    forall op ensures Ran(op, t) !in w.log {
      forall k | 0 <= k < |w.log| ensures w.log[k] != Ran(op, t) { assert Due(w, w.log[..k], w.log[k]); }
    }
  }

  ghost predicate HoldsWell(w: World, p: Id)
    requires p in w.attempts
  {
    && w.attempts[p].operation in w.operations
    && (TurnAt(w.attempts[p].point).Some? ==>
          var t := TurnAt(w.attempts[p].point).value;
          && OwnTurn(w, w.attempts[p].operation, t)
          && (!w.attempts[p].point.Running? ==> forall op :: Ran(op, t) !in w.log)
          && (w.attempts[p].point.ToRun? ==> Checked(w.attempts[p].operation, t) in w.log))
  }

  /** Nobody else holds the turn of an attempt. */
  ghost predicate HoldsAlone(w: World, p: Id)
    requires p in w.attempts
  {
    TurnAt(w.attempts[p].point).Some? ==>
      forall q | q in w.attempts && q != p :: TurnAt(w.attempts[q].point) != TurnAt(w.attempts[p].point)
  }

  lemma AttemptsFitExactly(w: World)
    ensures AttemptsFit(w) <==> forall p :: p in w.attempts ==> HoldsWell(w, p) && HoldsAlone(w, p)
  {
  }

  /** A run of one turn leaves those who hold another as they were. */
  lemma NeverRanStays(w: World, a: Action, p: Id)
    requires AttemptsFit(w) && p in w.attempts && p in Next(w, a).attempts
    requires TurnAt(w.attempts[p].point).Some? && TurnAt(Next(w, a).attempts[p].point) == TurnAt(w.attempts[p].point)
    requires !w.attempts[p].point.Running? && !Next(w, a).attempts[p].point.Running?
    ensures forall op :: Ran(op, TurnAt(w.attempts[p].point).value) !in Next(w, a).log
  {
    hide Next;
    RanBy(w, a, TurnAt(w.attempts[p].point).value);
  }

  lemma HoldsWellKept(w: World, a: Action, p: Id)
    requires Sound(w) && Possible(w, a) && p in Next(w, a).attempts
    ensures HoldsWell(Next(w, a), p)
  {
    hide Next, Possible, TurnsFit, OperationsFit, LogFits;
    NextGrows(w, a);
    AddedOnce(w, a);
    OneAttempt(w, a);
    var next := Next(w, a);
    if AttemptOf(a) == Some(p) {
      Moving(w, a);
      if TurnAt(next.attempts[p].point).Some? && Inserts(w, a) {
        NewTurnNeverRan(w, a, a.turn);
      } else if TurnAt(next.attempts[p].point).Some? && !next.attempts[p].point.Running? {
        NeverRanStays(w, a, p);
      }
    } else if TurnAt(w.attempts[p].point).Some? && !w.attempts[p].point.Running? {
      NeverRanStays(w, a, p);
    }
  }

  lemma HoldsAloneKept(w: World, a: Action, p: Id)
    requires Sound(w) && Possible(w, a) && p in Next(w, a).attempts
    ensures HoldsAlone(Next(w, a), p)
  {
    hide Next, Possible, TurnsFit, OperationsFit, LogFits;
    OneAttempt(w, a);
    if AttemptOf(a).Some? && a.attempt in Next(w, a).attempts { Moving(w, a); }
  }

  lemma AttemptsKept(w: World, a: Action)
    requires Sound(w) && Possible(w, a)
    ensures AttemptsFit(Next(w, a))
  {
    hide Next, Possible, Sound, HoldsWell, HoldsAlone, AttemptsFit;
    forall p | p in Next(w, a).attempts ensures HoldsWell(Next(w, a), p) && HoldsAlone(Next(w, a), p) {
      HoldsWellKept(w, a, p);
      HoldsAloneKept(w, a, p);
    }
    AttemptsFitExactly(Next(w, a));
  }

  lemma StepSound(w: World, a: Action)
    requires Sound(w) && Possible(w, a)
    ensures Sound(Next(w, a))
  {
    hide Next, Possible, TurnsFit, AttemptsFit, OperationsFit, Due;
    TurnsKept(w, a);
    AttemptsKept(w, a);
    OperationsKept(w, a);
    LogKept(w, a);
    TurnsJournaled(w, a);
  }

  lemma {:induction false} RunSound(worlds: seq<World>, actions: seq<Action>, n: nat)
    requires Run(worlds, actions) && n <= |actions|
    ensures Sound(worlds[n])
  {
    hide Next, Possible;
    if n > 0 {
      hide Sound;
      RunSound(worlds, actions, n - 1);
      StepSound(worlds[n - 1], actions[n - 1]);
    }
  }

  // ---------------------------------------------------------------- main results

  /**
   The driver runs at most once per product operation and per turn, and each run was preceded by a committed Act of the
   operation, then by the journaling of its turn, then by a check that found the operation effect-possible.
   */
  lemma DriverRunsOnce(worlds: seq<World>, actions: seq<Action>, n: nat, j: nat, k: nat)
    requires Run(worlds, actions) && n <= |actions| && j < |worlds[n].log| && k < |worlds[n].log|
    requires worlds[n].log[j].Ran? && worlds[n].log[k].Ran?
    ensures var log, e := worlds[n].log, worlds[n].log[k];
            && (j != k ==> log[j].operation != e.operation && log[j].turn != e.turn)
            && e.operation in worlds[n].operations
            && exists c, b, a :: 0 <= a < c && 0 <= b < c && c < k && log[c] == Checked(e.operation, e.turn) &&
                 log[b] == Journaled(worlds[n].operations[e.operation].intent, e.turn) && log[a] == Committed(e.operation)
  {
    hide Next, Possible, AttemptsFit, OperationsFit;
    RunSound(worlds, actions, n);
    RunsApart(worlds[n], j, k);
    RunsAfter(worlds[n], k);
  }

  lemma RunsApart(w: World, j: nat, k: nat)
    requires TurnsFit(w) && LogFits(w) && j < |w.log| && k < |w.log| && w.log[j].Ran? && w.log[k].Ran?
    ensures j != k ==> w.log[j].operation != w.log[k].operation && w.log[j].turn != w.log[k].turn
  {
    if j < k { RunsOrdered(w, j, k); }
    if k < j { RunsOrdered(w, k, j); }
  }

  lemma RunsOrdered(w: World, j: nat, k: nat)
    requires TurnsFit(w) && LogFits(w) && j < k < |w.log| && w.log[j].Ran? && w.log[k].Ran?
    ensures w.log[j].operation != w.log[k].operation && w.log[j].turn != w.log[k].turn
  {
    assert Due(w, w.log[..k], w.log[k]) && Due(w, w.log[..j], w.log[j]);
    assert w.log[..k][j] == w.log[j];
  }

  lemma RunsAfter(w: World, k: nat)
    requires LogFits(w) && k < |w.log| && w.log[k].Ran?
    ensures var log, e := w.log, w.log[k];
            && e.operation in w.operations
            && exists c, b, a :: 0 <= a < c && 0 <= b < c && c < k && log[c] == Checked(e.operation, e.turn) &&
                 log[b] == Journaled(w.operations[e.operation].intent, e.turn) && log[a] == Committed(e.operation)
  {
    var e := w.log[k];
    assert Due(w, w.log[..k], e);
    var c :| 0 <= c < k && w.log[c] == Checked(e.operation, e.turn);
    hide LogFits;
    var b, a := CheckedAfter(w, c);
  }

  lemma CheckedAfter(w: World, c: nat) returns (b: nat, a: nat)
    requires LogFits(w) && c < |w.log| && w.log[c].Checked?
    ensures var e := w.log[c];
            && e.operation in w.operations && a < c && b < c
            && w.log[b] == Journaled(w.operations[e.operation].intent, e.turn) && w.log[a] == Committed(e.operation)
  {
    var e := w.log[c];
    assert Due(w, w.log[..c], e);
    b :| 0 <= b < c && w.log[b] == Journaled(w.operations[e.operation].intent, e.turn);
    a :| 0 <= a < c && w.log[a] == Committed(e.operation);
  }

  /** In every reachable world an Act, fresh or recovered, is granted only while its intent has no turn and no result. */
  lemma ActsWhileAbsent(worlds: seq<World>, actions: seq<Action>, n: nat, op: Id, structural: bool, granted: bool)
    requires Run(worlds, actions) && n <= |actions| && Acted(worlds[n], op, structural, granted)
    ensures var w := worlds[n];
            && (forall t :: t in w.turns ==> w.turns[t].intent != w.operations[op].intent)
            && w.operations[op].intent !in w.results && forall t :: Ran(op, t) !in w.log
  {
    hide Next, Possible, AttemptsFit, OperationsFit;
    RunSound(worlds, actions, n);
    var w := worlds[n];
    GrantedWhileAbsent(w, op, structural, granted);
    forall t ensures Ran(op, t) !in w.log {
      forall k | 0 <= k < |w.log| ensures w.log[k] != Ran(op, t) { assert Due(w, w.log[..k], w.log[k]); }
    }
  }

  // ---------------------------------------------------------------- what the commit check undoes

  /** An Act without the guard never commits on the intent of a product operation. */
  lemma UnguardedActUndone(worlds: seq<World>, actions: seq<Action>, n: nat, op: Id)
    requires Run(worlds, actions) && n < |actions| && actions[n].EnvAct?
    requires op in worlds[n].operations && worlds[n].operations[op].intent == actions[n].intent
    ensures worlds[n + 1] == worlds[n]
  {
    hide Possible, TurnsFit, AttemptsFit, LogFits;
    RunSound(worlds, actions, n);
    var w, i := worlds[n], actions[n].intent;
    assert Coherent(w.intents, w.operations[op]);
    if i in w.intents {
      var acted := w.intents[i := w.intents[i].(state := Executing, acts := w.intents[i].acts + [actions[n].decision])];
      assert !Coherent(acted, w.operations[op]);
    }
  }

  /** The Acts allowed for an operation stay on record, and once one is, the operation never falls back behind the effect. */
  ghost predicate StageKept(w: World, next: World) {
    forall op :: op in w.operations ==>
      && op in next.operations && w.operations[op].acts <= next.operations[op].acts
      && (!BeforeEffect(w.operations[op].stage) ==> !BeforeEffect(next.operations[op].stage))
  }

  lemma StepKeepsStage(w: World, a: Action)
    requires Sound(w) && Possible(w, a)
    ensures StageKept(w, Next(w, a))
  {
    hide Next, Possible, TurnsFit, AttemptsFit, LogFits;
    OperationsGrow(w, a);
    OperationsKept(w, a);
    forall op | op in w.operations && !BeforeEffect(w.operations[op].stage)
      ensures !BeforeEffect(Next(w, a).operations[op].stage)
    {
      assert Coherent(w.intents, w.operations[op]);
      assert Coherent(Next(w, a).intents, Next(w, a).operations[op]);
    }
  }

  /** In every run an operation whose effect became possible stays so, or goes on, with all its Acts on record. */
  lemma {:induction false} StageInRuns(worlds: seq<World>, actions: seq<Action>, n: nat, m: nat)
    requires Run(worlds, actions) && n <= m <= |actions|
    ensures StageKept(worlds[n], worlds[m])
  {
    hide Next, Possible, Sound;
    if n < m {
      StageInRuns(worlds, actions, n, m - 1);
      RunSound(worlds, actions, m - 1);
      StepKeepsStage(worlds[m - 1], actions[m - 1]);
    }
  }

  // ---------------------------------------------------------------- a recovery that works

  /** The step denies a recovered Act of the operation. */
  ghost predicate DeniesRecovery(w: World, a: Action, op: Id) {
    && a.DoAct? && a.attempt in w.attempts && w.attempts[a.attempt] == Attempt(op, ToAct)
    && op in w.operations && w.operations[op].intent in w.intents
    && RecoveredAct(w, w.operations[op], w.intents[w.operations[op].intent]) && !Acted(w, op, a.structural, a.granted)
  }

  const PENDING := map[1 := Intent(7, Pending, [])]
  const CREATED := map[2 := Operation(1, 7, Earlier, Active, [], 1)]
  const BEFORE := map[2 := Operation(1, 7, IntentPrepared, Active, [], 2)]
  const ACTING: World := World(
    map[2 := Operation(1, 7, EffectPossible, Active, [5], 3)], map[1 := Intent(7, Executing, [5])], map[], {},
    map[10 := Attempt(2, ToVerify(5))], [Committed(2)])
  const AGAIN: World := World(
    map[2 := Operation(1, 7, EffectPossible, Active, [5, 6], 4)], map[1 := Intent(7, Executing, [5, 6])], map[], {},
    map[11 := Attempt(2, ToVerify(6))], [Committed(2), Committed(2)])
  const TAKEN: World := AGAIN.(
    turns := map[20 := Turn(1, 7, 6)], attempts := map[11 := Attempt(2, ToVerifyAgain(20))],
    log := AGAIN.log + [Journaled(1, 20)])

  function At(w: World, p: Id, point: Point): World {
    w.(attempts := map[p := Attempt(2, point)])
  }

  /** The operation and its intent are created, and an invocation goes for its Act. */
  lemma Prepares()
    ensures var w, a := START, EnvIntent(1, PENDING[1]);
            Possible(w, a) && Next(w, a) == World(map[], PENDING, map[], {}, map[], [])
    ensures var w, a := World(map[], PENDING, map[], {}, map[], []), EnvOperation(2, CREATED[2]);
            Possible(w, a) && Next(w, a) == World(CREATED, PENDING, map[], {}, map[], [])
    ensures var w, a := World(CREATED, PENDING, map[], {}, map[], []), EnvOperation(2, BEFORE[2]);
            Possible(w, a) && Next(w, a) == World(BEFORE, PENDING, map[], {}, map[], [])
    ensures var w, a := World(BEFORE, PENDING, map[], {}, map[], []), Enter(10, 2);
            Possible(w, a) && Next(w, a) == At(w, 10, ToAct)
  {
  }

  lemma CommitsAndCrashes()
    ensures var w, a := At(World(BEFORE, PENDING, map[], {}, map[], []), 10, ToAct), DoAct(10, 5, true, true);
            Possible(w, a) && Next(w, a) == ACTING
    ensures Possible(ACTING, Crash(10)) && Next(ACTING, Crash(10)) == ACTING.(attempts := map[])
    ensures var w, a := ACTING.(attempts := map[]), Enter(11, 2);
            Possible(w, a) && Next(w, a) == At(ACTING, 11, ToAct)
  {
    var w := At(World(BEFORE, PENDING, map[], {}, map[], []), 10, ToAct);
    assert Acted(w, 2, true, true);
    assert [] + [5] == [5];
    assert Act(w, 2, 5, true, true) == ACTING.(attempts := w.attempts);
    assert ACTING.attempts - {10} == map[];
  }

  /** The first recovery finds its grants withdrawn; nothing commits, and another may enter. */
  lemma Denied()
    ensures var w, a := At(ACTING, 11, ToAct), DoAct(11, 9, true, false);
            Possible(w, a) && DeniesRecovery(w, a, 2) && Next(w, a) == ACTING.(attempts := map[])
  {
    var w := At(ACTING, 11, ToAct);
    assert Act(w, 2, 9, true, false).operations[2].stage == IntentPrepared;
    assert !Coherent(w.intents, Act(w, 2, 9, true, false).operations[2]);
    assert w.attempts - {11} == map[];
  }

  lemma ActsAgain()
    ensures var w, a := At(ACTING, 11, ToAct), DoAct(11, 6, true, true);
            Possible(w, a) && Next(w, a) == AGAIN
  {
    var w := At(ACTING, 11, ToAct);
    assert RecoveredAct(w, w.operations[2], w.intents[1]);
    assert [5] + [6] == [5, 6];
    assert Act(w, 2, 6, true, true) == AGAIN.(attempts := w.attempts);
  }

  lemma Journals()
    ensures Possible(AGAIN, DoVerify(11, true)) && Next(AGAIN, DoVerify(11, true)) == At(AGAIN, 11, ToJournal(6))
    ensures var w, a := At(AGAIN, 11, ToJournal(6)), DoJournal(11, 20, true); Possible(w, a) && Next(w, a) == TAKEN
  {
  }

  lemma Checks()
    ensures var w, a := TAKEN, DoVerifyAgain(11, true);
            Possible(w, a) && Next(w, a) == At(TAKEN, 11, ToRun(20)).(log := TAKEN.log + [Checked(2, 20)])
  {
  }

  lemma RunsAtLast()
    ensures var w, a := At(TAKEN, 11, ToRun(20)).(log := TAKEN.log + [Checked(2, 20)]), DoRun(11, true);
            Possible(w, a) && Next(w, a) == At(w, 11, Running(20)).(log := w.log + [Ran(2, 20)])
  {
  }

  /** The actions of the run, and the worlds they are taken in. */
  function Taken(k: nat): (World, Action) {
    var ready := World(BEFORE, PENDING, map[], {}, map[], []);
    var crashed := ACTING.(attempts := map[]);
    var checked := At(TAKEN, 11, ToRun(20)).(log := TAKEN.log + [Checked(2, 20)]);
    match k
    case 0 => (START, EnvIntent(1, PENDING[1]))
    case 1 => (World(map[], PENDING, map[], {}, map[], []), EnvOperation(2, CREATED[2]))
    case 2 => (World(CREATED, PENDING, map[], {}, map[], []), EnvOperation(2, BEFORE[2]))
    case 3 => (ready, Enter(10, 2))
    case 4 => (At(ready, 10, ToAct), DoAct(10, 5, true, true))
    case 5 => (ACTING, Crash(10))
    case 6 => (crashed, Enter(11, 2))
    case 7 => (At(ACTING, 11, ToAct), DoAct(11, 9, true, false))
    case 8 => (crashed, Enter(11, 2))
    case 9 => (At(ACTING, 11, ToAct), DoAct(11, 6, true, true))
    case 10 => (AGAIN, DoVerify(11, true))
    case 11 => (At(AGAIN, 11, ToJournal(6)), DoJournal(11, 20, true))
    case 12 => (TAKEN, DoVerifyAgain(11, true))
    case 13 => (checked, DoRun(11, true))
    case _ => (At(checked, 11, Running(20)).(log := checked.log + [Ran(2, 20)]), Crash(11))
  }

  lemma Steps(k: nat)
    requires k < 14
    ensures Possible(Taken(k).0, Taken(k).1) && Next(Taken(k).0, Taken(k).1) == Taken(k + 1).0
  {
    hide Next, Possible, DeniesRecovery;
    Prepares();
    CommitsAndCrashes();
    Denied();
    ActsAgain();
    Journals();
    Checks();
    RunsAtLast();
  }

  lemma Highlights()
    ensures Taken(0).0 == START && Taken(5).1 == Crash(10) && Ran(2, 20) in Taken(14).0.log
    ensures DeniesRecovery(Taken(7).0, Taken(7).1, 2)
  {
    hide Next, Possible, DeniesRecovery;
    Denied();
    var log := Taken(14).0.log;
    assert log[|log| - 1] == Ran(2, 20);
  }

  /**
   A run in which an invocation crashes between its Act and the journal, the recovered Act of a second is denied, and that
   of a third is granted and its driver runs.
   */
  lemma RecoveryRuns()
    ensures exists worlds: seq<World>, actions: seq<Action>, n: nat ::
              && Run(worlds, actions) && Crash(10) in actions && n < |actions| && DeniesRecovery(worlds[n], actions[n], 2)
              && |worlds| == 15 && Ran(2, 20) in worlds[14].log
  {
    hide Next, Possible, DeniesRecovery, Taken;
    Highlights();
    var worlds, actions := seq(15, (k: nat) => Taken(k).0), seq(14, (k: nat) => Taken(k).1);
    forall k | 0 <= k < 14 ensures Possible(worlds[k], actions[k]) && worlds[k + 1] == Next(worlds[k], actions[k]) {
      Steps(k);
    }
    assert actions[5] == Crash(10);
    assert DeniesRecovery(worlds[7], actions[7], 2);
  }
}
