/**
 Whether the driver of a product operation can still run: exactly when, in every reachable world, and that the denial of
 a recovered Act takes nothing from it.
 */
module CodexReach {
  import opened Options
  import opened CodexProduct
  import opened CodexRuns

  /** The world after some actions, all of them possible when they are taken. */
  function After(w: World, actions: seq<Action>): World
    decreases |actions|
  {
    if actions == [] then w else After(Next(w, actions[0]), actions[1..])
  }

  predicate AllPossible(w: World, actions: seq<Action>)
    decreases |actions|
  {
    actions == [] || (Possible(w, actions[0]) && AllPossible(Next(w, actions[0]), actions[1..]))
  }

  lemma Prepended(w: World, a: Action, rest: seq<Action>)
    ensures After(w, [a] + rest) == After(Next(w, a), rest)
    ensures AllPossible(w, [a] + rest) <==> Possible(w, a) && AllPossible(Next(w, a), rest)
  {
    hide Next, Possible;
    var actions := [a] + rest;
    assert actions[0] == a && actions[1..] == rest;
  }

  /** The driver has run for the operation at some point after w. */
  ghost predicate HasRun(w: World, later: World, op: Id) {
    exists t :: Ran(op, t) in later.log && Ran(op, t) !in w.log
  }

  /** Some continuation runs the driver for the operation. */
  ghost predicate CanRun(w: World, op: Id) {
    exists actions :: AllPossible(w, actions) && HasRun(w, After(w, actions), op)
  }

  // ---------------------------------------------------------------- the ways to a run

  /** An attempt is about to run its turn. */
  predicate AboutToRun(w: World, op: Id) {
    exists p :: p in w.attempts && w.attempts[p].operation == op && w.attempts[p].point.ToRun?
  }

  /** An attempt holds a journaled turn and waits for the second check, which the operation passes. */
  predicate AboutToCheck(w: World, op: Id) {
    && InputMatches(w, op)
    && exists p :: p in w.attempts && w.attempts[p].operation == op && w.attempts[p].point.ToVerifyAgain?
  }

  /**
   The operation is open, no turn is in the way of its execution, and its intent is pending or yet to come, or else
   executing and the effect possible.
   */
  predicate Startable(w: World, o: Operation) {
    && Open(o) && (forall t :: t in w.turns ==> w.turns[t].execution != o.execution)
    && if BeforeEffect(o.stage)
       then o.intent in w.intents ==> w.intents[o.intent].execution == o.execution && w.intents[o.intent].state == Pending
       else o.stage == EffectPossible && o.intent in w.intents && w.intents[o.intent].state == Executing
  }

  predicate MayStillRun(w: World, op: Id) {
    op in w.operations && (AboutToRun(w, op) || AboutToCheck(w, op) || Startable(w, w.operations[op]))
  }

  // ---------------------------------------------------------------- no other way opens

  /** The effect-possible stage is entered by an Act alone, and so is being active in it; closed operations stay closed. */
  lemma StageBefore(w: World, a: Action, op: Id)
    requires Possible(w, a) && op in w.operations
    ensures op in Next(w, a).operations
    ensures var o, n := w.operations[op], Next(w, a).operations[op];
            && (Open(n) ==> Open(o))
            && (n.stage == EffectPossible ==>
                  || (o.stage == EffectPossible && (n.lifecycle == Active ==> o.lifecycle == Active))
                  || (a.DoAct? && a.attempt in w.attempts && w.attempts[a.attempt].operation == op &&
                      Acted(w, op, a.structural, a.granted) && Open(o)))
  {
    hide InputMatches, Insertable, GoesToAct, EffectAbsent, Coherent;
  }

  /** Intents appear pending, and come to execute by Acts alone. */
  lemma IntentBefore(w: World, a: Action, i: Id)
    requires Possible(w, a) && i in Next(w, a).intents
    ensures i !in w.intents ==> Next(w, a).intents[i].state == Pending
    ensures i in w.intents && Next(w, a).intents[i].state == Pending ==> w.intents[i].state == Pending
    ensures i in w.intents && Next(w, a).intents[i].state == Executing ==>
              w.intents[i].state == Executing || |Next(w, a).intents[i].acts| > |w.intents[i].acts|
  {
    hide InputMatches, Insertable, GoesToAct, EffectAbsent, Coherent, Commits;
  }

  /** Past its first Act an operation's intent goes on executing by the guard's Acts only. */
  lemma ExecutingBefore(w: World, a: Action, op: Id)
    requires Sound(w) && Possible(w, a) && op in w.operations
    requires w.operations[op].stage == EffectPossible && Next(w, a).operations[op].stage == EffectPossible
    requires w.operations[op].intent in Next(w, a).intents
    requires Next(w, a).intents[w.operations[op].intent].state == Executing
    ensures w.operations[op].intent in w.intents && w.intents[w.operations[op].intent].state == Executing
  {
    hide Next, Possible, TurnsFit, AttemptsFit, LogFits;
    OperationsGrow(w, a);
    IntentBefore(w, a, w.operations[op].intent);
    OperationsKept(w, a);
    assert Coherent(w.intents, w.operations[op]) && Coherent(Next(w, a).intents, Next(w, a).operations[op]);
    ActsBefore(w, a, op);
  }

  /** Acts are added to an operation where the guard allows them, and that is while its intent is pending or executing. */
  lemma ActsBefore(w: World, a: Action, op: Id)
    requires Possible(w, a) && op in w.operations && op in Next(w, a).operations
    ensures Next(w, a).operations[op].acts == w.operations[op].acts ||
            (w.operations[op].intent in w.intents && w.intents[w.operations[op].intent].state in {Pending, Executing})
  {
    hide InputMatches, Insertable, GoesToAct, EffectAbsent, Coherent, Commits;
  }

  /** An operation that an Act was granted to could be started, unless a turn is in the way of its execution. */
  lemma ActedStartable(w: World, op: Id, structural: bool, granted: bool)
    requires Acted(w, op, structural, granted)
    requires forall t :: t in w.turns ==> w.turns[t].execution != w.operations[op].execution
    ensures Startable(w, w.operations[op])
  {
  }

  lemma StartableBefore(w: World, a: Action, op: Id)
    requires Sound(w) && Possible(w, a) && op in w.operations && Startable(Next(w, a), Next(w, a).operations[op])
    ensures Startable(w, w.operations[op])
  {
    hide Next, Possible, Acted, AttemptsFit, OperationsFit, LogFits, TurnsFit, Coherent;
    NextGrows(w, a);
    var o := w.operations[op];
    StageBefore(w, a, op);
    StepKeepsStage(w, a);
    if o.intent in Next(w, a).intents { IntentBefore(w, a, o.intent); }
    if a.DoAct? && Acted(w, op, a.structural, a.granted) {
      ActedStartable(w, op, a.structural, a.granted);
    } else if !BeforeEffect(o.stage) {
      ExecutingBefore(w, a, op);
    }
  }

  /** Where an attempt stood before it held a turn, or was about to run it. */
  lemma PointBefore(w: World, a: Action, p: Id)
    requires Possible(w, a) && p in Next(w, a).attempts
    ensures var q := Next(w, a).attempts[p];
            && (q.point.ToRun? ==>
                  && p in w.attempts && w.attempts[p].operation == q.operation
                  && (w.attempts[p] == q || (w.attempts[p].point.ToVerifyAgain? && InputMatches(w, q.operation))))
            && (q.point.ToVerifyAgain? ==>
                  && p in w.attempts && w.attempts[p].operation == q.operation
                  && (w.attempts[p] == q ||
                      (a.DoJournal? && exists decision :: Insertable(w, q.operation, decision, a.turn))))
  {
    hide InputMatches, Insertable, GoesToAct, EffectAbsent, Act, Deny;
  }

  lemma RunBefore(w: World, a: Action, op: Id)
    requires Possible(w, a) && AboutToRun(Next(w, a), op)
    ensures AboutToRun(w, op) || AboutToCheck(w, op)
  {
    hide Next, Possible;
    var p :| p in Next(w, a).attempts && Next(w, a).attempts[p].operation == op && Next(w, a).attempts[p].point.ToRun?;
    PointBefore(w, a, p);
  }

  /** A turn can be journaled only for an operation that could be started, if it then passes the check. */
  lemma InsertableStartable(w: World, op: Id, decision: Id, turn: Id)
    requires Insertable(w, op, decision, turn) && InputMatches(w, op)
    ensures Startable(w, w.operations[op])
  {
  }

  lemma JournalKeepsTables(w: World, a: Action)
    requires a.DoJournal? || a.DoVerifyAgain? || a.DoVerify? || a.DoRun? || a.Crash? || a.Enter? || a.DoRecord?
    ensures Next(w, a).operations == w.operations && Next(w, a).intents == w.intents
  {
    hide InputMatches, Insertable, GoesToAct;
  }

  lemma CheckBefore(w: World, a: Action, op: Id)
    requires Sound(w) && Possible(w, a) && op in w.operations && AboutToCheck(Next(w, a), op)
    ensures AboutToCheck(w, op) || Startable(w, w.operations[op])
  {
    hide Next, Possible, Acted, AttemptsFit, LogFits, TurnsFit, Startable, Insertable;
    var next := Next(w, a);
    var p :| p in next.attempts && next.attempts[p].operation == op && next.attempts[p].point.ToVerifyAgain?;
    PointBefore(w, a, p);
    NextGrows(w, a);
    if w.attempts[p] == next.attempts[p] {
      HeldCheckable(w, a, op, p);
    } else {
      var decision :| Insertable(w, op, decision, a.turn);
      JournalKeepsTables(w, a);
      InsertableStartable(w, op, decision, a.turn);
    }
  }

  /** While an attempt holds a turn, no Act makes its operation pass the check that could not before. */
  lemma HeldCheckable(w: World, a: Action, op: Id, p: Id)
    requires Sound(w) && Possible(w, a) && op in w.operations && InputMatches(Next(w, a), op)
    requires p in w.attempts && w.attempts[p].operation == op && w.attempts[p].point.ToVerifyAgain?
    ensures InputMatches(w, op)
  {
    hide Next, Possible, LogFits, TurnsFit, AttemptsFit, Acted, Coherent;
    NextGrows(w, a);
    StageBefore(w, a, op);
    if a.DoAct? && Acted(w, op, a.structural, a.granted) {
      HeldNotGranted(w, op, p, a.structural, a.granted);
    }
    ExecutingBefore(w, a, op);
    EffectBound(w, op);
  }

  lemma EffectBound(w: World, op: Id)
    requires Committable(w) && op in w.operations && w.operations[op].stage == EffectPossible
    ensures Open(w.operations[op]) && w.operations[op].intent in w.intents
    ensures w.intents[w.operations[op].intent].execution == w.operations[op].execution
  {
    assert Coherent(w.intents, w.operations[op]);
  }

  lemma HeldNotGranted(w: World, op: Id, p: Id, structural: bool, granted: bool)
    requires Sound(w) && p in w.attempts && w.attempts[p].operation == op && w.attempts[p].point.ToVerifyAgain?
    ensures !Acted(w, op, structural, granted)
  {
    hide LogFits, OperationsFit;
    if Acted(w, op, structural, granted) { GrantedWhileAbsent(w, op, structural, granted); }
  }

  /** Without a way to a run there is none after any step, and the step is not a run. */
  lemma StaysUnable(w: World, a: Action, op: Id)
    requires Sound(w) && Possible(w, a) && op in w.operations && !MayStillRun(w, op)
    ensures op in Next(w, a).operations && !MayStillRun(Next(w, a), op)
    ensures forall t :: Ran(op, t) in Next(w, a).log ==> Ran(op, t) in w.log
  {
    hide Next, Possible, Sound, AboutToRun, AboutToCheck, Startable;
    NextGrows(w, a);
    if AboutToRun(Next(w, a), op) { RunBefore(w, a, op); }
    if AboutToCheck(Next(w, a), op) { CheckBefore(w, a, op); }
    if Startable(Next(w, a), Next(w, a).operations[op]) { StartableBefore(w, a, op); }
    RanWasAbout(w, a, op);
  }

  lemma RanWasAbout(w: World, a: Action, op: Id)
    requires !AboutToRun(w, op)
    ensures forall t :: Ran(op, t) in Next(w, a).log ==> Ran(op, t) in w.log
  {
    hide InputMatches, Insertable, GoesToAct, EffectAbsent;
  }

  lemma {:induction false} UnableThroughout(w: World, op: Id, actions: seq<Action>)
    requires Sound(w) && op in w.operations && !MayStillRun(w, op) && AllPossible(w, actions)
    ensures op in After(w, actions).operations && !MayStillRun(After(w, actions), op)
    ensures forall t :: Ran(op, t) in After(w, actions).log ==> Ran(op, t) in w.log
    decreases |actions|
  {
    hide Sound, Next, Possible, MayStillRun;
    if actions != [] {
      StaysUnable(w, actions[0], op);
      StepSound(w, actions[0]);
      UnableThroughout(Next(w, actions[0]), op, actions[1..]);
    }
  }

  // ---------------------------------------------------------------- every way leads to a run

  lemma {:induction false} FreshId(ids: set<Id>) returns (x: Id)
    ensures forall y :: y in ids ==> y < x
    decreases ids
  {
    if y :| y in ids {
      var z := FreshId(ids - {y});
      assert forall v :: v in ids ==> v == y || v in ids - {y};
      x := if y < z then z else y + 1;
    } else {
      x := 0;
    }
  }

  /** One action more at the front of actions that lead to a run. */
  lemma RunLater(w: World, a: Action, rest: seq<Action>, op: Id)
    requires Possible(w, a) && AllPossible(Next(w, a), rest) && HasRun(Next(w, a), After(Next(w, a), rest), op)
    ensures AllPossible(w, [a] + rest) && HasRun(w, After(w, [a] + rest), op)
  {
    hide Next, Possible, After, AllPossible, Added;
    Prepended(w, a, rest);
    AddedOnce(w, a);
  }

  lemma RunNow(w: World, op: Id, p: Id) returns (actions: seq<Action>)
    requires Sound(w) && p in w.attempts && w.attempts[p].operation == op && w.attempts[p].point.ToRun?
    ensures AllPossible(w, actions) && HasRun(w, After(w, actions), op)
  {
    hide OperationsFit, TurnsFit, LogFits;
    var a := DoRun(p, true);
    actions := [a];
    assert Ran(op, w.attempts[p].point.turn) in Next(w, a).log;
    assert actions[1..] == [];
  }

  lemma CheckPasses(w: World, op: Id, p: Id)
    requires InputMatches(w, op) && p in w.attempts && w.attempts[p].operation == op && w.attempts[p].point.ToVerifyAgain?
    ensures var next := Next(w, DoVerifyAgain(p, true));
            p in next.attempts && next.attempts[p].operation == op && next.attempts[p].point.ToRun?
  {
    hide InputMatches;
  }

  lemma RunAfterCheck(w: World, op: Id, p: Id) returns (actions: seq<Action>)
    requires Sound(w) && InputMatches(w, op)
    requires p in w.attempts && w.attempts[p].operation == op && w.attempts[p].point.ToVerifyAgain?
    ensures AllPossible(w, actions) && HasRun(w, After(w, actions), op)
  {
    hide Sound, Next, InputMatches, After, AllPossible, HasRun;
    var a := DoVerifyAgain(p, true);
    CheckPasses(w, op, p);
    StepSound(w, a);
    var rest := RunNow(Next(w, a), op, p);
    RunLater(w, a, rest, op);
    actions := [a] + rest;
  }

  lemma RunFromCheck(w: World, op: Id) returns (actions: seq<Action>)
    requires Sound(w) && AboutToCheck(w, op)
    ensures AllPossible(w, actions) && HasRun(w, After(w, actions), op)
  {
    hide Sound, After, AllPossible, HasRun, InputMatches;
    var p :| p in w.attempts && w.attempts[p].operation == op && w.attempts[p].point.ToVerifyAgain?;
    actions := RunAfterCheck(w, op, p);
  }

  /** An attempt whose Act is the last of an executing intent, and whose execution has no turn. */
  ghost predicate Journalable(w: World, op: Id, p: Id) {
    && InputMatches(w, op) && p in w.attempts && w.attempts[p].operation == op
    && (forall t :: t in w.turns ==> w.turns[t].execution != w.operations[op].execution)
    && exists decision :: LastAct(w.intents[w.operations[op].intent], decision) &&
         (w.attempts[p].point == ToVerify(decision) || w.attempts[p].point == ToJournal(decision))
  }

  lemma VerifyPasses(w: World, op: Id, p: Id)
    requires Journalable(w, op, p) && w.attempts[p].point.ToVerify?
    ensures var next := Next(w, DoVerify(p, true));
            Journalable(next, op, p) && next.attempts[p].point.ToJournal?
  {
  }

  lemma JournalPasses(w: World, op: Id, p: Id, t: Id)
    requires Sound(w) && Journalable(w, op, p) && w.attempts[p].point.ToJournal? && t !in w.turns
    ensures var next := Next(w, DoJournal(p, t, true));
            InputMatches(next, op) && p in next.attempts && next.attempts[p].operation == op && next.attempts[p].point.ToVerifyAgain?
  {
    hide AttemptsFit, LogFits, OperationsFit;
    assert Insertable(w, op, w.attempts[p].point.decision, t);
  }

  lemma RunFromAct(w: World, op: Id, p: Id) returns (actions: seq<Action>)
    requires Sound(w) && Journalable(w, op, p)
    ensures AllPossible(w, actions) && HasRun(w, After(w, actions), op)
    decreases w.attempts[p].point.ToVerify?
  {
    hide Sound, Next, InputMatches, After, AllPossible, HasRun;
    var a;
    if w.attempts[p].point.ToVerify? {
      a := DoVerify(p, true);
      VerifyPasses(w, op, p);
      StepSound(w, a);
      var rest := RunFromAct(Next(w, a), op, p);
      RunLater(w, a, rest, op);
      actions := [a] + rest;
    } else {
      var t := FreshId(w.turns.Keys);
      a := DoJournal(p, t, true);
      JournalPasses(w, op, p, t);
      StepSound(w, a);
      var rest := RunAfterCheck(Next(w, a), op, p);
      RunLater(w, a, rest, op);
      actions := [a] + rest;
    }
  }

  /** An operation that can act now, its execution without a turn. */
  predicate Actable(w: World, op: Id) {
    && op in w.operations && w.operations[op].intent in w.intents && Open(w.operations[op])
    && MayAct(w, w.operations[op], w.intents[w.operations[op].intent])
    && w.intents[w.operations[op].intent].execution == w.operations[op].execution
    && (forall t :: t in w.turns ==> w.turns[t].execution != w.operations[op].execution)
  }

  /** A step that writes one operation and its intent alone commits when these two agree. */
  lemma OneCommits(w: World, v: World, op: Id)
    requires OperationsFit(w) && op in w.operations && Open(w.operations[op])
    requires v.operations.Keys == w.operations.Keys && v.operations[op].intent == w.operations[op].intent
    requires forall other :: other in w.operations && other != op ==> v.operations[other] == w.operations[other]
    requires forall i | i != w.operations[op].intent ::
               (i in v.intents <==> i in w.intents) && (i in w.intents ==> v.intents[i] == w.intents[i])
    requires Coherent(v.intents, v.operations[op])
    ensures Commits(w, v)
  {
    forall other | other in v.operations ensures Coherent(v.intents, v.operations[other]) {
      if other != op { assert Coherent(w.intents, w.operations[other]); }
    }
  }

  lemma ActCommits(w: World, op: Id, d: Id)
    requires OperationsFit(w) && Actable(w, op)
    ensures Acted(w, op, true, true) && Commits(w, Act(w, op, d, true, true))
  {
    hide Commits, Committable;
    var v := Act(w, op, d, true, true);
    ActWrites(w, op, d);
    OneCommits(w, v, op);
  }

  lemma ActWrites(w: World, op: Id, d: Id)
    requires OperationsFit(w) && Actable(w, op)
    ensures var v := Act(w, op, d, true, true);
            && v.operations.Keys == w.operations.Keys && v.operations[op].intent == w.operations[op].intent
            && Coherent(v.intents, v.operations[op])
  {
    assert Coherent(w.intents, w.operations[op]);
  }

  lemma ActPasses(w: World, op: Id, p: Id, d: Id)
    requires OperationsFit(w) && Actable(w, op) && p in w.attempts && w.attempts[p] == Attempt(op, ToAct)
    ensures Journalable(Next(w, DoAct(p, d, true, true)), op, p)
  {
    hide Commits, OperationsFit;
    ActCommits(w, op, d);
    var next := Next(w, DoAct(p, d, true, true));
    assert next.attempts[p].point == ToVerify(d);
    assert LastAct(next.intents[next.operations[op].intent], d);
  }

  lemma EnterPasses(w: World, op: Id, p: Id)
    requires Actable(w, op) && p !in w.attempts
    ensures var next := Next(w, Enter(p, op));
            Actable(next, op) && p in next.attempts && next.attempts[p] == Attempt(op, ToAct)
  {
  }

  lemma FreshDecision(w: World) returns (d: Id)
    ensures NewDecision(w, d)
  {
    var used := set i, k | i in w.intents && 0 <= k < |w.intents[i].acts| :: w.intents[i].acts[k];
    d := FreshId(used);
    forall i | i in w.intents ensures d !in w.intents[i].acts {
      assert forall k | 0 <= k < |w.intents[i].acts| :: w.intents[i].acts[k] in used;
    }
  }

  lemma RunFromActable(w: World, op: Id) returns (actions: seq<Action>)
    requires Sound(w) && Actable(w, op)
    ensures AllPossible(w, actions) && HasRun(w, After(w, actions), op)
  {
    hide OperationsFit, TurnsFit, AttemptsFit, LogFits, Next, After, AllPossible, HasRun, Actable, Journalable, NewDecision;
    var p := FreshId(w.attempts.Keys);
    var enter := Enter(p, op);
    EnterPasses(w, op, p);
    StepSound(w, enter);
    var entered := Next(w, enter);
    var d := FreshDecision(entered);
    var act := DoAct(p, d, true, true);
    ActPasses(entered, op, p, d);
    StepSound(entered, act);
    var rest := RunFromAct(Next(entered, act), op, p);
    RunLater(entered, act, rest, op);
    RunLater(w, enter, [act] + rest, op);
    actions := [enter] + ([act] + rest);
  }

  /** What brings an operation before its effect on: its intent created, then itself prepared. */
  function Readying(w: World, op: Id): Action
    requires op in w.operations
  {
    var o := w.operations[op];
    if o.intent !in w.intents then EnvIntent(o.intent, Intent(o.execution, Pending, []))
    else EnvOperation(op, o.(stage := IntentPrepared))
  }

  lemma ReadyingCreates(w: World, op: Id)
    requires OperationsFit(w) && op in w.operations && Startable(w, w.operations[op]) && w.operations[op].intent !in w.intents
    ensures var a := Readying(w, op);
            && Possible(w, a) && op in Next(w, a).operations && Startable(Next(w, a), Next(w, a).operations[op])
            && Next(w, a).operations[op].intent in Next(w, a).intents && BeforeEffect(Next(w, a).operations[op].stage)
  {
    hide Commits, Committable;
    var o := w.operations[op];
    var v := w.(intents := w.intents[o.intent := Intent(o.execution, Pending, [])]);
    StartableCoherent(w, op);
    OneCommits(w, v, op);
  }

  lemma StartableCoherent(w: World, op: Id)
    requires Committable(w) && op in w.operations && Open(w.operations[op])
    ensures Coherent(w.intents, w.operations[op])
  {
  }

  lemma ReadyingMakesActable(w: World, op: Id)
    requires Sound(w) && op in w.operations && Startable(w, w.operations[op]) && w.operations[op].intent in w.intents
    requires BeforeEffect(w.operations[op].stage)
    ensures Possible(w, Readying(w, op)) && Actable(Next(w, Readying(w, op)), op)
  {
    hide AttemptsFit, LogFits, TurnsFit, Commits, Committable;
    StartableCoherent(w, op);
    OneCommits(w, w.(operations := w.operations[op := w.operations[op].(stage := IntentPrepared)]), op);
  }

  lemma StartableActs(w: World, op: Id)
    requires Sound(w) && op in w.operations && Startable(w, w.operations[op]) && !BeforeEffect(w.operations[op].stage)
    ensures Actable(w, op)
  {
    hide AttemptsFit, LogFits;
    EffectBound(w, op);
    assert w.operations[op].intent !in w.results;
  }

  lemma RunFromStart(w: World, op: Id) returns (actions: seq<Action>)
    requires Sound(w) && op in w.operations && Startable(w, w.operations[op])
    ensures AllPossible(w, actions) && HasRun(w, After(w, actions), op)
    decreases w.operations[op].intent !in w.intents
  {
    hide OperationsFit, TurnsFit, AttemptsFit, LogFits, Next, Possible, After, AllPossible, HasRun, Actable, Startable;
    if !BeforeEffect(w.operations[op].stage) {
      StartableActs(w, op);
      actions := RunFromActable(w, op);
    } else {
      var a := Readying(w, op);
      var rest;
      if w.operations[op].intent !in w.intents {
        ReadyingCreates(w, op);
        StepSound(w, a);
        rest := RunFromStart(Next(w, a), op);
      } else {
        ReadyingMakesActable(w, op);
        StepSound(w, a);
        rest := RunFromActable(Next(w, a), op);
      }
      RunLater(w, a, rest, op);
      actions := [a] + rest;
    }
  }

  // ---------------------------------------------------------------- main results

  /**
   The driver can still run for an operation exactly when an attempt is about to run it, or is about to check it and the
   operation passes, or when it can be started: open, no turn in the way, and its intent pending or yet to come, or
   executing and the effect possible.
   */
  lemma CanRunExactly(w: World, op: Id)
    requires Sound(w) && op in w.operations
    ensures CanRun(w, op) <==> MayStillRun(w, op)
  {
    hide Sound, Next, Possible, After, AllPossible, AboutToRun, AboutToCheck, Startable;
    if AboutToRun(w, op) {
      var p := Runner(w, op);
      var actions := RunNow(w, op, p);
    } else if AboutToCheck(w, op) {
      var actions := RunFromCheck(w, op);
    } else if Startable(w, w.operations[op]) {
      var actions := RunFromStart(w, op);
    } else {
      forall actions | AllPossible(w, actions) ensures !HasRun(w, After(w, actions), op) {
        UnableThroughout(w, op, actions);
      }
    }
  }

  lemma Runner(w: World, op: Id) returns (p: Id)
    requires AboutToRun(w, op)
    ensures p in w.attempts && w.attempts[p].operation == op && w.attempts[p].point.ToRun?
  {
    p :| p in w.attempts && w.attempts[p].operation == op && w.attempts[p].point.ToRun?;
  }

  /** In every reachable world that is when the driver can still run. */
  lemma CanRunInRuns(worlds: seq<World>, actions: seq<Action>, n: nat, op: Id)
    requires Run(worlds, actions) && n <= |actions| && op in worlds[n].operations
    ensures CanRun(worlds[n], op) <==> MayStillRun(worlds[n], op)
  {
    hide Next, Possible, MayStillRun, Sound;
    RunSound(worlds, actions, n);
    CanRunExactly(worlds[n], op);
  }

  // ---------------------------------------------------------------- denied recoveries

  /**
   The Act guard writes a denied recovered Act back to the stage before the Act.  That never commits: in every run the
   denial leaves all tables as they were, and the driver can still run for the operation.
   */
  lemma DeniedRecoveryUndone(worlds: seq<World>, actions: seq<Action>, n: nat, op: Id)
    requires Run(worlds, actions) && n < |actions| && DeniesRecovery(worlds[n], actions[n], op)
    ensures worlds[n + 1] == worlds[n].(attempts := worlds[n].attempts - {actions[n].attempt})
    ensures CanRun(worlds[n + 1], op)
  {
    hide Next, Possible, Sound, AboutToRun, AboutToCheck, DeniesRecovery, After, AllPossible, Startable;
    RunSound(worlds, actions, n);
    RunSound(worlds, actions, n + 1);
    DenialUndone(worlds[n], actions[n], op);
    CanRunExactly(worlds[n + 1], op);
  }

  lemma DenialUndone(w: World, a: Action, op: Id)
    requires Sound(w) && DeniesRecovery(w, a, op)
    ensures Next(w, a) == w.(attempts := w.attempts - {a.attempt})
    ensures op in Next(w, a).operations && Startable(Next(w, a), Next(w, a).operations[op])
  {
    hide TurnsFit, AttemptsFit, LogFits;
    EffectBound(w, op);
    assert Coherent(w.intents, w.operations[op]);
    var v := Act(w, op, a.decision, a.structural, a.granted);
    assert v.operations[op].stage == IntentPrepared && v.operations[op].acts != [];
    assert !Coherent(v.intents, v.operations[op]);
  }
}
