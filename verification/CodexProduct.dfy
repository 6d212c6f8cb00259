/**
 A product operation around the execution backend: its Act guard, the recovery of an Act whose effect never began, the
 two workspace checks around the backend's journal, and the run of the driver.  Any two transactions may be separated
 by those of other invocations, by crashes, and by whatever else the application does to intents and operations.  Every
 transaction ends with a check of the whole state, and is undone when its result is not coherent.
 */
module CodexProduct {
  import opened Options

  type Id = int

  datatype Stage = Earlier | IntentPrepared | EffectPossible | EffectTerminal | WorkspaceRefreshed

  datatype Lifecycle = Active | RecoveryRequired | Refused | Ended

  /** acts: the decisions of the Acts the guard allowed, oldest first. */
  datatype Operation =
    Operation(intent: Id, execution: Id, stage: Stage, lifecycle: Lifecycle, acts: seq<Id>, revision: nat)

  /** Recorded: observed, verified, failed or ambiguous. */
  datatype IntentState = Pending | Executing | RetryWait | Recorded | Finalized

  /** acts: the decisions of the Acts the intent was bound to, oldest first. */
  datatype Intent = Intent(execution: Id, state: IntentState, acts: seq<Id>)

  datatype Turn = Turn(intent: Id, execution: Id, decision: Id)

  /** How far an invocation has come since it read the operation. */
  datatype Point =
    | ToAct
    | ToVerify(decision: Id)
    | ToJournal(decision: Id)
    | ToVerifyAgain(turn: Id)
    | ToRun(turn: Id)
    | Running(turn: Id)

  datatype Attempt = Attempt(operation: Id, point: Point)

  datatype Event =
    | Committed(operation: Id)
    | Journaled(intent: Id, turn: Id)
    | Checked(operation: Id, turn: Id)
    | Ran(operation: Id, turn: Id)

  datatype World = World(
    operations: map<Id, Operation>, intents: map<Id, Intent>, turns: map<Id, Turn>, results: set<Id>,
    attempts: map<Id, Attempt>, log: seq<Event>)

  // ---------------------------------------------------------------- the guards

  /** No trace of an effect: no turn of the execution, no terminal operation of the intent. */
  predicate EffectAbsent(w: World, o: Operation) {
    (forall t :: t in w.turns ==> w.turns[t].execution != o.execution) && o.intent !in w.results
  }

  predicate FreshAct(o: Operation, i: Intent) {
    o.stage == IntentPrepared && i.state == Pending
  }

  predicate RecoveredAct(w: World, o: Operation, i: Intent) {
    o.stage == EffectPossible && i.state == Executing && EffectAbsent(w, o)
  }

  predicate MayAct(w: World, o: Operation, i: Intent) {
    FreshAct(o, i) || RecoveredAct(w, o, i)
  }

  predicate Open(o: Operation) {
    o.lifecycle == Active || o.lifecycle == RecoveryRequired
  }

  /** The invocation reads the operation and goes for an Act, fresh or recovered. */
  predicate GoesToAct(w: World, op: Id) {
    && op in w.operations && w.operations[op].intent in w.intents && Open(w.operations[op])
    && (w.operations[op].stage == IntentPrepared || RecoveredAct(w, w.operations[op], w.intents[w.operations[op].intent]))
  }

  /** What the verifier asks of the operation when it looks at the input of a product task. */
  predicate InputMatches(w: World, op: Id) {
    && op in w.operations && w.operations[op].stage == EffectPossible && w.operations[op].lifecycle == Active
    && w.operations[op].intent in w.intents && w.intents[w.operations[op].intent].state == Executing
    && w.intents[w.operations[op].intent].execution == w.operations[op].execution
  }

  // ---------------------------------------------------------------- commits

  predicate BeforeEffect(s: Stage) {
    s == Earlier || s == IntentPrepared
  }

  /** What the whole-state check asks of one operation and its intent. */
  predicate Coherent(intents: map<Id, Intent>, o: Operation) {
    && (o.stage != Earlier ==> o.intent in intents && intents[o.intent].execution == o.execution)
    && (BeforeEffect(o.stage) ==> o.acts == [] && (o.intent in intents ==> intents[o.intent].acts == []))
    && (!BeforeEffect(o.stage) ==> o.acts != [] && o.acts == intents[o.intent].acts && intents[o.intent].state != Pending)
    && (o.stage == EffectTerminal || o.stage == WorkspaceRefreshed ==> intents[o.intent].state == Finalized)
    && (o.lifecycle == Ended ==> o.stage == WorkspaceRefreshed)
    && (o.lifecycle == Refused ==> o.stage == Earlier && o.intent !in intents)
  }

  predicate Committable(w: World) {
    forall op :: op in w.operations ==> Coherent(w.intents, w.operations[op])
  }

  /** A transaction that takes w to v commits: the result is coherent, and no refused or ended operation was written. */
  predicate Commits(w: World, v: World) {
    && Committable(v)
    && forall op :: op in w.operations && !Open(w.operations[op]) ==>
         op in v.operations && v.operations[op] == w.operations[op]
  }

  function Commit(w: World, v: World): World {
    if Commits(w, v) then v else w
  }

  // ---------------------------------------------------------------- transactions

  /** A denial before the Act: recorded on an open operation that could act; anything else leaves the store alone. */
  function Deny(w: World, op: Id): World {
    if op !in w.operations || !Open(w.operations[op]) || w.operations[op].intent !in w.intents ||
       !MayAct(w, w.operations[op], w.intents[w.operations[op].intent])
    then w
    else w.(operations := w.operations[op := w.operations[op].(lifecycle := RecoveryRequired,
                                                               revision := w.operations[op].revision + 1)])
  }

  datatype ActAnswer = ActRefused | ActDenied | ActAllowed

  /** structural: profile, project, execution, member and workspace are as recorded; granted: every grant allows. */
  function GuardAnswer(w: World, o: Operation, i: Intent, structural: bool, granted: bool): ActAnswer {
    if !MayAct(w, o, i) then ActRefused
    else if Open(o) && o.execution == i.execution && structural && granted then ActAllowed
    else ActDenied
  }

  /** What the Act transaction writes.  A denial writes the operation to the stage before the Act, even a recovered one. */
  function Act(w: World, op: Id, decision: Id, structural: bool, granted: bool): World {
    if op !in w.operations || w.operations[op].intent !in w.intents then w
    else
      var o := w.operations[op];
      var i := w.intents[o.intent];
      match GuardAnswer(w, o, i, structural, granted)
      case ActRefused => w
      case ActDenied =>
        w.(operations := w.operations[op := o.(stage := IntentPrepared, lifecycle := RecoveryRequired, revision := o.revision + 1)])
      case ActAllowed =>
        w.(operations := w.operations[op := o.(stage := EffectPossible, lifecycle := Active,
                                                    acts := o.acts + [decision], revision := o.revision + 1)],
           intents := w.intents[o.intent := i.(state := Executing, acts := i.acts + [decision])],
           log := w.log + [Committed(op)])
  }

  predicate Acted(w: World, op: Id, structural: bool, granted: bool) {
    && op in w.operations && w.operations[op].intent in w.intents
    && GuardAnswer(w, w.operations[op], w.intents[w.operations[op].intent], structural, granted).ActAllowed?
  }

  /** The journal takes a new turn: its intent has none, its execution has none, and its Act is the intent's last. */
  predicate Insertable(w: World, op: Id, decision: Id, turn: Id) {
    && op in w.operations && w.operations[op].intent in w.intents && turn !in w.turns
    && (forall t :: t in w.turns ==>
          w.turns[t].intent != w.operations[op].intent && w.turns[t].execution != w.intents[w.operations[op].intent].execution)
    && w.intents[w.operations[op].intent].state == Executing
    && LastAct(w.intents[w.operations[op].intent], decision)
  }

  /** The Act an intent is bound to. */
  predicate LastAct(i: Intent, decision: Id) {
    i.acts != [] && i.acts[|i.acts| - 1] == decision
  }

  // ---------------------------------------------------------------- the machine

  datatype Action =
    | EnvIntent(intent: Id, intentRow: Intent)
    | EnvAct(intent: Id, decision: Id)
    | EnvOperation(operation: Id, operationRow: Operation)
    | Enter(attempt: Id, operation: Id)
    | DoDeny(attempt: Id)
    | DoAct(attempt: Id, decision: Id, structural: bool, granted: bool)
    | DoVerify(attempt: Id, workspace: bool)
    | DoJournal(attempt: Id, turn: Id, current: bool)
    | DoVerifyAgain(attempt: Id, workspace: bool)
    | DoRun(attempt: Id, driver: bool)
    | DoRecord(attempt: Id)
    | Crash(attempt: Id)

  function AttemptOf(a: Action): Option<Id> {
    match a
    case EnvIntent(_, _) => None
    case EnvAct(_, _) => None
    case EnvOperation(_, _) => None
    case _ => Some(a.attempt)
  }

  /** The attempt goes on to a point, or is over. */
  function Going(w: World, p: Id, point: Option<Point>): map<Id, Attempt>
    requires p in w.attempts
  {
    match point
    case None => w.attempts - {p}
    case Some(q) => w.attempts[p := w.attempts[p].(point := q)]
  }

  function StepOf(w: World, a: Action, op: Id, point: Point): World
    requires AttemptOf(a).Some? && a.attempt in w.attempts
  {
    var p := a.attempt;
    match (a, point)
    case (DoDeny(_), ToAct) => Commit(w, Deny(w, op)).(attempts := Going(w, p, None))
    case (DoAct(_, decision, structural, granted), ToAct) =>
      var goes := Commits(w, Act(w, op, decision, structural, granted)) && Acted(w, op, structural, granted);
      Commit(w, Act(w, op, decision, structural, granted)).(
        attempts := Going(w, p, if goes then Some(ToVerify(decision)) else None))
    case (DoVerify(_, workspace), ToVerify(decision)) =>
      w.(attempts := Going(w, p, if workspace && InputMatches(w, op) then Some(ToJournal(decision)) else None))
    case (DoJournal(_, turn, current), ToJournal(decision)) =>
      if !current || !Insertable(w, op, decision, turn) then w.(attempts := Going(w, p, None))
      else
        var i := w.operations[op].intent;
        w.(turns := w.turns[turn := Turn(i, w.intents[i].execution, decision)],
           attempts := Going(w, p, Some(ToVerifyAgain(turn))), log := w.log + [Journaled(i, turn)])
    case (DoVerifyAgain(_, workspace), ToVerifyAgain(turn)) =>
      if workspace && InputMatches(w, op)
      then w.(attempts := Going(w, p, Some(ToRun(turn))), log := w.log + [Checked(op, turn)])
      else w.(attempts := Going(w, p, None))
    case (DoRun(_, driver), ToRun(turn)) =>
      if driver then w.(attempts := Going(w, p, Some(Running(turn))), log := w.log + [Ran(op, turn)])
      else w.(attempts := Going(w, p, None))
    case (DoRecord(_), Running(turn)) =>
      if turn in w.turns && op in w.operations && w.operations[op].intent in w.intents &&
         w.intents[w.operations[op].intent].state == Executing &&
         LastAct(w.intents[w.operations[op].intent], w.turns[turn].decision)
      then w.(results := w.results + {w.operations[op].intent}, attempts := Going(w, p, None))
      else w.(attempts := Going(w, p, None))
    case (Crash(_), _) => w.(attempts := Going(w, p, None))
    case _ => w
  }

  function Next(w: World, a: Action): World {
    match a
    case EnvIntent(i, row) => Commit(w, w.(intents := w.intents[i := row]))
    case EnvAct(i, decision) =>
      if i !in w.intents || w.intents[i].state == Recorded || w.intents[i].state == Finalized then w
      else Commit(w, w.(intents := w.intents[i := w.intents[i].(state := Executing, acts := w.intents[i].acts + [decision])]))
    case EnvOperation(op, row) => Commit(w, w.(operations := w.operations[op := row]))
    case Enter(p, op) => if GoesToAct(w, op) then w.(attempts := w.attempts[p := Attempt(op, ToAct)]) else w
    case _ =>
      if a.attempt !in w.attempts then w
      else StepOf(w, a, w.attempts[a.attempt].operation, w.attempts[a.attempt].point)
  }

  /** An intent moves on, short of an Act. */
  predicate MovesOn(s: IntentState, t: IntentState) {
    match s
    case Pending => t == Pending || t == Finalized
    case Executing => t != Pending
    case RetryWait => t == RetryWait || t == Finalized
    case Recorded => t == Recorded || t == Finalized
    case Finalized => t == Finalized
  }

  predicate NewDecision(w: World, decision: Id) {
    forall i :: i in w.intents ==> decision !in w.intents[i].acts
  }

  /**
   What the rest may try: create intents, pending, and move them on; bind them to Acts without the guard; create an
   operation with an intent of its own, and write one at any time, but never into the effect-possible stage, nor active
   again while leaving it there.
   */
  predicate Possible(w: World, a: Action) {
    match a
    case EnvIntent(i, row) =>
      if i in w.intents
      then row.execution == w.intents[i].execution && row.acts == w.intents[i].acts && MovesOn(w.intents[i].state, row.state)
      else row.state == Pending && row.acts == []
    case EnvAct(_, decision) => NewDecision(w, decision)
    case EnvOperation(op, row) =>
      if op in w.operations then
        var o := w.operations[op];
        && row.intent == o.intent && row.execution == o.execution && row.acts == o.acts
        && (row.stage == EffectPossible ==> o.stage == EffectPossible && (row.lifecycle == Active ==> o.lifecycle == Active))
      else
        && row.stage == Earlier && row.acts == []
        && forall other :: other in w.operations ==> w.operations[other].intent != row.intent
    case Enter(p, _) => p !in w.attempts
    case DoAct(_, decision, _, _) => NewDecision(w, decision)
    case _ => true
  }

  const START: World := World(map[], map[], map[], {}, map[], [])

  ghost predicate Run(worlds: seq<World>, actions: seq<Action>) {
    && |worlds| == |actions| + 1 && worlds[0] == START
    && forall k :: 0 <= k < |actions| ==> Possible(worlds[k], actions[k]) && worlds[k + 1] == Next(worlds[k], actions[k])
  }

  // ---------------------------------------------------------------- the durable tables

  class ProductStore {
    var operations: map<Id, Operation>
    var intents: map<Id, Intent>
    var turns: map<Id, Turn>
    var results: set<Id>
    ghost var log: seq<Event>

    constructor ()
      ensures Contents() == START
    {
      operations, intents, turns, results, log := map[], map[], map[], {}, [];
    }

    ghost function Contents(): World
      reads this
    {
      World(operations, intents, turns, results, map[], log)
    }

    /** An Act is possible on a fresh operation, or on one whose Act left no trace of an effect. */
    method ActPossible(op: Id) returns (possible: bool)
      requires op in operations && operations[op].intent in intents
      ensures possible == MayAct(Contents(), operations[op], intents[operations[op].intent])
    {
      var o := operations[op];
      var i := intents[o.intent];
      var absent := o.intent !in results && forall t :: t in turns ==> turns[t].execution != o.execution;
      possible := (o.stage == IntentPrepared && i.state == Pending) ||
                  (o.stage == EffectPossible && i.state == Executing && absent);
    }

    /** The check at the end of a transaction; a transaction that fails it is undone. */
    method Conclude(operationsBefore: map<Id, Operation>, intentsBefore: map<Id, Intent>) returns (ok: bool)
      modifies this`operations, this`intents
      ensures var w := old(Contents()).(operations := operationsBefore, intents := intentsBefore);
              ok == Commits(w, old(Contents())) && Contents() == Commit(w, old(Contents()))
    {
      ok := (forall op :: op in operations ==> Coherent(intents, operations[op])) &&
            forall op :: op in operationsBefore && !Open(operationsBefore[op]) ==>
              op in operations && operations[op] == operationsBefore[op];
      if !ok { operations, intents := operationsBefore, intentsBefore; }
    }

    method PersistActDenial(op: Id)
      modifies this
      ensures Contents() == Commit(old(Contents()), Deny(old(Contents()), op))
    {
      if op in operations && operations[op].intent in intents && Open(operations[op]) {
        var possible := ActPossible(op);
        if possible {
          var before := operations;
          var o := operations[op];
          operations := operations[op := o.(lifecycle := RecoveryRequired, revision := o.revision + 1)];
          var ok := Conclude(before, intents);
        }
      }
    }

    /**
     The guard decides and writes the operation; the intent is bound to the Act in the same transaction.  The denial of
     a recovered Act does not commit, since the Acts allowed before stay on record.
     */
    method AuthorizeAct(op: Id, decision: Id, structural: bool, granted: bool) returns (allowed: bool)
      modifies this
      ensures var w := old(Contents());
              && Contents() == Commit(w, Act(w, op, decision, structural, granted))
              && allowed == (Acted(w, op, structural, granted) && Commits(w, Act(w, op, decision, structural, granted)))
    {
      if op !in operations || operations[op].intent !in intents { return false; }
      var possible := ActPossible(op);
      if !possible { return false; }
      var operationsBefore, intentsBefore := operations, intents;
      var o := operations[op];
      var i := intents[o.intent];
      allowed := Open(o) && o.execution == i.execution && structural && granted;
      if allowed {
        operations := operations[op := o.(stage := EffectPossible, lifecycle := Active, acts := o.acts + [decision],
                                          revision := o.revision + 1)];
        intents := intents[o.intent := i.(state := Executing, acts := i.acts + [decision])];
      } else {
        operations := operations[op := o.(stage := IntentPrepared, lifecycle := RecoveryRequired, revision := o.revision + 1)];
      }
      var ok := Conclude(operationsBefore, intentsBefore);
      allowed := allowed && ok;
      if allowed { log := log + [Committed(op)]; }
    }

    /** Inserts a turn only where none is in the way. */
    method PrepareTurn(op: Id, decision: Id, turn: Id) returns (inserted: bool)
      modifies this
      ensures inserted == Insertable(old(Contents()), op, decision, turn)
      ensures !inserted ==> Contents() == old(Contents())
      ensures inserted ==>
                var w := old(Contents());
                var i := w.operations[op].intent;
                Contents() == w.(turns := w.turns[turn := Turn(i, w.intents[i].execution, decision)],
                                 log := w.log + [Journaled(i, turn)])
    {
      if op !in operations || operations[op].intent !in intents || turn in turns { return false; }
      var o := operations[op].intent;
      var i := intents[o];
      if i.state != Executing || !LastAct(i, decision) ||
         exists t :: t in turns && (turns[t].intent == o || turns[t].execution == i.execution)
      {
        return false;
      }
      turns := turns[turn := Turn(o, i.execution, decision)];
      log := log + [Journaled(o, turn)];
      return true;
    }
  }

  // ---------------------------------------------------------------- what every step keeps

  function TurnAt(p: Point): Option<Id> {
    match p
    case ToVerifyAgain(t) => Some(t)
    case ToRun(t) => Some(t)
    case Running(t) => Some(t)
    case _ => None
  }

  /** Turns are of intents that are past pending, one per intent and one per execution. */
  ghost predicate TurnsFit(w: World) {
    && (forall t :: t in w.turns ==>
          w.turns[t].intent in w.intents && w.intents[w.turns[t].intent].state != Pending &&
          w.turns[t].execution == w.intents[w.turns[t].intent].execution)
    && (forall t, u | t in w.turns && u in w.turns && t != u :: w.turns[t].intent != w.turns[u].intent)
    && (forall i :: i in w.results ==> exists t :: t in w.turns && w.turns[t].intent == i)
  }

  ghost predicate OwnTurn(w: World, op: Id, t: Id) {
    op in w.operations && t in w.turns && w.turns[t].intent == w.operations[op].intent
  }

  /** One attempt at most holds a turn, before its driver has run; and only after the second check can it run. */
  ghost predicate AttemptsFit(w: World) {
    && (forall p :: p in w.attempts ==> w.attempts[p].operation in w.operations)
    && (forall p | p in w.attempts && TurnAt(w.attempts[p].point).Some? ::
          var t := TurnAt(w.attempts[p].point).value;
          && OwnTurn(w, w.attempts[p].operation, t)
          && (!w.attempts[p].point.Running? ==> forall op :: Ran(op, t) !in w.log)
          && (w.attempts[p].point.ToRun? ==> Checked(w.attempts[p].operation, t) in w.log))
    && (forall p, q | p in w.attempts && q in w.attempts && p != q && TurnAt(w.attempts[p].point).Some? ::
          TurnAt(w.attempts[p].point) != TurnAt(w.attempts[q].point))
  }

  /** The state is coherent; an effect-possible operation was committed by an Act; operations have their own intents. */
  ghost predicate OperationsFit(w: World) {
    && Committable(w)
    && (forall op :: op in w.operations && w.operations[op].stage == EffectPossible ==> Committed(op) in w.log)
    && (forall op, other | op in w.operations && other in w.operations && op != other ::
          w.operations[op].intent != w.operations[other].intent)
  }

  /** What must have happened before an event of the log. */
  ghost predicate Due(w: World, before: seq<Event>, e: Event) {
    match e
    case Committed(op) => op in w.operations && forall t :: Journaled(w.operations[op].intent, t) !in before
    case Journaled(i, t) => t in w.turns && w.turns[t].intent == i
    case Checked(op, t) => OwnTurn(w, op, t) && Committed(op) in before && Journaled(w.operations[op].intent, t) in before
    case Ran(op, t) => OwnTurn(w, op, t) && Checked(op, t) in before && forall other :: Ran(other, t) !in before
  }

  ghost predicate LogFits(w: World) {
    && (forall k :: 0 <= k < |w.log| ==> Due(w, w.log[..k], w.log[k]))
    && (forall t :: t in w.turns ==> Journaled(w.turns[t].intent, t) in w.log)
  }

  ghost predicate Sound(w: World) {
    TurnsFit(w) && AttemptsFit(w) && OperationsFit(w) && LogFits(w)
  }
}
