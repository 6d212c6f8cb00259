/**
 The integration tables and the transactions that change them, as functions from the tables before to the tables
 after and an answer.  A transaction that throws leaves the tables as they were.  Authorization, policy and the
 binding of the command are inputs; times are milliseconds.
 */
module IntegrationModel {
  import opened Options

  type Id = int

  /** Project, repository and target reference: what a reservation is for. */
  datatype Target = Target(projectId: Id, repository: Id, reference: Id)

  datatype Status = Active | Ambiguous | Released | Expired

  datatype Reservation = Reservation(
    target: Target, ownerExecution: Id, status: Status, revision: nat, leaseOwner: Id, leaseRevision: nat,
    fence: nat, expiresAt: nat, evidence: Option<nat>)

  datatype Operation = Inspect | Apply | Push

  datatype IntentState = Pending | Executing | Observed | Verified | Finalized | Unclear | Failed

  datatype Recovery = NoEffect | LocalApplied | PushedRemotely | Inconsistent

  datatype Intent = Intent(
    reservation: Id, key: Id, fence: nat, operation: Operation, state: IntentState, revision: nat, binding: nat,
    lastObservation: nat, recovery: Option<Recovery>, updatedAt: nat)

  datatype Outcome = Succeeded | Refused | Indeterminate

  datatype Code =
    | InspectedUnchanged | InspectedLocalApplied | InspectedPushed | InspectedForeign | InspectedAmbiguous
    | Applied | AlreadyApplied | ApplyRefused | ApplyAmbiguous | Pushed | AlreadyPushed | PushRejected | PushAmbiguous

  /** A backend receipt; foreign says that it saw an object neither side of the integration knows. */
  datatype Receipt = Receipt(operation: Operation, number: nat, code: Code, foreign: bool, observedAt: nat)

  datatype Row = Row(reservation: Id, intent: Option<Id>, receipt: Receipt)

  datatype VerifiedReceipt = VerifiedReceipt(number: nat, outcome: Outcome, code: Code)

  datatype FinalOutcome = FinalSucceeded | FinalRefused | FinalFailed

  datatype Finalization = Finalization(outcome: FinalOutcome, code: Option<Code>, recovery: Option<Recovery>)

  datatype Ledger = Ledger(
    sequences: map<Target, nat>, reservations: map<Id, Reservation>, requests: set<Id>, intents: map<Id, Intent>,
    observations: seq<Row>, receipts: map<Id, VerifiedReceipt>, finalizations: map<Id, Finalization>)

  const EMPTY: Ledger := Ledger(map[], map[], {}, map[], [], map[], map[])

  // ---------------------------------------------------------------- receipts

  function OutcomeOf(code: Code): Outcome {
    match code
    case InspectedUnchanged => Succeeded
    case InspectedLocalApplied => Succeeded
    case InspectedPushed => Succeeded
    case InspectedForeign => Refused
    case InspectedAmbiguous => Indeterminate
    case Applied => Succeeded
    case AlreadyApplied => Succeeded
    case ApplyRefused => Refused
    case ApplyAmbiguous => Indeterminate
    case Pushed => Succeeded
    case AlreadyPushed => Succeeded
    case PushRejected => Refused
    case PushAmbiguous => Indeterminate
  }

  predicate CodeFits(operation: Operation, code: Code) {
    match operation
    case Inspect =>
      code in {InspectedUnchanged, InspectedLocalApplied, InspectedPushed, InspectedForeign, InspectedAmbiguous}
    case Apply => code in {Applied, AlreadyApplied, ApplyRefused, ApplyAmbiguous}
    case Push => code in {Pushed, AlreadyPushed, PushRejected, PushAmbiguous}
  }

  /** What the parser of the port lets through for an effect that expected a given observation number. */
  predicate EffectReceipt(r: Receipt, operation: Operation, expected: nat) {
    && r.operation == operation && operation != Inspect && CodeFits(operation, r.code) && r.number == expected + 1
    && (r.foreign ==> OutcomeOf(r.code) == Refused)
  }

  /** The effect may or may not have happened, or something else did. */
  predicate Doubtful(r: Receipt) {
    OutcomeOf(r.code) == Indeterminate || r.foreign
  }

  predicate RefusedWithoutEffect(r: Receipt) {
    OutcomeOf(r.code) == Refused && !r.foreign
  }

  // ---------------------------------------------------------------- reading the tables

  predicate Terminal(state: IntentState) {
    state == Finalized || state == Failed
  }

  predicate Current(r: Reservation) {
    r.status == Active || r.status == Ambiguous
  }

  predicate Unfinished(l: Ledger, reservation: Id) {
    exists i :: i in l.intents && l.intents[i].reservation == reservation && !Terminal(l.intents[i].state)
  }

  /** Some unfinished intent of the reservation is not in doubt. */
  predicate Undoubted(l: Ledger, reservation: Id) {
    exists i :: i in l.intents && l.intents[i].reservation == reservation && !Terminal(l.intents[i].state) &&
                l.intents[i].state != Unclear
  }

  predicate TargetTaken(l: Ledger, target: Target) {
    exists r :: r in l.reservations && l.reservations[r].target == target && Current(l.reservations[r])
  }

  predicate PriorUnsettled(l: Ledger, target: Target) {
    exists r :: r in l.reservations && l.reservations[r].target == target &&
                (l.reservations[r].status == Ambiguous || Unfinished(l, r))
  }

  /** The revision, lease and fence a command names. */
  datatype Expected = Expected(revision: nat, leaseRevision: nat, fence: nat)

  predicate Matches(r: Reservation, e: Expected) {
    r.revision == e.revision && r.leaseRevision == e.leaseRevision && r.fence == e.fence
  }

  /** The inspection with the greatest number. */
  function LatestInspection(rows: seq<Row>, reservation: Id): Option<Receipt> {
    if rows == [] then None
    else
      var row := rows[|rows| - 1];
      var before := LatestInspection(rows[..|rows| - 1], reservation);
      if row.reservation == reservation && row.receipt.operation == Inspect &&
         (before.None? || row.receipt.number > before.value.number)
      then Some(row.receipt) else before
  }

  predicate Numbered(rows: seq<Row>, reservation: Id, number: nat) {
    exists row :: row in rows && row.reservation == reservation && row.receipt.number == number
  }

  /** The reservation has an observation with this number or a greater one, or the number is zero. */
  predicate Reached(rows: seq<Row>, reservation: Id, number: nat) {
    number == 0 || exists row :: row in rows && row.reservation == reservation && row.receipt.number >= number
  }

  function AfterTimestamp(previous: nat, candidate: nat): nat {
    if candidate > previous then candidate else previous + 1
  }

  // ---------------------------------------------------------------- writing the tables

  datatype Answer = Done | Denied | StaleFence | InvalidState | ReconciliationRequired | Aborted

  datatype Step = Step(ledger: Ledger, answer: Answer)

  /** A reservation moved on by one revision. */
  function Moved(r: Reservation, status: Status, leaseOwner: Id, leaseRevision: nat, expiresAt: nat, evidence: Option<nat>)
    : Reservation
  {
    r.(status := status, revision := r.revision + 1, leaseOwner := leaseOwner, leaseRevision := leaseRevision,
       expiresAt := expiresAt, evidence := evidence)
  }

  /** Moved on in its status and evidence only. */
  function Restated(r: Reservation, status: Status, evidence: Option<nat>): Reservation {
    Moved(r, status, r.leaseOwner, r.leaseRevision, r.expiresAt, evidence)
  }

  function Advanced(i: Intent, state: IntentState, binding: nat, last: nat, recovery: Option<Recovery>, now: nat): Intent {
    i.(state := state, revision := i.revision + 1, binding := binding, lastObservation := last, recovery := recovery,
       updatedAt := now)
  }

  function WithReservation(l: Ledger, id: Id, r: Reservation): Ledger {
    l.(reservations := l.reservations[id := r])
  }

  function WithIntent(l: Ledger, id: Id, i: Intent): Ledger {
    l.(intents := l.intents[id := i])
  }

  // ---------------------------------------------------------------- reserving

  /** bound: the command's binding still holds; granted: authorization and policy allow. */
  function Reserve(
    l: Ledger, id: Id, target: Target, execution: Id, leaseOwner: Id, now: nat, lease: nat, bound: bool, granted: bool): Step
  {
    if !bound then Step(l, Aborted)
    else if !granted then Step(l, Denied)
    else if TargetTaken(l, target) then Step(l, InvalidState)
    else if target in l.sequences && PriorUnsettled(l, target) then Step(l, ReconciliationRequired)
    else if id in l.reservations then Step(l, Aborted)
    else
      var fence := if target in l.sequences then l.sequences[target] + 1 else 1;
      var r := Reservation(target, execution, Active, 1, leaseOwner, 1, fence, now + lease, None);
      Step(l.(sequences := l.sequences[target := fence], reservations := l.reservations[id := r]), Done)
  }

  datatype Mutation = Renew | Takeover | Release

  /** An expired, quiet reservation whose latest inspection is later than the expiry and clear. */
  predicate MayTakeOver(l: Ledger, id: Id, now: nat)
    requires id in l.reservations
  {
    var r := l.reservations[id];
    var inspected := LatestInspection(l.observations, id);
    && r.expiresAt <= now && !Unfinished(l, id)
    && inspected.Some? && inspected.value.observedAt >= r.expiresAt && OutcomeOf(inspected.value.code) != Indeterminate
  }

  function Mutate(
    l: Ledger, id: Id, e: Expected, action: Mutation, leaseOwner: Id, now: nat, lease: nat, granted: bool,
    policyCurrent: bool, completed: bool): Step
  {
    if id !in l.reservations then Step(l, InvalidState)
    else
      var r := l.reservations[id];
      if !Matches(r, e) then Step(l, StaleFence)
      else if !granted || (action == Renew && !policyCurrent) then Step(l, Denied)
      else if r.status != Active then Step(l, InvalidState)
      else match action
        case Renew =>
          if r.leaseOwner != leaseOwner || r.expiresAt <= now then Step(l, StaleFence)
          else Step(WithReservation(l, id, Moved(r, Active, r.leaseOwner, r.leaseRevision + 1, now + lease, r.evidence)), Done)
        case Takeover =>
          if !MayTakeOver(l, id, now) then Step(l, ReconciliationRequired)
          else Step(WithReservation(l, id, Moved(r, Active, leaseOwner, r.leaseRevision + 1, now + lease, r.evidence)), Done)
        case Release =>
          if !completed || Unfinished(l, id) then Step(l, InvalidState)
          else Step(WithReservation(l, id, Restated(r, if now < r.expiresAt then Released else Expired, r.evidence)), Done)
  }

  /**
   An inspection makes an active reservation ambiguous when it is unclear or saw something foreign.  The check of the
   whole state refuses that while an effect is under way, and the transaction is undone.
   */
  function RecordInspection(l: Ledger, id: Id, e: Expected, receipt: Receipt): Step {
    if id !in l.reservations || !Matches(l.reservations[id], e) then Step(l, Aborted)
    else if Numbered(l.observations, id, receipt.number) then Step(l, Aborted)
    else
      var r := l.reservations[id];
      var seen := l.(observations := l.observations + [Row(id, None, receipt)]);
      if (receipt.code == InspectedForeign || receipt.code == InspectedAmbiguous) && r.status == Active
      then if Undoubted(l, id) then Step(l, Aborted) else Step(WithReservation(seen, id, Restated(r, Ambiguous, Some(receipt.number))), Done)
      else Step(seen, Done)
  }

  // ---------------------------------------------------------------- effects

  /** running: the owner's task is running, its execution not terminal and the policy current; last: the greatest number read. */
  function Prepare(
    l: Ledger, intent: Id, key: Id, id: Id, e: Expected, operation: Operation, leaseOwner: Id, last: nat, now: nat,
    running: bool, granted: bool): Step
  {
    if id !in l.reservations || !Matches(l.reservations[id], e) then Step(l, Aborted)
    else if key in l.requests then Step(l, Aborted)
    else
      var r := l.reservations[id];
      var asked := l.(requests := l.requests + {key});
      var eligible := r.status == Active && r.expiresAt > now && r.leaseOwner == leaseOwner && running && !Unfinished(l, id);
      if !granted || !eligible then Step(asked, Denied)
      else if intent in l.intents || !Reached(l.observations, id, last) then Step(l, Aborted)
      else Step(WithIntent(asked, intent, Intent(id, key, r.fence, operation, Pending, 1, 1, last, None, now)), Done)
  }

  /** The reservation as it was when the intent was prepared, or observed. */
  predicate Unmoved(r: Reservation, e: Expected) {
    r.status == Active && Matches(r, e)
  }

  function Act(l: Ledger, intent: Id, e: Expected, leaseOwner: Id, now: nat, policyCurrent: bool, granted: bool): Step {
    if intent !in l.intents || l.intents[intent].state != Pending then Step(l, Aborted)
    else
      var i := l.intents[intent];
      if i.reservation !in l.reservations then Step(l, Aborted)
      else
        var r := l.reservations[i.reservation];
        var eligible := Unmoved(r, e) && r.expiresAt > now && r.leaseOwner == leaseOwner && policyCurrent;
        var at := AfterTimestamp(i.updatedAt, now);
        if granted && eligible
        then Step(WithIntent(l, intent, Advanced(i, Executing, 2, i.lastObservation, None, at)), Done)
        else if intent in l.finalizations then Step(l, Aborted)
        else Step(WithIntent(l, intent, Advanced(i, Failed, 2, i.lastObservation, None, at))
                    .(finalizations := l.finalizations[intent := Finalization(FinalFailed, None, None)]), Denied)
  }

  /** The backend gave no usable receipt. */
  function RecordFailure(l: Ledger, intent: Id, doubtful: bool, now: nat): Step {
    if intent !in l.intents || l.intents[intent].state != Executing then Step(l, Aborted)
    else
      var i := l.intents[intent];
      if i.reservation !in l.reservations then Step(l, Aborted)
      else
        var r := l.reservations[i.reservation];
        var at := AfterTimestamp(i.updatedAt, now);
        if doubtful then
          var unclear := WithIntent(l, intent, Advanced(i, Unclear, i.binding, i.lastObservation, None, at));
          if r.status == Active then Step(WithReservation(unclear, i.reservation, Restated(r, Ambiguous, r.evidence)), Done)
          else Step(unclear, Done)
        else if intent in l.finalizations then Step(l, Aborted)
        else Step(WithIntent(l, intent, Advanced(i, Failed, i.binding, i.lastObservation, None, at))
                    .(finalizations := l.finalizations[intent := Finalization(FinalFailed, None, None)]), Done)
  }

  function RecordReceipt(l: Ledger, intent: Id, receipt: Receipt, now: nat): Step {
    if intent !in l.intents || l.intents[intent].state != Executing then Step(l, Aborted)
    else
      var i := l.intents[intent];
      if i.reservation !in l.reservations || l.reservations[i.reservation].status != Active then Step(l, Aborted)
      else if Numbered(l.observations, i.reservation, receipt.number) then Step(l, Aborted)
      else
        var r := l.reservations[i.reservation];
        var at := AfterTimestamp(i.updatedAt, now);
        var evidence := Some(receipt.number);
        var seen := l.(observations := l.observations + [Row(i.reservation, Some(intent), receipt)]);
        if Doubtful(receipt) || (!RefusedWithoutEffect(receipt) && OutcomeOf(receipt.code) != Succeeded) then
          Step(WithReservation(WithIntent(seen, intent, Advanced(i, Unclear, i.binding, receipt.number, None, at)),
                               i.reservation, Restated(r, Ambiguous, evidence)), Done)
        else if RefusedWithoutEffect(receipt) then
          if intent in l.receipts || intent in l.finalizations then Step(l, Aborted)
          else Step(WithReservation(WithIntent(seen, intent, Advanced(i, Failed, i.binding, receipt.number, None, at)),
                                    i.reservation, Restated(r, Active, evidence))
                      .(receipts := l.receipts[intent := VerifiedReceipt(receipt.number, Refused, receipt.code)],
                        finalizations := l.finalizations[intent := Finalization(FinalRefused, Some(receipt.code), None)]), Done)
        else
          Step(WithReservation(WithIntent(seen, intent, Advanced(i, Observed, i.binding, receipt.number, None, at)),
                               i.reservation, Restated(r, Active, evidence)), Done)
  }

  /** The durable observation is read back before it counts as verified. */
  function Verify(l: Ledger, intent: Id, number: nat, now: nat): Step {
    if intent !in l.intents || l.intents[intent].state != Observed || intent in l.receipts then Step(l, Aborted)
    else
      var i := l.intents[intent];
      match RowOf(l.observations, i.reservation, number)
      case None => Step(l, Aborted)
      case Some(row) =>
        if OutcomeOf(row.receipt.code) != Succeeded then Step(l, Aborted)
        else Step(WithIntent(l, intent, Advanced(i, Verified, i.binding, i.lastObservation, None, AfterTimestamp(i.updatedAt, now)))
                    .(receipts := l.receipts[intent := VerifiedReceipt(number, Succeeded, row.receipt.code)]), Done)
  }

  function RowOf(rows: seq<Row>, reservation: Id, number: nat): (r: Option<Row>)
    ensures r.Some? ==> r.value in rows && r.value.reservation == reservation && r.value.receipt.number == number
  {
    if rows == [] then None
    else if rows[0].reservation == reservation && rows[0].receipt.number == number then Some(rows[0])
    else RowOf(rows[1..], reservation, number)
  }

  /** e: the reservation as the observation left it. */
  function Finalize(l: Ledger, intent: Id, e: Expected, now: nat, policyCurrent: bool, granted: bool): Step {
    if intent !in l.intents || l.intents[intent].state != Verified || intent !in l.receipts then Step(l, Aborted)
    else
      var i := l.intents[intent];
      if i.reservation !in l.reservations then Step(l, Aborted)
      else
        var r := l.reservations[i.reservation];
        var at := AfterTimestamp(i.updatedAt, now);
        if granted && Unmoved(r, e) && policyCurrent then
          if intent in l.finalizations then Step(l, Aborted)
          else Step(WithIntent(l, intent, Advanced(i, Finalized, 3, i.lastObservation, None, at))
                      .(finalizations :=
                          l.finalizations[intent := Finalization(FinalSucceeded, Some(l.receipts[intent].code), None)]), Done)
        else if r.status != Active then Step(l, Aborted)
        else Step(WithReservation(WithIntent(l, intent, Advanced(i, Unclear, 3, i.lastObservation, None, at)),
                                  i.reservation, Restated(r, Ambiguous, r.evidence)), Done)
  }

  // ---------------------------------------------------------------- recovery

  function RecoveryOf(code: Code): Recovery {
    match code
    case InspectedUnchanged => NoEffect
    case InspectedLocalApplied => LocalApplied
    case InspectedPushed => PushedRemotely
    case _ => Inconsistent
  }

  function FinalOf(outcome: Outcome): FinalOutcome {
    if outcome == Refused then FinalRefused else FinalSucceeded
  }

  /** When a recovered intent is finalized: three strictly increasing stamps after its last one. */
  function RecoveredAt(i: Intent, now: nat): nat {
    AfterTimestamp(AfterTimestamp(AfterTimestamp(i.updatedAt, AfterTimestamp(i.updatedAt, now)), now), now)
  }

  function Recover(l: Ledger, intent: Id, id: Id, e: Expected, receipt: Receipt, now: nat): Step {
    if id !in l.reservations || !Matches(l.reservations[id], e) || l.reservations[id].status != Ambiguous then Step(l, Aborted)
    else if intent !in l.intents || l.intents[intent].state != Unclear || l.intents[intent].reservation != id then Step(l, Aborted)
    else if Numbered(l.observations, id, receipt.number) then Step(l, Aborted)
    else
      var i, r := l.intents[intent], l.reservations[id];
      var evidence := Some(receipt.number);
      var seen := l.(observations := l.observations + [Row(id, Some(intent), receipt)]);
      if receipt.code == InspectedAmbiguous then
        Step(WithReservation(WithIntent(seen, intent, Advanced(i, Unclear, i.binding + 1, receipt.number, None,
                                                             AfterTimestamp(i.updatedAt, AfterTimestamp(i.updatedAt, now)))),
                             id, Restated(r, Ambiguous, evidence)), Done)
      else if intent in l.receipts || intent in l.finalizations then Step(l, Aborted)
      else
        var at := RecoveredAt(i, now);
        var outcome := if OutcomeOf(receipt.code) == Refused then Refused else Succeeded;
        Step(WithReservation(
               WithIntent(seen, intent,
                 Advanced(i, Finalized, i.binding + 1, receipt.number, Some(RecoveryOf(receipt.code)), at)
                   .(revision := i.revision + 3)),
               id, Restated(r, if at < r.expiresAt then Released else Expired, evidence))
               .(receipts := l.receipts[intent := VerifiedReceipt(receipt.number, outcome, receipt.code)],
                 finalizations := l.finalizations[intent :=
                   Finalization(FinalOf(outcome), Some(receipt.code), Some(RecoveryOf(receipt.code)))]), Done)
  }
}
