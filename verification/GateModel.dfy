/**
 Completion gates: the transactions of one gate operation, and the search for the evidence that every required gate
 has passed.  Whether the binding of the command still holds, whether its policy and gate can be resolved, and
 authorization are inputs.
 */
module GateModel {
  import opened Options
  import opened IntegrationModel

  datatype GateOperation = RunGate | InspectGate | CancelGate

  /** The revisions a command names for its task, execution and workspace. */
  datatype Binding = Binding(
    task: Id, taskRevision: nat, execution: Id, executionRevision: nat, workspace: Id, workspaceRevision: nat)

  datatype Verdict = Pass | Fail

  /** What the backend reports; a receipt that is not of a completed gate, or has no verdict, decides nothing. */
  datatype GateReceipt = GateReceipt(completed: bool, verdict: Option<Verdict>, validUntil: Option<nat>)

  datatype GateIntent = GateIntent(
    key: Id, operation: GateOperation, binding: Binding, policy: Id, gate: Id, state: IntentState, revision: nat)

  datatype GateVerified = GateVerified(verdict: Verdict, validUntil: Option<nat>, verifiedAt: nat)

  datatype GateOutcome = GateAccepted | GateRefused | GateAmbiguous | GateFailed

  /** order lists the intents as they were prepared. */
  datatype GateTables = GateTables(
    order: seq<Id>, keys: set<Id>, intents: map<Id, GateIntent>, observations: map<Id, GateReceipt>,
    receipts: map<Id, GateVerified>, finalizations: map<Id, GateOutcome>)

  const NO_GATES: GateTables := GateTables([], {}, map[], map[], map[], map[])

  datatype GateStep = GateStep(tables: GateTables, answer: Answer)

  function InState(i: GateIntent, state: IntentState): GateIntent {
    i.(state := state, revision := i.revision + 1)
  }

  function Ending(g: GateTables, intent: Id, i: GateIntent, state: IntentState, outcome: GateOutcome): GateStep {
    if intent in g.finalizations then GateStep(g, Aborted)
    else GateStep(g.(intents := g.intents[intent := InState(i, state)],
                     finalizations := g.finalizations[intent := outcome]), Done)
  }

  /** bound: the command still binds the rows it bound before; resolved: its policy and gate are current. */
  function PrepareGate(
    g: GateTables, intent: Id, key: Id, operation: GateOperation, b: Binding, policy: Id, gate: Id, bound: bool,
    resolved: bool, granted: bool): GateStep
  {
    if !bound || key in g.keys then GateStep(g, Aborted)
    else if !granted || !resolved then GateStep(g.(keys := g.keys + {key}), Denied)
    else if intent in g.intents then GateStep(g, Aborted)
    else GateStep(g.(order := g.order + [intent], keys := g.keys + {key},
                     intents := g.intents[intent := GateIntent(key, operation, b, policy, gate, Pending, 1)]), Done)
  }

  function ActGate(g: GateTables, intent: Id, bound: bool, resolved: bool, granted: bool): GateStep {
    if intent !in g.intents || g.intents[intent].state != Pending || !bound then GateStep(g, Aborted)
    else if !granted || !resolved then
      var ended := Ending(g, intent, g.intents[intent], Failed, GateFailed);
      if ended.answer == Done then GateStep(ended.tables, Denied) else ended
    else GateStep(g.(intents := g.intents[intent := InState(g.intents[intent], Executing)]), Done)
  }

  /** No usable receipt: the gate may or may not have run. */
  function RecordGateFailure(g: GateTables, intent: Id, doubtful: bool): GateStep {
    if intent !in g.intents || g.intents[intent].state != Executing then GateStep(g, Aborted)
    else Ending(g, intent, g.intents[intent], if doubtful then Unclear else Failed,
                if doubtful then GateAmbiguous else GateFailed)
  }

  predicate Determinate(r: GateReceipt, current: bool) {
    r.completed && r.verdict.Some? && current
  }

  function RecordGateReceipt(g: GateTables, intent: Id, r: GateReceipt, current: bool): GateStep {
    if intent !in g.intents || g.intents[intent].state != Executing || intent in g.observations then GateStep(g, Aborted)
    else
      var i := g.intents[intent];
      var seen := g.(observations := g.observations[intent := r]);
      if Determinate(r, current) then GateStep(seen.(intents := g.intents[intent := InState(i, Observed)]), Done)
      else
        var ended := Ending(seen, intent, i, Unclear, GateAmbiguous);
        if ended.answer == Done then ended else GateStep(g, Aborted)
  }

  /** A pass that is over when it is verified; the check of the whole state refuses it. */
  predicate Stale(r: GateReceipt, now: nat) {
    r.verdict == Some(Pass) && r.validUntil.Some? && r.validUntil.value <= now
  }

  function VerifyGate(g: GateTables, intent: Id, now: nat): GateStep {
    if intent !in g.intents || g.intents[intent].state != Observed || intent !in g.observations || intent in g.receipts ||
       g.observations[intent].verdict.None? || Stale(g.observations[intent], now)
    then GateStep(g, Aborted)
    else
      var r := g.observations[intent];
      GateStep(g.(receipts := g.receipts[intent := GateVerified(r.verdict.value, r.validUntil, now)],
                  intents := g.intents[intent := InState(g.intents[intent], Verified)]), Done)
  }

  function FinalizeGate(g: GateTables, intent: Id, bound: bool, resolved: bool, granted: bool): GateStep {
    if intent !in g.intents || g.intents[intent].state != Verified || intent !in g.receipts || !bound
    then GateStep(g, Aborted)
    else if !granted || !resolved then Ending(g, intent, g.intents[intent], Unclear, GateAmbiguous)
    else Ending(g, intent, g.intents[intent], Finalized,
                if g.receipts[intent].verdict == Pass then GateAccepted else GateRefused)
  }

  // ---------------------------------------------------------------- evidence that gates have passed

  /** A finalized, accepted inspection of the gate under this very binding and policy, its pass still valid. */
  predicate Passing(g: GateTables, intent: Id, b: Binding, policy: Id, gate: Id, now: nat) {
    && intent in g.intents && intent in g.receipts && intent in g.finalizations
    && var i := g.intents[intent];
       && i.operation == InspectGate && i.binding == b && i.policy == policy && i.gate == gate && i.state == Finalized
       && g.finalizations[intent] == GateAccepted && g.receipts[intent].verdict == Pass
       && (g.receipts[intent].validUntil.Some? ==> g.receipts[intent].validUntil.value > now)
  }

  /** The passing inspection verified last; of several verified at once, the one prepared first. */
  function Latest(g: GateTables, order: seq<Id>, b: Binding, policy: Id, gate: Id, now: nat): Option<Id> {
    if order == [] then None
    else
      var before := Latest(g, order[..|order| - 1], b, policy, gate, now);
      var last := order[|order| - 1];
      if Passing(g, last, b, policy, gate, now) &&
         (before.None? || (before.value in g.receipts && g.receipts[last].verifiedAt > g.receipts[before.value].verifiedAt))
      then Some(last) else before
  }

  /** For every required gate its latest passing inspection, or nothing when one has none. */
  function GateSet(g: GateTables, required: seq<Id>, b: Binding, policy: Id, now: nat): Option<seq<Id>> {
    if required == [] then Some([])
    else
      match GateSet(g, required[..|required| - 1], b, policy, now)
      case None => None
      case Some(chosen) =>
        match Latest(g, g.order, b, policy, required[|required| - 1], now)
        case None => None
        case Some(intent) => Some(chosen + [intent])
  }

  lemma {:induction false} LatestPasses(g: GateTables, order: seq<Id>, b: Binding, policy: Id, gate: Id, now: nat)
    ensures var r := Latest(g, order, b, policy, gate, now);
            && (r.Some? ==> r.value in order && Passing(g, r.value, b, policy, gate, now))
            && (r.None? ==> forall i :: i in order ==> !Passing(g, i, b, policy, gate, now))
            && (r.Some? ==> forall i :: i in order && Passing(g, i, b, policy, gate, now) ==>
                  i in g.receipts && g.receipts[i].verifiedAt <= g.receipts[r.value].verifiedAt)
    decreases |order|
  {
    if |order| > 0 {
      assert order == order[..|order| - 1] + [order[|order| - 1]];
      LatestPasses(g, order[..|order| - 1], b, policy, gate, now);
    }
  }

  /** A gate set names, gate by gate, passing inspections; there is none exactly when some gate has no passing one. */
  lemma {:induction false} GateSetPasses(g: GateTables, required: seq<Id>, b: Binding, policy: Id, now: nat)
    ensures var r := GateSet(g, required, b, policy, now);
            && (r.Some? ==> |r.value| == |required|)
            && (r.Some? ==> forall k :: 0 <= k < |required| ==>
                  r.value[k] in g.order && Passing(g, r.value[k], b, policy, required[k], now))
            && (r.Some? <==> forall k :: 0 <= k < |required| ==>
                  exists i :: i in g.order && Passing(g, i, b, policy, required[k], now))
    decreases |required|
  {
    if |required| > 0 {
      var rest := required[..|required| - 1];
      GateSetPasses(g, rest, b, policy, now);
      LatestPasses(g, g.order, b, policy, required[|required| - 1], now);
      assert forall k :: 0 <= k < |rest| ==> rest[k] == required[k];
    }
  }

  /** The loops of the source, gate by gate. */
  method GateSetEvidence(g: GateTables, required: seq<Id>, b: Binding, policy: Id, now: nat)
    returns (r: Option<seq<Id>>)
    ensures r == GateSet(g, required, b, policy, now)
  {
    var receipts: seq<Id> := [];
    for k := 0 to |required|
      invariant GateSet(g, required[..k], b, policy, now) == Some(receipts)
    {
      assert required[..k + 1][..k] == required[..k];
      var evidence := Latest(g, g.order, b, policy, required[k], now);
      if evidence.None? {
        NoneLater(g, required, k + 1, b, policy, now);
        return None;
      }
      receipts := receipts + [evidence.value];
    }
    assert required[..|required|] == required;
    return Some(receipts);
  }

  lemma {:induction false} NoneLater(g: GateTables, required: seq<Id>, k: nat, b: Binding, policy: Id, now: nat)
    requires k <= |required| && GateSet(g, required[..k], b, policy, now) == None
    ensures GateSet(g, required, b, policy, now) == None
    decreases |required| - k
  {
    if k < |required| {
      assert required[..k + 1][..k] == required[..k];
      NoneLater(g, required, k + 1, b, policy, now);
    } else {
      assert required[..k] == required;
    }
  }

  // ---------------------------------------------------------------- what every gate transaction keeps

  /** The evidence an intent must have in its state: a finalization exactly once it is decided, and what it repeats. */
  ghost predicate GateFits(g: GateTables, i: Id)
    requires i in g.intents
  {
    var state := g.intents[i].state;
    && (i in g.finalizations <==> state in {Finalized, Failed, Unclear})
    && (i in g.observations ==> state !in {Pending, Executing})
    && (i in g.receipts ==>
          && state in {Verified, Finalized, Unclear} && i in g.observations && g.observations[i].completed
          && g.observations[i].verdict == Some(g.receipts[i].verdict)
          && g.observations[i].validUntil == g.receipts[i].validUntil)
    && (state == Observed ==> i in g.observations && g.observations[i].completed && g.observations[i].verdict.Some?)
    && (state in {Verified, Finalized} ==> i in g.receipts)
    && (state == Finalized ==>
          g.finalizations[i] == if g.receipts[i].verdict == Pass then GateAccepted else GateRefused)
    && (state == Failed ==> g.finalizations[i] == GateFailed)
    && (state == Unclear ==> g.finalizations[i] == GateAmbiguous)
  }

  ghost predicate GatesSafe(g: GateTables) {
    && (forall i :: i in g.intents ==> GateFits(g, i) && g.intents[i].key in g.keys)
    && (forall i :: i in g.observations || i in g.receipts || i in g.finalizations ==> i in g.intents)
    && (forall i, j | i in g.intents && j in g.intents && i != j :: g.intents[i].key != g.intents[j].key)
    && (forall i :: i in g.order <==> i in g.intents)
  }

  /** Two states of the tables that differ at most under one intent, whose identity stays. */
  ghost predicate OnlyGate(g: GateTables, h: GateTables, intent: Id) {
    && h.order == g.order && h.keys == g.keys && intent in g.intents && intent in h.intents
    && (forall i :: i != intent ==> (i in h.intents <==> i in g.intents) && (i in g.intents ==> h.intents[i] == g.intents[i]))
    && (forall i :: i != intent ==> (i in h.observations <==> i in g.observations))
    && (forall i :: i != intent && i in g.observations ==> h.observations[i] == g.observations[i])
    && (forall i :: i != intent ==> (i in h.receipts <==> i in g.receipts))
    && (forall i :: i != intent && i in g.receipts ==> h.receipts[i] == g.receipts[i])
    && (forall i :: i != intent ==> (i in h.finalizations <==> i in g.finalizations))
    && (forall i :: i != intent && i in g.finalizations ==> h.finalizations[i] == g.finalizations[i])
    && h.intents[intent] == InState(g.intents[intent], h.intents[intent].state)
  }

  /** Intents move on from pending only, and never from a decided state. */
  ghost predicate GateMoves(from: IntentState, to: IntentState) {
    (from, to) in {(Pending, Executing), (Pending, Failed), (Executing, Unclear), (Executing, Failed),
                   (Executing, Observed), (Observed, Verified), (Verified, Finalized), (Verified, Unclear)}
  }

  lemma OnlyGateSafe(g: GateTables, h: GateTables, intent: Id)
    requires GatesSafe(g) && OnlyGate(g, h, intent) && GateFits(h, intent)
    ensures GatesSafe(h)
  {
    forall i | i in h.intents && i != intent ensures GateFits(h, i) {
      assert GateFits(g, i);
    }
    forall i, j | i in h.intents && j in h.intents && i != j ensures h.intents[i].key != h.intents[j].key {
      assert g.intents[i].key != g.intents[j].key;
    }
  }

  lemma PrepareGateSafe(
    g: GateTables, intent: Id, key: Id, operation: GateOperation, b: Binding, policy: Id, gate: Id, bound: bool,
    resolved: bool, granted: bool)
    requires GatesSafe(g)
    ensures GatesSafe(PrepareGate(g, intent, key, operation, b, policy, gate, bound, resolved, granted).tables)
  {
    var h := PrepareGate(g, intent, key, operation, b, policy, gate, bound, resolved, granted).tables;
    forall i | i in h.intents ensures GateFits(h, i) {
      if i in g.intents { assert GateFits(g, i); }
    }
  }

  /** A transaction on an intent in the given state, if it does anything, moves that one intent on. */
  ghost predicate GateStepFits(g: GateTables, s: GateStep, intent: Id, from: IntentState) {
    if s.tables == g then s.answer == Aborted
    else OnlyGate(g, s.tables, intent) && GateFits(s.tables, intent) && g.intents[intent].state == from &&
         GateMoves(from, s.tables.intents[intent].state)
  }

  lemma ActGateFits(g: GateTables, intent: Id, bound: bool, resolved: bool, granted: bool)
    requires GatesSafe(g)
    ensures var s := ActGate(g, intent, bound, resolved, granted);
            GateStepFits(g, s, intent, Pending) &&
            (s.answer == Done ==> intent in s.tables.intents && s.tables.intents[intent].state == Executing)
  {
    if intent in g.intents { assert GateFits(g, intent); }
  }

  lemma RecordGateFailureFits(g: GateTables, intent: Id, doubtful: bool)
    requires GatesSafe(g)
    ensures GateStepFits(g, RecordGateFailure(g, intent, doubtful), intent, Executing)
  {
    if intent in g.intents { assert GateFits(g, intent); }
  }

  lemma RecordGateReceiptFits(g: GateTables, intent: Id, r: GateReceipt, current: bool)
    requires GatesSafe(g)
    ensures GateStepFits(g, RecordGateReceipt(g, intent, r, current), intent, Executing)
  {
    if intent in g.intents { assert GateFits(g, intent); }
  }

  lemma VerifyGateFits(g: GateTables, intent: Id, now: nat)
    requires GatesSafe(g)
    ensures var s := VerifyGate(g, intent, now);
            GateStepFits(g, s, intent, Observed) &&
            (s.answer == Done ==> intent in s.tables.intents && s.tables.intents[intent].state == Verified)
  {
    if intent in g.intents { assert GateFits(g, intent); }
  }

  lemma FinalizeGateFits(g: GateTables, intent: Id, bound: bool, resolved: bool, granted: bool)
    requires GatesSafe(g)
    ensures var s := FinalizeGate(g, intent, bound, resolved, granted);
            GateStepFits(g, s, intent, Verified) && (s.tables != g ==> s.answer == Done)
  {
    if intent in g.intents { assert GateFits(g, intent); }
  }
}
