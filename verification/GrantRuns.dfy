/**
 Runs of the grant table.  Every grant derives from a root grant of the bootstrap actor that carries at least its
 authority, and what is allowed through any grant is covered by that root; and the bookkeeping of origins fails in
 exactly one case.
 */
module GrantRuns {
  import opened Options
  import opened Vocabulary
  import opened Authorization
  import opened Grants

  /** One transaction of the store that succeeds. */
  datatype Step =
    | DoBootstrap(actorId: int, now: nat, expiresAt: nat, ids: seq<int>)
    | DoUpgrade(actorId: int, now: nat, expiresAt: nat, ids: seq<int>)
    | DoRenew(actorId: int, now: nat, expiresAt: nat, ids: seq<int>)
    | DoIssue(q: Query, c: Candidate, id: int)
    | DoRevoke(q: Query, i: int, expectedRevision: nat)

  ghost predicate Takes(s: Authority, step: Step, next: Authority) {
    match step
    case DoBootstrap(a, now, e, ids) => |ids| == |BASE_ACTIONS| && BootstrapStep(s, a, now, e, ids) == Ok(next)
    case DoUpgrade(a, now, e, ids) =>
      IdsFor(AssessUpgrade(s, a, now), ids) && EpochStep(s, AssessUpgrade(s, a, now), a, now, e, ids) == Ok(next)
    case DoRenew(a, now, e, ids) =>
      IdsFor(AssessRenewal(s, a, now), ids) && EpochStep(s, AssessRenewal(s, a, now), a, now, e, ids) == Ok(next)
    case DoIssue(q, c, id) => Issued(s, q, c, id, next)
    case DoRevoke(q, i, revision) => Revoked(s, q, i, revision, next)
  }

  const EMPTY: Authority := Authority(None, [], [])

  /** A run: a chain of successful transactions from the empty store. */
  ghost predicate Run(states: seq<Authority>, steps: seq<Step>) {
    && |states| == |steps| + 1 && states[0] == EMPTY
    && forall i :: 0 <= i < |steps| ==> Takes(states[i], steps[i], states[i + 1])
  }

  // ---------------------------------------------------------------- derivation

  /** The scope a reaches everywhere b does. */
  predicate ScopeCovers(a: Scope, b: Scope) {
    a == RuntimeScope || a == b
  }

  /** The grant a carries at least the authority of b. */
  predicate AtLeast(a: Grant, b: Grant) {
    && a.action == b.action && ScopeCovers(a.scope, b.scope)
    && a.notBefore <= b.notBefore && b.expiresAt <= a.expiresAt
  }

  function CurrentVersion(s: Authority): nat {
    if s.bootstrap.None? then 0 else CurrentOrigin(s).version
  }

  /** A grant given by bootstrap, upgrade or renewal. */
  predicate IsRoot(s: Authority, g: Grant) {
    && s.bootstrap.Some? && g.actorId == s.bootstrap.value.actorId
    && g.issuerGrantId.None? && g.sourceGrantId.None? && g.scope == RuntimeScope
    && (1 <= CurrentVersion(s) <= LAST_VERSION && g.action in ActionsFor(CurrentVersion(s)))
    && g.notBefore < g.expiresAt <= g.notBefore + 31 * DAY
  }

  /** The grant at i was issued by the holder of the earlier grants at j (its source) and k (to issue grants). */
  predicate DerivedFrom(grants: seq<Grant>, i: int, j: int, k: int) {
    && 0 <= j < i < |grants| && 0 <= k < i
    && grants[i].sourceGrantId == Some(grants[j].grantId) && grants[i].issuerGrantId == Some(grants[k].grantId)
    && AtLeast(grants[j], grants[i]) && grants[j].actorId == grants[k].actorId
    && grants[k].action == AuthorizationGrantIssue && ScopeCovers(grants[k].scope, grants[i].scope)
    && grants[i].expiresAt <= grants[k].expiresAt
  }

  ghost predicate Explained(s: Authority, i: int)
    requires 0 <= i < |s.grants|
  {
    IsRoot(s, s.grants[i]) || exists j, k :: DerivedFrom(s.grants, i, j, k)
  }

  ghost predicate DistinctGrants(grants: seq<Grant>) {
    forall i, j :: 0 <= i < j < |grants| ==> grants[i].grantId != grants[j].grantId
  }

  ghost predicate Lineage(s: Authority) {
    && DistinctGrants(s.grants)
    && (s.bootstrap.None? ==> s.grants == [] && s.epochs == [])
    && (forall i :: 0 <= i < |s.grants| ==> Explained(s, i))
  }

  // ---------------------------------------------------------------- every step keeps the lineage

  /** Adding grants, and moving the version on, explains no grant less. */
  lemma ExplainedLater(s: Authority, next: Authority, i: int)
    requires 0 <= i < |s.grants| && Explained(s, i)
    requires s.grants <= next.grants && s.bootstrap == next.bootstrap
    requires 1 <= CurrentVersion(s) <= CurrentVersion(next) <= LAST_VERSION
    ensures Explained(next, i)
  {
    if IsRoot(s, s.grants[i]) {
      VocabulariesNest(CurrentVersion(s), CurrentVersion(next));
      var n := ActionsFor(CurrentVersion(s));
      assert n == ActionsFor(CurrentVersion(next))[..|n|];
    } else {
      var j, k :| DerivedFrom(s.grants, i, j, k);
      assert DerivedFrom(next.grants, i, j, k);
    }
  }

  lemma RootsExplained(s: Authority, actorId: int, origin: Origin, ids: seq<int>, i: int)
    requires s.bootstrap.Some? && s.bootstrap.value.actorId == actorId
    requires |ids| == |ActionsFor(origin.version)| && 0 <= i < |ids|
    requires CurrentOrigin(s).version == origin.version
    requires origin.createdAt < origin.expiresAt <= origin.createdAt + 31 * DAY
    ensures IsRoot(s, RootGrants(actorId, origin, ActionsFor(origin.version), ids)[i])
  {
  }

  lemma AppendDistinct(grants: seq<Grant>, added: seq<Grant>, ids: seq<int>)
    requires DistinctGrants(grants) && !Repeats(ids) && !Clashes(grants, ids)
    requires |added| == |ids| && forall i :: 0 <= i < |ids| ==> added[i].grantId == ids[i]
    ensures DistinctGrants(grants + added)
  {
    var all := grants + added;
    forall i, j | 0 <= i < j < |all| ensures all[i].grantId != all[j].grantId {
      if j >= |grants| {
        assert ids[j - |grants|] in ids;
        if i < |grants| {
          assert !Registered(grants, ids[j - |grants|]);
          assert grants[i] in grants;
        }
      }
    }
  }

  lemma RootsAdded(s: Authority, next: Authority, actorId: int, origin: Origin, ids: seq<int>)
    requires Lineage(s) && next.bootstrap.Some? && next.bootstrap.value.actorId == actorId
    requires s.bootstrap.Some? ==> next.bootstrap == s.bootstrap && 1 <= CurrentVersion(s) <= origin.version
    requires CurrentOrigin(next) == origin && |ids| == |ActionsFor(origin.version)|
    requires origin.createdAt < origin.expiresAt <= origin.createdAt + 31 * DAY
    requires !Repeats(ids) && !Clashes(s.grants, ids)
    requires next.grants == s.grants + RootGrants(actorId, origin, ActionsFor(origin.version), ids)
    ensures Lineage(next)
  {
    hide ActionsFor;
    var roots := RootGrants(actorId, origin, ActionsFor(origin.version), ids);
    AppendDistinct(s.grants, roots, ids);
    forall i | 0 <= i < |next.grants| ensures Explained(next, i) {
      if i < |s.grants| {
        assert next.grants[i] == s.grants[i];
        ExplainedLater(s, next, i);
      } else {
        RootsExplained(next, actorId, origin, ids, i - |s.grants|);
      }
    }
  }

  lemma EpochAdded(s: Authority, assessed: Result<Version>, actorId: int, now: nat, e: nat, ids: seq<int>, next: Authority)
    requires Lineage(s) && IdsFor(assessed, ids) && EpochStep(s, assessed, actorId, now, e, ids) == Ok(next)
    requires s.bootstrap.Some? && s.bootstrap.value.actorId == actorId && CurrentVersion(s) <= assessed.value
    ensures Lineage(next)
  {
    hide ActionsFor, Lineage, Repeats, Clashes;
    RootsAdded(s, next, actorId, Origin(now, e, assessed.value), ids);
  }

  lemma TargetScope(scope: Scope, wanted: Scope)
    requires ScopeMatches(scope, TargetOf(wanted))
    ensures ScopeCovers(scope, wanted)
  {
  }

  lemma IssuedExplained(s: Authority, q: Query, c: Candidate, id: int, next: Authority)
    requires Lineage(s) && Issued(s, q, c, id, next) && s.bootstrap.Some? && CurrentVersion(s) >= 1
    ensures Lineage(next)
  {
    hide ActionsFor, Evaluate;
    var admin, authority :|
      Pair(s.grants, q.actorId, c, q.now, admin, authority) &&
      next == s.(grants := s.grants + [IssuedGrant(id, c, Proof(admin.grantId, authority.grantId))]);
    var n := |s.grants|;
    var j :| 0 <= j < n && s.grants[j] == authority;
    var k :| 0 <= k < n && s.grants[k] == admin;
    TargetScope(admin.scope, c.scope);
    TargetScope(authority.scope, c.scope);
    assert DerivedFrom(next.grants, n, j, k);
    assert Explained(next, n);
    forall i | 0 <= i < n ensures Explained(next, i) {
      assert next.grants[i] == s.grants[i];
      ExplainedLater(s, next, i);
    }
    IssuedDistinct(s.grants, IssuedGrant(id, c, Proof(admin.grantId, authority.grantId)));
  }

  lemma IssuedDistinct(grants: seq<Grant>, g: Grant)
    requires DistinctGrants(grants) && !Registered(grants, g.grantId)
    ensures DistinctGrants(grants + [g])
  {
    forall i | 0 <= i < |grants| ensures grants[i].grantId != g.grantId {
      assert grants[i] in grants;
    }
  }

  lemma RevokedExplained(s: Authority, q: Query, r: int, revision: nat, next: Authority)
    requires Lineage(s) && Revoked(s, q, r, revision, next)
    ensures Lineage(next)
  {
    hide ActionsFor, Evaluate;
    forall i | 0 <= i < |next.grants| ensures Explained(next, i) {
      assert Explained(s, i);
      if IsRoot(s, s.grants[i]) {
        assert IsRoot(next, next.grants[i]);
      } else {
        var j, k :| DerivedFrom(s.grants, i, j, k);
        assert DerivedFrom(next.grants, i, j, k);
      }
    }
  }

  lemma VersionKnown(s: Authority)
    requires s.bootstrap.Some?
    ensures 1 <= CurrentVersion(s) <= LAST_VERSION
  {
  }

  /** No transaction breaks the lineage. */
  lemma StepKeepsLineage(s: Authority, step: Step, next: Authority)
    requires Lineage(s) && Takes(s, step, next)
    ensures Lineage(next)
  {
    hide Lineage, ActionsFor, Repeats, Clashes, Issued, Revoked, OriginComplete, SomeRevoked, SomeInactive, EpochStep;
    if s.bootstrap.Some? { VersionKnown(s); }
    match step {
      case DoBootstrap(a, now, e, ids) => BootstrapAdded(s, a, now, e, ids, next);
      case DoUpgrade(a, now, e, ids) => AssessedOk(s, AssessUpgrade(s, a, now), a, now, e, ids, next);
        EpochAdded(s, AssessUpgrade(s, a, now), a, now, e, ids, next);
      case DoRenew(a, now, e, ids) => AssessedOk(s, AssessRenewal(s, a, now), a, now, e, ids, next);
        EpochAdded(s, AssessRenewal(s, a, now), a, now, e, ids, next);
      case DoIssue(q, c, id) =>
        IssuedNeedsGrants(s, q, c, id, next);
        IssuedExplained(s, q, c, id, next);
      case DoRevoke(q, i, revision) => RevokedExplained(s, q, i, revision, next);
    }
  }

  lemma AssessedOk(s: Authority, assessed: Result<Version>, a: int, now: nat, e: nat, ids: seq<int>, next: Authority)
    requires IdsFor(assessed, ids) && EpochStep(s, assessed, a, now, e, ids) == Ok(next)
    ensures assessed.Ok?
  {
  }

  lemma BootstrapAdded(s: Authority, a: int, now: nat, e: nat, ids: seq<int>, next: Authority)
    requires Lineage(s) && |ids| == |BASE_ACTIONS| && BootstrapStep(s, a, now, e, ids) == Ok(next)
    ensures Lineage(next)
  {
    hide Repeats, Clashes;
    assert ActionsFor(1) == BASE_ACTIONS;
    RootsAdded(s, next, a, Origin(now, e, 1), ids);
  }

  lemma IssuedNeedsGrants(s: Authority, q: Query, c: Candidate, id: int, next: Authority)
    requires Lineage(s) && Issued(s, q, c, id, next)
    ensures s.bootstrap.Some? && CurrentVersion(s) >= 1
  {
    hide ActionsFor, Evaluate;
  }

  lemma {:induction false} RunKeepsLineage(states: seq<Authority>, steps: seq<Step>, n: nat)
    requires Run(states, steps) && n < |states|
    ensures Lineage(states[n])
    decreases n
  {
    hide Lineage, Takes;
    if n == 0 {
      EmptyLineage();
    } else {
      RunKeepsLineage(states, steps, n - 1);
      assert Takes(states[n - 1], steps[n - 1], states[n]);
      StepKeepsLineage(states[n - 1], steps[n - 1], states[n]);
    }
  }

  lemma EmptyLineage()
    ensures Lineage(EMPTY)
  {
  }

  // ---------------------------------------------------------------- no amplification

  /** A chain of grants, each the source of the one before it, ending in a root grant. */
  ghost predicate SourceChain(s: Authority, chain: seq<Grant>) {
    && |chain| >= 1
    && (forall i :: 0 <= i < |chain| ==> chain[i] in s.grants)
    && (forall i :: 0 <= i < |chain| - 1 ==>
          chain[i].sourceGrantId == Some(chain[i + 1].grantId) && AtLeast(chain[i + 1], chain[i]))
    && IsRoot(s, chain[|chain| - 1])
  }

  lemma {:induction false} ChainToRoot(s: Authority, i: int) returns (chain: seq<Grant>)
    requires Lineage(s) && 0 <= i < |s.grants|
    ensures SourceChain(s, chain) && chain[0] == s.grants[i] && |chain| <= i + 1
    ensures AtLeast(chain[|chain| - 1], s.grants[i])
    decreases i
  {
    hide ActionsFor;
    assert Explained(s, i);
    if IsRoot(s, s.grants[i]) {
      chain := [s.grants[i]];
    } else {
      var j, k :| DerivedFrom(s.grants, i, j, k);
      var rest := ChainToRoot(s, j);
      chain := [s.grants[i]] + rest;
    }
  }

  /**
   In every run, every grant has a finite chain of sources that ends in a root grant of the bootstrap actor with the
   same action, a scope that covers it and a window that contains it.
   */
  lemma NoAmplification(states: seq<Authority>, steps: seq<Step>, n: nat, g: Grant)
    requires Run(states, steps) && n < |states| && g in states[n].grants
    ensures exists chain :: SourceChain(states[n], chain) && chain[0] == g && AtLeast(chain[|chain| - 1], g)
  {
    hide Run, Lineage, IsRoot, ActionsFor;
    RunKeepsLineage(states, steps, n);
    var i :| 0 <= i < |states[n].grants| && states[n].grants[i] == g;
    var chain := ChainToRoot(states[n], i);
  }

  /** The root grant permits what the query asks, revocation and the actor aside. */
  predicate RootPermits(s: Authority, root: Grant, q: Query) {
    && IsRoot(s, root) && root.action == q.action && ScopeMatches(root.scope, q.target)
    && root.notBefore <= q.now < root.expiresAt <= root.notBefore + 31 * DAY
  }

  /** Whatever is allowed in any run is covered by a root grant of the bootstrap actor. */
  lemma AllowedWithinRoot(states: seq<Authority>, steps: seq<Step>, n: nat, q: Query)
    requires Run(states, steps) && n < |states| && Evaluate(states[n].grants, q).allowed
    ensures exists root :: root in states[n].grants && RootPermits(states[n], root, q)
  {
    hide Run, Lineage, ActionsFor, Evaluate;
    var s := states[n];
    RunKeepsLineage(states, steps, n);
    AllowedExactly(s.grants, q);
    var g :| g in s.grants && Applies(g, q);
    var i :| 0 <= i < |s.grants| && s.grants[i] == g;
    var chain := ChainToRoot(s, i);
    var root := chain[|chain| - 1];
    assert root in s.grants && RootPermits(s, root, q);
  }

  // ---------------------------------------------------------------- the origins

  /** The bootstrap and every epoch, oldest first. */
  function Origins(s: Authority): seq<Origin> {
    if s.bootstrap.None? then [] else [s.bootstrap.value.origin] + seq(|s.epochs|, i requires 0 <= i < |s.epochs| => s.epochs[i].origin)
  }

  predicate SameTimes(a: Origin, b: Origin) {
    a.createdAt == b.createdAt && a.expiresAt == b.expiresAt
  }

  /** How many root grants the origins with the given times account for. */
  function Accounted(origins: seq<Origin>, times: Origin): nat {
    if origins == [] then 0
    else
      var last := origins[|origins| - 1];
      Accounted(origins[..|origins| - 1], times) + if SameTimes(last, times) then |ActionsFor(last.version)| else 0
  }

  function RootsAt(s: Authority, times: Origin): seq<Grant>
    requires s.bootstrap.Some?
  {
    OriginGrants(s.grants, s.bootstrap.value.actorId, times.createdAt, times.expiresAt)
  }

  /** Every origin still has its grants: as many as the origins account for, one at least for each of its actions. */
  ghost predicate Accounts(s: Authority) {
    s.bootstrap.Some? ==>
      && (forall times :: |RootsAt(s, times)| == Accounted(Origins(s), times))
      && (forall i :: 0 <= i < |Origins(s)| ==> CoversActions(RootsAt(s, Origins(s)[i]), ActionsFor(Origins(s)[i].version)))
  }

  lemma {:induction false} OriginGrantsAppend(a: seq<Grant>, b: seq<Grant>, actorId: int, c: nat, e: nat)
    ensures OriginGrants(a + b, actorId, c, e) == OriginGrants(a, actorId, c, e) + OriginGrants(b, actorId, c, e)
    decreases |a|
  {
    if |a| == 0 {
      assert a + b == b;
    } else {
      assert (a + b)[0] == a[0] && (a + b)[1..] == a[1..] + b;
      OriginGrantsAppend(a[1..], b, actorId, c, e);
    }
  }

  lemma {:induction false} OriginGrantsAll(grants: seq<Grant>, actorId: int, c: nat, e: nat, all: bool)
    requires forall g :: g in grants ==> (IsOriginGrant(g, actorId, c, e) <==> all)
    ensures OriginGrants(grants, actorId, c, e) == if all then grants else []
    decreases |grants|
  {
    if |grants| > 0 {
      assert grants == [grants[0]] + grants[1..];
      OriginGrantsAll(grants[1..], actorId, c, e, all);
    }
  }

  lemma {:induction false} OriginGrantsRevoked(grants: seq<Grant>, i: int, now: nat, actorId: int, c: nat, e: nat)
    requires 0 <= i < |grants|
    ensures |OriginGrants(grants[i := RevokedAt(grants[i], now)], actorId, c, e)| == |OriginGrants(grants, actorId, c, e)|
    decreases |grants|
  {
    var changed := grants[i := RevokedAt(grants[i], now)];
    if i == 0 {
      assert changed[1..] == grants[1..];
    } else {
      assert changed[0] == grants[0] && changed[1..] == grants[1..][i - 1 := RevokedAt(grants[1..][i - 1], now)];
      OriginGrantsRevoked(grants[1..], i - 1, now, actorId, c, e);
    }
  }

  lemma RootsAreOrigin(actorId: int, origin: Origin, ids: seq<int>, times: Origin)
    requires |ids| == |ActionsFor(origin.version)|
    ensures var roots := RootGrants(actorId, origin, ActionsFor(origin.version), ids);
            OriginGrants(roots, actorId, times.createdAt, times.expiresAt) == if SameTimes(origin, times) then roots else []
  {
    hide ActionsFor;
    var roots := RootGrants(actorId, origin, ActionsFor(origin.version), ids);
    OriginGrantsAll(roots, actorId, times.createdAt, times.expiresAt, SameTimes(origin, times));
  }

  lemma RootsCover(actorId: int, origin: Origin, ids: seq<int>)
    requires |ids| == |ActionsFor(origin.version)|
    ensures CoversActions(RootGrants(actorId, origin, ActionsFor(origin.version), ids), ActionsFor(origin.version))
  {
    hide ActionsFor;
    var actions := ActionsFor(origin.version);
    var roots := RootGrants(actorId, origin, actions, ids);
    forall a | a in actions ensures exists g :: g in roots && g.action == a {
      var i :| 0 <= i < |actions| && actions[i] == a;
      assert roots[i] in roots && roots[i].action == a;
    }
  }

  lemma CoversMore(grants: seq<Grant>, more: seq<Grant>, actions: seq<Action>)
    requires CoversActions(grants, actions) && forall g :: g in grants ==> exists h :: h in more && h.action == g.action
    ensures CoversActions(more, actions)
  {
  }

  lemma OriginAccounted(s: Authority, next: Authority, origin: Origin, ids: seq<int>)
    requires Accounts(s) && next.bootstrap.Some? && Origins(next) == Origins(s) + [origin]
    requires s.bootstrap == next.bootstrap || (s.bootstrap.None? && s.grants == [])
    requires |ids| == |ActionsFor(origin.version)|
    requires next.grants == s.grants + RootGrants(next.bootstrap.value.actorId, origin, ActionsFor(origin.version), ids)
    ensures Accounts(next)
  {
    hide ActionsFor;
    var actorId := next.bootstrap.value.actorId;
    var roots := RootGrants(actorId, origin, ActionsFor(origin.version), ids);
    assert Origins(next)[..|Origins(s)|] == Origins(s);
    forall times ensures |RootsAt(next, times)| == Accounted(Origins(next), times)
      && RootsAt(next, times) == OriginGrants(s.grants, actorId, times.createdAt, times.expiresAt) +
                                 (if SameTimes(origin, times) then roots else [])
    {
      OriginGrantsAppend(s.grants, roots, actorId, times.createdAt, times.expiresAt);
      RootsAreOrigin(actorId, origin, ids, times);
      if s.bootstrap.Some? { assert |RootsAt(s, times)| == Accounted(Origins(s), times); }
    }
    forall i | 0 <= i < |Origins(next)|
      ensures CoversActions(RootsAt(next, Origins(next)[i]), ActionsFor(Origins(next)[i].version))
    {
      var o := Origins(next)[i];
      if i < |Origins(s)| {
        assert o == Origins(s)[i];
        CoversMore(RootsAt(s, o), RootsAt(next, o), ActionsFor(o.version));
      } else {
        RootsCover(actorId, origin, ids);
        CoversMore(roots, RootsAt(next, o), ActionsFor(o.version));
      }
    }
  }

  lemma EpochAccounted(s: Authority, assessed: Result<Version>, a: int, now: nat, e: nat, ids: seq<int>, next: Authority)
    requires Accounts(s) && IdsFor(assessed, ids) && EpochStep(s, assessed, a, now, e, ids) == Ok(next)
    requires s.bootstrap.Some? && s.bootstrap.value.actorId == a
    ensures Accounts(next)
  {
    hide ActionsFor, Accounts, Repeats, Clashes;
    assert Origins(next) == Origins(s) + [Origin(now, e, assessed.value)];
    OriginAccounted(s, next, Origin(now, e, assessed.value), ids);
  }

  lemma BootstrapAccounted(s: Authority, a: int, now: nat, e: nat, ids: seq<int>, next: Authority)
    requires Lineage(s) && Accounts(s) && |ids| == |BASE_ACTIONS| && BootstrapStep(s, a, now, e, ids) == Ok(next)
    ensures Accounts(next)
  {
    hide Repeats, Clashes, Accounts;
    assert ActionsFor(1) == BASE_ACTIONS;
    assert Origins(next) == Origins(s) + [Origin(now, e, 1)];
    OriginAccounted(s, next, Origin(now, e, 1), ids);
  }

  lemma IssuedAccounted(s: Authority, q: Query, c: Candidate, id: int, next: Authority)
    requires Accounts(s) && Issued(s, q, c, id, next) && s.bootstrap.Some?
    ensures Accounts(next)
  {
    hide ActionsFor, Evaluate, Timely;
    var admin, authority :|
      Pair(s.grants, q.actorId, c, q.now, admin, authority) &&
      next == s.(grants := s.grants + [IssuedGrant(id, c, Proof(admin.grantId, authority.grantId))]);
    var g := IssuedGrant(id, c, Proof(admin.grantId, authority.grantId));
    hide Pair;
    forall times ensures RootsAt(next, times) == RootsAt(s, times) {
      OriginGrantsAppend(s.grants, [g], s.bootstrap.value.actorId, times.createdAt, times.expiresAt);
      OriginGrantsAll([g], s.bootstrap.value.actorId, times.createdAt, times.expiresAt, false);
    }
    assert Origins(next) == Origins(s);
  }

  lemma RevokedCovers(s: Authority, i: int, now: nat, actorId: int, c: nat, e: nat)
    requires 0 <= i < |s.grants|
    ensures var changed := s.grants[i := RevokedAt(s.grants[i], now)];
            forall g :: g in OriginGrants(s.grants, actorId, c, e) ==>
              exists h :: h in OriginGrants(changed, actorId, c, e) && h.action == g.action
  {
    var changed := s.grants[i := RevokedAt(s.grants[i], now)];
    forall g | g in OriginGrants(s.grants, actorId, c, e)
      ensures exists h :: h in OriginGrants(changed, actorId, c, e) && h.action == g.action
    {
      var k :| 0 <= k < |s.grants| && s.grants[k] == g;
      assert changed[k] in changed;
      assert changed[k] in OriginGrants(changed, actorId, c, e) && changed[k].action == g.action;
    }
  }

  lemma RevokedAccounted(s: Authority, q: Query, i: int, revision: nat, next: Authority)
    requires Accounts(s) && Revoked(s, q, i, revision, next)
    ensures Accounts(next)
  {
    hide ActionsFor, Evaluate;
    if s.bootstrap.Some? {
      var actorId := s.bootstrap.value.actorId;
      assert Origins(next) == Origins(s);
      forall times ensures |RootsAt(next, times)| == |RootsAt(s, times)| {
        OriginGrantsRevoked(s.grants, i, q.now, actorId, times.createdAt, times.expiresAt);
      }
      forall k | 0 <= k < |Origins(s)|
        ensures CoversActions(RootsAt(next, Origins(s)[k]), ActionsFor(Origins(s)[k].version))
      {
        var o := Origins(s)[k];
        RevokedCovers(s, i, q.now, actorId, o.createdAt, o.expiresAt);
        CoversMore(RootsAt(s, o), RootsAt(next, o), ActionsFor(o.version));
      }
    }
  }

  lemma StepKeepsAccounts(s: Authority, step: Step, next: Authority)
    requires Lineage(s) && Accounts(s) && Takes(s, step, next)
    ensures Accounts(next)
  {
    hide Lineage, Accounts, ActionsFor, Repeats, Clashes, Issued, Revoked, OriginComplete, SomeRevoked, SomeInactive,
         EpochStep;
    match step {
      case DoBootstrap(a, now, e, ids) => BootstrapAccounted(s, a, now, e, ids, next);
      case DoUpgrade(a, now, e, ids) =>
        AssessedOk(s, AssessUpgrade(s, a, now), a, now, e, ids, next);
        EpochAccounted(s, AssessUpgrade(s, a, now), a, now, e, ids, next);
      case DoRenew(a, now, e, ids) =>
        AssessedOk(s, AssessRenewal(s, a, now), a, now, e, ids, next);
        EpochAccounted(s, AssessRenewal(s, a, now), a, now, e, ids, next);
      case DoIssue(q, c, id) =>
        IssuedNeedsGrants(s, q, c, id, next);
        IssuedAccounted(s, q, c, id, next);
      case DoRevoke(q, i, revision) => RevokedAccounted(s, q, i, revision, next);
    }
  }

  lemma {:induction false} RunKeepsAccounts(states: seq<Authority>, steps: seq<Step>, n: nat)
    requires Run(states, steps) && n < |states|
    ensures Accounts(states[n])
    decreases n
  {
    hide Lineage, Takes, Accounts;
    if n == 0 {
      EmptyAccounts();
    } else {
      RunKeepsAccounts(states, steps, n - 1);
      RunKeepsLineage(states, steps, n - 1);
      assert Takes(states[n - 1], steps[n - 1], states[n]);
      StepKeepsAccounts(states[n - 1], steps[n - 1], states[n]);
    }
  }

  lemma EmptyAccounts()
    ensures Accounts(EMPTY)
  {
  }

  /** Some earlier origin was created at the same instant, and expires at the same instant, as the current one. */
  predicate OriginAmbiguous(s: Authority)
    requires s.bootstrap.Some?
  {
    exists i :: 0 <= i < |Origins(s)| - 1 && SameTimes(Origins(s)[i], CurrentOrigin(s))
  }

  lemma VocabularyNotEmpty(v: Version)
    ensures |ActionsFor(v)| > 0
  {
    VocabulariesNest(1, v);
  }

  lemma {:induction false} AccountedNone(origins: seq<Origin>, times: Origin)
    ensures Accounted(origins, times) == 0 <==> forall i :: 0 <= i < |origins| ==> !SameTimes(origins[i], times)
    decreases |origins|
  {
    hide ActionsFor;
    if |origins| > 0 {
      var last := origins[|origins| - 1];
      VocabularyNotEmpty(last.version);
      AccountedNone(origins[..|origins| - 1], times);
      assert forall i :: 0 <= i < |origins| - 1 ==> origins[..|origins| - 1][i] == origins[i];
    }
  }

  /**
   In every run the bootstrap actor's own origin is found complete exactly when no earlier origin has the same
   times; when one has, the origin can never be told from it, and renewal and upgrade are refused.
   */
  lemma OriginCompleteExactly(states: seq<Authority>, steps: seq<Step>, n: nat)
    requires Run(states, steps) && n < |states| && states[n].bootstrap.Some?
    ensures OriginComplete(states[n], states[n].bootstrap.value.actorId) <==> !OriginAmbiguous(states[n])
  {
    hide Run, ActionsFor, Takes;
    RunKeepsAccounts(states, steps, n);
    var s := states[n];
    var origins := Origins(s);
    var last := CurrentOrigin(s);
    assert origins[|origins| - 1] == last;
    AccountedNone(origins[..|origins| - 1], last);
    assert |RootsAt(s, last)| == Accounted(origins, last);
  }

  /** The two assessments of the bootstrap actor, in every run, down to the conditions a caller can read off. */
  lemma AssessmentsExactly(states: seq<Authority>, steps: seq<Step>, n: nat, now: nat)
    requires Run(states, steps) && n < |states| && states[n].bootstrap.Some?
    ensures var s := states[n];
            var a, o := s.bootstrap.value.actorId, CurrentOrigin(s);
            && (AssessRenewal(s, a, now) == Err(AuthorizationDenied) <==> OriginAmbiguous(s))
            && (AssessRenewal(s, a, now).Ok? <==>
                  && !OriginAmbiguous(s) && o.expiresAt <= now + 7 * DAY
                  && (o.expiresAt > now ==> !SomeRevoked(RootsAt(s, o))))
            && AssessUpgrade(s, a, now) ==
                 if o.version < LAST_VERSION && !OriginAmbiguous(s) && !SomeInactive(RootsAt(s, o), now)
                 then Ok(o.version + 1) else Err(UpgradeNotEligible)
  {
    hide Run, OriginComplete, OriginAmbiguous, SomeRevoked, SomeInactive, OriginGrants;
    OriginCompleteExactly(states, steps, n);
  }

  lemma TakesOne(states: seq<Authority>, steps: seq<Step>, n: nat)
    requires Run(states, steps) && n + 1 < |states|
    ensures n < |steps| && Takes(states[n], steps[n], states[n + 1])
  {
  }

  /** An origin that is not complete is never succeeded: no step adds an epoch. */
  lemma NoEpochAdded(s: Authority, step: Step, next: Authority)
    requires s.bootstrap.Some? && !OriginComplete(s, s.bootstrap.value.actorId) && Takes(s, step, next)
    ensures next.bootstrap == s.bootstrap && next.epochs == s.epochs
  {
    hide OriginComplete, SomeRevoked, SomeInactive, OriginGrants;
  }

  lemma SameOrigins(s: Authority, next: Authority)
    requires s.bootstrap.Some? && next.bootstrap == s.bootstrap && next.epochs == s.epochs
    ensures OriginAmbiguous(next) <==> OriginAmbiguous(s)
  {
    assert Origins(next) == Origins(s);
  }

  /** An ambiguous origin stays so in the rest of every run, and neither renewal nor upgrade is ever granted again. */
  lemma {:induction false} AmbiguousForEver(states: seq<Authority>, steps: seq<Step>, n: nat, m: nat)
    requires Run(states, steps) && n <= m < |states| && states[n].bootstrap.Some? && OriginAmbiguous(states[n])
    ensures states[m].bootstrap == states[n].bootstrap && states[m].epochs == states[n].epochs
    ensures OriginAmbiguous(states[m])
    ensures forall actor, now :: AssessRenewal(states[m], actor, now).Err? && AssessUpgrade(states[m], actor, now).Err?
  {
    hide Run, Takes, OriginComplete, OriginAmbiguous, SomeRevoked, SomeInactive, OriginGrants;
    if n < m {
      AmbiguousForEver(states, steps, n, m - 1);
      OriginCompleteExactly(states, steps, m - 1);
      TakesOne(states, steps, m - 1);
      NoEpochAdded(states[m - 1], steps[m - 1], states[m]);
    }
    SameOrigins(states[n], states[m]);
    OriginCompleteExactly(states, steps, m);
  }

  function Ids(from: int, n: nat): seq<int> {
    seq(n, i => from + i)
  }

  lemma FreshIds(grants: seq<Grant>, from: int, n: nat)
    requires forall g :: g in grants ==> g.grantId < from
    ensures !Repeats(Ids(from, n)) && !Clashes(grants, Ids(from, n))
  {
  }

  /** The case does arise: bootstrapping and upgrading within one instant, to the same expiry. */
  lemma AmbiguousOriginArises(actorId: int, now: nat)
    ensures exists states: seq<Authority>, steps: seq<Step> ::
              Run(states, steps) && |states| == 3 && states[2].bootstrap.Some? && OriginAmbiguous(states[2])
  {
    hide OriginComplete, OriginGrants, ActionsFor, Repeats, Clashes, Accounted;
    var e := now + 31 * DAY;
    var ids := Ids(0, |BASE_ACTIONS|);
    FreshIds([], 0, |BASE_ACTIONS|);
    assert ActionsFor(1) == BASE_ACTIONS by { FirstVocabulary(); }
    var first := BootstrapStep(EMPTY, actorId, now, e, ids).value;
    var s1, t1 := [EMPTY, first], [DoBootstrap(actorId, now, e, ids)];
    assert Takes(EMPTY, t1[0], first);
    assert Run(s1, t1);
    assert !OriginAmbiguous(first);
    OriginCompleteExactly(s1, t1, 1);
    assert !SomeInactive(RootsAt(first, first.bootstrap.value.origin), now) by { AllActive(actorId, now, e, ids, first); }
    assert AssessUpgrade(first, actorId, now) == Ok(2);
    var more := Ids(|BASE_ACTIONS|, |ActionsFor(2)|);
    FreshIds(first.grants, |BASE_ACTIONS|, |ActionsFor(2)|);
    var second := EpochStep(first, Ok(2), actorId, now, e, more).value;
    var s2, t2 := [EMPTY, first, second], [t1[0], DoUpgrade(actorId, now, e, more)];
    assert Takes(first, t2[1], second);
    assert Run(s2, t2);
    assert Origins(second)[0] == Origin(now, e, 1) && CurrentOrigin(second) == Origin(now, e, 2);
    assert OriginAmbiguous(second);
  }

  lemma FirstVocabulary()
    ensures ActionsFor(1) == BASE_ACTIONS
  {
  }

  lemma AllActive(actorId: int, now: nat, e: nat, ids: seq<int>, s: Authority)
    requires |ids| == |BASE_ACTIONS| && now < e
    requires s.bootstrap == Some(Bootstrapped(actorId, Origin(now, e, 1)))
    requires s.grants == [] + RootGrants(actorId, Origin(now, e, 1), BASE_ACTIONS, ids)
    ensures !SomeInactive(RootsAt(s, s.bootstrap.value.origin), now)
  {
    forall g | g in s.grants ensures g.revokedAt.None? && g.notBefore <= now < g.expiresAt {
    }
  }
}
