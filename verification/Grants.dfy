/**
 The grant table of a runtime and the transactions that change it: bootstrap, capability upgrade and renewal,
 issuing and revoking.  Whatever the run, no grant carries more authority than the root grant it derives from.
 */
module Grants {
  import opened Options
  import opened Vocabulary
  import opened Authorization

  const DAY: nat := 24 * 60 * 60 * 1000

  datatype Origin = Origin(createdAt: nat, expiresAt: nat, version: Version)

  datatype Epoch = Epoch(revision: nat, origin: Origin)

  datatype Bootstrapped = Bootstrapped(actorId: int, origin: Origin)

  datatype Authority = Authority(bootstrap: Option<Bootstrapped>, epochs: seq<Epoch>, grants: seq<Grant>)

  datatype Failure =
    | InvalidInput | BootstrapAlreadyConsumed | BootstrapRequired | AuthorizationDenied | RenewalNotDue
    | UpgradeNotEligible | GrantNotFound | StaleRevision | Conflict

  datatype Result<+T> = Ok(value: T) | Err(failure: Failure)

  predicate Repeats(ids: seq<int>) {
    exists i, j :: 0 <= i < j < |ids| && ids[i] == ids[j]
  }

  predicate Registered(grants: seq<Grant>, id: int) {
    exists g :: g in grants && g.grantId == id
  }

  predicate Clashes(grants: seq<Grant>, ids: seq<int>) {
    exists id :: id in ids && Registered(grants, id)
  }

  function RootGrant(actorId: int, origin: Origin, action: Action, id: int): Grant {
    Grant(id, 1, actorId, action, RuntimeScope, origin.createdAt, origin.expiresAt, None, None, None)
  }

  function RootGrants(actorId: int, origin: Origin, actions: seq<Action>, ids: seq<int>): seq<Grant>
    requires |ids| == |actions|
  {
    seq(|ids|, i requires 0 <= i < |ids| => RootGrant(actorId, origin, actions[i], ids[i]))
  }

  // ---------------------------------------------------------------- bootstrap, upgrade, renewal

  function BootstrapStep(s: Authority, actorId: int, now: nat, expiresAt: nat, ids: seq<int>): Result<Authority>
    requires |ids| == |BASE_ACTIONS|
  {
    if expiresAt <= now || expiresAt > now + 31 * DAY || Repeats(ids) then Err(InvalidInput)
    else if s.bootstrap.Some? then Err(BootstrapAlreadyConsumed)
    else if Clashes(s.grants, ids) then Err(Conflict)
    else
      var origin := Origin(now, expiresAt, 1);
      Ok(Authority(Some(Bootstrapped(actorId, origin)), s.epochs,
                   s.grants + RootGrants(actorId, origin, BASE_ACTIONS, ids)))
  }

  /** The latest epoch, or the bootstrap while there is none. */
  function CurrentOrigin(s: Authority): Origin
    requires s.bootstrap.Some?
  {
    if s.epochs == [] then s.bootstrap.value.origin else s.epochs[|s.epochs| - 1].origin
  }

  predicate IsOriginGrant(g: Grant, actorId: int, createdAt: nat, expiresAt: nat) {
    && g.actorId == actorId && g.issuerGrantId.None? && g.sourceGrantId.None?
    && g.notBefore == createdAt && g.expiresAt == expiresAt
  }

  function OriginGrants(grants: seq<Grant>, actorId: int, createdAt: nat, expiresAt: nat): (r: seq<Grant>)
    ensures forall g :: g in r <==> g in grants && IsOriginGrant(g, actorId, createdAt, expiresAt)
  {
    if grants == [] then []
    else
      assert grants == [grants[0]] + grants[1..];
      if IsOriginGrant(grants[0], actorId, createdAt, expiresAt)
      then [grants[0]] + OriginGrants(grants[1..], actorId, createdAt, expiresAt)
      else OriginGrants(grants[1..], actorId, createdAt, expiresAt)
  }

  predicate CoversActions(grants: seq<Grant>, actions: seq<Action>) {
    forall a :: a in actions ==> exists g :: g in grants && g.action == a
  }

  predicate SomeRevoked(grants: seq<Grant>) {
    exists g :: g in grants && g.revokedAt.Some?
  }

  function NextRevision(s: Authority): nat {
    if s.epochs == [] then 1 else s.epochs[|s.epochs| - 1].revision + 1
  }

  /** The grants of the current origin are exactly one for every action of its vocabulary, as far as counting tells. */
  predicate OriginComplete(s: Authority, actorId: int)
    requires s.bootstrap.Some?
  {
    var o := CurrentOrigin(s);
    var origin := OriginGrants(s.grants, actorId, o.createdAt, o.expiresAt);
    |origin| == |ActionsFor(o.version)| && CoversActions(origin, ActionsFor(o.version))
  }

  function AssessRenewal(s: Authority, actorId: int, now: nat): Result<Version> {
    if s.bootstrap.None? then Err(BootstrapRequired)
    else if s.bootstrap.value.actorId != actorId then Err(AuthorizationDenied)
    else
      var o := CurrentOrigin(s);
      if !OriginComplete(s, actorId) then Err(AuthorizationDenied)
      else if o.expiresAt > now + 7 * DAY then Err(RenewalNotDue)
      else if o.expiresAt > now && SomeRevoked(OriginGrants(s.grants, actorId, o.createdAt, o.expiresAt))
      then Err(RenewalNotDue)
      else Ok(o.version)
  }

  predicate SomeInactive(grants: seq<Grant>, now: nat) {
    exists g :: g in grants && (g.revokedAt.Some? || g.notBefore > now || g.expiresAt <= now)
  }

  function AssessUpgrade(s: Authority, actorId: int, now: nat): Result<Version> {
    if s.bootstrap.None? then Err(BootstrapRequired)
    else if s.bootstrap.value.actorId != actorId then Err(AuthorizationDenied)
    else
      var o := CurrentOrigin(s);
      if o.version == LAST_VERSION then Err(UpgradeNotEligible)
      else if !OriginComplete(s, actorId) then Err(UpgradeNotEligible)
      else if SomeInactive(OriginGrants(s.grants, actorId, o.createdAt, o.expiresAt), now) then Err(UpgradeNotEligible)
      else Ok(o.version + 1)
  }

  /** A new epoch with one root grant for every action of its vocabulary. */
  function AddEpoch(s: Authority, actorId: int, now: nat, expiresAt: nat, version: Version, ids: seq<int>)
    : Result<Authority>
    requires |ids| == |ActionsFor(version)|
  {
    if Repeats(ids) then Err(InvalidInput)
    else if Clashes(s.grants, ids) then Err(Conflict)
    else
      var origin := Origin(now, expiresAt, version);
      Ok(Authority(s.bootstrap, s.epochs + [Epoch(NextRevision(s), origin)],
                   s.grants + RootGrants(actorId, origin, ActionsFor(version), ids)))
  }

  /** The version an epoch operation assesses, with one fresh id for each of its actions. */
  predicate IdsFor(assessed: Result<Version>, ids: seq<int>) {
    assessed.Ok? ==> |ids| == |ActionsFor(assessed.value)|
  }

  function EpochStep(s: Authority, assessed: Result<Version>, actorId: int, now: nat, expiresAt: nat, ids: seq<int>)
    : Result<Authority>
    requires IdsFor(assessed, ids)
  {
    if expiresAt <= now + 7 * DAY || expiresAt > now + 31 * DAY then Err(InvalidInput)
    else match assessed
      case Err(failure) => Err(failure)
      case Ok(version) => AddEpoch(s, actorId, now, expiresAt, version, ids)
  }

  // ---------------------------------------------------------------- issuing and revoking

  function IssuedGrant(id: int, c: Candidate, proof: Proof): Grant {
    Grant(id, 1, c.actorId, c.action, c.scope, c.notBefore, c.expiresAt, None,
          Some(proof.administrativeGrantId), Some(proof.sourceGrantId))
  }

  /** A grant was issued on the strength of two of the issuer's own grants. */
  ghost predicate Issued(s: Authority, q: Query, c: Candidate, id: int, next: Authority) {
    && q.action == AuthorizationGrantIssue && Evaluate(s.grants, q).allowed && Timely(c, q.now)
    && !Registered(s.grants, id)
    && exists admin, authority ::
         Pair(s.grants, q.actorId, c, q.now, admin, authority) &&
         next == s.(grants := s.grants + [IssuedGrant(id, c, Proof(admin.grantId, authority.grantId))])
  }

  predicate MayIssue(s: Authority, q: Query, c: Candidate, id: int) {
    && s.bootstrap.Some? && Evaluate(s.grants, q).allowed && Timely(c, q.now) && !Registered(s.grants, id)
  }

  function RevokedAt(g: Grant, now: nat): Grant {
    g.(revision := g.revision + 1, revokedAt := Some(now))
  }

  /** The grant at an index was revoked at the revision the caller named. */
  predicate Revoked(s: Authority, q: Query, i: int, expectedRevision: nat, next: Authority) {
    && 0 <= i < |s.grants| && s.grants[i].revision == expectedRevision && s.grants[i].revokedAt.None?
    && q.action == AuthorizationGrantRevoke && Evaluate(s.grants, q).allowed
    && next == s.(grants := s.grants[i := RevokedAt(s.grants[i], q.now)])
  }

  // ---------------------------------------------------------------- the store

  /** The tables; every method is one transaction, and one that fails leaves them as they were. */
  class AuthorizationStore {
    var bootstrap: Option<Bootstrapped>
    var epochs: seq<Epoch>
    var grants: seq<Grant>

    function View(): Authority reads this {
      Authority(bootstrap, epochs, grants)
    }

    constructor ()
      ensures View() == Authority(None, [], [])
    {
      bootstrap, epochs, grants := None, [], [];
    }

    /** Inserts the root grants one by one; a repeated key makes the transaction fail. */
    method InsertRoots(actorId: int, origin: Origin, actions: seq<Action>, ids: seq<int>) returns (ok: bool)
      requires |ids| == |actions| && !Repeats(ids)
      modifies this`grants
      ensures ok <==> !Clashes(old(grants), ids)
      ensures ok ==> grants == old(grants) + RootGrants(actorId, origin, actions, ids)
    {
      ghost var was := grants;
      var roots := RootGrants(actorId, origin, actions, ids);
      assert was + roots[..0] == was;
      for i := 0 to |actions|
        invariant grants == was + roots[..i]
        invariant forall k :: 0 <= k < i ==> !Registered(was, ids[k])
      {
        assert forall g :: g in roots[..i] ==> g.grantId != ids[i];
        if Registered(grants, ids[i]) {
          assert ids[i] in ids;
          return false;
        }
        grants := grants + [RootGrant(actorId, origin, actions[i], ids[i])];
        assert roots[..i + 1] == roots[..i] + [roots[i]];
        assert was + roots[..i + 1] == (was + roots[..i]) + [roots[i]];
      }
      assert roots[..|actions|] == roots;
      return true;
    }

    method Bootstrap(actorId: int, now: nat, expiresAt: nat, ids: seq<int>) returns (r: Result<()>)
      requires |ids| == |BASE_ACTIONS|
      modifies this
      ensures match BootstrapStep(old(View()), actorId, now, expiresAt, ids)
              case Ok(next) => r == Ok(()) && View() == next
              case Err(failure) => r == Err(failure) && View() == old(View())
    {
      if expiresAt <= now || expiresAt > now + 31 * DAY || Repeats(ids) {
        return Err(InvalidInput);
      }
      if bootstrap.Some? {
        return Err(BootstrapAlreadyConsumed);
      }
      var before := grants;
      var origin := Origin(now, expiresAt, 1);
      var inserted := InsertRoots(actorId, origin, BASE_ACTIONS, ids);
      if !inserted {
        grants := before;
        return Err(Conflict);
      }
      bootstrap := Some(Bootstrapped(actorId, origin));
      return Ok(());
    }

    method InsertEpoch(assessed: Result<Version>, actorId: int, now: nat, expiresAt: nat, ids: seq<int>)
      returns (r: Result<()>)
      requires IdsFor(assessed, ids)
      modifies this
      ensures match EpochStep(old(View()), assessed, actorId, now, expiresAt, ids)
              case Ok(next) => r == Ok(()) && View() == next
              case Err(failure) => r == Err(failure) && View() == old(View())
    {
      if expiresAt <= now + 7 * DAY || expiresAt > now + 31 * DAY {
        return Err(InvalidInput);
      }
      if assessed.Err? {
        return Err(assessed.failure);
      }
      if Repeats(ids) {
        return Err(InvalidInput);
      }
      var before := grants;
      var origin := Origin(now, expiresAt, assessed.value);
      var inserted := InsertRoots(actorId, origin, ActionsFor(assessed.value), ids);
      if !inserted {
        grants := before;
        return Err(Conflict);
      }
      epochs := epochs + [Epoch(NextRevision(View()), origin)];
      return Ok(());
    }

    method Upgrade(actorId: int, now: nat, expiresAt: nat, ids: seq<int>) returns (r: Result<()>)
      requires IdsFor(AssessUpgrade(View(), actorId, now), ids)
      modifies this
      ensures match EpochStep(old(View()), AssessUpgrade(old(View()), actorId, now), actorId, now, expiresAt, ids)
              case Ok(next) => r == Ok(()) && View() == next
              case Err(failure) => r == Err(failure) && View() == old(View())
    {
      r := InsertEpoch(AssessUpgrade(View(), actorId, now), actorId, now, expiresAt, ids);
    }

    method Renew(actorId: int, now: nat, expiresAt: nat, ids: seq<int>) returns (r: Result<()>)
      requires IdsFor(AssessRenewal(View(), actorId, now), ids)
      modifies this
      ensures match EpochStep(old(View()), AssessRenewal(old(View()), actorId, now), actorId, now, expiresAt, ids)
              case Ok(next) => r == Ok(()) && View() == next
              case Err(failure) => r == Err(failure) && View() == old(View())
    {
      r := InsertEpoch(AssessRenewal(View(), actorId, now), actorId, now, expiresAt, ids);
    }

    /** Issues a grant when the issuer is authorized to and two of its own grants cover the candidate. */
    method Issue(q: Query, c: Candidate, id: int) returns (r: Result<()>)
      requires q.action == AuthorizationGrantIssue
      modifies this`grants
      ensures r.Ok? <==> (MayIssue(old(View()), q, c, id) &&
                          exists admin, authority :: Pair(old(grants), q.actorId, c, q.now, admin, authority))
      ensures if r.Ok? then Issued(old(View()), q, c, id, View()) else View() == old(View())
    {
      if bootstrap.None? {
        return Err(BootstrapRequired);
      }
      var evaluation := EvaluateAuthorization(grants, q);
      if !evaluation.allowed && evaluation.reason != ConfirmationRequired {
        return Err(AuthorizationDenied);
      }
      var proof := CanIssueGrant(q.actorId, grants, c, q.now);
      if proof.None? || !evaluation.allowed {
        return Err(AuthorizationDenied);
      }
      if Registered(grants, id) {
        return Err(Conflict);
      }
      ghost var admin, authority :|
        Pair(grants, q.actorId, c, q.now, admin, authority) && Names(proof.value, admin, authority);
      assert proof.value == Proof(admin.grantId, authority.grantId);
      grants := grants + [IssuedGrant(id, c, proof.value)];
      return Ok(());
    }

    method FindGrant(id: int) returns (i: nat)
      ensures i <= |grants|
      ensures i < |grants| ==> grants[i].grantId == id
      ensures i == |grants| ==> !Registered(grants, id)
    {
      i := 0;
      while i < |grants| && grants[i].grantId != id
        invariant i <= |grants|
        invariant forall k :: 0 <= k < i ==> grants[k].grantId != id
      {
        i := i + 1;
      }
    }

    /** Revokes a live grant at the revision the caller saw. */
    method Revoke(q: Query, id: int, expectedRevision: nat) returns (r: Result<()>)
      requires q.action == AuthorizationGrantRevoke
      modifies this`grants
      ensures if r.Ok?
              then exists i :: 0 <= i < |old(grants)| && old(grants)[i].grantId == id &&
                               Revoked(old(View()), q, i, expectedRevision, View())
              else View() == old(View())
    {
      if bootstrap.None? {
        return Err(BootstrapRequired);
      }
      var i := FindGrant(id);
      if i == |grants| {
        return Err(GrantNotFound);
      }
      if grants[i].revision != expectedRevision {
        return Err(StaleRevision);
      }
      var evaluation := EvaluateAuthorization(grants, q);
      if !evaluation.allowed {
        return Err(AuthorizationDenied);
      }
      if grants[i].revokedAt.Some? {
        return Err(Conflict);
      }
      assert Revoked(View(), q, i, expectedRevision, View().(grants := grants[i := RevokedAt(grants[i], q.now)]));
      grants := grants[i := RevokedAt(grants[i], q.now)];
      return Ok(());
    }
  }
}
