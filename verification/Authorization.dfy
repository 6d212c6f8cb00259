/**
 Deciding whether a grant permits an action, and whether an issuer's own grants permit it to issue another.  The
 loops of the source are methods, proved against specification functions; what those functions mean is stated in
 the lemmas.
 */
module Authorization {
  import opened Options
  import opened Sorting
  import opened Vocabulary

  datatype Scope = RuntimeScope | ProjectScope(projectId: int, resourceRevision: nat, configRevision: nat)

  datatype Target = Target(projectId: Option<int>, resourceRevision: Option<nat>, configRevision: Option<nat>)

  datatype Grant = Grant(
    grantId: int, revision: nat, actorId: int, action: Action, scope: Scope, notBefore: nat, expiresAt: nat,
    revokedAt: Option<nat>, issuerGrantId: Option<int>, sourceGrantId: Option<int>)

  datatype Policy = Allow | Deny | ReadNotApplicable

  datatype Reason =
    | Allowed | ActorMismatch | ActionMismatch | ScopeMismatch | ScopeRevisionStale | GrantExpired
    | GrantNotYetValid | GrantRevoked | GrantMissing | PolicyDenied | ConfirmationRequired

  datatype Evaluation = Evaluation(
    allowed: bool, reason: Reason, policy: Policy, grantId: Option<int>, grantRevision: Option<nat>)

  datatype Query = Query(actorId: int, action: Action, target: Target, now: nat, policy: Policy, confirmed: bool)

  predicate ScopeMatches(scope: Scope, target: Target) {
    match scope
    case RuntimeScope => true
    case ProjectScope(p, r, c) =>
      target.projectId == Some(p) && target.resourceRevision == Some(r) && target.configRevision == Some(c)
  }

  // ---------------------------------------------------------------- evaluating grants

  /** Why one grant for the right actor and action does not apply, if it does not. */
  function Obstacle(g: Grant, q: Query): Option<Reason> {
    if g.revokedAt.Some? then Some(GrantRevoked)
    else if q.now < g.notBefore then Some(GrantNotYetValid)
    else if q.now >= g.expiresAt then Some(GrantExpired)
    else if !ScopeMatches(g.scope, q.target) then
      Some(if g.scope.ProjectScope? && Some(g.scope.projectId) == q.target.projectId then ScopeRevisionStale else ScopeMismatch)
    else None
  }

  function Refused(reason: Reason, policy: Policy): Evaluation {
    Evaluation(false, reason, policy, None, None)
  }

  /** The verdict once a grant applies: policy and confirmation have the last word. */
  function Verdict(g: Grant, q: Query): Evaluation {
    if q.policy == Deny then Evaluation(false, PolicyDenied, Deny, Some(g.grantId), Some(g.revision))
    else if HighRisk(q.action) && !q.confirmed then
      Evaluation(false, ConfirmationRequired, q.policy, Some(g.grantId), Some(g.revision))
    else Evaluation(true, Allowed, q.policy, Some(g.grantId), Some(g.revision))
  }

  function Scan(grants: seq<Grant>, q: Query, reason: Reason): Evaluation {
    if grants == [] then Refused(reason, q.policy)
    else match Obstacle(grants[0], q)
      case Some(r) => Scan(grants[1..], q, r)
      case None => Verdict(grants[0], q)
  }

  function OfActor(actorId: int): Grant -> bool {
    (g: Grant) => g.actorId == actorId
  }

  function ForAction(action: Action): Grant -> bool {
    (g: Grant) => g.action == action
  }

  function Evaluate(grants: seq<Grant>, q: Query): Evaluation {
    var actorGrants := Filter(OfActor(q.actorId), grants);
    if actorGrants == [] then Refused(ActorMismatch, q.policy)
    else
      var actionGrants := Filter(ForAction(q.action), actorGrants);
      if actionGrants == [] then Refused(ActionMismatch, q.policy) else Scan(actionGrants, q, GrantMissing)
  }

  /** The loop of the source, keeping the last reason met. */
  method EvaluateAuthorization(grants: seq<Grant>, q: Query) returns (e: Evaluation)
    ensures e == Evaluate(grants, q)
  {
    var actorGrants := Filter(OfActor(q.actorId), grants);
    if actorGrants == [] {
      return Refused(ActorMismatch, q.policy);
    }
    var actionGrants := Filter(ForAction(q.action), actorGrants);
    if actionGrants == [] {
      return Refused(ActionMismatch, q.policy);
    }
    var firstReason := GrantMissing;
    assert actionGrants[0..] == actionGrants;
    for i := 0 to |actionGrants|
      invariant Scan(actionGrants, q, GrantMissing) == Scan(actionGrants[i..], q, firstReason)
    {
      var grant := actionGrants[i];
      assert actionGrants[i..][0] == grant && actionGrants[i..][1..] == actionGrants[i + 1..];
      if grant.revokedAt.Some? {
        firstReason := GrantRevoked;
      } else if q.now < grant.notBefore {
        firstReason := GrantNotYetValid;
      } else if q.now >= grant.expiresAt {
        firstReason := GrantExpired;
      } else if !ScopeMatches(grant.scope, q.target) {
        firstReason := if grant.scope.ProjectScope? && Some(grant.scope.projectId) == q.target.projectId
          then ScopeRevisionStale else ScopeMismatch;
      } else if q.policy == Deny {
        return Evaluation(false, PolicyDenied, Deny, Some(grant.grantId), Some(grant.revision));
      } else if HighRisk(q.action) && !q.confirmed {
        return Evaluation(false, ConfirmationRequired, q.policy, Some(grant.grantId), Some(grant.revision));
      } else {
        return Evaluation(true, Allowed, q.policy, Some(grant.grantId), Some(grant.revision));
      }
    }
    return Refused(firstReason, q.policy);
  }

  /** A live grant that matches the query. */
  predicate Applies(g: Grant, q: Query) {
    && g.actorId == q.actorId && g.action == q.action && g.revokedAt.None?
    && g.notBefore <= q.now < g.expiresAt && ScopeMatches(g.scope, q.target)
  }

  predicate SomeApplies(grants: seq<Grant>, q: Query) {
    exists g :: g in grants && Applies(g, q)
  }

  /** The policy allows the action, and a risky one is confirmed. */
  predicate Permitted(q: Query) {
    q.policy != Deny && (HighRisk(q.action) ==> q.confirmed)
  }

  lemma {:induction false} ScanMeaning(grants: seq<Grant>, q: Query, reason: Reason)
    requires forall g :: g in grants ==> g.actorId == q.actorId && g.action == q.action
    ensures SomeApplies(grants, q) ==>
              exists g :: g in grants && Applies(g, q) && Scan(grants, q, reason) == Verdict(g, q)
    ensures !SomeApplies(grants, q) ==>
              Scan(grants, q, reason) == Refused(Scan(grants, q, reason).reason, q.policy) &&
              (Scan(grants, q, reason).reason == reason ||
               exists g :: g in grants && Obstacle(g, q) == Some(Scan(grants, q, reason).reason))
    decreases |grants|
  {
    if |grants| > 0 {
      var head, tail := grants[0], grants[1..];
      assert grants == [head] + tail;
      if Obstacle(head, q).Some? {
        ScanMeaning(tail, q, Obstacle(head, q).value);
        if SomeApplies(tail, q) {
          var g :| g in tail && Applies(g, q) && Scan(tail, q, Obstacle(head, q).value) == Verdict(g, q);
          assert g in grants;
        }
        assert forall g :: g in grants ==> g == head || g in tail;
      } else {
        assert head in grants && Applies(head, q);
      }
    }
  }

  lemma EvaluateMeaning(grants: seq<Grant>, q: Query)
    ensures SomeApplies(grants, q) ==>
              exists g :: g in grants && Applies(g, q) && Evaluate(grants, q) == Verdict(g, q)
    ensures !SomeApplies(grants, q) ==>
              Evaluate(grants, q) == Refused(Evaluate(grants, q).reason, q.policy) &&
              Evaluate(grants, q).reason !in {Allowed, PolicyDenied, ConfirmationRequired}
  {
    var mine := Filter(ForAction(q.action), Filter(OfActor(q.actorId), grants));
    forall g ensures g in mine <==> g in grants && g.actorId == q.actorId && g.action == q.action {
      assert g in mine <==> g in Filter(OfActor(q.actorId), grants) && g.action == q.action;
    }
    ScanMeaning(mine, q, GrantMissing);
    if SomeApplies(grants, q) {
      var w :| w in grants && Applies(w, q);
      assert w in mine && SomeApplies(mine, q);
      var g :| g in mine && Applies(g, q) && Scan(mine, q, GrantMissing) == Verdict(g, q);
      assert w in Filter(OfActor(q.actorId), grants);
      assert g in grants;
    } else {
      assert !SomeApplies(mine, q);
    }
  }

  /** Allowed exactly when some live grant matches and policy and confirmation permit. */
  lemma AllowedExactly(grants: seq<Grant>, q: Query)
    ensures Evaluate(grants, q).allowed <==> SomeApplies(grants, q) && Permitted(q)
    ensures Evaluate(grants, q).allowed ==>
              exists g :: g in grants && Applies(g, q) && Evaluate(grants, q).grantId == Some(g.grantId) &&
                          Evaluate(grants, q).grantRevision == Some(g.revision)
  {
    EvaluateMeaning(grants, q);
    if SomeApplies(grants, q) {
      var g :| g in grants && Applies(g, q) && Evaluate(grants, q) == Verdict(g, q);
      assert Evaluate(grants, q).grantId == Some(g.grantId);
    }
  }

  /** Neither the verdict nor its reason once a grant applies depends on the order in which grants are listed. */
  lemma GrantOrderIrrelevant(a: seq<Grant>, b: seq<Grant>, q: Query)
    requires forall g :: g in a <==> g in b
    ensures Evaluate(a, q).allowed == Evaluate(b, q).allowed
    ensures SomeApplies(a, q) ==> Evaluate(a, q).reason == Evaluate(b, q).reason
  {
    EvaluateMeaning(a, q);
    EvaluateMeaning(b, q);
    assert SomeApplies(a, q) <==> SomeApplies(b, q);
  }

  // ---------------------------------------------------------------- issuing grants

  datatype Candidate = Candidate(actorId: int, action: Action, scope: Scope, notBefore: nat, expiresAt: nat)

  datatype Proof = Proof(administrativeGrantId: int, sourceGrantId: int)

  /** What a scope is matched against: the project it names, or nothing. */
  function TargetOf(scope: Scope): Target {
    match scope
    case RuntimeScope => Target(None, None, None)
    case ProjectScope(p, r, c) => Target(Some(p), Some(r), Some(c))
  }

  predicate Backs(admin: Grant, authority: Grant, c: Candidate, now: nat) {
    && admin.revokedAt.None? && authority.revokedAt.None?
    && admin.notBefore <= now && authority.notBefore <= now
    && admin.expiresAt >= c.expiresAt && authority.expiresAt >= c.expiresAt
    && ScopeMatches(admin.scope, TargetOf(c.scope)) && ScopeMatches(authority.scope, TargetOf(c.scope))
  }

  predicate Timely(c: Candidate, now: nat) {
    !(c.notBefore < now || c.notBefore >= c.expiresAt || c.expiresAt <= now)
  }

  /** A pair of the issuer's own grants that lets it issue the candidate. */
  predicate Pair(grants: seq<Grant>, issuer: int, c: Candidate, now: nat, admin: Grant, authority: Grant) {
    && admin in grants && authority in grants && admin.actorId == issuer && authority.actorId == issuer
    && admin.action == AuthorizationGrantIssue && authority.action == c.action && Backs(admin, authority, c, now)
  }

  predicate Names(proof: Proof, admin: Grant, authority: Grant) {
    proof.administrativeGrantId == admin.grantId && proof.sourceGrantId == authority.grantId
  }

  /** The nested search of the source: a proof is found exactly when one exists, and names a pair that backs it. */
  method CanIssueGrant(issuer: int, grants: seq<Grant>, c: Candidate, now: nat) returns (proof: Option<Proof>)
    ensures proof.Some? <==> Timely(c, now) && exists admin, authority :: Pair(grants, issuer, c, now, admin, authority)
    ensures proof.Some? ==> exists admin, authority ::
              Pair(grants, issuer, c, now, admin, authority) && Names(proof.value, admin, authority)
  {
    hide Backs;
    if c.notBefore < now || c.notBefore >= c.expiresAt || c.expiresAt <= now {
      return None;
    }
    var administrative := Filter(ForAction(AuthorizationGrantIssue), Filter(OfActor(issuer), grants));
    var source := Filter(ForAction(c.action), Filter(OfActor(issuer), grants));
    forall g ensures g in administrative <==> g in grants && g.actorId == issuer && g.action == AuthorizationGrantIssue {
      assert g in administrative <==> g in Filter(OfActor(issuer), grants) && g.action == AuthorizationGrantIssue;
    }
    forall g ensures g in source <==> g in grants && g.actorId == issuer && g.action == c.action {
      assert g in source <==> g in Filter(OfActor(issuer), grants) && g.action == c.action;
    }
    for i := 0 to |administrative|
      invariant forall k, authority :: 0 <= k < i ==> !Pair(grants, issuer, c, now, administrative[k], authority)
    {
      var admin := administrative[i];
      for j := 0 to |source|
        invariant forall k :: 0 <= k < j ==> !Pair(grants, issuer, c, now, admin, source[k])
      {
        var authority := source[j];
        if Backs(admin, authority, c, now) {
          proof := Some(Proof(admin.grantId, authority.grantId));
          assert Pair(grants, issuer, c, now, admin, authority);
          assert Names(proof.value, admin, authority);
          return;
        }
      }
      forall authority ensures !Pair(grants, issuer, c, now, admin, authority) {
        if authority in source {}
      }
    }
    forall admin, authority ensures !Pair(grants, issuer, c, now, admin, authority) {
      if admin in administrative {}
    }
    return None;
  }
}
