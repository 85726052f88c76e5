/** The grant table as the local service mutates it, one committed transaction per method. */
module GrantOutbox {
  import opened Wrappers
  import opened Records
  import opened ReviewGrants

  class ReviewGrantOutbox {
    var grants: map<Id, Grant>
    var clock: Time
    ghost var tokens: set<string>

    ghost function State(): Outbox
      reads this
    {
      Outbox(grants, clock, tokens)
    }

    constructor ()
      ensures State() == Outbox(map[], 0, {}) && Consistent(State())
    {
      grants, clock, tokens := map[], 0, {};
    }

    // A fresh local review supersedes every unconsumed projection of the application.
    method SupersedeLiveGrants(app: Id, now: Time)
      modifies this`grants
      ensures grants == Supersede(old(grants), app, now)
    {
      ghost var before := grants;
      var previous := set i | i in grants && grants[i].applicationId == app && Live(grants[i]);
      while previous != {}
        invariant previous <= before.Keys == grants.Keys
        invariant forall i :: i in previous ==> grants[i] == before[i] && before[i].applicationId == app && Live(before[i])
        invariant forall i :: i in before && i !in previous ==>
          grants[i] == if before[i].applicationId == app && Live(before[i]) then Revoke(before[i], now) else before[i]
        decreases |previous|
      {
        var i :| i in previous;
        grants := grants[i := Revoke(grants[i], now)];
        previous := previous - {i};
      }
    }

    method MintGrant(id: Id, request: MintRequest, now: Time) returns (r: Result<Grant, Reason>)
      requires clock <= now && id !in grants
      modifies this
      ensures Step(old(State()), Minted(id, request), now, State(), None)
      ensures r == Mint(request, now)
    {
      hide Mint;
      clock := now;
      r := Mint(request, now);
      if r.Ok? {
        SupersedeLiveGrants(request.appId, now);
        grants := grants[id := r.value];
      }
    }

    method ConsumeGrant(id: Id, request: MintRequest, remoteRef: string, release: string, command: string, now: Time)
      returns (r: Option<Reason>)
      requires clock <= now
      modifies this
      ensures Step(old(State()), Consumed(id, request, remoteRef, release, command), now, State(), None)
      ensures r.None? <==> id in old(grants) && Validate(old(grants)[id], remoteRef, release, request, now).None? && 16 <= |Stripped(command)| <= 64
    {
      clock := now;
      if id !in grants { return Some("REVIEW_GRANT_NOT_FOUND"); }
      r := Validate(grants[id], remoteRef, release, request, now);
      if r.Some? { return; }
      var bounded := Stripped(command);
      if !(16 <= |bounded| <= 64) { return Some("REMOTE_COMMAND_INVALID"); }
      grants := grants[id := Consume(grants[id], bounded, now)];
    }

    // The earliest due projection; ties go to the smaller identifier.
    method FirstDueProjection(now: Time) returns (r: Option<Id>)
      ensures r.None? ==> forall i :: i in grants ==> !ProjectionDue(grants[i], now)
      ensures r.Some? ==> FirstProjection(grants, r.value, now)
    {
      r := None;
      var todo := grants.Keys;
      while todo != {}
        invariant todo <= grants.Keys
        invariant r.None? ==> forall i :: i in grants && i !in todo ==> !ProjectionDue(grants[i], now)
        invariant r.Some? ==> r.value in grants && ProjectionDue(grants[r.value], now)
        invariant r.Some? ==> forall j :: j in grants && j !in todo && ProjectionDue(grants[j], now) ==>
          grants[r.value].projectionAvailableAt < grants[j].projectionAvailableAt
          || (grants[r.value].projectionAvailableAt == grants[j].projectionAvailableAt && r.value <= j)
        decreases |todo|
      {
        var i :| i in todo;
        if ProjectionDue(grants[i], now)
           && (r.None? || grants[i].projectionAvailableAt < grants[r.value].projectionAvailableAt
               || (grants[i].projectionAvailableAt == grants[r.value].projectionAvailableAt && i <= r.value))
        {
          r := Some(i);
        }
        todo := todo - {i};
      }
    }

    method FirstDueRevocation(now: Time) returns (r: Option<Id>)
      ensures r.None? ==> forall i :: i in grants ==> !RevocationDue(grants[i], now)
      ensures r.Some? ==> FirstRevocation(grants, r.value, now)
    {
      r := None;
      var todo := grants.Keys;
      while todo != {}
        invariant todo <= grants.Keys
        invariant r.None? ==> forall i :: i in grants && i !in todo ==> !RevocationDue(grants[i], now)
        invariant r.Some? ==> r.value in grants && RevocationDue(grants[r.value], now)
        invariant r.Some? ==> forall j :: j in grants && j !in todo && RevocationDue(grants[j], now) ==>
          grants[r.value].revocationAvailableAt.value < grants[j].revocationAvailableAt.value
          || (grants[r.value].revocationAvailableAt.value == grants[j].revocationAvailableAt.value && r.value <= j)
        decreases |todo|
      {
        var i :| i in todo;
        if RevocationDue(grants[i], now)
           && (r.None? || grants[i].revocationAvailableAt.value < grants[r.value].revocationAvailableAt.value
               || (grants[i].revocationAvailableAt.value == grants[r.value].revocationAvailableAt.value && i <= r.value))
        {
          r := Some(i);
        }
        todo := todo - {i};
      }
    }

    // Abandoned projection leases go back to the queue.
    method ReturnStaleProjections(swept: set<Id>, now: Time)
      requires swept <= grants.Keys
      modifies this`grants
      ensures grants == SweepProjections(old(grants), swept, now)
    {
      ghost var before := grants;
      var todo := swept;
      while todo != {}
        invariant todo <= swept && before.Keys == grants.Keys
        invariant forall i :: i in before ==> grants[i] == if i in swept && i !in todo then ReclaimProjection(before[i], now) else before[i]
        decreases |todo|
      {
        var i :| i in todo;
        grants := grants[i := ReclaimProjection(grants[i], now)];
        todo := todo - {i};
      }
    }

    // Claims one due projection, after returning up to a limit of abandoned leases to the queue. The rows a
    // limited sweep selects are chosen by the database.
    method ClaimProjectionLease(runner: string, token: string, swept: set<Id>, now: Time) returns (r: Result<Option<Id>, Reason>)
      requires Enabled(State(), ProjectionClaim(runner, token, swept), now)
      modifies this
      ensures Step(old(State()), ProjectionClaim(runner, token, swept), now, State(), if r.Ok? then r.value else None)
      ensures r.Err? <==> !ValidRunner(runner)
      ensures r.Err? ==> r.error == "RUNNER_ID_INVALID" && grants == old(grants)
    {
      clock := now;
      var bounded := Stripped(runner);
      if !(1 <= |bounded| <= 64) { return Err("RUNNER_ID_INVALID"); }
      if exists i :: i in grants && TombstoneOwed(grants[i], now) { return Ok(None); }
      ReturnStaleProjections(swept, now);
      var claimed := FirstDueProjection(now);
      if claimed.Some? {
        grants := grants[claimed.value := ClaimProjection(grants[claimed.value], bounded, token, now)];
        tokens := tokens + {token};
      }
      r := Ok(claimed);
    }

    method MarkGrantProjected(id: Id, token: string, now: Time) returns (lost: bool)
      requires clock <= now
      modifies this
      ensures Step(old(State()), ProjectionMark(id, token), now, State(), None)
      ensures lost <==> !(id in old(grants) && HoldsProjection(old(grants)[id], token))
    {
      clock := now;
      lost := id !in grants || !HoldsProjection(grants[id], token);
      if !lost { grants := grants[id := MarkProjected(grants[id], now)]; }
    }

    method ReleaseProjectionLease(id: Id, token: string, reason: Reason, now: Time) returns (lost: bool)
      requires clock <= now
      modifies this
      ensures Step(old(State()), ProjectionRelease(id, token, BoundedReason(reason)), now, State(), None)
      ensures lost <==> !(id in old(grants) && HoldsProjection(old(grants)[id], token))
    {
      clock := now;
      lost := id !in grants || !HoldsProjection(grants[id], token);
      if !lost { grants := grants[id := ReleaseProjection(grants[id], BoundedReason(reason), now)]; }
    }

    // Abandoned tombstone leases go back to the queue.
    method ReturnStaleRevocations(swept: set<Id>, now: Time)
      requires swept <= grants.Keys
      modifies this`grants
      ensures grants == SweepRevocations(old(grants), swept, now)
    {
      ghost var before := grants;
      var todo := swept;
      while todo != {}
        invariant todo <= swept && before.Keys == grants.Keys
        invariant forall i :: i in before ==> grants[i] == if i in swept && i !in todo then ReclaimRevocation(before[i], now) else before[i]
        decreases |todo|
      {
        var i :| i in todo;
        grants := grants[i := ReclaimRevocation(grants[i], now)];
        todo := todo - {i};
      }
    }

    // Tombstones of expired grants need no delivery.
    method RetireLapsedRevocations(lapsed: set<Id>)
      requires lapsed <= grants.Keys
      modifies this`grants
      ensures grants == ExpireLapsed(old(grants), lapsed)
    {
      ghost var before := grants;
      var todo := lapsed;
      while todo != {}
        invariant todo <= lapsed && before.Keys == grants.Keys
        invariant forall i :: i in before ==> grants[i] == if i in lapsed && i !in todo then ExpireRevocation(before[i]) else before[i]
        decreases |todo|
      {
        var i :| i in todo;
        grants := grants[i := ExpireRevocation(grants[i])];
        todo := todo - {i};
      }
    }

    method ClaimRevocationLease(runner: string, token: string, swept: set<Id>, lapsed: set<Id>, now: Time)
      returns (r: Result<Option<Id>, Reason>)
      requires Enabled(State(), RevocationClaim(runner, token, swept, lapsed), now)
      modifies this
      ensures Step(old(State()), RevocationClaim(runner, token, swept, lapsed), now, State(), if r.Ok? then r.value else None)
      ensures r.Err? <==> !ValidRunner(runner)
      ensures r.Err? ==> r.error == "RUNNER_ID_INVALID" && grants == old(grants)
    {
      clock := now;
      var bounded := Stripped(runner);
      if !(1 <= |bounded| <= 64) { return Err("RUNNER_ID_INVALID"); }
      ReturnStaleRevocations(swept, now);
      RetireLapsedRevocations(lapsed);
      var claimed := FirstDueRevocation(now);
      if claimed.Some? {
        grants := grants[claimed.value := ClaimRevocation(grants[claimed.value], bounded, token, now)];
        tokens := tokens + {token};
      }
      r := Ok(claimed);
    }

    method MarkRevocationDelivered(id: Id, token: string, now: Time) returns (lost: bool)
      requires clock <= now
      modifies this
      ensures Step(old(State()), RevocationMark(id, token), now, State(), None)
      ensures lost <==> !(id in old(grants) && HoldsRevocation(old(grants)[id], token))
    {
      clock := now;
      lost := id !in grants || !HoldsRevocation(grants[id], token);
      if !lost { grants := grants[id := MarkDelivered(grants[id], now)]; }
    }

    method ReleaseRevocationLease(id: Id, token: string, reason: Reason, now: Time) returns (lost: bool)
      requires clock <= now
      modifies this
      ensures Step(old(State()), RevocationRelease(id, token, BoundedReason(reason)), now, State(), None)
      ensures lost <==> !(id in old(grants) && HoldsRevocation(old(grants)[id], token))
    {
      clock := now;
      lost := id !in grants || !HoldsRevocation(grants[id], token);
      if !lost { grants := grants[id := ReleaseRevocation(grants[id], BoundedReason(reason), now)]; }
    }
  }

  predicate IsReasonCharacter(c: char) { c == '_' || 'A' <= c <= 'Z' || '0' <= c <= '9' }

  // A stable code of at most 64 characters; anything else becomes the generic delivery failure.
  function BoundedReason(reason: Reason): (r: Reason)
    ensures 1 <= |r| <= 64 && forall k :: 0 <= k < |r| ==> IsReasonCharacter(r[k])
  {
    var bounded := if |reason| > 64 then reason[..64] else reason;
    if bounded != [] && forall k :: 0 <= k < |bounded| ==> IsReasonCharacter(bounded[k]) then bounded
    else "CONTROL_PLANE_DELIVERY_FAILED"
  }
}
