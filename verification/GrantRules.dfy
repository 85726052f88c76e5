/** Exactly which review grants are minted, accepted, handed out and taken back, and that each is spent at most once. */
module GrantRules {
  import opened Wrappers
  import opened Records
  import EmployerTruth
  import opened ReviewGrants

  // ---------- what the rows must say ----------

  // The application is a draft prepared at its revision, and its plan is live, unblocked and verified.
  predicate ReviewStands(m: MintRequest, now: Time) {
    && m.application.Some? && m.plan.Some?
    && var a, p := m.application.value, m.plan.value;
       && a.status == JobDraft && a.approvedAt.Some? && a.preparedRevision == Some(if a.revision < 1 then 1 else a.revision)
       && p.applicationId == m.appId && p.invalidatedAt.None? && m.contract.None? && p.blockers == []
       && p.createdAt <= now < p.expiresAt && p.sessionVerifiedAt.Some? && p.createdAt <= p.sessionVerifiedAt.value <= now
       && p.attachmentVerified && p.attachedCvId == Some(p.selectedCvId) && p.attachedCvHash == Some(p.selectedCvHash)
  }

  // The grant is unrevoked, unspent, unexpired, and equal to the current rows in every column it binds.
  predicate Acceptable(g: Grant, remoteRef: string, release: string, m: MintRequest, now: Time) {
    && g.applicationId == m.appId && g.revokedAt.None? && g.consumedAt.None? && now < g.expiresAt
    && ReviewStands(m, now)
    && var a, p, b := m.application.value, m.plan.value, g.binding;
       && b.remoteRef == remoteRef && b.release == release && Some(b.urlHash) == m.urlHash
       && b.revision == a.revision == p.revision && b.fingerprint == p.fingerprint
       && Some(b.cvHash) == a.selectedCvHash == p.attachedCvHash
       && b.adapterName == p.adapterName && b.adapterVersion == p.adapterVersion && b.selectorVersion == p.selectorVersion
  }

  // What the database demands of the texts and digests a grant stores.
  predicate Storable(m: MintRequest, p: FormPlan, urlHash: string) {
    && 32 <= |m.ref| <= 64 && p.revision >= 1
    && 1 <= TrimmedLength(p.adapterName) <= 64 && 1 <= TrimmedLength(p.adapterVersion) <= 32
    && 1 <= TrimmedLength(p.selectorVersion) <= 64 && 1 <= TrimmedLength(m.release) <= 64
    && EmployerTruth.IsSha256(urlHash) && EmployerTruth.IsSha256(p.fingerprint) && EmployerTruth.IsSha256(p.selectedCvHash)
  }

  predicate Mintable(m: MintRequest, now: Time) {
    && 1 <= m.ttl <= 300 && 1 <= |m.release| <= 64 && ReviewStands(m, now) && m.urlHash.Some?
    && var a, p := m.application.value, m.plan.value;
       && p.revision == a.revision && a.selectedCvId == Some(p.selectedCvId) && a.selectedCvHash == Some(p.selectedCvHash)
       && p.selectedCvHash != "" && p.profileVersion == a.profileVersion && Storable(m, p, m.urlHash.value)
  }

  // The new row: unspent, about exactly what was reviewed, until its lifetime or the plan ends, whichever is first.
  predicate MintedRow(g: Grant, m: MintRequest, now: Time)
    requires m.plan.Some? && m.application.Some? && m.urlHash.Some?
  {
    var p, b := m.plan.value, g.binding;
    && g.applicationId == m.appId && g.issuedAt == now && g.expiresAt in {p.expiresAt, now + m.ttl}
    && g.expiresAt <= p.expiresAt && g.expiresAt <= now + m.ttl
    && b.ref == m.ref && b.remoteRef == m.remoteRef && b.planId == m.planId && b.revision == m.application.value.revision && b.urlHash == m.urlHash.value
    && b.fingerprint == p.fingerprint && b.cvHash == p.selectedCvHash && b.adapterName == p.adapterName && b.adapterVersion == p.adapterVersion
    && b.selectorVersion == p.selectorVersion && b.release == m.release
    && g.revokedAt.None? && g.consumedAt.None? && g.consumedCommand.None?
    && g.projection == ProjectionPending && g.projectionAvailableAt == now && g.projectionAttempts == 0 && g.revocation == NoRevocation
  }

  /** A grant is minted exactly when the review stands and names this CV and profile; the row lasts as long as asked for and never
      past its plan. */
  lemma MintedExactlyWhenReviewed(m: MintRequest, now: Time)
    ensures Mint(m, now).Ok? <==> Mintable(m, now)
    ensures Mintable(m, now) ==> MintedRow(Mint(m, now).value, m, now)
  {
    hide TrimmedLength, EmployerTruth.IsSha256;
  }

  /** A grant is accepted exactly when it is unrevoked, unspent, unexpired and still says what the rows say. */
  lemma AcceptedExactlyWhenCurrent(g: Grant, remoteRef: string, release: string, m: MintRequest, now: Time)
    ensures Validate(g, remoteRef, release, m, now).None? <==> Acceptable(g, remoteRef, release, m, now)
  {
  }

  /** Which refusal a caller sees: the wrong application, then a revoked, a spent and an expired grant, before anything else is compared. */
  lemma RefusalsTellWhy(g: Grant, remoteRef: string, release: string, m: MintRequest, now: Time)
    requires m.contract.None? && m.application.Some?
    ensures var refusal := Validate(g, remoteRef, release, m, now);
      && (refusal == Some("REVIEW_GRANT_NOT_FOUND") <==> g.applicationId != m.appId)
      && (refusal == Some("REVIEW_GRANT_REVOKED") <==> g.applicationId == m.appId && g.revokedAt.Some?)
      && (refusal == Some("REVIEW_GRANT_REPLAYED") <==> g.applicationId == m.appId && g.revokedAt.None? && g.consumedAt.Some?)
      && (refusal == Some("REVIEW_GRANT_EXPIRED") <==>
            g.applicationId == m.appId && g.revokedAt.None? && g.consumedAt.None? && g.expiresAt <= now)
  {
  }

  // ---------- spent once ----------

  lemma StepKeepsConsumption(o: Outbox, e: Event, now: Time, o': Outbox, claimed: Option<Id>, i: Id)
    requires Consistent(o) && Step(o, e, now, o', claimed) && i in o.grants
    ensures i in o'.grants && KeepsConsumption(o.grants[i], o'.grants[i])
  {
    hide Consistent, RowOk, Validate, Mint;
    if e.Minted? {
      hide KeepsConsumption;
      MintingKeepsConsumption(o, e, now, o', claimed, i);
    } else {
      hide Step, KeepsConsumption;
      StepIsRowWise(o, e, now, o', claimed);
    }
  }

  lemma MintingKeepsConsumption(o: Outbox, e: Event, now: Time, o': Outbox, claimed: Option<Id>, i: Id)
    requires e.Minted? && Step(o, e, now, o', claimed) && i in o.grants
    ensures i in o'.grants && KeepsConsumption(o.grants[i], o'.grants[i])
  {
    hide Validate, Mint;
  }

  /** Once a grant is spent, no later state of the run has it unspent, spent at another time or by another command. */
  lemma {:induction false} ConsumptionIsFinal(states: seq<Outbox>, moments: seq<Moment>, k: nat, n: nat, i: Id)
    requires IsRun(states, moments) && Consistent(states[0]) && k <= n < |states| && i in states[k].grants
    ensures i in states[n].grants && KeepsConsumption(states[k].grants[i], states[n].grants[i])
    decreases n
  {
    hide Step, Consistent;
    if k < n {
      ConsumptionIsFinal(states, moments, k, n - 1, i);
      RunKeepsOk(states, moments, n - 1);
      StepKeepsConsumption(states[n - 1], moments[n - 1].event, moments[n - 1].now, states[n], moments[n - 1].claimed, i);
    }
  }

  // The step spends this grant.
  ghost predicate Spends(o: Outbox, e: Event, o': Outbox, i: Id) {
    e.Consumed? && e.id == i && i in o.grants && i in o'.grants && o'.grants != o.grants
  }

  lemma SpendingNeedsUnspent(o: Outbox, e: Event, now: Time, o': Outbox, claimed: Option<Id>, i: Id)
    requires Step(o, e, now, o', claimed) && Spends(o, e, o', i)
    ensures o.grants[i].consumedAt.None? && o'.grants[i].consumedAt == Some(now)
    ensures Acceptable(o.grants[i], e.remoteRef, e.release, e.request, now) && o'.grants[i].consumedCommand == Some(Stripped(e.command))
  {
    AcceptedExactlyWhenCurrent(o.grants[i], e.remoteRef, e.release, e.request, now);
    hide Validate, Stripped;
  }

  /** A command spends a grant exactly when it is acceptable and the command's reference is of sixteen to sixty-four characters; else no row
      changes. */
  lemma SpendsExactlyWhenAcceptable(o: Outbox, e: Event, now: Time, o': Outbox, claimed: Option<Id>)
    requires e.Consumed? && Step(o, e, now, o', claimed)
    ensures if e.id in o.grants && Acceptable(o.grants[e.id], e.remoteRef, e.release, e.request, now) && 16 <= |Stripped(e.command)| <= 64
            then o'.grants == o.grants[e.id := o.grants[e.id].(consumedAt := Some(now), consumedCommand := Some(Stripped(e.command)))]
            else o'.grants == o.grants
  {
    if e.id in o.grants { AcceptedExactlyWhenCurrent(o.grants[e.id], e.remoteRef, e.release, e.request, now); }
    hide Validate, Acceptable, Stripped;
  }

  /** No run spends a grant twice, and whenever it spends one the grant is unrevoked, unspent, unexpired and still says what the rows say. */
  lemma SpentAtMostOnce(states: seq<Outbox>, moments: seq<Moment>, k: nat, n: nat, i: Id)
    requires IsRun(states, moments) && Consistent(states[0]) && k < n < |moments|
    requires Spends(states[k], moments[k].event, states[k + 1], i)
    ensures !Spends(states[n], moments[n].event, states[n + 1], i)
    ensures var e := moments[k].event; Acceptable(states[k].grants[i], e.remoteRef, e.release, e.request, moments[k].now)
  {
    hide Step, Consistent, Acceptable, Stripped;
    SpendingNeedsUnspent(states[k], moments[k].event, moments[k].now, states[k + 1], moments[k].claimed, i);
    ConsumptionIsFinal(states, moments, k + 1, n, i);
    if Spends(states[n], moments[n].event, states[n + 1], i) {
      SpendingNeedsUnspent(states[n], moments[n].event, moments[n].now, states[n + 1], moments[n].claimed, i);
    }
  }

  // ---------- what is handed out ----------

  // A grant whose projection may be handed out: unspent, unrevoked, unexpired, available, and in nobody's live claim.
  predicate Deliverable(g: Grant, now: Time) {
    && g.consumedAt.None? && g.revokedAt.None? && now < g.expiresAt && g.projectedAt.None?
    && ((g.projection == ProjectionPending && g.projectionAvailableAt <= now)
        || (g.projection == ProjectionClaimed && g.projectionClaimedAt.Some? && g.projectionClaimedAt.value + 30 < now))
  }

  // A tombstone that may be handed out: revoked, unspent, unexpired, due, and in nobody's live claim.
  predicate Returnable(g: Grant, now: Time) {
    && g.revokedAt.Some? && g.consumedAt.None? && now < g.expiresAt && g.revocationSentAt.None?
    && ((g.revocation == RevocationPending && g.revocationAvailableAt.Some? && g.revocationAvailableAt.value <= now)
        || (g.revocation == RevocationClaimed && g.revocationClaimedAt.Some? && g.revocationClaimedAt.value + 30 < now))
  }

  lemma ClaimedProjection(o: Outbox, e: Event, now: Time, o': Outbox, i: Id)
    requires Consistent(o) && e.ProjectionClaim? && Step(o, e, now, o', Some(i))
    ensures i in o.grants && i in o'.grants && Deliverable(o.grants[i], now)
    ensures o'.grants[i].projection == ProjectionClaimed && o'.grants[i].projectionClaimedAt == Some(now)
    ensures o'.grants[i].projectionToken == Some(e.token) && o'.grants[i].projectionAttempts == o.grants[i].projectionAttempts + 1
  {
    hide OneLive, Holds, BindingChecks, ConsumptionChecks, Stripped, TombstoneOwed;
    assert RowOk(o.grants[i], o.clock);
  }

  lemma ClaimedRevocation(o: Outbox, e: Event, now: Time, o': Outbox, i: Id)
    requires Consistent(o) && e.RevocationClaim? && Step(o, e, now, o', Some(i))
    ensures i in o.grants && i in o'.grants && Returnable(o.grants[i], now)
    ensures o'.grants[i].revocation == RevocationClaimed && o'.grants[i].revocationClaimedAt == Some(now)
    ensures o'.grants[i].revocationToken == Some(e.token) && o'.grants[i].revocationAttempts == o.grants[i].revocationAttempts + 1
  {
    hide OneLive, Holds, BindingChecks, ConsumptionChecks, Stripped;
    assert RowOk(o.grants[i], o.clock);
  }

  /** In every run a projection is handed out only of a grant that is unspent, unrevoked, unexpired, due and unclaimed or abandoned for
      more than thirty seconds, and a tombstone only of one that is revoked and otherwise so. */
  lemma OnlyDueWorkIsHandedOut(states: seq<Outbox>, moments: seq<Moment>, k: nat)
    requires IsRun(states, moments) && Consistent(states[0]) && k < |moments| && moments[k].claimed.Some?
    ensures moments[k].event.ProjectionClaim? || moments[k].event.RevocationClaim?
    ensures var i := moments[k].claimed.value;
      && i in states[k].grants
      && (moments[k].event.ProjectionClaim? ==> Deliverable(states[k].grants[i], moments[k].now))
      && (moments[k].event.RevocationClaim? ==> Returnable(states[k].grants[i], moments[k].now))
  {
    hide Consistent, Deliverable, Returnable;
    RunKeepsOk(states, moments, k);
    var e, i := moments[k].event, moments[k].claimed.value;
    assert Step(states[k], e, moments[k].now, states[k + 1], moments[k].claimed);
    assert e.ProjectionClaim? || e.RevocationClaim?;
    hide Step;
    if e.ProjectionClaim? {
      ClaimedProjection(states[k], e, moments[k].now, states[k + 1], i);
    } else {
      ClaimedRevocation(states[k], e, moments[k].now, states[k + 1], i);
    }
  }

  // ---------- what each step does to the rows ----------

  // A live grant gives way to a new one: revoked now, with a tombstone to deliver unless it has already lapsed.
  predicate GivesWay(g: Grant, g': Grant, now: Time) {
    g' == g.(revokedAt := Some(now), revocationAvailableAt := Some(now),
             revocation := if now < g.expiresAt then RevocationPending else RevocationExpired)
  }

  /** Minting adds the new grant and makes every live one of the application give way to it, or changes nothing when it is refused. */
  lemma MintingSupersedes(o: Outbox, e: Event, now: Time, o': Outbox, claimed: Option<Id>)
    requires e.Minted? && Step(o, e, now, o', claimed)
    ensures if Mintable(e.request, now) then
              && o'.grants.Keys == o.grants.Keys + {e.id} && MintedRow(o'.grants[e.id], e.request, now)
              && forall i :: i in o.grants ==>
                   if o.grants[i].applicationId == e.request.appId && o.grants[i].consumedAt.None? && o.grants[i].revokedAt.None?
                   then GivesWay(o.grants[i], o'.grants[i], now) else o'.grants[i] == o.grants[i]
            else o'.grants == o.grants
  {
    MintedExactlyWhenReviewed(e.request, now);
    hide Mint, Mintable, MintedRow;
  }

  // The lease on the projection, and what ending it leaves.
  predicate ProjectionEnded(g: Grant, g': Grant, e: Event, now: Time) {
    if e.ProjectionMark? then
      g' == g.(projection := Projected, projectedAt := Some(now), projectionClaimedAt := None, projectionClaimedBy := None,
               projectionToken := None, projectionError := None)
    else if e.ProjectionRelease? then
      g' == g.(projection := ProjectionPending, projectionAvailableAt := now + 10, projectionClaimedAt := None,
               projectionClaimedBy := None, projectionToken := None, projectionError := Some(e.reason))
    else false
  }

  predicate RevocationEnded(g: Grant, g': Grant, e: Event, now: Time) {
    if e.RevocationMark? then
      g' == g.(revocation := RevocationDelivered, revocationSentAt := Some(now), revocationClaimedAt := None, revocationClaimedBy := None,
               revocationToken := None, revocationError := None)
    else if e.RevocationRelease? then
      g' == g.(revocation := if g.expiresAt <= now then RevocationExpired else RevocationPending, revocationAvailableAt := Some(now + 10),
               revocationClaimedAt := None, revocationClaimedBy := None, revocationToken := None, revocationError := Some(e.reason))
    else false
  }

  /** A delivery is ended exactly by the token that leased it, and only its own row changes: marked done, or back in the queue in ten
      seconds, or retired when the grant has lapsed. */
  lemma LeasesEndByTheirToken(o: Outbox, e: Event, now: Time, o': Outbox, claimed: Option<Id>)
    requires Step(o, e, now, o', claimed) && (e.ProjectionMark? || e.ProjectionRelease? || e.RevocationMark? || e.RevocationRelease?)
    ensures var leased := e.id in o.grants
              && if e.ProjectionMark? || e.ProjectionRelease?
                 then o.grants[e.id].projection == ProjectionClaimed && o.grants[e.id].projectionToken == Some(e.token)
                 else o.grants[e.id].revocation == RevocationClaimed && o.grants[e.id].revocationToken == Some(e.token);
            if leased then
              && e.id in o'.grants && o'.grants == o.grants[e.id := o'.grants[e.id]]
              && (ProjectionEnded(o.grants[e.id], o'.grants[e.id], e, now) || RevocationEnded(o.grants[e.id], o'.grants[e.id], e, now))
            else o'.grants == o.grants
  {
  }

  // A projection lease abandoned for more than thirty seconds, and the row once it is taken back.
  predicate Abandoned(g: Grant, now: Time) {
    g.projection == ProjectionClaimed && g.projectedAt.None? && g.projectionClaimedAt.Some? && g.projectionClaimedAt.value + 30 < now
  }

  predicate TakenBack(g: Grant, g': Grant, now: Time) {
    g' == g.(projection := ProjectionPending, projectionAvailableAt := now, projectionClaimedAt := None, projectionClaimedBy := None,
             projectionToken := None, projectionError := Some("PROJECTION_CLAIM_STALE"))
  }

  // A tombstone that has still to reach the hosted side.
  predicate Owed(g: Grant, now: Time) { g.revocation in {RevocationPending, RevocationClaimed} && now < g.expiresAt }

  // A projection waiting, due now.
  predicate Waiting(g: Grant, now: Time) {
    g.projection == ProjectionPending && g.projectionAvailableAt <= now && now < g.expiresAt && g.consumedAt.None? && g.revokedAt.None?
  }

  /** A runner asking for a projection gets none exactly when its name is unusable, a tombstone is owed, or nothing is waiting once the
      abandoned leases it swept are back. No row changes but those and the one handed out. */
  lemma WaitingWorkIsHandedOut(o: Outbox, e: Event, now: Time, o': Outbox, claimed: Option<Id>)
    requires e.ProjectionClaim? && Step(o, e, now, o', claimed)
    ensures var held := !(1 <= |Stripped(e.runner)| <= 64) || exists i :: i in o.grants && Owed(o.grants[i], now);
      && o'.grants.Keys == o.grants.Keys
      && |e.swept| <= 25
      && (held ==> claimed.None? && o'.grants == o.grants)
      && (!held && claimed.None? ==> forall i :: i in o.grants ==> !Waiting(o'.grants[i], now))
      && (forall i :: i in o.grants && claimed != Some(i) ==>
            o'.grants[i] == o.grants[i] || (i in e.swept && Abandoned(o.grants[i], now) && TakenBack(o.grants[i], o'.grants[i], now)))
  {
    hide Stripped;
  }

  // A revocation lease abandoned for more than thirty seconds, and the row once it is taken back; a tombstone that lapsed, and its row.
  predicate RevocationAbandoned(g: Grant, now: Time) {
    g.revocation == RevocationClaimed && g.revocationSentAt.None? && g.revocationClaimedAt.Some? && g.revocationClaimedAt.value + 30 < now
  }

  predicate RevocationTakenBack(g: Grant, g': Grant, now: Time) {
    g' == g.(revocation := RevocationPending, revocationAvailableAt := Some(now), revocationClaimedAt := None, revocationClaimedBy := None,
             revocationToken := None, revocationError := Some("REVOCATION_CLAIM_STALE"))
  }

  predicate Lapses(g: Grant, g': Grant, now: Time) {
    g.expiresAt <= now && (g.revocation == RevocationPending || RevocationAbandoned(g, now))
    && g'.revocation == RevocationExpired && g'.revocationError == Some("REVIEW_GRANT_EXPIRED") && g'.expiresAt == g.expiresAt
    && g'.revokedAt == g.revokedAt && g'.consumedAt == g.consumedAt
  }

  predicate TombstoneWaiting(g: Grant, now: Time) {
    g.revocation == RevocationPending && g.revocationAvailableAt.Some? && g.revocationAvailableAt.value <= now && now < g.expiresAt
    && g.revokedAt.Some? && g.consumedAt.None?
  }

  /** A runner asking for a tombstone gets none exactly when its name is unusable or none is waiting once the abandoned leases it swept are
      back. No row changes but those, the lapsed ones it retired and the one handed out. */
  lemma WaitingTombstonesAreHandedOut(o: Outbox, e: Event, now: Time, o': Outbox, claimed: Option<Id>)
    requires e.RevocationClaim? && Step(o, e, now, o', claimed)
    ensures var held := !(1 <= |Stripped(e.runner)| <= 64);
      && o'.grants.Keys == o.grants.Keys
      && |e.swept| <= 25 && |e.lapsed| <= 25
      && (held ==> claimed.None? && o'.grants == o.grants)
      && (!held && claimed.None? ==> forall i :: i in o.grants ==> !TombstoneWaiting(o'.grants[i], now))
      && (forall i :: i in o.grants && claimed != Some(i) ==>
            || o'.grants[i] == o.grants[i]
            || (i in e.swept && RevocationAbandoned(o.grants[i], now) && RevocationTakenBack(o.grants[i], o'.grants[i], now))
            || (i in e.lapsed && Lapses(o.grants[i], o'.grants[i], now)))
  {
    hide Stripped, RevocationTakenBack, Lapses, RevocationAbandoned, FirstRevocation;
    forall i | i in o.grants { SweptTombstone(o, e, now, i); }
    if claimed.Some? { FirstIsThere(ExpireLapsed(SweepRevocations(o.grants, e.swept, now), e.lapsed), claimed.value, now); }
    hide RevocationStale, RevocationLapsed, ReclaimRevocation, ExpireRevocation, RevocationDue, TombstoneWaiting, ClaimRevocation;
    assert forall g: Grant :: RevocationDue(g, now) <==> TombstoneWaiting(g, now) by { DueIsWaiting(now); }
  }

  lemma DueIsWaiting(now: Time)
    ensures forall g: Grant :: RevocationDue(g, now) <==> TombstoneWaiting(g, now)
  {
  }

  lemma FirstIsThere(ready: map<Id, Grant>, i: Id, now: Time)
    requires FirstRevocation(ready, i, now)
    ensures i in ready
  {
  }

  lemma SweptTombstone(o: Outbox, e: Event, now: Time, i: Id)
    requires e.RevocationClaim? && Enabled(o, e, now) && i in o.grants
    ensures var ready := ExpireLapsed(SweepRevocations(o.grants, e.swept, now), e.lapsed);
      && i in ready
      && (|| ready[i] == o.grants[i]
          || (i in e.swept && RevocationAbandoned(o.grants[i], now) && RevocationTakenBack(o.grants[i], ready[i], now))
          || (i in e.lapsed && Lapses(o.grants[i], ready[i], now)))
  {
  }

  /** What the sweeps select is exactly what was abandoned, and exactly the tombstones that lapsed while waiting. */
  lemma SweptExactlyWhenAbandoned(g: Grant, now: Time)
    ensures ProjectionStale(g, now) <==> Abandoned(g, now)
    ensures RevocationStale(g, now) <==> RevocationAbandoned(g, now)
    ensures RevocationLapsed(g, now) <==> g.revocation == RevocationPending && g.expiresAt <= now
  {
  }
}
