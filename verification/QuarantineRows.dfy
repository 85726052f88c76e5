/** What the restore quarantine leaves of every row, said column by column. */
module QuarantineRows {
  import opened Wrappers
  import opened Records
  import opened ReviewGrants
  import opened Database
  import opened Quarantine

  // ---------- what is still at work for an application ----------

  // An attempt neither finished nor proven by the employer.
  ghost predicate Open(db: Db, id: AttemptId) {
    id in db.attempts && db.attempts[id].stage != Finished && !HasVerifiedEvidence(id, db.attempts[id], db.evidence)
  }

  ghost predicate MayHaveCrossed(db: Db, id: AttemptId)
    requires id in db.attempts
  {
    db.attempts[id].stage in {Committing, Verifying} || db.attempts[id].finalActionAt.Some?
    || (id in db.permits && db.permits[id].consumedAt.Some?)
  }

  // An unspent grant that is not revoked yet, or whose tombstone is neither delivered nor in the state it would be put in.
  predicate Unsettled(g: Grant, now: Time) {
    && g.consumedAt.None?
    && (g.revokedAt.None?
        || (g.revocation != RevocationDelivered
            && !(g.revocation == (if g.expiresAt <= now then RevocationExpired else RevocationPending) && g.revocationAvailableAt.Some?
                 && g.revocationClaimedAt.None? && g.revocationClaimedBy.None? && g.revocationToken.None? && g.revocationSentAt.None?)))
  }

  ghost predicate Proven(db: Db, app: Id) {
    exists id :: id in db.attempts && id.app == app && HasVerifiedEvidence(id, db.attempts[id], db.evidence)
  }

  ghost predicate Indeterminate(db: Db, app: Id) { exists id :: Open(db, id) && id.app == app && MayHaveCrossed(db, id) }

  // ---------- applications and jobs ----------

  lemma UnsettledChanges(g: Grant, now: Time)
    ensures QuarantineGrant(g, now) != g <==> Unsettled(g, now)
  {
  }

  ghost predicate GrantAtWork(grants: map<Id, Grant>, app: Id, now: Time) {
    exists i :: i in grants && grants[i].applicationId == app && Unsettled(grants[i], now)
  }

  lemma GrantedExactly(grants: map<Id, Grant>, app: Id, now: Time)
    ensures app in GrantedIds(grants, now) <==> GrantAtWork(grants, app, now)
  {
    forall i | i in grants ensures QuarantineGrant(grants[i], now) != grants[i] <==> Unsettled(grants[i], now) { UnsettledChanges(grants[i], now); }
    hide QuarantineGrant, Unsettled;
  }

  // A live command, or an open attempt.
  ghost predicate AttemptAtWork(db: Db, app: Id) {
    || (exists k :: k in db.commands && db.commands[k].attempt.app == app && db.commands[k].state in {CommandPending, CommandClaimed})
    || (exists id :: Open(db, id) && id.app == app)
  }

  // An unfinished inspection, a live plan, or a live permit.
  ghost predicate PaperAtWork(db: Db, app: Id, now: Time) {
    || (exists i :: i in db.inspections && db.inspections[i].applicationId == app && db.inspections[i].state != InspectionFinished)
    || (exists i :: i in db.plans && db.plans[i].applicationId == app && db.plans[i].invalidatedAt.None?)
    || (exists id :: id in db.permits && id.app == app && db.permits[id].consumedAt.None? && now < db.permits[id].expiresAt)
  }

  lemma AttemptsExactly(db: Db, app: Id)
    ensures app in CommandedIds(db.commands) + OpenIds(db) <==> AttemptAtWork(db, app)
    ensures app in VerifiedApplicationIds(db) <==> Proven(db, app)
    ensures app in IndeterminateIds(db) <==> Indeterminate(db, app)
  {
    hide HasVerifiedEvidence;
  }

  lemma PapersExactly(db: Db, app: Id, now: Time)
    ensures app in InspectedIds(db.inspections) + PlannedIds(db.plans) + PermittedIds(db.permits, now) <==> PaperAtWork(db, app, now)
  {
  }

  // Something unfinished or usable belongs to the application.
  ghost predicate AtWork(db: Db, app: Id, now: Time) { PaperAtWork(db, app, now) || GrantAtWork(db.grants, app, now) || AttemptAtWork(db, app) }

  lemma AffectedExactly(db: Db, app: Id, now: Time)
    ensures app in AffectedIds(db, now) <==> AtWork(db, app, now) && !Proven(db, app)
    ensures app in IndeterminateIds(db) <==> Indeterminate(db, app)
  {
    AttemptsExactly(db, app);
    PapersExactly(db, app, now);
    GrantedExactly(db.grants, app, now);
    hide InspectedIds, PlannedIds, PermittedIds, GrantedIds, CommandedIds, OpenIds, VerifiedApplicationIds, IndeterminateIds, Proven, Indeterminate;
    hide PaperAtWork, GrantAtWork, AttemptAtWork;
  }

  // The row an application is left with when it is sent back for review.
  predicate SentToReview(a: Application, a': Application, reason: Reason) {
    a' == a.(status := JobNeedsReview, needsReviewReason := Some(reason), preparedRevision := None, approvedAt := None, approvalSource := None)
  }

  /** The quarantine sends an application back for review exactly when something is at work for it and the employer has not confirmed it:
      as indeterminate when one of its open attempts may have crossed the boundary, as not ready otherwise. Its job goes with it, and every
      other application and job is untouched. */
  lemma ReviewsExactlyWhatWasAtWork(db: Db, now: Time, app: Id)
    requires app in db.applications
    ensures var q, a := Quarantine.Quarantine(db, now), db.applications[app];
      && app in q.applications
      && (AtWork(db, app, now) && !Proven(db, app) ==>
            SentToReview(a, q.applications[app], if Indeterminate(db, app) then "STALE_INDETERMINATE" else "RUNTIME_NOT_READY")
            && (a.jobId in db.jobs ==> a.jobId in q.jobs && q.jobs[a.jobId] == db.jobs[a.jobId].(status := JobNeedsReview)))
      && (!(AtWork(db, app, now) && !Proven(db, app)) ==> q.applications[app] == a)
  {
    AffectedExactly(db, app, now);
    QuarantinedMoves(db, now);
    hide Quarantine.Quarantine, AffectedIds, IndeterminateIds, AtWork, Proven, Indeterminate;
  }

  lemma QuarantinedMoves(db: Db, now: Time)
    ensures Quarantine.Quarantine(db, now).applications == MovedApplications(db, now) && Quarantine.Quarantine(db, now).jobs == MovedJobs(db, now)
  {
    hide MovedApplications, MovedJobs;
  }

  /** A job changes only with one of its applications. */
  lemma OtherJobsStay(db: Db, now: Time, job: Id)
    requires job in db.jobs
    requires forall app :: app in db.applications && db.applications[app].jobId == job ==> !AtWork(db, app, now) || Proven(db, app)
    ensures job in Quarantine.Quarantine(db, now).jobs && Quarantine.Quarantine(db, now).jobs[job] == db.jobs[job]
  {
    forall app | app in db.applications && db.applications[app].jobId == job ensures app !in AffectedIds(db, now) {
      AffectedExactly(db, app, now);
    }
    QuarantinedMoves(db, now);
    hide Quarantine.Quarantine, AffectedIds, AtWork, Proven;
  }

  // ---------- the other tables ----------

  ghost predicate SameKeys(db: Db, q: Db) {
    && q.attempts.Keys == db.attempts.Keys && q.permits.Keys == db.permits.Keys && q.commands.Keys == db.commands.Keys
    && q.grants.Keys == db.grants.Keys && q.plans.Keys == db.plans.Keys && q.policies.Keys == db.policies.Keys
    && q.inspections.Keys == db.inspections.Keys && q.applications.Keys == db.applications.Keys && q.jobs.Keys == db.jobs.Keys
  }

  ghost predicate SettledStay(db: Db, q: Db, now: Time)
    requires SameKeys(db, q)
  {
    && q.evidence == db.evidence && q.decisions == db.decisions && q.canaries == db.canaries && q.qualifications == db.qualifications
    && (forall i :: i in db.policies && (!db.policies[i].active || db.policies[i].revokedAt.Some?) ==> q.policies[i] == db.policies[i])
    && (forall i :: i in db.inspections && db.inspections[i].state == InspectionFinished ==> q.inspections[i] == db.inspections[i])
    && (forall i :: i in db.plans && db.plans[i].invalidatedAt.Some? ==> q.plans[i] == db.plans[i])
    && (forall id :: id in db.permits && (db.permits[id].consumedAt.Some? || db.permits[id].expiresAt <= now) ==> q.permits[id] == db.permits[id])
    && (forall k :: k in db.commands && db.commands[k].state in {CommandCompleted, CommandCancelled} ==> q.commands[k] == db.commands[k])
    && (forall i :: i in db.grants && !Unsettled(db.grants[i], now) ==> q.grants[i] == db.grants[i])
    && (forall id :: id in db.attempts && !Open(db, id) ==> q.attempts[id] == db.attempts[id])
  }

  // What usable authority becomes: revoked, invalid, expired or cancelled now, in the name of the restore.
  ghost predicate UsableEnd(db: Db, q: Db, now: Time)
    requires SameKeys(db, q)
  {
    && (forall i :: i in db.policies && db.policies[i].active && db.policies[i].revokedAt.None? ==>
          q.policies[i] == Policy(false, Some(now), Some("restore_quarantine"), Some("RESTORE_QUARANTINE")))
    && (forall i :: i in db.plans && db.plans[i].invalidatedAt.None? ==>
          q.plans[i] == db.plans[i].(invalidatedAt := Some(now), invalidationReason := Some("RESTORE_QUARANTINE")))
    && (forall id :: id in db.permits && db.permits[id].consumedAt.None? && now < db.permits[id].expiresAt ==>
          q.permits[id] == db.permits[id].(expiresAt := now))
    && (forall k :: k in db.commands && db.commands[k].state in {CommandPending, CommandClaimed} ==>
          q.commands[k] == db.commands[k].(
            state := CommandCancelled, completedAt := Some(now), lease := None, lastError := Some("RESTORE_QUARANTINE")))
  }

  lemma KeysStay(db: Db, now: Time)
    ensures SameKeys(db, Quarantine.Quarantine(db, now))
  {
    MovedKeys(db, now);
    hide MovedApplications, MovedJobs;
  }

  /** The quarantine ends what is usable, at its own time and in its own name. */
  lemma UsableRowsEnd(db: Db, now: Time)
    ensures var q := Quarantine.Quarantine(db, now); SameKeys(db, q) && UsableEnd(db, q, now)
  {
    KeysStay(db, now);
    hide QuarantineAttempts, MovedApplications, MovedJobs, QuarantineGrants, SameKeys;
  }

  /** It touches nothing else: a settled row of any table, and every row of the tables it does not know, is left exactly as it was, and no
      row is lost or added. */
  lemma SettledRowsStay(db: Db, now: Time)
    ensures var q := Quarantine.Quarantine(db, now); SameKeys(db, q) && SettledStay(db, q, now)
  {
    KeysStay(db, now);
    forall i | i in db.grants ensures QuarantineGrant(db.grants[i], now) != db.grants[i] <==> Unsettled(db.grants[i], now) {
      UnsettledChanges(db.grants[i], now);
    }
    hide HasVerifiedEvidence, MovedApplications, MovedJobs, QuarantineGrant, Unsettled, SameKeys;
  }

  lemma MovedKeys(db: Db, now: Time)
    ensures MovedApplications(db, now).Keys == db.applications.Keys && MovedJobs(db, now).Keys == db.jobs.Keys
  {
    hide AffectedIds, MovedJobIds, AffectedReason;
  }

  /** An open attempt is closed on the safe side: unknown and indeterminate if it may have crossed, failed before commit otherwise. */
  lemma OpenAttemptsAreClosed(db: Db, now: Time, id: AttemptId)
    requires Open(db, id)
    ensures var a, q := db.attempts[id], Quarantine.Quarantine(db, now);
      var at := if a.finishedAt.Some? then a.finishedAt else Some(now);
      && id in q.attempts
      && q.attempts[id] ==
           if MayHaveCrossed(db, id)
           then a.(stage := Finished, outcome := Some(Unknown), status := StatusUnknown, reason := Some("STALE_INDETERMINATE"),
                   finishedAt := at, submittedAt := None)
           else a.(stage := Finished, outcome := Some(FailedBeforeCommit), status := StatusFailed, reason := Some("RUNTIME_NOT_READY"),
                   finishedAt := at, submittedAt := None)
  {
    assert Quarantine.Quarantine(db, now).attempts == QuarantineAttempts(db, now);
    hide Quarantine.Quarantine, HasVerifiedEvidence;
  }

  // ---------- what the summary counts ----------

  lemma PaperCounts(db: Db, now: Time)
    ensures var q := Quarantine.Quarantine(db, now);
      && ActivePolicies(db.policies) == (set i | i in db.policies && q.policies[i] != db.policies[i])
      && OpenInspections(db.inspections) == (set i | i in db.inspections && q.inspections[i] != db.inspections[i])
      && LivePlans(db.plans) == (set i | i in db.plans && q.plans[i] != db.plans[i])
  {
    hide QuarantineAttempts, MovedApplications, MovedJobs;
  }

  lemma AuthorityCounts(db: Db, now: Time)
    ensures var q := Quarantine.Quarantine(db, now);
      && LivePermits(db.permits, now) == (set id | id in db.permits && q.permits[id] != db.permits[id])
      && ActiveCommands(db.commands) == (set k | k in db.commands && q.commands[k] != db.commands[k])
  {
    hide QuarantineAttempts, MovedApplications, MovedJobs;
  }

  lemma GrantCounts(db: Db, now: Time)
    ensures var q := Quarantine.Quarantine(db, now);
      && LiveGrants(db.grants) == (set i | i in db.grants && q.grants[i].revokedAt != db.grants[i].revokedAt)
      && RearmedGrants(db.grants, now)
         == (set i | i in db.grants && q.grants[i] != db.grants[i].(revokedAt := q.grants[i].revokedAt))
  {
    assert Quarantine.Quarantine(db, now).grants == QuarantineGrants(db.grants, now);
    hide Quarantine.Quarantine;
    forall i | i in db.grants
      ensures Live(db.grants[i]) <==> QuarantineGrant(db.grants[i], now).revokedAt != db.grants[i].revokedAt
      ensures db.grants[i].consumedAt.None? && Rearm(AsRevoked(db.grants[i], now), now) != AsRevoked(db.grants[i], now) <==>
              QuarantineGrant(db.grants[i], now) != db.grants[i].(revokedAt := QuarantineGrant(db.grants[i], now).revokedAt)
    {
      GrantCounted(db.grants[i], now);
    }
    hide QuarantineGrant, Rearm, AsRevoked, Live;
  }

  lemma GrantCounted(g: Grant, now: Time)
    ensures Live(g) <==> QuarantineGrant(g, now).revokedAt != g.revokedAt
    ensures g.consumedAt.None? && Rearm(AsRevoked(g, now), now) != AsRevoked(g, now) <==>
            QuarantineGrant(g, now) != g.(revokedAt := QuarantineGrant(g, now).revokedAt)
  {
  }

  lemma AttemptCounts(db: Db, now: Time, crossed: bool)
    ensures var q := Quarantine.Quarantine(db, now);
      OpenAttempts(db, crossed) == (set id | id in db.attempts && q.attempts[id] != db.attempts[id]
                                             && q.attempts[id].outcome == Some(if crossed then Unknown else FailedBeforeCommit))
  {
    assert Quarantine.Quarantine(db, now).attempts == QuarantineAttempts(db, now);
    hide Quarantine.Quarantine, HasVerifiedEvidence;
  }

  lemma MoveIsChange(db: Db, now: Time, i: Id)
    requires i in db.applications && i in AffectedIds(db, now)
    ensures var app, app' := db.applications[i], MovedApplications(db, now)[i];
      i in MovedIds(db, now) <==>
        app' != app || (app.jobId in db.jobs && MovedJobs(db, now)[app.jobId] != db.jobs[app.jobId])
  {
    assert db.applications[i].jobId in MovedJobIds(db, now);
    hide AffectedIds, AffectedReason, MovedJobIds;
  }

  // The row of the application or of its job is another than before.
  ghost predicate Moves(db: Db, q: Db, i: Id) {
    && i in db.applications && i in q.applications
    && var job := db.applications[i].jobId;
       q.applications[i] != db.applications[i] || (job in db.jobs && job in q.jobs && q.jobs[job] != db.jobs[job])
  }

  lemma MovesAreChanges(db: Db, now: Time)
    ensures var q := Quarantine.Quarantine(db, now);
      MovedIds(db, now) == (set i | i in db.applications && AtWork(db, i, now) && !Proven(db, i) && Moves(db, q, i))
  {
    QuarantinedMoves(db, now);
    KeysStay(db, now);
    hide Quarantine.Quarantine;
    forall i | i in db.applications
      ensures i in MovedIds(db, now) <==> AtWork(db, i, now) && !Proven(db, i) && Moves(db, Quarantine.Quarantine(db, now), i)
    {
      AffectedExactly(db, i, now);
      if i in AffectedIds(db, now) { MoveIsChange(db, now, i); }
    }
    hide MovedApplications, MovedJobs, AtWork, Proven, Moves;
    assert forall i :: i in MovedIds(db, now) ==> i in db.applications;
  }

  ghost predicate CountsChanges(db: Db, q: Db, n: Summary, now: Time)
    requires SameKeys(db, q)
  {
    && n.policiesRevoked == |set i | i in db.policies && q.policies[i] != db.policies[i]|
    && n.inspectionsQuarantined == |set i | i in db.inspections && q.inspections[i] != db.inspections[i]|
    && n.plansInvalidated == |set i | i in db.plans && q.plans[i] != db.plans[i]|
    && n.permitsExpired == |set id | id in db.permits && q.permits[id] != db.permits[id]|
    && n.commandsCancelled == |set k | k in db.commands && q.commands[k] != db.commands[k]|
    && n.grantsRevoked == |set i | i in db.grants && q.grants[i].revokedAt != db.grants[i].revokedAt|
    && n.grantsRearmed == |set i | i in db.grants && q.grants[i] != db.grants[i].(revokedAt := q.grants[i].revokedAt)|
    && n.precommitCancelled
       == |set id | id in db.attempts && q.attempts[id] != db.attempts[id] && q.attempts[id].outcome == Some(FailedBeforeCommit)|
    && n.postcommitUnknown == |set id | id in db.attempts && q.attempts[id] != db.attempts[id] && q.attempts[id].outcome == Some(Unknown)|
    && n.applicationsMoved == |set i | i in db.applications && AtWork(db, i, now) && !Proven(db, i) && Moves(db, q, i)|
  }

  /** The summary counts rows that change, each table its own: attempts by what becomes of them, grants once for being revoked and once for
      a tombstone put back to work, and applications that move or take their job along. */
  lemma CountsAreChanges(db: Db, now: Time)
    ensures var q := Quarantine.Quarantine(db, now); SameKeys(db, q) && CountsChanges(db, q, Summarize(db, now), now)
  {
    PaperCounts(db, now);
    AuthorityCounts(db, now);
    GrantCounts(db, now);
    AttemptCounts(db, now, false);
    AttemptCounts(db, now, true);
    MovesAreChanges(db, now);
    KeysStay(db, now);
    hide Quarantine.Quarantine, ActivePolicies, OpenInspections, LivePlans, LivePermits, ActiveCommands, LiveGrants, RearmedGrants,
      OpenAttempts, MovedIds, AtWork, Proven, Moves;
  }

  // ---------- grants ----------

  // The tombstone is already where the quarantine would put it.
  predicate AtRest(g: Grant, now: Time) {
    g.revocation == RevocationDelivered
    || (g.revocation == (if g.expiresAt <= now then RevocationExpired else RevocationPending) && g.revocationAvailableAt.Some?
        && g.revocationClaimedAt.None? && g.revocationClaimedBy.None? && g.revocationToken.None? && g.revocationSentAt.None?)
  }

  /** A spent grant is left alone. Any other ends revoked, when it was or now, and a tombstone that was not at rest goes back to be delivered,
      or is retired if the grant has lapsed, free of every lease. */
  lemma GrantsEndRevoked(db: Db, now: Time, i: Id)
    requires i in db.grants
    ensures var g, q := db.grants[i], Quarantine.Quarantine(db, now);
      var revoked := g.(revokedAt := if g.revokedAt.Some? then g.revokedAt else Some(now));
      && i in q.grants
      && q.grants[i] ==
           if g.consumedAt.Some? then g
           else if AtRest(g, now) then revoked
           else revoked.(
             revocation := if g.expiresAt <= now then RevocationExpired else RevocationPending,
             revocationAvailableAt := if g.revocationAvailableAt.Some? then g.revocationAvailableAt else Some(now),
             revocationClaimedAt := None, revocationClaimedBy := None, revocationToken := None, revocationSentAt := None,
             revocationError := Some("RESTORE_QUARANTINE"))
  {
    assert Quarantine.Quarantine(db, now).grants == QuarantineGrants(db.grants, now);
    hide Quarantine.Quarantine;
  }
}
