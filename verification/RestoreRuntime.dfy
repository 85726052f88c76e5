/** The restore quarantine as it runs: one pass per table in whatever order the rows come back, a dictionary of affected
    applications that later passes may override, and a final pass over the applications themselves. */
module RestoreRuntime {
  import opened Wrappers
  import opened Records
  import opened EmployerTruth
  import opened ReviewGrants
  import opened Database
  import opened Mutations
  import opened Quarantine
  import opened TablePasses

  // Entries already present keep their reason.
  function Defaulted(affected: map<Id, Reason>, ids: set<Id>, reason: Reason): map<Id, Reason> {
    map k | k in affected.Keys + ids :: if k in affected then affected[k] else reason
  }

  function Note(affected: map<Id, Reason>, verified: set<Id>, app: Id, reason: Reason): map<Id, Reason> {
    if app in verified || app in affected then affected else affected[app := reason]
  }

  // The applications behind the hits visited so far have been noted.
  ghost predicate Gathered<K>(owners: map<K, Id>, todo: set<K>, verified: set<Id>, affected: map<Id, Reason>, affected': map<Id, Reason>) {
    affected' == Defaulted(affected, (set k | k in owners && k !in todo :: owners[k]) - verified, PRECOMMIT_REASON)
  }

  function ValuesOf<K>(owners: map<K, Id>): set<Id> { set k | k in owners :: owners[k] }

  lemma GatheringStarts<K>(owners: map<K, Id>, all: set<K>, verified: set<Id>, affected: map<Id, Reason>)
    requires owners.Keys <= all
    ensures Gathered(owners, all, verified, affected, affected)
  {
  }

  lemma GatheredOne<K>(owners: map<K, Id>, todo: set<K>, verified: set<Id>, affected: map<Id, Reason>, affected': map<Id, Reason>, k: K)
    requires k in todo && Gathered(owners, todo, verified, affected, affected')
    ensures Gathered(owners, todo - {k}, verified, affected,
                     if k in owners then Note(affected', verified, owners[k], PRECOMMIT_REASON) else affected')
  {
    var done := set x | x in owners && x !in todo :: owners[x];
    var done' := set x | x in owners && x !in todo - {k} :: owners[x];
    if k in owners {
      assert done' == done + {owners[k]} by {
        assert k !in todo - {k};
        forall x | x in owners && x !in todo ensures owners[x] in done' { assert x !in todo - {k}; }
      }
    } else {
      assert done' == done by {
        forall x | x in owners && x !in todo ensures owners[x] in done' { assert x !in todo - {k}; }
      }
    }
  }

  lemma GatheringEnds<K>(owners: map<K, Id>, verified: set<Id>, affected: map<Id, Reason>, affected': map<Id, Reason>)
    requires Gathered(owners, {}, verified, affected, affected')
    ensures affected' == Defaulted(affected, ValuesOf(owners) - verified, PRECOMMIT_REASON)
  {
    assert (set k | k in owners && k !in {} :: owners[k]) == ValuesOf(owners);
  }

  // After the attempts pass: an open attempt that may have crossed the boundary decides the reason.
  function Decided(affected: map<Id, Reason>, open: set<Id>, crossed: set<Id>): map<Id, Reason> {
    map k | k in affected.Keys + open :: if k in crossed then POSTCOMMIT_REASON else if k in affected then affected[k] else PRECOMMIT_REASON
  }

  class RestoredTables {
    var applications: map<Id, Application>
    var jobs: map<Id, Job>
    var plans: map<string, FormPlan>
    var attempts: map<AttemptId, Attempt>
    var permits: map<AttemptId, Permit>
    var commands: map<string, Command>
    var evidence: set<EvidenceRow>
    var decisions: map<Id, PolicyDecision>
    var canaries: map<Id, Canary>
    var qualifications: map<Id, Qualification>
    var grants: map<Id, Grant>
    var policies: map<Id, Policy>
    var inspections: map<Id, Inspection>

    function Tables(): Db
      reads this
    {
      Db(applications, jobs, plans, attempts, permits, commands, evidence, decisions, canaries, qualifications, grants, policies, inspections)
    }

    constructor (db: Db)
      ensures Tables() == db
    {
      applications := db.applications;
      jobs := db.jobs;
      plans := db.plans;
      attempts := db.attempts;
      permits := db.permits;
      commands := db.commands;
      evidence := db.evidence;
      decisions := db.decisions;
      canaries := db.canaries;
      qualifications := db.qualifications;
      grants := db.grants;
      policies := db.policies;
      inspections := db.inspections;
    }

    method RevokePolicies(now: Time) returns (count: nat)
      modifies this`policies
      ensures policies == QuarantinePolicies(old(policies), now)
      ensures count == |ActivePolicies(old(policies))|
    {
      ghost var before, target, hits := policies, QuarantinePolicies(policies, now), ActivePolicies(policies);
      hide Rewriting, Tally;
      RewritingStarts(before, target);
      TallyStarts(hits, before.Keys);
      count := 0;
      var todo := policies.Keys;
      while todo != {}
        invariant Rewriting(before, target, todo, policies) && Tally(hits, todo, count)
        decreases |todo|
      {
        var i :| i in todo;
        Rewritten(before, target, todo, policies, i);
        Tallied(hits, todo, count, i);
        var row := policies[i];
        if row.active && row.revokedAt.None? {
          policies := policies[i := Policy(false, Some(now), Some("restore_quarantine"), Some(RESTORE_REASON))];
          count := count + 1;
        }
        todo := todo - {i};
      }
      RewritingEnds(before, target, policies);
      TallyEnds(hits, count);
    }

    method CloseInspections(verified: set<Id>, affected: map<Id, Reason>, now: Time) returns (count: nat, affected': map<Id, Reason>)
      modifies this`inspections
      ensures inspections == QuarantineInspections(old(inspections), now)
      ensures count == |OpenInspections(old(inspections))|
      ensures affected' == Defaulted(affected, InspectedIds(old(inspections)) - verified, PRECOMMIT_REASON)
    {
      ghost var before, target, hits := inspections, QuarantineInspections(inspections, now), OpenInspections(inspections);
      ghost var owners := InspectionOwners(inspections);
      InspectionOwnersAreNoted(inspections);
      hide InspectionOwners, ValuesOf, Rewriting, Tally, Gathered, Note, Defaulted, InspectedIds;
      RewritingStarts(before, target);
      TallyStarts(hits, before.Keys);
      GatheringStarts(owners, before.Keys, verified, affected);
      count, affected' := 0, affected;
      var todo := inspections.Keys;
      while todo != {}
        invariant Rewriting(before, target, todo, inspections) && Tally(hits, todo, count) && Gathered(owners, todo, verified, affected, affected')
        decreases |todo|
      {
        var i :| i in todo;
        Rewritten(before, target, todo, inspections, i);
        Tallied(hits, todo, count, i);
        GatheredOne(owners, todo, verified, affected, affected', i);
        var row := inspections[i];
        if row.state != InspectionFinished {
          inspections := inspections[i := Inspection(row.applicationId, InspectionFinished, Some(RESTORE_REASON),
                                                       if row.claimedAt.Some? then row.claimedAt else Some(now), None, None, Some(now))];
          count := count + 1;
          affected' := Note(affected', verified, row.applicationId, PRECOMMIT_REASON);
        }
        todo := todo - {i};
      }
      RewritingEnds(before, target, inspections);
      TallyEnds(hits, count);
      GatheringEnds(owners, verified, affected, affected');
    }

    method InvalidateLivePlans(verified: set<Id>, affected: map<Id, Reason>, now: Time) returns (count: nat, affected': map<Id, Reason>)
      modifies this`plans
      ensures plans == QuarantinePlans(old(plans), now)
      ensures count == |LivePlans(old(plans))|
      ensures affected' == Defaulted(affected, PlannedIds(old(plans)) - verified, PRECOMMIT_REASON)
    {
      ghost var before, target, hits := plans, QuarantinePlans(plans, now), LivePlans(plans);
      ghost var owners := PlanOwners(plans);
      PlanOwnersAreNoted(plans);
      hide PlanOwners, ValuesOf, Rewriting, Tally, Gathered, Note, Defaulted, PlannedIds;
      RewritingStarts(before, target);
      TallyStarts(hits, before.Keys);
      GatheringStarts(owners, before.Keys, verified, affected);
      count, affected' := 0, affected;
      var todo := plans.Keys;
      while todo != {}
        invariant Rewriting(before, target, todo, plans) && Tally(hits, todo, count) && Gathered(owners, todo, verified, affected, affected')
        decreases |todo|
      {
        var i :| i in todo;
        Rewritten(before, target, todo, plans, i);
        Tallied(hits, todo, count, i);
        GatheredOne(owners, todo, verified, affected, affected', i);
        var row := plans[i];
        if row.invalidatedAt.None? {
          plans := plans[i := row.(invalidatedAt := Some(now), invalidationReason := Some(RESTORE_REASON))];
          count := count + 1;
          affected' := Note(affected', verified, row.applicationId, PRECOMMIT_REASON);
        }
        todo := todo - {i};
      }
      RewritingEnds(before, target, plans);
      TallyEnds(hits, count);
      GatheringEnds(owners, verified, affected, affected');
    }

    method ExpirePermits(verified: set<Id>, affected: map<Id, Reason>, now: Time) returns (count: nat, affected': map<Id, Reason>)
      modifies this`permits
      ensures permits == QuarantinePermits(old(permits), now)
      ensures count == |LivePermits(old(permits), now)|
      ensures affected' == Defaulted(affected, PermittedIds(old(permits), now) - verified, PRECOMMIT_REASON)
    {
      ghost var before, target, hits := permits, QuarantinePermits(permits, now), LivePermits(permits, now);
      ghost var owners := PermitOwners(permits, now);
      PermitOwnersAreNoted(permits, now);
      hide PermitOwners, ValuesOf, Rewriting, Tally, Gathered, Note, Defaulted, PermittedIds;
      RewritingStarts(before, target);
      TallyStarts(hits, before.Keys);
      GatheringStarts(owners, before.Keys, verified, affected);
      count, affected' := 0, affected;
      var todo := permits.Keys;
      while todo != {}
        invariant Rewriting(before, target, todo, permits) && Tally(hits, todo, count) && Gathered(owners, todo, verified, affected, affected')
        decreases |todo|
      {
        var id :| id in todo;
        Rewritten(before, target, todo, permits, id);
        Tallied(hits, todo, count, id);
        GatheredOne(owners, todo, verified, affected, affected', id);
        var row := permits[id];
        if row.consumedAt.None? && row.expiresAt > now {
          permits := permits[id := row.(expiresAt := now)];
          count := count + 1;
          affected' := Note(affected', verified, id.app, PRECOMMIT_REASON);
        }
        todo := todo - {id};
      }
      RewritingEnds(before, target, permits);
      TallyEnds(hits, count);
      GatheringEnds(owners, verified, affected, affected');
    }

    method RevokeGrants(verified: set<Id>, affected: map<Id, Reason>, now: Time)
      returns (revoked: nat, rearmed: nat, affected': map<Id, Reason>)
      modifies this`grants
      ensures grants == QuarantineGrants(old(grants), now)
      ensures revoked == |LiveGrants(old(grants))| && rearmed == |RearmedGrants(old(grants), now)|
      ensures affected' == Defaulted(affected, GrantedIds(old(grants), now) - verified, PRECOMMIT_REASON)
    {
      hide Rewriting, Tally, Gathered, Note, Defaulted, Rearm, Live, LiveGrants, RearmedGrants, QuarantineGrants, AsRevoked;
      ghost var before, target := grants, QuarantineGrants(grants, now);
      GrantHits(grants, now);
      ghost var live, rearmable := LiveGrants(grants), RearmedGrants(grants, now);
      ghost var owners := GrantOwners(grants, now);
      GrantOwnersAreNoted(grants, now);
      hide GrantOwners, GrantedIds, ValuesOf;
      RewritingStarts(before, target);
      TallyStarts(live, before.Keys);
      TallyStarts(rearmable, before.Keys);
      GatheringStarts(owners, before.Keys, verified, affected);
      revoked, rearmed, affected' := 0, 0, affected;
      var todo := grants.Keys;
      while todo != {}
        invariant Rewriting(before, target, todo, grants) && Gathered(owners, todo, verified, affected, affected')
        invariant Tally(live, todo, revoked) && Tally(rearmable, todo, rearmed)
        decreases |todo|
      {
        var i :| i in todo;
        Rewritten(before, target, todo, grants, i);
        Tallied(live, todo, revoked, i);
        Tallied(rearmable, todo, rearmed, i);
        GatheredOne(owners, todo, verified, affected, affected', i);
        GrantHit(before, i, now);
        NotedTwice(affected', verified, grants[i].applicationId);
        var row := grants[i];
        if row.consumedAt.None? {
          if row.revokedAt.None? {
            revoked := revoked + 1;
            affected' := Note(affected', verified, row.applicationId, PRECOMMIT_REASON);
          }
          var marked := AsRevoked(row, now);
          var after := Rearm(marked, now);
          if after != marked {
            rearmed := rearmed + 1;
            affected' := Note(affected', verified, row.applicationId, PRECOMMIT_REASON);
          }
          grants := grants[i := after];
        }
        todo := todo - {i};
      }
      RewritingEnds(before, target, grants);
      TallyEnds(live, revoked);
      TallyEnds(rearmable, rearmed);
      GatheringEnds(owners, verified, affected, affected');
    }

    method CancelCommands(verified: set<Id>, affected: map<Id, Reason>, now: Time) returns (count: nat, affected': map<Id, Reason>)
      modifies this`commands
      ensures commands == QuarantineCommands(old(commands), now)
      ensures count == |ActiveCommands(old(commands))|
      ensures affected' == Defaulted(affected, CommandedIds(old(commands)) - verified, PRECOMMIT_REASON)
    {
      ghost var before, target, hits := commands, QuarantineCommands(commands, now), ActiveCommands(commands);
      ghost var owners := CommandOwners(commands);
      CommandOwnersAreNoted(commands);
      hide CommandOwners, ValuesOf, Rewriting, Tally, Gathered, Note, Defaulted, CommandedIds;
      RewritingStarts(before, target);
      TallyStarts(hits, before.Keys);
      GatheringStarts(owners, before.Keys, verified, affected);
      count, affected' := 0, affected;
      var todo := commands.Keys;
      while todo != {}
        invariant Rewriting(before, target, todo, commands) && Tally(hits, todo, count) && Gathered(owners, todo, verified, affected, affected')
        decreases |todo|
      {
        var k :| k in todo;
        Rewritten(before, target, todo, commands, k);
        Tallied(hits, todo, count, k);
        GatheredOne(owners, todo, verified, affected, affected', k);
        var row := commands[k];
        if row.state == CommandPending || row.state == CommandClaimed {
          commands := commands[k := CancelCommand(row, RESTORE_REASON, now)];
          count := count + 1;
          affected' := Note(affected', verified, row.attempt.app, PRECOMMIT_REASON);
        }
        todo := todo - {k};
      }
      RewritingEnds(before, target, commands);
      TallyEnds(hits, count);
      GatheringEnds(owners, verified, affected, affected');
    }

    // The only pass that overrides: an attempt that may have crossed the boundary sets the indeterminate reason
    // whatever was noted before, and nothing noted later replaces it.
    method CloseAttempts(verified: set<Id>, affected: map<Id, Reason>, now: Time)
      returns (cancelled: nat, unknown: nat, affected': map<Id, Reason>)
      modifies this`attempts
      ensures attempts == QuarantineAttempts(old(Tables()), now)
      ensures cancelled == |OpenAttempts(old(Tables()), false)| && unknown == |OpenAttempts(old(Tables()), true)|
      ensures affected' == Decided(affected, OpenIds(old(Tables())) - verified, IndeterminateIds(old(Tables())) - verified)
    {
      hide AttemptIsOpen, QuarantineAttempts, OpenAttempts, OpenIds, IndeterminateIds, Decided, Rewriting, Tally, Settled, Note, ClosedAttempt,
        CrossedBoundary;
      ghost var before := Tables();
      OpenAttemptsAreAttempts(before, now);
      ghost var target := QuarantineAttempts(before, now);
      ghost var closed, crossed := OpenAttempts(before, false), OpenAttempts(before, true);
      RewritingStarts(before.attempts, target);
      TallyStarts(closed, before.attempts.Keys);
      TallyStarts(crossed, before.attempts.Keys);
      SettlingStarts(closed, crossed, before.attempts.Keys, verified, affected);
      cancelled, unknown, affected' := 0, 0, affected;
      var todo := attempts.Keys;
      while todo != {}
        invariant Rewriting(before.attempts, target, todo, attempts) && Settled(closed, crossed, todo, verified, affected, affected')
        invariant Tally(closed, todo, cancelled) && Tally(crossed, todo, unknown)
        decreases |todo|
      {
        var id :| id in todo;
        Rewritten(before.attempts, target, todo, attempts, id);
        Tallied(closed, todo, cancelled, id);
        Tallied(crossed, todo, unknown, id);
        SettledOne(closed, crossed, todo, verified, affected, affected', id);
        var row := attempts[id];
        var permitConsumed := id in permits && permits[id].consumedAt.Some?;
        OpenAttemptSettles(before, id, now);
        if AttemptIsOpen(id, row, evidence) {
          if IsPostCommit(row.stage) || row.finalActionAt.Some? || permitConsumed {
            attempts := attempts[id := ClosedAttempt(row, StatusUnknown, Unknown, POSTCOMMIT_REASON, now)];
            unknown := unknown + 1;
            if id.app !in verified { affected' := affected'[id.app := POSTCOMMIT_REASON]; }
          } else {
            attempts := attempts[id := ClosedAttempt(row, StatusFailed, FailedBeforeCommit, PRECOMMIT_REASON, now)];
            cancelled := cancelled + 1;
            affected' := Note(affected', verified, id.app, PRECOMMIT_REASON);
          }
        }
        todo := todo - {id};
      }
      RewritingEnds(before.attempts, target, attempts);
      TallyEnds(closed, cancelled);
      TallyEnds(crossed, unknown);
      SettlingEnds(before, verified, affected, affected');
    }

    // The applications found affected, with their jobs, go to manual review.
    method MoveApplications(affected: map<Id, Reason>) returns (count: nat)
      requires OneApplicationPerJob(applications)
      modifies this`applications, this`jobs
      ensures applications == ReviewedApplications(old(applications), affected)
      ensures jobs == ReviewedJobs(old(applications), old(jobs), affected)
      ensures count == |ToMove(old(applications), old(jobs), affected)|
    {
      hide MoveToReview, NeedsMove, ReviewedApplications, ReviewedJobs, Reviewing, Tally;
      ghost var applications0, jobs0, moving := applications, jobs, ToMove(applications, jobs, affected);
      count := 0;
      var todo := set i | i in affected && i in applications;
      ReviewStarts(applications0, jobs0, affected);
      TallyStarts(moving, todo);
      ghost var all := todo;
      while todo != {}
        invariant todo <= all
        invariant Reviewing(applications0, jobs0, applications, jobs, affected, todo) && Tally(moving, todo, count)
        decreases |todo|
      {
        var i :| i in todo;
        StillNeedsMove(applications0, jobs0, applications, jobs, affected, todo, i);
        Tallied(moving, todo, count, i);
        var row := applications[i];
        var reason := affected[i];
        var changed := NeedsMove(row, jobs, reason);
        ReviewedOne(applications0, jobs0, applications, jobs, affected, todo, i);
        applications := applications[i := MoveToReview(row, reason)];
        if row.jobId in jobs {
          jobs := jobs[row.jobId := jobs[row.jobId].(status := JobNeedsReview)];
        }
        if changed {
          count := count + 1;
        }
        todo := todo - {i};
      }
      TallyEnds(moving, count);
      ReviewedAll(applications0, jobs0, applications, jobs, affected);
    }

    // The six tables that carry authority, in the order they are visited.
    method WithdrawAuthority(verified: set<Id>, now: Time)
      returns (revokedPolicies: nat, inspected: nat, planned: nat, permitted: nat, revoked: nat, rearmed: nat, commanded: nat,
               affected: map<Id, Reason>)
      modifies this`policies, this`inspections, this`plans, this`permits, this`grants, this`commands
      ensures policies == QuarantinePolicies(old(policies), now) && inspections == QuarantineInspections(old(inspections), now)
      ensures plans == QuarantinePlans(old(plans), now) && permits == QuarantinePermits(old(permits), now)
      ensures grants == QuarantineGrants(old(grants), now) && commands == QuarantineCommands(old(commands), now)
      ensures revokedPolicies == |ActivePolicies(old(policies))| && inspected == |OpenInspections(old(inspections))|
      ensures planned == |LivePlans(old(plans))| && permitted == |LivePermits(old(permits), now)|
      ensures revoked == |LiveGrants(old(grants))| && rearmed == |RearmedGrants(old(grants), now)|
      ensures commanded == |ActiveCommands(old(commands))|
      ensures affected == Collected(old(Tables()), verified, now)
    {
      hide Defaulted, InspectedIds, PlannedIds, PermittedIds, GrantedIds, CommandedIds, QuarantinePolicies, QuarantineInspections, QuarantinePlans,
        QuarantinePermits, QuarantineGrants, QuarantineCommands, ActivePolicies, OpenInspections, LivePlans, LivePermits, LiveGrants, RearmedGrants,
        ActiveCommands;
      revokedPolicies := RevokePolicies(now);
      inspected, affected := CloseInspections(verified, map[], now);
      planned, affected := InvalidateLivePlans(verified, affected, now);
      permitted, affected := ExpirePermits(verified, affected, now);
      revoked, rearmed, affected := RevokeGrants(verified, affected, now);
      commanded, affected := CancelCommands(verified, affected, now);
    }

    // The whole procedure.
    method QuarantineRestoredRuntime(now: Time) returns (summary: Summary)
      requires OneApplicationPerJob(applications)
      modifies this
      ensures Tables() == Quarantine.Quarantine(old(Tables()), now)
      ensures summary == Summarize(old(Tables()), now)
    {
      hide VerifiedApplicationIds, Decided, Collected, OpenIds, IndeterminateIds, QuarantineAttempts, QuarantinePolicies, QuarantineInspections,
        QuarantinePlans, QuarantinePermits, QuarantineGrants, QuarantineCommands, ActivePolicies, OpenInspections, LivePlans, LivePermits, LiveGrants,
        RearmedGrants, ActiveCommands, OpenAttempts, ReviewedApplications, ReviewedJobs, ToMove, MovedApplications, MovedJobs, MovedIds,
        AffectedIds, AffectedReason, OneApplicationPerJob;
      ghost var before := Tables();
      var verified := VerifiedApplicationIds(Tables());
      var revokedPolicies, inspected, planned, permitted, revoked, rearmed, commanded, affected := WithdrawAuthority(verified, now);
      AttemptsSeeOriginal(before, Tables(), now);
      var cancelled, unknown, decided := CloseAttempts(verified, affected, now);
      AffectedInAnyOrder(before, now);
      MovedAsReviewed(before, decided, now);
      var moved := MoveApplications(decided);
      summary := Summary(revokedPolicies, inspected, planned, permitted, revoked, rearmed, commanded, cancelled, unknown, moved);
    }
  }

  // The affected applications as the successive passes over the authority tables collect them.
  function Collected(db: Db, verified: set<Id>, now: Time): map<Id, Reason> {
    var byInspection := Defaulted(map[], InspectedIds(db.inspections) - verified, PRECOMMIT_REASON);
    var byPlan := Defaulted(byInspection, PlannedIds(db.plans) - verified, PRECOMMIT_REASON);
    var byPermit := Defaulted(byPlan, PermittedIds(db.permits, now) - verified, PRECOMMIT_REASON);
    var byGrant := Defaulted(byPermit, GrantedIds(db.grants, now) - verified, PRECOMMIT_REASON);
    Defaulted(byGrant, CommandedIds(db.commands) - verified, PRECOMMIT_REASON)
  }

  /** Whatever the passes saw first, the collected reasons are those of the specification. */
  lemma AffectedInAnyOrder(db: Db, now: Time)
    ensures var verified := VerifiedApplicationIds(db);
      Decided(Collected(db, verified, now), OpenIds(db) - verified, IndeterminateIds(db) - verified)
      == map i | i in AffectedIds(db, now) :: AffectedReason(db, i)
  {
    hide VerifiedApplicationIds, InspectedIds, PlannedIds, PermittedIds, GrantedIds, CommandedIds, OpenIds;
    CrossedAreOpen(db);
    hide IndeterminateIds;
  }

  lemma CrossedAreOpen(db: Db)
    ensures IndeterminateIds(db) <= OpenIds(db)
  {
    hide AttemptIsOpen, CrossedBoundary;
  }

  // Expiring a live permit hides nothing from the attempts pass: a consumed permit is never live.
  lemma AttemptsSeeOriginal(db: Db, db': Db, now: Time)
    requires db'.attempts == db.attempts && db'.evidence == db.evidence && db'.permits == QuarantinePermits(db.permits, now)
    ensures QuarantineAttempts(db', now) == QuarantineAttempts(db, now)
    ensures OpenAttempts(db', false) == OpenAttempts(db, false) && OpenAttempts(db', true) == OpenAttempts(db, true)
    ensures OpenIds(db') == OpenIds(db) && IndeterminateIds(db') == IndeterminateIds(db)
  {
    hide AttemptIsOpen, QuarantineAttempt;
    assert forall id :: PermitConsumed(db', id) == PermitConsumed(db, id);
    assert forall id :: id in db.attempts ==> CrossedBoundary(db', id) == CrossedBoundary(db, id);
    hide PermitConsumed, CrossedBoundary;
  }

  lemma MovedAsReviewed(db: Db, affected: map<Id, Reason>, now: Time)
    requires affected == map i | i in AffectedIds(db, now) :: AffectedReason(db, i)
    ensures ReviewedApplications(db.applications, affected) == MovedApplications(db, now)
    ensures ReviewedJobs(db.applications, db.jobs, affected) == MovedJobs(db, now)
    ensures ToMove(db.applications, db.jobs, affected) == MovedIds(db, now)
  {
    hide AffectedIds, AffectedReason, MoveToReview, NeedsMove;
    assert (set i | i in db.applications && i in affected :: db.applications[i].jobId) == MovedJobIds(db, now);
  }

  function ClosedAttempt(a: Attempt, status: SubmissionStatus, outcome: Outcome, reason: Reason, now: Time): Attempt {
    a.(status := status, outcome := Some(outcome), reason := Some(reason), stage := Finished,
       finishedAt := if a.finishedAt.Some? then a.finishedAt else Some(now), submittedAt := None)
  }

  lemma OpenAttemptSettles(db: Db, id: AttemptId, now: Time)
    requires id in db.attempts
    ensures var a := db.attempts[id];
      var open := AttemptIsOpen(id, a, db.evidence);
      var crossed := IsPostCommit(a.stage) || a.finalActionAt.Some? || (id in db.permits && db.permits[id].consumedAt.Some?);
      && (id in OpenAttempts(db, true) <==> open && crossed) && (id in OpenAttempts(db, false) <==> open && !crossed)
      && id in QuarantineAttempts(db, now)
      && QuarantineAttempts(db, now)[id] ==
           if !open then a
           else if crossed then ClosedAttempt(a, StatusUnknown, Unknown, POSTCOMMIT_REASON, now)
           else ClosedAttempt(a, StatusFailed, FailedBeforeCommit, PRECOMMIT_REASON, now)
  {
    hide AttemptIsOpen;
  }

  lemma OpenAttemptsAreAttempts(db: Db, now: Time)
    ensures OpenAttempts(db, true) <= db.attempts.Keys && OpenAttempts(db, false) <= db.attempts.Keys
    ensures QuarantineAttempts(db, now).Keys == db.attempts.Keys
  {
    hide AttemptIsOpen, CrossedBoundary, QuarantineAttempt;
  }

  // The table keeps job ids unique.
  ghost predicate OneApplicationPerJob(applications: map<Id, Application>) {
    forall i, k :: i in applications && k in applications && applications[i].jobId == applications[k].jobId ==> i == k
  }

  function ReviewedApplications(applications: map<Id, Application>, affected: map<Id, Reason>): map<Id, Application> {
    map i | i in applications :: if i in affected then MoveToReview(applications[i], affected[i]) else applications[i]
  }

  function ReviewedJobs(applications: map<Id, Application>, jobs: map<Id, Job>, affected: map<Id, Reason>): map<Id, Job> {
    var moved := set i | i in applications && i in affected :: applications[i].jobId;
    map j | j in jobs :: if j in moved then jobs[j].(status := JobNeedsReview) else jobs[j]
  }

  function ToMove(applications: map<Id, Application>, jobs: map<Id, Job>, affected: map<Id, Reason>): set<Id> {
    set i | i in applications && i in affected && NeedsMove(applications[i], jobs, affected[i])
  }

  // The applications still to do, and their jobs, are as they were; the others have been moved.
  ghost predicate Reviewing(
    applications0: map<Id, Application>, jobs0: map<Id, Job>, applications: map<Id, Application>, jobs: map<Id, Job>,
    affected: map<Id, Reason>, todo: set<Id>)
  {
    && applications.Keys == applications0.Keys && jobs.Keys == jobs0.Keys
    && (forall i :: i in applications0 ==>
          applications[i] == if i in affected && i !in todo then MoveToReview(applications0[i], affected[i]) else applications0[i])
    && (forall j :: j in jobs0 ==>
          jobs[j] == if JobMoved(applications0, affected, todo, j) then jobs0[j].(status := JobNeedsReview) else jobs0[j])
  }

  ghost predicate JobMoved(applications: map<Id, Application>, affected: map<Id, Reason>, todo: set<Id>, j: Id) {
    exists i :: i in applications && i in affected && i !in todo && applications[i].jobId == j
  }

  lemma ReviewStarts(applications: map<Id, Application>, jobs: map<Id, Job>, affected: map<Id, Reason>)
    ensures Reviewing(applications, jobs, applications, jobs, affected, set i | i in affected && i in applications)
  {
  }

  lemma StillNeedsMove(
    applications0: map<Id, Application>, jobs0: map<Id, Job>, applications: map<Id, Application>, jobs: map<Id, Job>,
    affected: map<Id, Reason>, todo: set<Id>, i: Id)
    requires OneApplicationPerJob(applications0) && Reviewing(applications0, jobs0, applications, jobs, affected, todo)
    requires i in todo && i in affected && i in applications0
    ensures i in applications && NeedsMove(applications[i], jobs, affected[i]) == NeedsMove(applications0[i], jobs0, affected[i])
  {
    assert !JobMoved(applications0, affected, todo, applications0[i].jobId);
  }

  lemma ReviewedOne(
    applications0: map<Id, Application>, jobs0: map<Id, Job>, applications: map<Id, Application>, jobs: map<Id, Job>,
    affected: map<Id, Reason>, todo: set<Id>, i: Id)
    requires Reviewing(applications0, jobs0, applications, jobs, affected, todo)
    requires i in todo && i in affected && i in applications0
    ensures i in applications && var a := applications[i];
      Reviewing(applications0, jobs0, applications[i := MoveToReview(a, affected[i])],
                if a.jobId in jobs then jobs[a.jobId := jobs[a.jobId].(status := JobNeedsReview)] else jobs, affected, todo - {i})
  {
    hide MoveToReview;
    forall j | j in jobs0
      ensures JobMoved(applications0, affected, todo - {i}, j) <==> JobMoved(applications0, affected, todo, j) || j == applications0[i].jobId
    {
      if JobMoved(applications0, affected, todo, j) {
        var k :| k in applications0 && k in affected && k !in todo && applications0[k].jobId == j;
        assert k !in todo - {i};
      }
      if j == applications0[i].jobId { assert i !in todo - {i}; }
    }
  }

  lemma ReviewedAll(
    applications0: map<Id, Application>, jobs0: map<Id, Job>, applications: map<Id, Application>, jobs: map<Id, Job>, affected: map<Id, Reason>)
    requires Reviewing(applications0, jobs0, applications, jobs, affected, {})
    ensures applications == ReviewedApplications(applications0, affected) && jobs == ReviewedJobs(applications0, jobs0, affected)
  {
    hide MoveToReview;
  }

  function AppsOf(ids: set<AttemptId>): set<Id> { set id | id in ids :: id.app }

  // The open attempts visited so far have decided the reasons of their applications.
  ghost predicate Settled(
    closed: set<AttemptId>, crossed: set<AttemptId>, todo: set<AttemptId>, verified: set<Id>,
    affected: map<Id, Reason>, affected': map<Id, Reason>)
  {
    affected' == Decided(affected, AppsOf(closed + crossed - todo) - verified, AppsOf(crossed - todo) - verified)
  }

  lemma SettlingStarts(closed: set<AttemptId>, crossed: set<AttemptId>, all: set<AttemptId>, verified: set<Id>, affected: map<Id, Reason>)
    requires closed <= all && crossed <= all
    ensures Settled(closed, crossed, all, verified, affected, affected)
  {
  }

  lemma SettledOne(
    closed: set<AttemptId>, crossed: set<AttemptId>, todo: set<AttemptId>, verified: set<Id>,
    affected: map<Id, Reason>, affected': map<Id, Reason>, id: AttemptId)
    requires id in todo && Settled(closed, crossed, todo, verified, affected, affected')
    ensures Settled(closed, crossed, todo - {id}, verified, affected,
                    if id in crossed then (if id.app in verified then affected' else affected'[id.app := POSTCOMMIT_REASON])
                    else if id in closed then Note(affected', verified, id.app, PRECOMMIT_REASON)
                    else affected')
  {
    VisitedApps(closed + crossed, todo, id);
    VisitedApps(crossed, todo, id);
    var open, open' := AppsOf(closed + crossed - todo), AppsOf(closed + crossed - (todo - {id}));
    var over, over' := AppsOf(crossed - todo), AppsOf(crossed - (todo - {id}));
    assert over <= open;
    DecidedOne(affected, open, over, open', over', verified, id.app, id in closed, id in crossed);
  }

  // How one more open attempt changes the decided reasons.
  lemma DecidedOne(
    affected: map<Id, Reason>, open: set<Id>, over: set<Id>, open': set<Id>, over': set<Id>, verified: set<Id>, app: Id, closes: bool, crosses: bool)
    requires over <= open
    requires open' == (open + if closes || crosses then {app} else {}) && over' == (over + if crosses then {app} else {})
    ensures var affected' := Decided(affected, open - verified, over - verified);
      Decided(affected, open' - verified, over' - verified) ==
        if crosses then (if app in verified then affected' else affected'[app := POSTCOMMIT_REASON])
        else if closes then Note(affected', verified, app, PRECOMMIT_REASON)
        else affected'
  {
  }

  lemma VisitedApps(hits: set<AttemptId>, todo: set<AttemptId>, id: AttemptId)
    requires id in todo
    ensures AppsOf(hits - (todo - {id})) == AppsOf(hits - todo) + if id in hits then {id.app} else {}
  {
    assert hits - (todo - {id}) == hits - todo + if id in hits then {id} else {};
  }

  lemma SettlingEnds(db: Db, verified: set<Id>, affected: map<Id, Reason>, affected': map<Id, Reason>)
    requires Settled(OpenAttempts(db, false), OpenAttempts(db, true), {}, verified, affected, affected')
    ensures affected' == Decided(affected, OpenIds(db) - verified, IndeterminateIds(db) - verified)
  {
    OpenAttemptApps(db);
    hide OpenAttempts, OpenIds, IndeterminateIds, AppsOf;
    var closed, crossed := OpenAttempts(db, false), OpenAttempts(db, true);
    assert closed + crossed - {} == closed + crossed && crossed - {} == crossed;
  }

  lemma OpenAttemptApps(db: Db)
    ensures AppsOf(OpenAttempts(db, false) + OpenAttempts(db, true)) == OpenIds(db)
    ensures AppsOf(OpenAttempts(db, true)) == IndeterminateIds(db)
  {
    hide AttemptIsOpen, CrossedBoundary;
  }

  ghost function InspectionOwners(inspections: map<Id, Inspection>): map<Id, Id> { map i | i in OpenInspections(inspections) :: inspections[i].applicationId }

  lemma InspectionOwnersAreNoted(inspections: map<Id, Inspection>)
    ensures InspectionOwners(inspections).Keys == OpenInspections(inspections) && ValuesOf(InspectionOwners(inspections)) == InspectedIds(inspections)
    ensures forall i :: i in InspectionOwners(inspections) ==> InspectionOwners(inspections)[i] == inspections[i].applicationId
  {
    var owners, ids := InspectionOwners(inspections), InspectedIds(inspections);
    forall i | i in owners ensures owners[i] in ids { }
    forall app | app in ids ensures app in ValuesOf(owners) {
      var i :| i in inspections && inspections[i].state != InspectionFinished && inspections[i].applicationId == app;
      assert i in owners && owners[i] == app;
    }
  }

  ghost function PlanOwners(plans: map<string, FormPlan>): map<string, Id> { map i | i in LivePlans(plans) :: plans[i].applicationId }

  lemma PlanOwnersAreNoted(plans: map<string, FormPlan>)
    ensures PlanOwners(plans).Keys == LivePlans(plans) && ValuesOf(PlanOwners(plans)) == PlannedIds(plans)
    ensures forall i :: i in PlanOwners(plans) ==> PlanOwners(plans)[i] == plans[i].applicationId
  {
    var owners, ids := PlanOwners(plans), PlannedIds(plans);
    forall i | i in owners ensures owners[i] in ids { }
    forall app | app in ids ensures app in ValuesOf(owners) {
      var i :| i in plans && plans[i].invalidatedAt.None? && plans[i].applicationId == app;
      assert i in owners && owners[i] == app;
    }
  }

  ghost function PermitOwners(permits: map<AttemptId, Permit>, now: Time): map<AttemptId, Id> { map id | id in LivePermits(permits, now) :: id.app }

  lemma PermitOwnersAreNoted(permits: map<AttemptId, Permit>, now: Time)
    ensures PermitOwners(permits, now).Keys == LivePermits(permits, now) && ValuesOf(PermitOwners(permits, now)) == PermittedIds(permits, now)
    ensures forall id :: id in PermitOwners(permits, now) ==> PermitOwners(permits, now)[id] == id.app
  {
    var owners, ids := PermitOwners(permits, now), PermittedIds(permits, now);
    forall id | id in owners ensures owners[id] in ids { }
    forall app | app in ids ensures app in ValuesOf(owners) {
      var id :| id in permits && PermitIsLive(permits[id], now) && id.app == app;
      assert id in owners && owners[id] == app;
    }
  }

  ghost function CommandOwners(commands: map<string, Command>): map<string, Id> { map k | k in ActiveCommands(commands) :: commands[k].attempt.app }

  lemma CommandOwnersAreNoted(commands: map<string, Command>)
    ensures CommandOwners(commands).Keys == ActiveCommands(commands) && ValuesOf(CommandOwners(commands)) == CommandedIds(commands)
    ensures forall k :: k in CommandOwners(commands) ==> CommandOwners(commands)[k] == commands[k].attempt.app
  {
    var owners, ids := CommandOwners(commands), CommandedIds(commands);
    forall k | k in owners ensures owners[k] in ids { }
    forall app | app in ids ensures app in ValuesOf(owners) {
      var k :| k in commands && CommandIsActive(commands[k]) && commands[k].attempt.app == app;
      assert k in owners && owners[k] == app;
    }
  }

  ghost function GrantOwners(grants: map<Id, Grant>, now: Time): map<Id, Id> {
    map i | i in LiveGrants(grants) + RearmedGrants(grants, now) :: grants[i].applicationId
  }

  lemma GrantOwnersAreNoted(grants: map<Id, Grant>, now: Time)
    ensures GrantOwners(grants, now).Keys == LiveGrants(grants) + RearmedGrants(grants, now) && ValuesOf(GrantOwners(grants, now)) == GrantedIds(grants, now)
    ensures forall i :: i in GrantOwners(grants, now) ==> GrantOwners(grants, now)[i] == grants[i].applicationId
  {
    var owners, ids := GrantOwners(grants, now), GrantedIds(grants, now);
    hide Rearm;
    forall i | i in grants
      ensures QuarantineGrant(grants[i], now) != grants[i] <==> i in LiveGrants(grants) + RearmedGrants(grants, now)
    {
      GrantChange(grants[i], now);
    }
    forall i | i in owners ensures owners[i] in ids { }
    forall app | app in ids ensures app in ValuesOf(owners) {
      var i :| i in grants && QuarantineGrant(grants[i], now) != grants[i] && grants[i].applicationId == app;
      assert i in owners && owners[i] == app;
    }
  }

  lemma NotedTwice(affected: map<Id, Reason>, verified: set<Id>, app: Id)
    ensures var once := Note(affected, verified, app, PRECOMMIT_REASON); Note(once, verified, app, PRECOMMIT_REASON) == once
  {
  }

  lemma GrantHits(grants: map<Id, Grant>, now: Time)
    ensures LiveGrants(grants) <= grants.Keys && RearmedGrants(grants, now) <= grants.Keys && QuarantineGrants(grants, now).Keys == grants.Keys
  {
    hide Rearm, AsRevoked, QuarantineGrant;
  }

  lemma GrantHit(grants: map<Id, Grant>, i: Id, now: Time)
    requires i in grants
    ensures i in QuarantineGrants(grants, now)
    ensures var g := grants[i];
      && (i in LiveGrants(grants) <==> g.consumedAt.None? && g.revokedAt.None?)
      && (i in RearmedGrants(grants, now) <==> g.consumedAt.None? && Rearm(AsRevoked(g, now), now) != AsRevoked(g, now))
      && QuarantineGrants(grants, now)[i] == if g.consumedAt.None? then Rearm(AsRevoked(g, now), now) else g
  {
    hide Rearm;
  }

  lemma GrantChange(g: Grant, now: Time)
    ensures QuarantineGrant(g, now) != g <==> Live(g) || (g.consumedAt.None? && Rearm(AsRevoked(g, now), now) != AsRevoked(g, now))
  {
  }
}
