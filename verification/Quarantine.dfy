/** What a restored database looks like once its runtime authority has been quarantined. */
module Quarantine {
  import opened Wrappers
  import opened Records
  import opened EmployerTruth
  import opened ReviewGrants
  import opened Database
  import opened Mutations

  const RESTORE_REASON := "RESTORE_QUARANTINE"
  const PRECOMMIT_REASON := "RUNTIME_NOT_READY"
  const POSTCOMMIT_REASON := "STALE_INDETERMINATE"

  // Employer proof counts even when a legacy stage column is inconsistent.
  predicate HasVerifiedEvidence(id: AttemptId, a: Attempt, evidence: set<EvidenceRow>) {
    IsEmployerVerified(id, a, evidence)
    || (a.outcome == Some(ConfirmedSubmitted) && IsEmployerVerified(id, a.(stage := Finished), evidence))
  }

  // ---------- rows ----------

  function QuarantinePolicy(p: Policy, now: Time): Policy {
    if !p.active || p.revokedAt.Some? then p
    else Policy(false, Some(now), Some("restore_quarantine"), Some(RESTORE_REASON))
  }

  function QuarantineInspection(r: Inspection, now: Time): Inspection {
    if r.state == InspectionFinished then r
    else Inspection(r.applicationId, InspectionFinished, Some(RESTORE_REASON),
                    if r.claimedAt.Some? then r.claimedAt else Some(now), None, None, Some(now))
  }

  function QuarantinePlan(p: FormPlan, now: Time): FormPlan { InvalidatePlan(p, RESTORE_REASON, now) }

  predicate PermitIsLive(p: Permit, now: Time) { p.consumedAt.None? && p.expiresAt > now }

  function QuarantinePermit(p: Permit, now: Time): Permit {
    if PermitIsLive(p, now) then p.(expiresAt := now) else p
  }

  predicate CommandIsActive(c: Command) { c.state in {CommandPending, CommandClaimed} }

  function QuarantineCommand(c: Command, now: Time): Command {
    if CommandIsActive(c) then CancelCommand(c, RESTORE_REASON, now) else c
  }

  // Finished attempts and employer-proven attempts are never rewritten.
  predicate AttemptIsOpen(id: AttemptId, a: Attempt, evidence: set<EvidenceRow>) {
    !HasVerifiedEvidence(id, a, evidence) && a.stage != Finished
  }

  function QuarantineAttempt(id: AttemptId, a: Attempt, permitConsumed: bool, evidence: set<EvidenceRow>, now: Time): Attempt {
    if !AttemptIsOpen(id, a, evidence) then a
    else
      var closed := a.(stage := Finished, finishedAt := if a.finishedAt.Some? then a.finishedAt else Some(now), submittedAt := None);
      if IsPostCommit(a.stage) || a.finalActionAt.Some? || permitConsumed
      then closed.(status := StatusUnknown, outcome := Some(Unknown), reason := Some(POSTCOMMIT_REASON))
      else closed.(status := StatusFailed, outcome := Some(FailedBeforeCommit), reason := Some(PRECOMMIT_REASON))
  }

  function MoveToReview(a: Application, reason: Reason): Application {
    Unprepare(a).(status := JobNeedsReview, needsReviewReason := Some(reason))
  }

  // ---------- which applications are affected, and why ----------

  function VerifiedApplicationIds(db: Db): set<Id> {
    set id | id in db.attempts && HasVerifiedEvidence(id, db.attempts[id], db.evidence) :: id.app
  }

  function InspectedIds(inspections: map<Id, Inspection>): set<Id> {
    set i | i in inspections && inspections[i].state != InspectionFinished :: inspections[i].applicationId
  }

  function PlannedIds(plans: map<string, FormPlan>): set<Id> {
    set i | i in plans && plans[i].invalidatedAt.None? :: plans[i].applicationId
  }

  function PermittedIds(permits: map<AttemptId, Permit>, now: Time): set<Id> {
    set id | id in permits && PermitIsLive(permits[id], now) :: id.app
  }

  function GrantedIds(grants: map<Id, Grant>, now: Time): set<Id> {
    set i | i in grants && QuarantineGrant(grants[i], now) != grants[i] :: grants[i].applicationId
  }

  function CommandedIds(commands: map<string, Command>): set<Id> {
    set k | k in commands && CommandIsActive(commands[k]) :: commands[k].attempt.app
  }

  function OpenIds(db: Db): set<Id> {
    set id | id in db.attempts && AttemptIsOpen(id, db.attempts[id], db.evidence) :: id.app
  }

  // Applications with an open attempt that may have crossed the irreversible boundary.
  function IndeterminateIds(db: Db): set<Id> {
    set id | id in db.attempts && AttemptIsOpen(id, db.attempts[id], db.evidence) && CrossedBoundary(db, id) :: id.app
  }

  function AffectedIds(db: Db, now: Time): set<Id> {
    InspectedIds(db.inspections) + PlannedIds(db.plans) + PermittedIds(db.permits, now) + GrantedIds(db.grants, now) + CommandedIds(db.commands) + OpenIds(db)
    - VerifiedApplicationIds(db)
  }

  function AffectedReason(db: Db, app: Id): Reason {
    if app in IndeterminateIds(db) then POSTCOMMIT_REASON else PRECOMMIT_REASON
  }

  // ---------- the whole table set ----------

  function QuarantinePolicies(policies: map<Id, Policy>, now: Time): map<Id, Policy> { map i | i in policies :: QuarantinePolicy(policies[i], now) }

  function QuarantineInspections(inspections: map<Id, Inspection>, now: Time): map<Id, Inspection> {
    map i | i in inspections :: QuarantineInspection(inspections[i], now)
  }

  function QuarantinePlans(plans: map<string, FormPlan>, now: Time): map<string, FormPlan> { map i | i in plans :: QuarantinePlan(plans[i], now) }

  function QuarantinePermits(permits: map<AttemptId, Permit>, now: Time): map<AttemptId, Permit> {
    map id | id in permits :: QuarantinePermit(permits[id], now)
  }

  function QuarantineCommands(commands: map<string, Command>, now: Time): map<string, Command> { map k | k in commands :: QuarantineCommand(commands[k], now) }

  function QuarantineAttempts(db: Db, now: Time): map<AttemptId, Attempt> {
    map id | id in db.attempts :: QuarantineAttempt(id, db.attempts[id], PermitConsumed(db, id), db.evidence, now)
  }

  function MovedApplications(db: Db, now: Time): map<Id, Application> {
    map i | i in db.applications ::
      if i in AffectedIds(db, now) then MoveToReview(db.applications[i], AffectedReason(db, i)) else db.applications[i]
  }

  function MovedJobIds(db: Db, now: Time): set<Id> {
    set i | i in db.applications && i in AffectedIds(db, now) :: db.applications[i].jobId
  }

  function MovedJobs(db: Db, now: Time): map<Id, Job> {
    map j | j in db.jobs :: if j in MovedJobIds(db, now) then db.jobs[j].(status := JobNeedsReview) else db.jobs[j]
  }

  function Quarantine(db: Db, now: Time): Db {
    db.(policies := QuarantinePolicies(db.policies, now),
        inspections := QuarantineInspections(db.inspections, now),
        plans := QuarantinePlans(db.plans, now),
        permits := QuarantinePermits(db.permits, now),
        grants := QuarantineGrants(db.grants, now),
        commands := QuarantineCommands(db.commands, now),
        attempts := QuarantineAttempts(db, now),
        applications := MovedApplications(db, now),
        jobs := MovedJobs(db, now))
  }

  // ---------- what it guarantees ----------

  /** No authority survives, and each unfinished attempt is closed on the safe side of what is known about it. */
  lemma QuarantineKillsAuthority(db: Db, now: Time)
    ensures var q := Quarantine(db, now);
      && (forall i :: i in q.policies ==> !(q.policies[i].active && q.policies[i].revokedAt.None?))
      && (forall i :: i in q.inspections ==> q.inspections[i].state == InspectionFinished)
      && (forall i :: i in q.plans ==> q.plans[i].invalidatedAt.Some?)
      && (forall id :: id in q.permits ==> !PermitIsLive(q.permits[id], now))
      && (forall i :: i in q.grants ==> !Live(q.grants[i]))
      && (forall k :: k in q.commands ==> !CommandIsActive(q.commands[k]))
  {
    var q := Quarantine(db, now);
    assert q.policies == QuarantinePolicies(db.policies, now) && q.inspections == QuarantineInspections(db.inspections, now);
    assert q.plans == QuarantinePlans(db.plans, now) && q.permits == QuarantinePermits(db.permits, now);
    assert q.grants == QuarantineGrants(db.grants, now) && q.commands == QuarantineCommands(db.commands, now);
    hide Quarantine;
    PoliciesAndPlansDie(db.policies, db.inspections, db.plans, now);
    PermitsAndCommandsDie(db.permits, db.commands, db.grants, now);
    hide QuarantinePolicies, QuarantineInspections, QuarantinePlans, QuarantinePermits, QuarantineGrants, QuarantineCommands;
  }

  lemma PoliciesAndPlansDie(policies: map<Id, Policy>, inspections: map<Id, Inspection>, plans: map<string, FormPlan>, now: Time)
    ensures var p := QuarantinePolicies(policies, now); forall i :: i in p ==> !(p[i].active && p[i].revokedAt.None?)
    ensures var r := QuarantineInspections(inspections, now); forall i :: i in r ==> r[i].state == InspectionFinished
    ensures var p := QuarantinePlans(plans, now); forall i :: i in p ==> p[i].invalidatedAt.Some?
  {
  }

  lemma PermitsAndCommandsDie(permits: map<AttemptId, Permit>, commands: map<string, Command>, grants: map<Id, Grant>, now: Time)
    ensures var p := QuarantinePermits(permits, now); forall id :: id in p ==> !PermitIsLive(p[id], now)
    ensures var c := QuarantineCommands(commands, now); forall k :: k in c ==> !CommandIsActive(c[k])
    ensures var g := QuarantineGrants(grants, now); forall i :: i in g ==> !Live(g[i])
  {
  }

  lemma QuarantineClosesAttempts(db: Db, now: Time, id: AttemptId)
    requires id in db.attempts
    ensures var a, a' := db.attempts[id], Quarantine(db, now).attempts[id];
      && (HasVerifiedEvidence(id, a, db.evidence) || a.stage == Finished ==> a' == a)
      && (AttemptIsOpen(id, a, db.evidence) ==>
            a'.stage == Finished && a'.submittedAt.None?
            && (a'.outcome == Some(Unknown) <==> CrossedBoundary(db, id))
            && (a'.outcome == Some(FailedBeforeCommit) <==> !CrossedBoundary(db, id)))
  {
  }

  /** Every undelivered tombstone of an unconsumed grant is deliverable again or has nothing left to revoke. */
  lemma QuarantineRearmsTombstones(db: Db, now: Time, i: Id)
    requires i in db.grants && db.grants[i].consumedAt.None?
    ensures var g := Quarantine(db, now).grants[i];
      g.revokedAt.Some? && g.revocation in {RevocationPending, RevocationDelivered, RevocationExpired}
      && (g.revocation == RevocationDelivered <==> db.grants[i].revocation == RevocationDelivered)
      && (g.revocation == RevocationExpired ==> g.expiresAt <= now)
  {
  }

  lemma QuarantinedEvidence(db: Db, now: Time, id: AttemptId)
    requires id in db.attempts
    ensures var q := Quarantine(db, now);
      && HasVerifiedEvidence(id, q.attempts[id], q.evidence) == HasVerifiedEvidence(id, db.attempts[id], db.evidence)
      && !AttemptIsOpen(id, q.attempts[id], q.evidence)
  {
    hide AttemptFacts, EvidenceSupports;
    var a, a' := db.attempts[id], Quarantine(db, now).attempts[id];
    if AttemptIsOpen(id, a, db.evidence) {
      assert a'.outcome != Some(ConfirmedSubmitted);
      UnconfirmedIsUnverified(id, a', db.evidence);
    }
  }

  lemma UnconfirmedIsUnverified(id: AttemptId, a: Attempt, evidence: set<EvidenceRow>)
    requires a.outcome != Some(ConfirmedSubmitted)
    ensures !HasVerifiedEvidence(id, a, evidence)
  {
  }

  // ---------- counts ----------

  datatype Summary = Summary(
    policiesRevoked: nat, inspectionsQuarantined: nat, plansInvalidated: nat, permitsExpired: nat, grantsRevoked: nat,
    grantsRearmed: nat, commandsCancelled: nat, precommitCancelled: nat, postcommitUnknown: nat, applicationsMoved: nat)

  function ActivePolicies(policies: map<Id, Policy>): set<Id> { set i | i in policies && policies[i].active && policies[i].revokedAt.None? }

  function OpenInspections(inspections: map<Id, Inspection>): set<Id> { set i | i in inspections && inspections[i].state != InspectionFinished }

  function LivePlans(plans: map<string, FormPlan>): set<string> { set i | i in plans && plans[i].invalidatedAt.None? }

  function LivePermits(permits: map<AttemptId, Permit>, now: Time): set<AttemptId> { set id | id in permits && PermitIsLive(permits[id], now) }

  function LiveGrants(grants: map<Id, Grant>): set<Id> { set i | i in grants && Live(grants[i]) }

  function AsRevoked(g: Grant, now: Time): Grant { if g.revokedAt.None? then g.(revokedAt := Some(now)) else g }

  function RearmedGrants(grants: map<Id, Grant>, now: Time): set<Id> {
    set i | i in grants && grants[i].consumedAt.None? && Rearm(AsRevoked(grants[i], now), now) != AsRevoked(grants[i], now)
  }

  function ActiveCommands(commands: map<string, Command>): set<string> { set k | k in commands && CommandIsActive(commands[k]) }

  function OpenAttempts(db: Db, crossed: bool): set<AttemptId> {
    set id | id in db.attempts && AttemptIsOpen(id, db.attempts[id], db.evidence) && CrossedBoundary(db, id) == crossed
  }

  // The application row or its job is not already where the quarantine puts it.
  predicate NeedsMove(a: Application, jobs: map<Id, Job>, reason: Reason) {
    a.status != JobNeedsReview || a.needsReviewReason != Some(reason) || a.preparedRevision.Some? || a.approvedAt.Some?
    || a.approvalSource.Some? || (a.jobId in jobs && jobs[a.jobId].status != JobNeedsReview)
  }

  function MovedIds(db: Db, now: Time): set<Id> {
    set i | i in db.applications && i in AffectedIds(db, now) && NeedsMove(db.applications[i], db.jobs, AffectedReason(db, i))
  }

  function Summarize(db: Db, now: Time): Summary {
    Summary(|ActivePolicies(db.policies)|, |OpenInspections(db.inspections)|, |LivePlans(db.plans)|, |LivePermits(db.permits, now)|, |LiveGrants(db.grants)|,
            |RearmedGrants(db.grants, now)|, |ActiveCommands(db.commands)|, |OpenAttempts(db, false)|, |OpenAttempts(db, true)|, |MovedIds(db, now)|)
  }

  // ---------- running it again ----------

  lemma GrantSettles(g: Grant, now: Time)
    ensures var g' := QuarantineGrant(g, now);
      QuarantineGrant(g', now) == g' && !Live(g') && (g'.consumedAt.None? ==> Rearm(AsRevoked(g', now), now) == AsRevoked(g', now))
  {
  }

  lemma NothingLeftToAffect(db: Db, now: Time)
    ensures AffectedIds(Quarantine(db, now), now) == {}
  {
    hide AttemptIsOpen, QuarantineGrant, QuarantineAttempt, MovedApplications, MovedJobs;
    var q := Quarantine(db, now);
    forall id | id in q.attempts ensures !AttemptIsOpen(id, q.attempts[id], q.evidence) { QuarantinedEvidence(db, now, id); }
    forall i | i in q.grants ensures QuarantineGrant(q.grants[i], now) == q.grants[i] { GrantSettles(db.grants[i], now); }
    QuarantineKillsAuthority(db, now);
    hide Quarantine;
    assert InspectedIds(q.inspections) == {} && PlannedIds(q.plans) == {} && PermittedIds(q.permits, now) == {};
    assert GrantedIds(q.grants, now) == {} && CommandedIds(q.commands) == {} && OpenIds(q) == {};
  }

  lemma SecondRunChangesNoRow(db: Db, now: Time)
    ensures var q := Quarantine(db, now);
      && (forall i :: i in q.policies ==> QuarantinePolicy(q.policies[i], now) == q.policies[i])
      && (forall i :: i in q.inspections ==> QuarantineInspection(q.inspections[i], now) == q.inspections[i])
      && (forall i :: i in q.plans ==> QuarantinePlan(q.plans[i], now) == q.plans[i])
      && (forall id :: id in q.permits ==> QuarantinePermit(q.permits[id], now) == q.permits[id])
      && (forall k :: k in q.commands ==> QuarantineCommand(q.commands[k], now) == q.commands[k])
  {
    hide QuarantineGrant, QuarantineAttempts, MovedApplications, MovedJobs;
  }

  lemma SecondRunChangesNoAttempt(db: Db, now: Time)
    ensures var q := Quarantine(db, now); QuarantineAttempts(q, now) == q.attempts
    ensures var q := Quarantine(db, now);
      forall i :: i in q.grants ==> QuarantineGrant(q.grants[i], now) == q.grants[i]
  {
    hide HasVerifiedEvidence, QuarantineGrant, MovedApplications, MovedJobs;
    var q := Quarantine(db, now);
    forall id | id in q.attempts ensures QuarantineAttempts(q, now)[id] == q.attempts[id] { QuarantinedEvidence(db, now, id); }
    forall i | i in q.grants ensures QuarantineGrant(q.grants[i], now) == q.grants[i] { GrantSettles(db.grants[i], now); }
  }

  /** Running the quarantine again at the same time changes nothing and counts nothing. */
  lemma QuarantineIsIdempotent(db: Db, now: Time)
    ensures Quarantine(Quarantine(db, now), now) == Quarantine(db, now)
    ensures Summarize(Quarantine(db, now), now) == Summary(0, 0, 0, 0, 0, 0, 0, 0, 0, 0)
  {
    var q := Quarantine(db, now);
    SecondRunChangesNoRow(db, now);
    SecondRunChangesNoAttempt(db, now);
    NothingLeftToAffect(db, now);
    SecondRunMovesNothing(q, now);
    SecondRunCountsNothing(db, now);
    hide QuarantinePolicy, QuarantineInspection, QuarantinePlan, QuarantinePermit, QuarantineCommand, QuarantineGrant, QuarantineAttempts,
      MovedApplications, MovedJobs, Summarize;
    SameTables(q, now);
  }

  lemma SecondRunMovesNothing(q: Db, now: Time)
    requires AffectedIds(q, now) == {}
    ensures MovedApplications(q, now) == q.applications && MovedJobs(q, now) == q.jobs && MovedIds(q, now) == {}
  {
    hide AffectedIds;
    assert MovedJobIds(q, now) == {};
  }

  // A table set whose every row is settled is a fixed point.
  lemma SameTables(q: Db, now: Time)
    requires forall i :: i in q.policies ==> QuarantinePolicy(q.policies[i], now) == q.policies[i]
    requires forall i :: i in q.inspections ==> QuarantineInspection(q.inspections[i], now) == q.inspections[i]
    requires forall i :: i in q.plans ==> QuarantinePlan(q.plans[i], now) == q.plans[i]
    requires forall id :: id in q.permits ==> QuarantinePermit(q.permits[id], now) == q.permits[id]
    requires forall k :: k in q.commands ==> QuarantineCommand(q.commands[k], now) == q.commands[k]
    requires forall i :: i in q.grants ==> QuarantineGrant(q.grants[i], now) == q.grants[i]
    requires QuarantineAttempts(q, now) == q.attempts && MovedApplications(q, now) == q.applications && MovedJobs(q, now) == q.jobs
    ensures Quarantine(q, now) == q
  {
    hide QuarantinePolicy, QuarantineInspection, QuarantinePlan, QuarantinePermit, QuarantineCommand, QuarantineGrant, QuarantineAttempts,
      MovedApplications, MovedJobs;
    var q' := Quarantine(q, now);
    assert q'.policies == q.policies;
    assert q'.inspections == q.inspections;
    assert q'.plans == q.plans;
    assert q'.permits == q.permits;
    assert q'.grants == q.grants;
    assert q'.commands == q.commands;
  }

  lemma SecondRunFindsNothing(db: Db, now: Time)
    ensures var q := Quarantine(db, now);
      ActivePolicies(q.policies) == {} && OpenInspections(q.inspections) == {} && LivePlans(q.plans) == {} && LivePermits(q.permits, now) == {}
      && LiveGrants(q.grants) == {} && ActiveCommands(q.commands) == {}
  {
    var q := Quarantine(db, now);
    QuarantineKillsAuthority(db, now);
    hide Quarantine, PermitIsLive, CommandIsActive, Live;
  }

  lemma SecondRunOpensNothing(db: Db, now: Time)
    ensures var q := Quarantine(db, now);
      RearmedGrants(q.grants, now) == {} && OpenAttempts(q, false) == {} && OpenAttempts(q, true) == {}
  {
    hide AttemptIsOpen, QuarantineGrant, QuarantineAttempt, MovedApplications, MovedJobs, Rearm, AsRevoked, CrossedBoundary;
    var q := Quarantine(db, now);
    forall id | id in q.attempts ensures !AttemptIsOpen(id, q.attempts[id], q.evidence) { QuarantinedEvidence(db, now, id); }
    forall i | i in q.grants ensures q.grants[i].consumedAt.None? ==> Rearm(AsRevoked(q.grants[i], now), now) == AsRevoked(q.grants[i], now) {
      GrantSettles(db.grants[i], now);
    }
  }

  lemma SecondRunCountsNothing(db: Db, now: Time)
    ensures Summarize(Quarantine(db, now), now) == Summary(0, 0, 0, 0, 0, 0, 0, 0, 0, 0)
  {
    hide Quarantine, AffectedIds, MovedIds, ActivePolicies, OpenInspections, LivePlans, LivePermits, LiveGrants, RearmedGrants,
      ActiveCommands, OpenAttempts;
    SecondRunFindsNothing(db, now);
    SecondRunOpensNothing(db, now);
    NothingLeftToAffect(db, now);
    SecondRunMovesNothing(Quarantine(db, now), now);
  }
}
