/** Application writers: the app-first lock check, revision and preparation changes, skipping, plan replacement, and
    the worker's stage transitions. */
module Mutations {
  import opened Wrappers
  import opened Records
  import opened Lifecycle
  import opened FinalAction
  import Schema
  import EmployerTruth
  import opened ReviewGrants
  import opened Database
  import opened Admission

  datatype Intent = ContentIntent | PrepareIntent | TerminalIntent

  // ---------- the lock check ----------

  function JobOf(db: Db, app: Application): Option<Job> {
    if app.jobId in db.jobs then Some(db.jobs[app.jobId]) else None
  }

  predicate ClosesApplication(a: Attempt) { IsImmutable(a.outcome) || a.status in {StatusSuccess, StatusUnknown} }

  // The highest-numbered attempt that closes the application, zero when there is none.
  function LastClosing(db: Db, app: Id): nat {
    LastNumber(map id | id in db.attempts && ClosesApplication(db.attempts[id]) :: db.attempts[id], app)
  }

  predicate PermitConsumed(db: Db, id: AttemptId) { id in db.permits && db.permits[id].consumedAt.Some? }

  predicate CrossedBoundary(db: Db, id: AttemptId)
    requires id in db.attempts
  {
    IsPostCommit(db.attempts[id].stage) || db.attempts[id].finalActionAt.Some? || PermitConsumed(db, id)
  }

  function CommandKey(db: Db, id: AttemptId): Option<string>
    requires id in db.attempts
  {
    var key := db.attempts[id].binding.key;
    if key in db.commands && db.commands[key].attempt == id then Some(key) else None
  }

  function LatestAttempt(db: Db, app: Id): Option<AttemptId> {
    var id := AttemptId(app, LastNumber(db.attempts, app));
    if id in db.attempts then Some(id) else None
  }

  // Why a mutation of the locked application must be refused.
  function LockRefusal(db: Db, appId: Id, intent: Intent, expected: Option<int>): Option<Reason> {
    if appId !in db.applications then Some("APPLICATION_NOT_FOUND")
    else
      var app := db.applications[appId];
      var job := JobOf(db, app);
      var closing := AttemptId(appId, LastClosing(db, appId));
      var latest := LatestAttempt(db, appId);
      if expected.Some? && (if app.revision == 0 then 1 else app.revision) != expected.value then Some("APPLICATION_REVISION_CHANGED")
      else if closing in db.attempts && ClosesApplication(db.attempts[closing]) then
        Some(if db.attempts[closing].outcome == Some(Unknown) || db.attempts[closing].status == StatusUnknown
             then "SUBMISSION_OUTCOME_UNKNOWN" else "SUBMISSION_OUTCOME_IMMUTABLE")
      else if app.status == JobSubmitted || (job.Some? && job.value.status == JobSubmitted) then Some("APPLICATION_TERMINAL")
      else if intent != TerminalIntent && (app.status == JobSkipped || (job.Some? && job.value.status == JobSkipped))
      then Some("APPLICATION_TERMINAL")
      else if latest.Some? && db.attempts[latest.value].stage != Finished then
        if CrossedBoundary(db, latest.value) then Some("FINAL_ACTION_INDETERMINATE")
        else
          var key := CommandKey(db, latest.value);
          if key.Some? && db.commands[key.value].state in {CommandCompleted, CommandCancelled} then Some("SUBMISSION_STATE_INVALID")
          else if intent != TerminalIntent then Some("SUBMISSION_ALREADY_ACTIVE")
          else None
      else None
  }

  lemma LockFindsApplication(db: Db, appId: Id, intent: Intent)
    ensures LockRefusal(db, appId, intent, None).None? ==> appId in db.applications
  {
  }

  // ---------- revisions, preparation, plans ----------

  function InvalidatePlan(p: FormPlan, reason: Reason, now: Time): FormPlan {
    if p.invalidatedAt.Some? then p else p.(invalidatedAt := Some(now), invalidationReason := Some(reason))
  }

  function InvalidatePlans(plans: map<string, FormPlan>, app: Id, reason: Reason, now: Time): map<string, FormPlan> {
    map i | i in plans :: if plans[i].applicationId == app then InvalidatePlan(plans[i], reason, now) else plans[i]
  }

  function Unprepare(a: Application): Application {
    a.(preparedRevision := None, approvedAt := None, approvalSource := None)
  }

  function BumpRevision(db: Db, appId: Id, reason: Reason, now: Time): Db
    requires appId in db.applications
  {
    var app := db.applications[appId];
    db.(applications := db.applications[appId := Unprepare(app).(revision := Revision(app) + 1)],
        plans := InvalidatePlans(db.plans, appId, reason, now))
  }

  // Private content the operator or the router replaces.
  datatype Content = Content(selectedCvId: Option<string>, selectedCvHash: Option<string>, profileVersion: Option<int>)

  function EditContent(db: Db, appId: Id, content: Content, reason: Reason, now: Time): Result<Db, Reason> {
    var refusal := LockRefusal(db, appId, ContentIntent, None);
    if refusal.Some? then Err(refusal.value)
    else
      var bumped := BumpRevision(db, appId, reason, now);
      Ok(bumped.(applications := bumped.applications[appId := bumped.applications[appId].(
        selectedCvId := content.selectedCvId, selectedCvHash := content.selectedCvHash, profileVersion := content.profileVersion)]))
  }

  function SetJobStatus(jobs: map<Id, Job>, id: Id, status: JobStatus): map<Id, Job> {
    if id in jobs then jobs[id := jobs[id].(status := status)] else jobs
  }

  function Prepare(db: Db, appId: Id, source: string, allowed: set<JobStatus>, now: Time): Result<Db, Reason> {
    var refusal := LockRefusal(db, appId, PrepareIntent, None);
    if refusal.Some? then Err(refusal.value)
    else
      var app := db.applications[appId];
      if app.status !in allowed then Err("APPLICATION_NOT_REVIEWABLE")
      else if PreparationIsCurrent(app) then Ok(db)
      else
        Ok(db.(applications := db.applications[appId := app.(
                 status := JobDraft, approvedAt := Some(now), approvalSource := Some(source),
                 revision := Revision(app), preparedRevision := Some(Revision(app)))],
               jobs := SetJobStatus(db.jobs, app.jobId, JobDraft)))
  }

  // A signed policy that allows an application also prepares it.
  function PrepareByPolicy(db: Db, appId: Id, decisionId: Id, decision: PolicyDecision, now: Time): Db {
    if appId !in db.applications || decisionId in db.decisions || db.applications[appId].status != JobDraft then db
    else
      var app := db.applications[appId];
      db.(applications := db.applications[appId := app.(
            approvedAt := Some(now), approvalSource := Some("qualified_autopilot_policy"),
            revision := Revision(app), preparedRevision := Some(Revision(app)))],
          decisions := db.decisions[decisionId := decision])
  }

  function CancelCommand(c: Command, reason: Reason, now: Time): Command {
    c.(state := CommandCancelled, completedAt := Some(now), lease := None, lastError := Some(reason))
  }

  function CancelAttempt(a: Attempt, reason: Reason, now: Time): Attempt {
    a.(stage := Finished, outcome := Some(FailedBeforeCommit), status := StatusFailed, reason := Some(reason),
       finishedAt := Some(now), submittedAt := None)
  }

  // The safely pre-commit attempt and its command, cancelled together.
  function CancelActive(db: Db, id: AttemptId, reason: Reason, now: Time): Db
    requires id in db.attempts
  {
    var key := CommandKey(db, id);
    db.(attempts := db.attempts[id := CancelAttempt(db.attempts[id], reason, now)],
        commands := if key.Some? then db.commands[key.value := CancelCommand(db.commands[key.value], reason, now)] else db.commands)
  }

  function MarkJobSkipped(jobs: map<Id, Job>, id: Id, now: Time): map<Id, Job> {
    if id in jobs then jobs[id := Job(JobSkipped, Some(now))] else jobs
  }

  // Whatever attempt is still open when the application is ended.
  function CancelOpen(db: Db, appId: Id, reason: Reason, now: Time): (db': Db)
    ensures db'.applications == db.applications && db'.jobs == db.jobs
  {
    var latest := LatestAttempt(db, appId);
    if latest.Some? && db.attempts[latest.value].stage != Finished then CancelActive(db, latest.value, reason, now) else db
  }

  function Skip(db: Db, appId: Id, reason: Reason, now: Time): Result<Db, Reason> {
    var refusal := LockRefusal(db, appId, TerminalIntent, None);
    if refusal.Some? then Err(refusal.value)
    else
      var app := db.applications[appId];
      var job := JobOf(db, app);
      var cancelled := CancelOpen(db, appId, reason, now);
      if cancelled == db && app.status == JobSkipped && (job.None? || job.value.status == JobSkipped) then
        Ok(if job.Some? && job.value.terminalSkipAt.None? then db.(jobs := MarkJobSkipped(db.jobs, app.jobId, now)) else db)
      else
        var bumped := BumpRevision(cancelled, appId, reason, now);
        Ok(bumped.(applications := bumped.applications[appId := bumped.applications[appId].(status := JobSkipped)],
                   jobs := MarkJobSkipped(bumped.jobs, app.jobId, now)))
  }

  // A browser observation to persist; the adapter registry and the reusable-answer evidence have their own verdicts.
  datatype Observation = Observation(planId: string, plan: FormPlan, adapter: Option<Reason>, answers: Option<Reason>)

  // Why the observation is no valid plan or does not fit the application as it now is. A plan identifier already used for this application
  // is a harmless repeat.
  function ObservationRefusal(db: Db, app: Application, appId: Id, o: Observation, now: Time): Option<Reason> {
    if !ValidPlanLifetime(o.plan) then Some("FORM_PLAN_INVALID")
    else if app.jobId !in db.jobs then Some("JOB_NOT_FOUND")
    else if o.plan.applicationId != appId then Some("APPLICATION_CHANGED")
    else if o.plan.revision != (if app.revision == 0 then 1 else app.revision) then Some("APPLICATION_REVISION_CHANGED")
    else if Blank(app.selectedCvId) || Blank(app.selectedCvHash) then Some("SELECTED_CV_UNAVAILABLE")
    else if Some(o.plan.selectedCvId) != app.selectedCvId || Some(o.plan.selectedCvHash) != app.selectedCvHash
            || o.plan.profileVersion != app.profileVersion then Some("FORM_CHANGED")
    else if o.adapter.Some? then o.adapter
    else if now >= o.plan.expiresAt then Some("FORM_PLAN_EXPIRED")
    else if o.answers.Some? then o.answers
    else if o.planId in db.plans && db.plans[o.planId].applicationId != appId then Some("FORM_PLAN_DUPLICATE")
    else None
  }

  function PersistPlan(db: Db, appId: Id, o: Observation, now: Time): Result<Db, Reason> {
    var refusal := LockRefusal(db, appId, ContentIntent, None);
    if refusal.Some? then Err(refusal.value)
    else
      var app := db.applications[appId];
      var invalid := ObservationRefusal(db, app, appId, o, now);
      if invalid.Some? then Err(invalid.value)
      else if o.planId in db.plans then Ok(db)
      else
        Ok(db.(applications := db.applications[appId := Unprepare(app)],
               plans := InvalidatePlans(db.plans, appId, "FORM_REINSPECTED", now)[o.planId := o.plan.(invalidatedAt := None, invalidationReason := None)]))
  }

  // ---------- the worker ----------

  // A claimed command starts inspecting its attempt.
  function ClaimCommand(db: Db, key: string, owner: string, token: string, now: Time): Db {
    if key !in db.commands || db.commands[key].state != CommandPending || db.commands[key].attempt !in db.attempts
       || db.attempts[db.commands[key].attempt].stage != Queued then db
    else
      var id := db.commands[key].attempt;
      db.(commands := db.commands[key := db.commands[key].(state := CommandClaimed, lease := Some(Lease(now, owner, token)))],
          attempts := db.attempts[id := db.attempts[id].(stage := Inspecting, status := StatusPending)])
  }

  function Advance(db: Db, id: AttemptId, target: Stage): Db {
    if id !in db.attempts || target == Committing || target == Finished || !CanTransition(db.attempts[id].stage, target, None) then db
    else
      match ProjectLegacyStatus(target, None)
      case Err(_) => db
      case Ok(status) => db.(attempts := db.attempts[id := db.attempts[id].(stage := target, status := status)])
  }

  // ---------- the irreversible boundary ----------

  // One round of checks outside the tables: the running source, the attempt's standing authority, and its artifact snapshot.
  datatype Gate = Gate(sourceCurrent: bool, authority: Option<Reason>, snapshot: Option<Reason>)

  // A claimed command about to act. Everything is checked twice, around the governor, because the governor may take time.
  datatype Boundary = Boundary(
    key: string, token: string, urlHash: string, action: PreparedAction, loads: bool, before: Gate, checkedAt: Time,
    governorDenies: bool, after: Gate)

  // The claim is no longer this worker's, the attempt is closed before commit, or it may commit.
  datatype Verdict = Superseded | Rejected(reason: Reason, at: Time) | Cleared

  // The claim still owns the command.
  predicate HoldsClaim(db: Db, key: string, token: string) {
    && key in db.commands && db.commands[key].state == CommandClaimed
    && db.commands[key].lease.Some? && db.commands[key].lease.value.token == token
    && db.commands[key].attempt in db.attempts && db.commands[key].attempt.app in db.applications
  }

  // Application, job, attempt, plan and permit are still what was reviewed.
  predicate AtBoundary(db: Db, id: AttemptId)
    requires id in db.attempts && id.app in db.applications
  {
    var app, a := db.applications[id.app], db.attempts[id];
    && app.status == JobDraft && app.jobId in db.jobs && db.jobs[app.jobId].status == JobDraft
    && PreparationIsCurrent(app) && app.revision == a.binding.revision && a.stage == Ready
    && a.binding.planId.Some? && a.binding.planId.value in db.plans && id in db.permits
    && db.plans[a.binding.planId.value].invalidatedAt.None?
  }

  function BoundaryRefusal(db: Db, id: AttemptId, v: Boundary, gate: Gate, at: Time): Option<Reason>
    requires id in db.attempts && id.app in db.applications && AtBoundary(db, id)
  {
    var b := db.attempts[id].binding;
    var plan, permit := db.plans[b.planId.value], db.permits[id];
    if !v.loads then Some("FORM_CHANGED")
    else if gate.authority.Some? then gate.authority
    else if gate.snapshot.Some? then gate.snapshot
    else
      var invalid := InvalidPermit(Some(permit), b, plan, v.urlHash, at);
      if invalid.Some? then invalid
      else if !ActionBinds(v.action, plan, id, permit, at) then Some("FORM_CHANGED")
      else None
  }

  // The reason an attempt is closed with when its permit or authority is refused.
  function BoundaryReason(reason: Reason): Reason {
    if reason == "SUBMIT_PERMIT_REQUIRED" then "PERMIT_MISSING"
    else if reason == "SUBMIT_PERMIT_EXPIRED" then "PERMIT_EXPIRED"
    else if reason == "SUBMIT_PERMIT_REPLAYED" then "PERMIT_REPLAYED"
    else if reason in {"ATTACHMENT_CHANGED", "ATTACHMENT_UNVERIFIED"} then "ATTACHMENT_UNVERIFIED"
    else if reason in {"SELECTOR_DRIFT", "GOVERNOR_DENIED"} then reason
    else if reason in {"JOB_URL_CHANGED", "APPLICATION_REVISION_CHANGED", "ADAPTER_VERSION_CHANGED", "SUBMISSION_AUTHORITY_CHANGED",
                       "AUTOMATION_POLICY_CHANGED", "PERMIT_BINDING_MISMATCH"} then "PERMIT_BINDING_MISMATCH"
    else "FORM_CHANGED"
  }

  function BoundaryVerdict(db: Db, v: Boundary, now: Time): Verdict {
    if !HoldsClaim(db, v.key, v.token) then Superseded
    else
      var id := db.commands[v.key].attempt;
      if !v.before.sourceCurrent then Rejected("BUILD_MISMATCH", v.checkedAt)
      else if !AtBoundary(db, id) then Superseded
      else
        var first := BoundaryRefusal(db, id, v, v.before, v.checkedAt);
        if first.Some? then Rejected(BoundaryReason(first.value), v.checkedAt)
        else if v.governorDenies then Rejected("GOVERNOR_DENIED", v.checkedAt)
        else if !v.after.sourceCurrent then Rejected("BUILD_MISMATCH", now)
        else
          var second := BoundaryRefusal(db, id, v, v.after, now);
          if second.Some? then Rejected(BoundaryReason(second.value), now) else Cleared
  }

  // The permit is spent and the lease renewed in the transaction that records the commit.
  function RecordCommit(db: Db, id: AttemptId, key: string, now: Time): Db
    requires id in db.attempts && id in db.permits && key in db.commands && db.commands[key].lease.Some?
  {
    var command := db.commands[key];
    db.(attempts := db.attempts[id := db.attempts[id].(stage := Committing, status := StatusRunning, finalActionAt := Some(now))],
        permits := db.permits[id := db.permits[id].(consumedAt := Some(now))],
        commands := db.commands[key := command.(lease := Some(command.lease.value.(at := now)))])
  }

  function EnterBoundary(db: Db, v: Boundary, now: Time): Db {
    match BoundaryVerdict(db, v, now)
    case Superseded => db
    case Rejected(reason, at) => FinishAttempt(db, db.commands[v.key].attempt, FailedBeforeCommit, reason, None, at)
    case Cleared => RecordCommit(db, db.commands[v.key].attempt, v.key, now)
  }

  function FinishedStatus(o: Outcome): JobStatus {
    match o
    case ConfirmedSubmitted => JobSubmitted
    case AlreadyApplied => JobSubmitted
    case NeedsReview => JobNeedsReview
    case Unknown => JobNeedsReview
    case FailedBeforeCommit => JobFailed
    case _ => JobDraft
  }

  // The application once an attempt of it is closed.
  function ClosedApplication(app: Application, outcome: Outcome, reason: Reason): Application {
    Unprepare(app).(
      status := FinishedStatus(outcome),
      needsReviewReason := if outcome in {NeedsReview, Unknown, FailedBeforeCommit} then Some(reason) else app.needsReviewReason)
  }

  // The attempt row as it is closed.
  function FinishedRow(a: Attempt, status: SubmissionStatus, outcome: Outcome, reason: Reason, proof: Option<EvidenceRow>, now: Time): Attempt
    requires outcome == ConfirmedSubmitted ==> proof.Some?
  {
    var confirmed := outcome == ConfirmedSubmitted;
    a.(stage := Finished, outcome := Some(outcome), status := status, finishedAt := Some(now),
       reason := Some(if confirmed then "EMPLOYER_VERIFIED" else reason),
       submittedAt := if confirmed then Some(now) else None,
       verificationKind := if confirmed then Some(proof.value.kind) else a.verificationKind,
       evidenceDigest := if confirmed then Some(proof.value.digest) else a.evidenceDigest)
  }

  // The database takes a confirmation only with complete evidence columns and an evidence row that matches them.
  predicate TakesConfirmation(id: AttemptId, a: Attempt, proof: EvidenceRow) {
    proof.attempt == id && EmployerTruth.EvidenceChecks(proof) && Schema.ConfirmedCheck(a) && Schema.Proves(proof, id, a)
  }

  // Outcome, employer evidence for a confirmation, and the reason code the adapter reported.
  function FinishAttempt(db: Db, id: AttemptId, outcome: Outcome, reason: Reason, proof: Option<EvidenceRow>, now: Time): Db {
    if id !in db.attempts || id.app !in db.applications || !CanTransition(db.attempts[id].stage, Finished, Some(outcome))
       || (outcome == ConfirmedSubmitted && proof.None?) then db
    else
      match ProjectLegacyStatus(Finished, Some(outcome))
      case Err(_) => db
      case Ok(status) =>
        var confirmed := outcome == ConfirmedSubmitted;
        var a, app := db.attempts[id], db.applications[id.app];
        var row := FinishedRow(a, status, outcome, reason, proof, now);
        if confirmed && !TakesConfirmation(id, row, proof.value) then db
        else
          var key := CommandKey(db, id);
          var drifted := outcome == FailedBeforeCommit && reason in {"FORM_CHANGED", "SELECTOR_DRIFT"}
                         && a.binding.planId.Some? && a.binding.planId.value in db.plans;
          db.(attempts := db.attempts[id := row],
              evidence := if confirmed then db.evidence + {proof.value} else db.evidence,
              plans := if drifted then db.plans[a.binding.planId.value := InvalidatePlan(db.plans[a.binding.planId.value], reason, now)]
                       else db.plans,
              applications := db.applications[id.app := ClosedApplication(app, outcome, reason)],
              jobs := SetJobStatus(db.jobs, app.jobId, FinishedStatus(outcome)),
              commands := if key.Some?
                          then db.commands[key.value := db.commands[key.value].(
                                 state := CommandCompleted, completedAt := Some(now), lease := None, lastError := row.reason)]
                          else db.commands)
  }
}
