/** When a worker may take the irreversible step, said of the rows alone. */
module CommitRules {
  import opened Wrappers
  import opened Records
  import opened FinalAction
  import opened Lifecycle
  import ReviewGrants
  import opened Database
  import opened Admission
  import opened Mutations
  import opened Quarantine
  import opened Protocol
  import opened ProtocolSteps
  import opened ProtocolChecks

  // ---------- the rows at the boundary ----------

  // A live claim of the command, held with this token.
  ghost predicate Claimed(db: Db, v: Boundary, id: AttemptId) {
    && v.key in db.commands && db.commands[v.key].attempt == id && db.commands[v.key].state == CommandClaimed
    && db.commands[v.key].lease.Some? && db.commands[v.key].lease.value.token == v.token
    && id in db.attempts && id.app in db.applications
  }

  // What was reviewed still stands: the application and its job are drafts prepared at the attempt's revision, the attempt is
  // ready, its plan is live and it has a permit.
  ghost predicate Standing(db: Db, id: AttemptId)
    requires id in db.attempts && id.app in db.applications
  {
    var app, a := db.applications[id.app], db.attempts[id];
    && app.status == JobDraft && app.approvedAt.Some? && app.preparedRevision == Some(if app.revision < 1 then 1 else app.revision)
    && app.jobId in db.jobs && db.jobs[app.jobId].status == JobDraft
    && a.stage == Ready && a.binding.revision == app.revision
    && a.binding.planId.Some? && a.binding.planId.value in db.plans && db.plans[a.binding.planId.value].invalidatedAt.None?
    && id in db.permits
  }

  // A nullable text column that reads as this text.
  predicate Reads(column: Option<string>, text: string) { column == Some(text) || (column.None? && text == "") }

  // The permit is unspent and live, for this URL, and agrees with the attempt and the plan column by column.
  ghost predicate PermitServes(t: Permit, b: Binding, p: FormPlan, urlHash: string, at: Time) {
    && t.consumedAt.None? && at < t.expiresAt && t.jobUrlHash == urlHash
    && t.revision == b.revision && t.revision == p.revision
    && Reads(b.adapterName, t.adapterName) && t.adapterName == p.adapterName
    && Reads(b.adapterVersion, t.adapterVersion) && t.adapterVersion == p.adapterVersion
    && Reads(b.selectorVersion, t.selectorVersion) && t.selectorVersion == p.selectorVersion
    && Reads(b.fingerprint, t.fingerprint) && t.fingerprint == p.fingerprint
    && Reads(b.attachedCvHash, t.cvHash) && Reads(p.attachedCvHash, t.cvHash)
    && t.authority == b.authority && t.canaryDigest == b.canaryDigest
    && (t.decisionDigest == b.decisionDigest || (t.decisionDigest in {None, Some("")} && b.decisionDigest in {None, Some("")}))
    && b.attachmentVerified && p.attachmentVerified
  }

  // The prepared action is fresh and is the one the plan and the permit describe.
  ghost predicate ActionServes(a: PreparedAction, p: FormPlan, id: AttemptId, t: Permit, at: Time) {
    && a.preparedAt <= at < a.expiresAt <= t.expiresAt <= p.expiresAt && a.attempt == id
    && a.adapterName == p.adapterName && a.adapterVersion == p.adapterVersion && a.selectorVersion == p.selectorVersion
    && a.fingerprint == p.fingerprint && a.attachedCvHash == p.selectedCvHash && t.cvHash == p.selectedCvHash
    && p.attachedCvId == Some(p.selectedCvId) && p.attachedCvHash == Some(p.selectedCvHash)
    && p.blockers == [] && p.sessionVerifiedAt.Some? && p.createdAt <= p.sessionVerifiedAt.value <= p.expiresAt
  }

  // One round of checks raises nothing.
  ghost predicate RoundPasses(db: Db, id: AttemptId, v: Boundary, gate: Gate, at: Time)
    requires id in db.attempts && id.app in db.applications && Standing(db, id)
  {
    var b := db.attempts[id].binding;
    var p, t := db.plans[b.planId.value], db.permits[id];
    && v.loads && gate.authority.None? && gate.snapshot.None?
    && PermitServes(t, b, p, v.urlHash, at) && ActionServes(v.action, p, id, t, at)
  }

  // Both rounds pass, the running source is current both times, and the governor agrees between them.
  ghost predicate MayCommit(db: Db, id: AttemptId, v: Boundary, now: Time) {
    && Claimed(db, v, id) && Standing(db, id)
    && v.before.sourceCurrent && RoundPasses(db, id, v, v.before, v.checkedAt)
    && !v.governorDenies
    && v.after.sourceCurrent && RoundPasses(db, id, v, v.after, now)
  }

  // ---------- the guards say the same ----------

  lemma ClaimIsClaimed(db: Db, v: Boundary, id: AttemptId)
    ensures HoldsClaim(db, v.key, v.token) && db.commands[v.key].attempt == id <==> Claimed(db, v, id)
  {
  }

  lemma BoundaryIsStanding(db: Db, id: AttemptId)
    requires id in db.attempts && id.app in db.applications
    ensures AtBoundary(db, id) <==> Standing(db, id)
  {
  }

  lemma PermitVerdict(t: Permit, b: Binding, p: FormPlan, urlHash: string, at: Time)
    ensures InvalidPermit(Some(t), b, p, urlHash, at).None? <==> PermitServes(t, b, p, urlHash, at)
  {
  }

  lemma ActionVerdict(a: PreparedAction, p: FormPlan, id: AttemptId, t: Permit, b: Binding, urlHash: string, at: Time)
    requires PermitServes(t, b, p, urlHash, at)
    ensures ActionBinds(a, p, id, t, at) <==> ActionServes(a, p, id, t, at)
  {
  }

  lemma RoundVerdict(db: Db, id: AttemptId, v: Boundary, gate: Gate, at: Time)
    requires id in db.attempts && id.app in db.applications && Standing(db, id) && AtBoundary(db, id)
    ensures BoundaryRefusal(db, id, v, gate, at).None? <==> RoundPasses(db, id, v, gate, at)
  {
    hide InvalidPermit, PermitServes, ActionServes, ActionBinds;
    var b := db.attempts[id].binding;
    var p, t := db.plans[b.planId.value], db.permits[id];
    PermitVerdict(t, b, p, v.urlHash, at);
    if PermitServes(t, b, p, v.urlHash, at) { ActionVerdict(v.action, p, id, t, b, v.urlHash, at); }
  }

  lemma ClearedExactlyWhenGuarded(db: Db, v: Boundary, id: AttemptId, now: Time)
    ensures MayCommit(db, id, v, now) <==> BoundaryVerdict(db, v, now) == Cleared && db.commands[v.key].attempt == id
  {
    ClaimIsClaimed(db, v, id);
    if Claimed(db, v, id) {
      BoundaryIsStanding(db, id);
      hide HoldsClaim, AtBoundary, Claimed, BoundaryRefusal, RoundPasses, Standing;
      if Standing(db, id) {
        RoundVerdict(db, id, v, v.before, v.checkedAt);
        RoundVerdict(db, id, v, v.after, now);
      }
    }
  }

  // ---------- no other step commits ----------

  lemma {:induction false} AdmissionsKeepAttempts(db: Db, items: seq<Item>, now: Time, id: AttemptId)
    requires CreateAll(db, items, now).Ok? && id in db.attempts
    ensures var db' := CreateAll(db, items, now).value.0; id in db'.attempts && db'.attempts[id] == db.attempts[id]
    decreases |items|
  {
    hide FindReplay, Grounded, IsLastNumber;
    if items != [] {
      AdmissionKeepsAttempt(db, items[0].request, items[0].surroundings, now, id);
      AdmissionsKeepAttempts(CreateOne(db, items[0].request, items[0].surroundings, now).value.0, items[1..], now, id);
    }
  }

  lemma AdmissionKeepsAttempt(db: Db, r: Request, s: Surroundings, now: Time, id: AttemptId)
    requires CreateOne(db, r, s, now).Ok? && id in db.attempts
    ensures var db' := CreateOne(db, r, s, now).value.0; id in db'.attempts && db'.attempts[id] == db.attempts[id]
  {
    hide FindReplay, Grounded, Insert;
    if CreateOne(db, r, s, now).value.0 != db { InsertKeepsAttempt(db, r, Grounded(db, r, s, now).value, now, id); }
  }

  lemma InsertKeepsAttempt(db: Db, r: Request, g: Grounds, now: Time, id: AttemptId)
    requires g.consumesCanary ==> r.canaryId.Some? && r.canaryId.value in db.canaries
    requires id in db.attempts
    ensures var db' := Insert(db, r, g, now).0; id in db'.attempts && db'.attempts[id] == db.attempts[id]
  {
    assert IsLastNumber(db.attempts, r.appId, LastNumber(db.attempts, r.appId));
  }

  lemma EditingKeepsAttempts(db: Db, appId: Id, content: Content, reason: Reason, now: Time)
    requires EditContent(db, appId, content, reason, now).Ok?
    ensures EditContent(db, appId, content, reason, now).value.attempts == db.attempts
  {
    hide LockRefusal, InvalidatePlans;
    LockFindsApplication(db, appId, ContentIntent);
  }

  lemma InspectingKeepsAttempts(db: Db, appId: Id, o: Observation, now: Time)
    requires PersistPlan(db, appId, o, now).Ok?
    ensures PersistPlan(db, appId, o, now).value.attempts == db.attempts
  {
    hide LockRefusal, InvalidatePlans, ObservationRefusal;
    LockFindsApplication(db, appId, ContentIntent);
  }

  lemma PolicyKeepsAttempts(db: Db, appId: Id, decisionId: Id, decision: PolicyDecision, now: Time)
    ensures PrepareByPolicy(db, appId, decisionId, decision, now).attempts == db.attempts
  {
  }

  lemma SkippingDoesNotCommit(db: Db, appId: Id, reason: Reason, now: Time, id: AttemptId)
    requires Skip(db, appId, reason, now).Ok? && id in db.attempts && db.attempts[id].stage != Committing
    ensures var db' := Skip(db, appId, reason, now).value; id in db'.attempts && db'.attempts[id].stage != Committing
  {
    SkipTables(db, appId, reason, now);
    hide Skip;
    CancellingDoesNotCommit(db, appId, reason, now, id);
    hide CancelOpen;
  }

  lemma CancellingDoesNotCommit(db: Db, appId: Id, reason: Reason, now: Time, id: AttemptId)
    requires id in db.attempts && db.attempts[id].stage != Committing
    ensures var db' := CancelOpen(db, appId, reason, now); id in db'.attempts && db'.attempts[id].stage != Committing
  {
    hide LatestAttempt, CommandKey;
  }

  lemma ClaimingDoesNotCommit(db: Db, key: string, owner: string, token: string, now: Time, id: AttemptId)
    requires id in db.attempts && db.attempts[id].stage != Committing
    ensures var db' := ClaimCommand(db, key, owner, token, now); id in db'.attempts && db'.attempts[id].stage != Committing
  {
  }

  lemma AdvancingDoesNotCommit(db: Db, moved: AttemptId, target: Stage, id: AttemptId)
    requires id in db.attempts && db.attempts[id].stage != Committing
    ensures var db' := Advance(db, moved, target); id in db'.attempts && db'.attempts[id].stage != Committing
  {
    hide CanTransition, ProjectLegacyStatus;
  }

  lemma FinishingDoesNotCommit(
    db: Db, closed: AttemptId, outcome: Outcome, reason: Reason, proof: Option<EvidenceRow>, now: Time, id: AttemptId)
    requires id in db.attempts && db.attempts[id].stage != Committing
    ensures var db' := FinishAttempt(db, closed, outcome, reason, proof, now); id in db'.attempts && db'.attempts[id].stage != Committing
  {
    hide SetJobStatus, CommandKey, ClosedApplication, InvalidatePlan, TakesConfirmation;
  }

  lemma RestoringDoesNotCommit(db: Db, now: Time, id: AttemptId)
    requires id in db.attempts && db.attempts[id].stage != Committing
    ensures var db' := Quarantine.Quarantine(db, now); id in db'.attempts && db'.attempts[id].stage != Committing
  {
    assert Quarantine.Quarantine(db, now).attempts == QuarantineAttempts(db, now);
    hide Quarantine.Quarantine, AttemptIsOpen;
  }

  lemma OtherStepsDoNotCommit(db: Db, e: Event, now: Time, id: AttemptId)
    requires id in db.attempts && db.attempts[id].stage != Committing && !e.Commit?
    ensures var db' := Step(db, e, now); id in db'.attempts && db'.attempts[id].stage != Committing
  {
    hide RecordStep, Prepare, PrepareByPolicy, EditContent, Skip, PersistPlan, ClaimCommand, Advance, FinishAttempt,
      Quarantine.Quarantine, CreateAll, BatchRefusal, InApplicationOrder;
    match e {
      case Admit(items, process) =>
        if CreateBatch(db, items, process, now).Ok? { AdmissionsKeepAttempts(db, InApplicationOrder(items), now, id); }
      case PrepareApplication(appId, source, allowed) =>
        if Prepare(db, appId, source, allowed, now).Ok? { PrepareTables(db, appId, source, allowed, now); }
      case PolicyPrepare(appId, decisionId, decision) => PolicyKeepsAttempts(db, appId, decisionId, decision, now);
      case Edit(appId, content, reason) =>
        if EditContent(db, appId, content, reason, now).Ok? { EditingKeepsAttempts(db, appId, content, reason, now); }
      case SkipApplication(appId, reason) =>
        if Skip(db, appId, reason, now).Ok? { SkippingDoesNotCommit(db, appId, reason, now, id); }
      case Inspect(appId, o) =>
        if PersistPlan(db, appId, o, now).Ok? { InspectingKeepsAttempts(db, appId, o, now); }
      case Claim(key, owner, token) => ClaimingDoesNotCommit(db, key, owner, token, now, id);
      case Move(moved, target) => AdvancingDoesNotCommit(db, moved, target, id);
      case Finish(closed, outcome, reason, proof) => FinishingDoesNotCommit(db, closed, outcome, reason, proof, now, id);
      case Restore => RestoringDoesNotCommit(db, now, id);
      case _ =>
    }
  }

  // ---------- the step that commits ----------

  // The rows of a committed attempt: its permit is spent, its claim renewed, and nothing else is touched.
  ghost predicate CommittedRows(db: Db, db': Db, v: Boundary, id: AttemptId, now: Time) {
    && id in db.attempts && id in db'.attempts && id in db.permits && id in db'.permits
    && v.key in db.commands && v.key in db'.commands && db.commands[v.key].lease.Some?
    && db'.attempts == db.attempts[id := db.attempts[id].(stage := Committing, status := StatusRunning, finalActionAt := Some(now))]
    && db'.permits == db.permits[id := db.permits[id].(consumedAt := Some(now))]
    && db'.commands == db.commands[v.key := db.commands[v.key].(lease := Some(db.commands[v.key].lease.value.(at := now)))]
    && db' == db.(attempts := db'.attempts, permits := db'.permits, commands := db'.commands)
  }

  /** An attempt enters committing in a step if and only if that step is its worker's, claim, reviewed rows, permit, action, running
      source, authority, snapshot and governor all agreeing. Then its permit is spent and its claim renewed, and nothing else changes. */
  lemma CommitsExactlyWhenGuarded(db: Db, e: Event, now: Time, id: AttemptId)
    requires id in db.attempts && db.attempts[id].stage != Committing
    ensures id in Step(db, e, now).attempts
    ensures Step(db, e, now).attempts[id].stage == Committing <==> e.Commit? && MayCommit(db, id, e.boundary, now)
    ensures e.Commit? && MayCommit(db, id, e.boundary, now) ==> CommittedRows(db, Step(db, e, now), e.boundary, id, now)
  {
    if e.Commit? {
      BoundaryCommits(db, e.boundary, now, id);
      hide MayCommit, EnterBoundary, CommittedRows, RecordStep;
    } else {
      hide MayCommit, Step;
      OtherStepsDoNotCommit(db, e, now, id);
    }
  }

  lemma BoundaryCommits(db: Db, v: Boundary, now: Time, id: AttemptId)
    requires id in db.attempts && db.attempts[id].stage != Committing
    ensures var db' := EnterBoundary(db, v, now);
      && id in db'.attempts && (db'.attempts[id].stage == Committing <==> MayCommit(db, id, v, now))
      && (MayCommit(db, id, v, now) ==> CommittedRows(db, db', v, id, now))
  {
    VerdictNeedsClaim(db, v, now);
    hide BoundaryVerdict, MayCommit, FinishAttempt, AtBoundary;
    ClearedExactlyWhenGuarded(db, v, id, now);
    match BoundaryVerdict(db, v, now)
    case Superseded =>
    case Rejected(reason, at) => FinishingDoesNotCommit(db, db.commands[v.key].attempt, FailedBeforeCommit, reason, None, at, id);
    case Cleared => ClearedIsReady(db, v, now);
  }

  // ---------- the attempt that is not let through ----------

  // How a pre-commit attempt that failed is left: closed with the reason, its permit and every other attempt as they were, its
  // application and job failed, its command completed.
  ghost predicate ClosedBeforeCommit(db: Db, db': Db, id: AttemptId, reason: Reason, at: Time)
    requires id in db.attempts && id.app in db.applications
  {
    var a, app := db.attempts[id], db.applications[id.app];
    && db'.attempts == db.attempts[id := a.(
         stage := Finished, outcome := Some(FailedBeforeCommit), status := StatusFailed, reason := Some(reason),
         finishedAt := Some(at), submittedAt := None)]
    && db'.permits == db.permits && db'.evidence == db.evidence && db'.canaries == db.canaries && db'.decisions == db.decisions
    && db'.applications == db.applications[id.app := app.(
         status := JobFailed, needsReviewReason := Some(reason), preparedRevision := None, approvedAt := None, approvalSource := None)]
    && (app.jobId in db.jobs ==> db'.jobs == db.jobs[app.jobId := db.jobs[app.jobId].(status := JobFailed)])
    && (a.binding.key in db.commands && db.commands[a.binding.key].attempt == id ==>
          db'.commands == db.commands[a.binding.key := db.commands[a.binding.key].(
            state := CommandCompleted, completedAt := Some(at), lease := None, lastError := Some(reason))])
    && (reason !in {"FORM_CHANGED", "SELECTOR_DRIFT"} ==> db'.plans == db.plans)
  }

  // The codes attempts are closed with, for what the permit or the authority was refused with; anything else is a changed form.
  const CLOSING_CODES: map<Reason, Reason> := map[
    "SUBMIT_PERMIT_REQUIRED" := "PERMIT_MISSING", "SUBMIT_PERMIT_EXPIRED" := "PERMIT_EXPIRED",
    "SUBMIT_PERMIT_REPLAYED" := "PERMIT_REPLAYED", "JOB_URL_CHANGED" := "PERMIT_BINDING_MISMATCH",
    "APPLICATION_REVISION_CHANGED" := "PERMIT_BINDING_MISMATCH", "ADAPTER_VERSION_CHANGED" := "PERMIT_BINDING_MISMATCH",
    "SELECTOR_DRIFT" := "SELECTOR_DRIFT", "FORM_CHANGED" := "FORM_CHANGED", "ATTACHMENT_CHANGED" := "ATTACHMENT_UNVERIFIED",
    "ATTACHMENT_UNVERIFIED" := "ATTACHMENT_UNVERIFIED", "SUBMISSION_AUTHORITY_CHANGED" := "PERMIT_BINDING_MISMATCH",
    "AUTOMATION_POLICY_CHANGED" := "PERMIT_BINDING_MISMATCH", "PERMIT_BINDING_MISMATCH" := "PERMIT_BINDING_MISMATCH",
    "GOVERNOR_DENIED" := "GOVERNOR_DENIED"]

  function ClosingCode(raised: Reason): Reason { if raised in CLOSING_CODES then CLOSING_CODES[raised] else "FORM_CHANGED" }

  // What is wrong with a permit that does not serve, as the closed attempt records it.
  function PermitDefect(t: Permit, b: Binding, p: FormPlan, urlHash: string, at: Time): Option<Reason> {
    if t.consumedAt.Some? then Some("PERMIT_REPLAYED")
    else if t.expiresAt <= at then Some("PERMIT_EXPIRED")
    else if t.jobUrlHash != urlHash || t.revision != b.revision || t.revision != p.revision
            || !Reads(b.adapterName, t.adapterName) || t.adapterName != p.adapterName
            || !Reads(b.adapterVersion, t.adapterVersion) || t.adapterVersion != p.adapterVersion then Some("PERMIT_BINDING_MISMATCH")
    else if !Reads(b.selectorVersion, t.selectorVersion) || t.selectorVersion != p.selectorVersion then Some("SELECTOR_DRIFT")
    else if !Reads(b.fingerprint, t.fingerprint) || t.fingerprint != p.fingerprint then Some("FORM_CHANGED")
    else if !Reads(b.attachedCvHash, t.cvHash) || !Reads(p.attachedCvHash, t.cvHash) then Some("ATTACHMENT_UNVERIFIED")
    else if t.authority != b.authority
            || (t.decisionDigest != b.decisionDigest
                && !(t.decisionDigest in {None, Some("")} && b.decisionDigest in {None, Some("")})) then Some("PERMIT_BINDING_MISMATCH")
    else if t.canaryDigest != b.canaryDigest then Some("FORM_CHANGED")
    else if !b.attachmentVerified || !p.attachmentVerified then Some("ATTACHMENT_UNVERIFIED")
    else None
  }

  // The code a failing round closes the attempt with.
  ghost function RoundCode(db: Db, id: AttemptId, v: Boundary, gate: Gate, at: Time): Reason
    requires id in db.attempts && id.app in db.applications && Standing(db, id)
  {
    var b := db.attempts[id].binding;
    var defect := PermitDefect(db.permits[id], b, db.plans[b.planId.value], v.urlHash, at);
    if !v.loads then "FORM_CHANGED"
    else if gate.authority.Some? then ClosingCode(gate.authority.value)
    else if gate.snapshot.Some? then ClosingCode(gate.snapshot.value)
    else if defect.Some? then defect.value
    else "FORM_CHANGED"
  }

  lemma ReasonIsCode(raised: Reason)
    ensures BoundaryReason(raised) == ClosingCode(raised)
  {
  }

  lemma PermitCode(t: Permit, b: Binding, p: FormPlan, urlHash: string, at: Time)
    ensures var invalid := InvalidPermit(Some(t), b, p, urlHash, at);
      PermitDefect(t, b, p, urlHash, at) == if invalid.None? then None else Some(ClosingCode(invalid.value))
  {
    PermitCodes();
    hide ClosingCode;
    if t.consumedAt.Some? || t.expiresAt <= at {
    } else if t.jobUrlHash != urlHash || t.revision != b.revision || t.revision != p.revision {
    } else if !Reads(b.adapterName, t.adapterName) || t.adapterName != p.adapterName {
    } else if !Reads(b.adapterVersion, t.adapterVersion) || t.adapterVersion != p.adapterVersion {
    } else if !Reads(b.selectorVersion, t.selectorVersion) || t.selectorVersion != p.selectorVersion {
    } else if !Reads(b.fingerprint, t.fingerprint) || t.fingerprint != p.fingerprint {
    } else if !Reads(b.attachedCvHash, t.cvHash) || !Reads(p.attachedCvHash, t.cvHash) {
    } else if t.authority != b.authority {
    }
  }

  lemma PermitCodes()
    ensures ClosingCode("SUBMIT_PERMIT_REPLAYED") == "PERMIT_REPLAYED" && ClosingCode("SUBMIT_PERMIT_EXPIRED") == "PERMIT_EXPIRED"
    ensures forall raised :: raised in {"JOB_URL_CHANGED", "APPLICATION_REVISION_CHANGED", "ADAPTER_VERSION_CHANGED",
                                        "SUBMISSION_AUTHORITY_CHANGED", "AUTOMATION_POLICY_CHANGED"} ==>
              ClosingCode(raised) == "PERMIT_BINDING_MISMATCH"
    ensures ClosingCode("SELECTOR_DRIFT") == "SELECTOR_DRIFT" && ClosingCode("FORM_CHANGED") == "FORM_CHANGED"
    ensures ClosingCode("ATTACHMENT_CHANGED") == "ATTACHMENT_UNVERIFIED" && ClosingCode("ATTACHMENT_UNVERIFIED") == "ATTACHMENT_UNVERIFIED"
    ensures ClosingCode("CANARY_AUTHORIZATION_CHANGED") == "FORM_CHANGED"
  {
  }

  lemma FailingCloses(db: Db, id: AttemptId, reason: Reason, at: Time)
    requires id in db.attempts && id.app in db.applications && IsPreCommit(db.attempts[id].stage)
    ensures ClosedBeforeCommit(db, FinishAttempt(db, id, FailedBeforeCommit, reason, None, at), id, reason, at)
  {
    hide InvalidatePlan, TakesConfirmation;
  }

  /** A worker that holds its claim and is not let through changes nothing if what was reviewed is gone, and otherwise closes its
      attempt before commit, unspent: for the source if that is stale, for the governor if it denies, else for what the failing round
      found, dated by the round. */
  lemma RefusedIsClosed(db: Db, v: Boundary, id: AttemptId, now: Time)
    requires Claimed(db, v, id) && IsPreCommit(db.attempts[id].stage)
    ensures var db' := EnterBoundary(db, v, now);
      && (!v.before.sourceCurrent ==> ClosedBeforeCommit(db, db', id, "BUILD_MISMATCH", v.checkedAt))
      && (v.before.sourceCurrent && !Standing(db, id) ==> db' == db)
      && (v.before.sourceCurrent && Standing(db, id) ==>
            var first := RoundPasses(db, id, v, v.before, v.checkedAt);
            && (!first ==> ClosedBeforeCommit(db, db', id, RoundCode(db, id, v, v.before, v.checkedAt), v.checkedAt))
            && (first && v.governorDenies ==> ClosedBeforeCommit(db, db', id, "GOVERNOR_DENIED", v.checkedAt))
            && (first && !v.governorDenies && !v.after.sourceCurrent ==> ClosedBeforeCommit(db, db', id, "BUILD_MISMATCH", now))
            && (first && !v.governorDenies && v.after.sourceCurrent && !RoundPasses(db, id, v, v.after, now) ==>
                  ClosedBeforeCommit(db, db', id, RoundCode(db, id, v, v.after, now), now)))
  {
    ClaimIsClaimed(db, v, id);
    BoundaryIsStanding(db, id);
    FailingCloses(db, id, "BUILD_MISMATCH", v.checkedAt);
    FailingCloses(db, id, "GOVERNOR_DENIED", v.checkedAt);
    FailingCloses(db, id, "BUILD_MISMATCH", now);
    hide HoldsClaim, AtBoundary, Standing, RoundPasses, FinishAttempt, ClosedBeforeCommit, RecordCommit, RoundCode, BoundaryRefusal,
      BoundaryReason;
    if Standing(db, id) {
      RoundCloses(db, id, v, v.before, v.checkedAt);
      RoundCloses(db, id, v, v.after, now);
    }
  }

  // A round that fails names the code its attempt is closed with.
  lemma RoundCloses(db: Db, id: AttemptId, v: Boundary, gate: Gate, at: Time)
    requires id in db.attempts && id.app in db.applications && Standing(db, id) && AtBoundary(db, id) && IsPreCommit(db.attempts[id].stage)
    ensures BoundaryRefusal(db, id, v, gate, at).None? <==> RoundPasses(db, id, v, gate, at)
    ensures !RoundPasses(db, id, v, gate, at) ==>
              var code := BoundaryReason(BoundaryRefusal(db, id, v, gate, at).value);
              code == RoundCode(db, id, v, gate, at)
              && ClosedBeforeCommit(db, FinishAttempt(db, id, FailedBeforeCommit, code, None, at), id, code, at)
  {
    RoundVerdict(db, id, v, gate, at);
    if !RoundPasses(db, id, v, gate, at) {
      CodeIsRecorded(db, id, v, gate, at);
      FailingCloses(db, id, RoundCode(db, id, v, gate, at), at);
    }
    hide AtBoundary, Standing, RoundPasses, FinishAttempt, ClosedBeforeCommit, RoundCode, BoundaryRefusal, BoundaryReason;
  }

  lemma CodeIsRecorded(db: Db, id: AttemptId, v: Boundary, gate: Gate, at: Time)
    requires id in db.attempts && id.app in db.applications && Standing(db, id) && AtBoundary(db, id)
    requires BoundaryRefusal(db, id, v, gate, at).Some?
    ensures BoundaryReason(BoundaryRefusal(db, id, v, gate, at).value) == RoundCode(db, id, v, gate, at)
  {
    var b := db.attempts[id].binding;
    hide AtBoundary, Standing, ActionBinds;
    ReasonIsCode(BoundaryRefusal(db, id, v, gate, at).value);
    PermitCode(db.permits[id], b, db.plans[b.planId.value], v.urlHash, at);
    hide InvalidPermit, PermitDefect, BoundaryReason;
  }
}
