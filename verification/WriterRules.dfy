/** What the application writers and the closing of attempts do to the rows, and exactly when they are let through. */
module WriterRules {
  import opened Wrappers
  import opened Records
  import opened Lifecycle
  import opened Database
  import opened Admission
  import opened Mutations
  import opened Protocol
  import opened ProtocolSteps
  import opened ProtocolChecks
  import Schema
  import EmployerTruth

  // ---------- the lock ----------

  // The attempt decided the fate of its application.
  predicate Decisive(a: Attempt) {
    a.outcome in {Some(ConfirmedSubmitted), Some(AlreadyApplied), Some(Unknown), Some(OperatorConfirmed), Some(LegacyUnverified)}
    || a.status == StatusSuccess || a.status == StatusUnknown
  }

  // Nothing irreversible may have happened under this attempt, and its command has not been settled.
  ghost predicate StillHarmless(db: Db, id: AttemptId)
    requires id in db.attempts
  {
    var a := db.attempts[id];
    && a.stage !in {Committing, Verifying} && a.finalActionAt.None? && (id in db.permits ==> db.permits[id].consumedAt.None?)
    && (a.binding.key in db.commands && db.commands[a.binding.key].attempt == id ==>
          db.commands[a.binding.key].state !in {CommandCompleted, CommandCancelled})
  }

  ghost predicate MayChange(db: Db, appId: Id, intent: Intent, expected: Option<int>) {
    && appId in db.applications
    && var app := db.applications[appId];
       var latest := AttemptId(appId, LastNumber(db.attempts, appId));
       && (expected.Some? ==> expected.value == if app.revision == 0 then 1 else app.revision)
       && (forall id :: id in db.attempts && id.app == appId ==> !Decisive(db.attempts[id]))
       && app.status != JobSubmitted && (app.jobId in db.jobs ==> db.jobs[app.jobId].status != JobSubmitted)
       && (intent != TerminalIntent ==> app.status != JobSkipped && (app.jobId in db.jobs ==> db.jobs[app.jobId].status != JobSkipped))
       && (latest in db.attempts && db.attempts[latest].stage != Finished ==> intent == TerminalIntent && StillHarmless(db, latest))
  }

  lemma NoneClosing(db: Db, appId: Id)
    ensures var closing := AttemptId(appId, LastClosing(db, appId));
      (closing in db.attempts && ClosesApplication(db.attempts[closing])) <==>
        exists id :: id in db.attempts && id.app == appId && ClosesApplication(db.attempts[id])
  {
    hide ClosesApplication;
    var closed := map id | id in db.attempts && ClosesApplication(db.attempts[id]) :: db.attempts[id];
    assert IsLastNumber(closed, appId, LastNumber(closed, appId));
    if id :| id in db.attempts && id.app == appId && ClosesApplication(db.attempts[id]) {
      assert id in closed;
      if LastNumber(closed, appId) == 0 { assert id == AttemptId(appId, 0); }
    }
  }

  /** A change to a locked application is let through exactly when no attempt has decided its fate, it is neither submitted nor
      (unless it is being ended) skipped, and no attempt is open but one that is being ended and has done nothing irreversible. */
  lemma LockGrantedExactly(db: Db, appId: Id, intent: Intent, expected: Option<int>)
    ensures LockRefusal(db, appId, intent, expected).None? <==> MayChange(db, appId, intent, expected)
  {
    NoneClosing(db, appId);
    assert forall id :: id in db.attempts ==> (Decisive(db.attempts[id]) <==> ClosesApplication(db.attempts[id]));
    hide LastClosing, ClosesApplication, Decisive;
    if appId in db.applications && (forall id :: id in db.attempts && id.app == appId ==> !Decisive(db.attempts[id])) {
      LockOfUndecided(db, appId, intent, expected);
    }
  }

  lemma LockOfUndecided(db: Db, appId: Id, intent: Intent, expected: Option<int>)
    requires appId in db.applications
    requires var closing := AttemptId(appId, LastClosing(db, appId)); !(closing in db.attempts && ClosesApplication(db.attempts[closing]))
    requires forall id :: id in db.attempts && id.app == appId ==> !Decisive(db.attempts[id])
    ensures LockRefusal(db, appId, intent, expected).None? <==> MayChange(db, appId, intent, expected)
  {
    hide LastClosing, ClosesApplication, Decisive;
  }

  // ---------- skipping ----------

  // An attempt and its command, cancelled before anything irreversible.
  ghost predicate Cancelled(db: Db, db': Db, id: AttemptId, reason: Reason, now: Time)
    requires id in db.attempts
  {
    var a := db.attempts[id];
    && db'.attempts == db.attempts[id := a.(
         stage := Finished, outcome := Some(FailedBeforeCommit), status := StatusFailed, reason := Some(reason),
         finishedAt := Some(now), submittedAt := None)]
    && (a.binding.key in db.commands && db.commands[a.binding.key].attempt == id ==>
          db'.commands == db.commands[a.binding.key := db.commands[a.binding.key].(
            state := CommandCancelled, completedAt := Some(now), lease := None, lastError := Some(reason))])
    && (!(a.binding.key in db.commands && db.commands[a.binding.key].attempt == id) ==> db'.commands == db.commands)
  }

  // Everything prepared for the application is void: one revision on, nothing approved, no live plan.
  ghost predicate Voided(db: Db, db': Db, appId: Id)
    requires appId in db.applications
  {
    && appId in db'.applications && db'.plans.Keys == db.plans.Keys
    && var app, app' := db.applications[appId], db'.applications[appId];
       && app'.revision == (if app.revision < 1 then 1 else app.revision) + 1
       && app'.preparedRevision.None? && app'.approvedAt.None? && app'.approvalSource.None?
       && forall i :: i in db.plans ==>
            if db.plans[i].applicationId == appId then db'.plans[i].invalidatedAt.Some? else db'.plans[i] == db.plans[i]
  }

  ghost predicate AlreadySkipped(db: Db, appId: Id)
    requires appId in db.applications
  {
    var app := db.applications[appId];
    app.status == JobSkipped && (app.jobId in db.jobs ==> db.jobs[app.jobId].status == JobSkipped)
    && forall id :: id in db.attempts && id.app == appId ==> db.attempts[id].stage == Finished
  }

  // The application and its job are skipped; the others are as they were.
  ghost predicate MarkedSkipped(db: Db, db': Db, appId: Id)
    requires appId in db.applications
  {
    var jobId := db.applications[appId].jobId;
    && db'.applications.Keys == db.applications.Keys && db'.jobs.Keys == db.jobs.Keys
    && db'.applications[appId].status == JobSkipped
    && (jobId in db.jobs ==> db'.jobs[jobId].status == JobSkipped && db'.jobs[jobId].terminalSkipAt.Some?)
    && (forall i :: i in db.applications && i != appId ==> db'.applications[i] == db.applications[i])
    && (forall j :: j in db.jobs && j != jobId ==> db'.jobs[j] == db.jobs[j])
  }

  // An open attempt of the application is cancelled; without one nothing is.
  ghost predicate OpenCancelled(db: Db, db': Db, appId: Id, reason: Reason, now: Time) {
    && ((forall id :: id in db.attempts && id.app == appId ==> db.attempts[id].stage == Finished) ==>
          db'.attempts == db.attempts && db'.commands == db.commands)
    && (forall id :: id in db.attempts && id.app == appId && db.attempts[id].stage != Finished ==> Cancelled(db, db', id, reason, now))
  }

  // How a skipped application is left.
  ghost predicate SkippedRows(db: Db, db': Db, appId: Id, reason: Reason, now: Time)
    requires appId in db.applications
  {
    var app := db.applications[appId];
    && MarkedSkipped(db, db', appId)
    && db'.permits == db.permits && db'.evidence == db.evidence
    && (AlreadySkipped(db, appId) ==> db' == db.(jobs := db'.jobs))
    && (!AlreadySkipped(db, appId) ==> Voided(db, db', appId))
    && OpenCancelled(db, db', appId, reason, now)
  }

  /** A skip is let through exactly when nothing was decided or may have crossed. Then the application and its job end skipped, an open
      attempt is cancelled with its command, permits and evidence stay, and unless it was skipped already everything prepared is void. */
  lemma SkipEndsApplication(db: Db, appId: Id, reason: Reason, now: Time)
    requires AttemptsOk(db)
    ensures Skip(db, appId, reason, now).Ok? <==> MayChange(db, appId, TerminalIntent, None)
    ensures Skip(db, appId, reason, now).Ok? ==> SkippedRows(db, Skip(db, appId, reason, now).value, appId, reason, now)
  {
    LockGrantedExactly(db, appId, TerminalIntent, None);
    if LockRefusal(db, appId, TerminalIntent, None).None? {
      LockLeavesNothingUnfinished(db, appId, TerminalIntent, None);
      OpenIsCancelled(db, appId, reason, now);
      hide LockRefusal, MayChange, AttemptsOk;
      SkippingRows(db, appId, reason, now);
    }
    hide MayChange, LockRefusal, SkippedRows;
  }

  lemma OpenIsCancelled(db: Db, appId: Id, reason: Reason, now: Time)
    requires AttemptsOk(db)
    requires forall id :: id in db.attempts && id.app == appId && db.attempts[id].stage != Finished ==> LatestAttempt(db, appId) == Some(id)
    ensures var c := CancelOpen(db, appId, reason, now);
      && c == db.(attempts := c.attempts, commands := c.commands)
      && (c == db <==> forall id :: id in db.attempts && id.app == appId ==> db.attempts[id].stage == Finished)
      && (forall id :: id in db.attempts && id.app == appId && db.attempts[id].stage != Finished ==> Cancelled(db, c, id, reason, now))
  {
    hide AttemptsOk, LatestAttempt;
    var latest := LatestAttempt(db, appId);
    LatestIsItsOwn(db, appId);
    if latest.Some? && db.attempts[latest.value].stage != Finished {
      assert CancelOpen(db, appId, reason, now).attempts[latest.value].stage == Finished;
    }
  }

  lemma LatestIsItsOwn(db: Db, appId: Id)
    ensures LatestAttempt(db, appId).Some? ==> LatestAttempt(db, appId).value in db.attempts && LatestAttempt(db, appId).value.app == appId
  {
  }

  lemma BumpVoids(db: Db, appId: Id, reason: Reason, now: Time)
    requires appId in db.applications
    ensures Voided(db, BumpRevision(db, appId, reason, now), appId)
    ensures var db' := BumpRevision(db, appId, reason, now);
      db' == db.(applications := db.applications[appId := db'.applications[appId]], plans := db'.plans)
  {
  }

  // The skip has something to do besides marking.
  predicate SkipsAnew(db: Db, c: Db, appId: Id)
    requires appId in db.applications
  {
    var app := db.applications[appId];
    !(c == db && app.status == JobSkipped && (app.jobId in db.jobs ==> db.jobs[app.jobId].status == JobSkipped))
  }

  lemma SkippingRows(db: Db, appId: Id, reason: Reason, now: Time)
    requires appId in db.applications && LockRefusal(db, appId, TerminalIntent, None).None?
    requires var c := CancelOpen(db, appId, reason, now);
      && c == db.(attempts := c.attempts, commands := c.commands)
      && (c == db <==> forall id :: id in db.attempts && id.app == appId ==> db.attempts[id].stage == Finished)
      && (forall id :: id in db.attempts && id.app == appId && db.attempts[id].stage != Finished ==> Cancelled(db, c, id, reason, now))
    ensures Skip(db, appId, reason, now).Ok? && SkippedRows(db, Skip(db, appId, reason, now).value, appId, reason, now)
  {
    var c := CancelOpen(db, appId, reason, now);
    assert SkipsAnew(db, c, appId) <==> !AlreadySkipped(db, appId);
    assert OpenCancelled(db, c, appId, reason, now);
    hide LockRefusal, CancelOpen, BumpRevision, Skip, MarkedSkipped, Voided, AlreadySkipped, SkipsAnew, OpenCancelled;
    if SkipsAnew(db, c, appId) {
      SkippingAnew(db, c, appId, reason, now);
      SameCancelled(db, c, Skip(db, appId, reason, now).value, appId, reason, now);
    } else {
      NothingCancelled(db, c, appId);
      SkippingAgain(db, c, appId, reason, now);
      SameCancelled(db, c, Skip(db, appId, reason, now).value, appId, reason, now);
    }
  }

  lemma SameCancelled(db: Db, c: Db, db': Db, appId: Id, reason: Reason, now: Time)
    requires OpenCancelled(db, c, appId, reason, now) && db'.attempts == c.attempts && db'.commands == c.commands
    ensures OpenCancelled(db, db', appId, reason, now)
  {
    assert forall id :: id in db.attempts && id.app == appId && db.attempts[id].stage != Finished ==> Cancelled(db, c, id, reason, now);
  }

  lemma NothingCancelled(db: Db, c: Db, appId: Id)
    requires appId in db.applications && !SkipsAnew(db, c, appId)
    ensures c == db
  {
  }

  lemma SkippedJob(db: Db, jobId: Id, now: Time)
    ensures var jobs := MarkJobSkipped(db.jobs, jobId, now);
      && jobs.Keys == db.jobs.Keys && (jobId in db.jobs ==> jobs[jobId].status == JobSkipped && jobs[jobId].terminalSkipAt.Some?)
      && forall j :: j in db.jobs && j != jobId ==> jobs[j] == db.jobs[j]
  {
  }

  lemma SkipAgainValue(db: Db, c: Db, appId: Id, reason: Reason, now: Time)
    requires appId in db.applications && LockRefusal(db, appId, TerminalIntent, None).None? && c == CancelOpen(db, appId, reason, now)
    requires !SkipsAnew(db, c, appId)
    ensures var jobId := db.applications[appId].jobId;
      Skip(db, appId, reason, now)
      == Ok(if jobId in db.jobs && db.jobs[jobId].terminalSkipAt.None? then db.(jobs := MarkJobSkipped(db.jobs, jobId, now)) else db)
  {
    hide LockRefusal, CancelOpen, BumpRevision, MarkJobSkipped;
  }

  lemma SkippingAgain(db: Db, c: Db, appId: Id, reason: Reason, now: Time)
    requires appId in db.applications && LockRefusal(db, appId, TerminalIntent, None).None? && c == CancelOpen(db, appId, reason, now)
    requires !SkipsAnew(db, c, appId)
    ensures Skip(db, appId, reason, now).Ok?
    ensures var db' := Skip(db, appId, reason, now).value; db' == db.(jobs := db'.jobs) && MarkedSkipped(db, db', appId)
  {
    SkipAgainValue(db, c, appId, reason, now);
    SkippedJob(db, db.applications[appId].jobId, now);
    hide LockRefusal, CancelOpen, Skip, MarkJobSkipped;
  }

  lemma SkippingAnew(db: Db, c: Db, appId: Id, reason: Reason, now: Time)
    requires appId in db.applications && LockRefusal(db, appId, TerminalIntent, None).None? && c == CancelOpen(db, appId, reason, now)
    requires c == db.(attempts := c.attempts, commands := c.commands) && SkipsAnew(db, c, appId)
    ensures Skip(db, appId, reason, now).Ok?
    ensures var db' := Skip(db, appId, reason, now).value;
      && db'.attempts == c.attempts && db'.commands == c.commands && db'.permits == db.permits && db'.evidence == db.evidence
      && MarkedSkipped(db, db', appId) && Voided(db, db', appId)
  {
    SkipValue(db, c, appId, reason, now);
    hide Skip, CancelOpen, SkipsAnew, LockRefusal;
    var bumped := BumpRevision(c, appId, reason, now);
    BumpVoids(c, appId, reason, now);
    assert bumped.applications[appId].jobId == db.applications[appId].jobId;
    hide BumpRevision, Voided, MarkedSkipped, MarkJobSkipped;
    MarkingVoided(db, c, bumped, Skip(db, appId, reason, now).value, appId, now);
  }

  lemma MarkingVoided(db: Db, c: Db, bumped: Db, db': Db, appId: Id, now: Time)
    requires c == db.(attempts := c.attempts, commands := c.commands) && appId in db.applications && appId in bumped.applications
    requires bumped == c.(applications := db.applications[appId := bumped.applications[appId]], plans := bumped.plans)
    requires bumped.applications[appId].jobId == db.applications[appId].jobId && Voided(c, bumped, appId)
    requires db' == bumped.(applications := bumped.applications[appId := bumped.applications[appId].(status := JobSkipped)],
                            jobs := MarkJobSkipped(bumped.jobs, db.applications[appId].jobId, now))
    ensures db'.attempts == c.attempts && db'.commands == c.commands && db'.permits == db.permits && db'.evidence == db.evidence
    ensures MarkedSkipped(db, db', appId) && Voided(db, db', appId)
  {
    SkippedJob(db, db.applications[appId].jobId, now);
    hide MarkJobSkipped;
  }

  lemma SkipValue(db: Db, c: Db, appId: Id, reason: Reason, now: Time)
    requires appId in db.applications && LockRefusal(db, appId, TerminalIntent, None).None? && c == CancelOpen(db, appId, reason, now)
    requires SkipsAnew(db, c, appId)
    ensures Skip(db, appId, reason, now).Ok?
    ensures var bumped := BumpRevision(c, appId, reason, now);
      Skip(db, appId, reason, now).value
      == bumped.(applications := bumped.applications[appId := bumped.applications[appId].(status := JobSkipped)],
                 jobs := MarkJobSkipped(bumped.jobs, db.applications[appId].jobId, now))
  {
    hide LockRefusal, CancelOpen, BumpRevision, MarkJobSkipped;
  }

  // ---------- closing an attempt ----------

  // The outcomes an attempt may end with, by the stage it is in.
  predicate MayEnd(stage: Stage, outcome: Outcome) {
    match outcome
    case ConfirmedSubmitted => stage == Verifying
    case Unknown => stage in {Committing, Verifying}
    case AlreadyApplied => stage in {Inspecting, Preparing, Ready}
    case NeedsReview => stage in {Queued, Inspecting, Preparing, Ready}
    case FailedBeforeCommit => stage in {Queued, Inspecting, Preparing, Ready}
    case DraftOnly => stage in {Queued, Inspecting, Preparing, Ready}
    case _ => false
  }

  // The employer's evidence is about this attempt's form and CV, and the attempt carries what a confirmation has to.
  ghost predicate Confirmable(id: AttemptId, a: Attempt, proof: EvidenceRow, now: Time) {
    && proof.attempt == id && EmployerTruth.EvidenceChecks(proof)
    && Some(proof.fingerprint) == a.binding.fingerprint && Some(proof.cvHash) == a.binding.attachedCvHash
    && a.finalActionAt.Some? && a.finalActionAt.value <= now && Schema.BindingEvidenceCheck(a.binding)
  }

  ghost predicate MayFinish(db: Db, id: AttemptId, outcome: Outcome, proof: Option<EvidenceRow>, now: Time) {
    && id in db.attempts && id.app in db.applications && MayEnd(db.attempts[id].stage, outcome)
    && (outcome == ConfirmedSubmitted ==> proof.Some? && Confirmable(id, db.attempts[id], proof.value, now))
  }

  predicate EndsAs(outcome: Outcome, status: SubmissionStatus, job: JobStatus) {
    match outcome
    case ConfirmedSubmitted => status == StatusSuccess && job == JobSubmitted
    case AlreadyApplied => status == StatusFailed && job == JobSubmitted
    case Unknown => status == StatusUnknown && job == JobNeedsReview
    case NeedsReview => status == StatusFailed && job == JobNeedsReview
    case FailedBeforeCommit => status == StatusFailed && job == JobFailed
    case _ => status == StatusDraftOnly && job == JobDraft
  }

  // The attempt's row as it is closed: only a confirmation carries a submission time and the evidence.
  ghost predicate ClosedAttempt(a: Attempt, a': Attempt, outcome: Outcome, reason: Reason, proof: Option<EvidenceRow>, now: Time) {
    && a'.stage == Finished && a'.outcome == Some(outcome) && a'.finishedAt == Some(now)
    && a'.binding == a.binding && a'.finalActionAt == a.finalActionAt
    && (outcome == ConfirmedSubmitted ==>
          proof.Some? && a'.reason == Some("EMPLOYER_VERIFIED") && a'.submittedAt == Some(now)
          && a'.verificationKind == Some(proof.value.kind) && a'.evidenceDigest == Some(proof.value.digest))
    && (outcome != ConfirmedSubmitted ==>
          a'.reason == Some(reason) && a'.submittedAt.None? && a'.verificationKind == a.verificationKind && a'.evidenceDigest == a.evidenceDigest)
  }

  // What closing an attempt leaves of the tables.
  ghost predicate ClosedRows(db: Db, db': Db, id: AttemptId, outcome: Outcome, reason: Reason, proof: Option<EvidenceRow>, now: Time)
    requires id in db.attempts && id.app in db.applications
  {
    var a, app := db.attempts[id], db.applications[id.app];
    && id in db'.attempts && db'.attempts == db.attempts[id := db'.attempts[id]]
    && ClosedAttempt(a, db'.attempts[id], outcome, reason, proof, now)
    && id.app in db'.applications && db'.applications == db.applications[id.app := db'.applications[id.app]]
    && EndsAs(outcome, db'.attempts[id].status, db'.applications[id.app].status)
    && db'.applications[id.app] == app.(
         status := db'.applications[id.app].status, preparedRevision := None, approvedAt := None, approvalSource := None,
         needsReviewReason := if outcome in {NeedsReview, Unknown, FailedBeforeCommit} then Some(reason) else app.needsReviewReason)
    && (app.jobId in db.jobs ==>
          db'.jobs == db.jobs[app.jobId := db.jobs[app.jobId].(status := db'.applications[id.app].status)])
    && (a.binding.key in db.commands && db.commands[a.binding.key].attempt == id ==>
          db'.commands == db.commands[a.binding.key := db.commands[a.binding.key].(
            state := CommandCompleted, completedAt := Some(now), lease := None, lastError := db'.attempts[id].reason)])
    && db'.permits == db.permits
    && db'.evidence == (if outcome == ConfirmedSubmitted && proof.Some? then db.evidence + {proof.value} else db.evidence)
  }

  lemma TransitionExactly(stage: Stage, outcome: Outcome)
    ensures CanTransition(stage, Finished, Some(outcome)) <==> MayEnd(stage, outcome)
    ensures MayEnd(stage, outcome) ==>
              var status := ProjectLegacyStatus(Finished, Some(outcome)); status.Ok? && EndsAs(outcome, status.value, FinishedStatus(outcome))
  {
  }

  lemma ConfirmationExactly(id: AttemptId, a: Attempt, reason: Reason, proof: EvidenceRow, now: Time)
    ensures TakesConfirmation(id, FinishedRow(a, StatusSuccess, ConfirmedSubmitted, reason, Some(proof), now), proof)
       <==> Confirmable(id, a, proof, now)
  {
    hide Schema.BindingEvidenceCheck;
  }

  /** An attempt is closed with an outcome exactly when its stage allows it and a confirmation has evidence that matches it; otherwise
      nothing changes. Attempt, application, job and command end together as the outcome says, and permits stay. */
  lemma FinishesExactlyWhenAllowed(
    db: Db, id: AttemptId, outcome: Outcome, reason: Reason, proof: Option<EvidenceRow>, now: Time)
    ensures var db' := FinishAttempt(db, id, outcome, reason, proof, now);
      && (MayFinish(db, id, outcome, proof, now) ==> ClosedRows(db, db', id, outcome, reason, proof, now))
      && (!MayFinish(db, id, outcome, proof, now) ==> db' == db)
  {
    if id in db.attempts && id.app in db.applications {
      var a := db.attempts[id];
      TransitionExactly(a.stage, outcome);
      if proof.Some? { ConfirmationExactly(id, a, reason, proof.value, now); }
      hide ClosedRows, MayEnd, Confirmable;
      if MayFinish(db, id, outcome, proof, now) {
        FinishingRows(db, id, outcome, reason, proof, now);
        hide FinishAttempt;
      } else {
        hide FinishedRow, ClosedApplication, TakesConfirmation, InvalidatePlan, CanTransition, ProjectLegacyStatus;
      }
    }
  }

  lemma FinishingRow(a: Attempt, status: SubmissionStatus, outcome: Outcome, reason: Reason, proof: Option<EvidenceRow>, now: Time)
    requires outcome == ConfirmedSubmitted ==> proof.Some?
    ensures var a' := FinishedRow(a, status, outcome, reason, proof, now); ClosedAttempt(a, a', outcome, reason, proof, now) && a'.status == status
  {
  }

  lemma FinishingRows(db: Db, id: AttemptId, outcome: Outcome, reason: Reason, proof: Option<EvidenceRow>, now: Time)
    requires id in db.attempts && id.app in db.applications && CanTransition(db.attempts[id].stage, Finished, Some(outcome))
    requires var status := ProjectLegacyStatus(Finished, Some(outcome)); status.Ok? && EndsAs(outcome, status.value, FinishedStatus(outcome))
    requires outcome == ConfirmedSubmitted ==>
               proof.Some? && ProjectLegacyStatus(Finished, Some(outcome)).value == StatusSuccess
               && TakesConfirmation(id, FinishedRow(db.attempts[id], StatusSuccess, outcome, reason, proof, now), proof.value)
    ensures ClosedRows(db, FinishAttempt(db, id, outcome, reason, proof, now), id, outcome, reason, proof, now)
  {
    FinishingRow(db.attempts[id], ProjectLegacyStatus(Finished, Some(outcome)).value, outcome, reason, proof, now);
    hide FinishedRow, ClosedAttempt, TakesConfirmation, InvalidatePlan, CanTransition, ProjectLegacyStatus, EndsAs, FinishedStatus;
  }

  // ---------- inspecting and preparing ----------

  // The observation is a plan of valid lifetime for the application as it is: its revision, its selected CV and its profile.
  ghost predicate Observable(db: Db, appId: Id, o: Observation, now: Time)
    requires appId in db.applications
  {
    var app, p := db.applications[appId], o.plan;
    && p.createdAt < p.expiresAt <= p.createdAt + 1800 && now < p.expiresAt
    && app.jobId in db.jobs && p.applicationId == appId && p.revision == (if app.revision == 0 then 1 else app.revision)
    && app.selectedCvId == Some(p.selectedCvId) && p.selectedCvId != "" && app.selectedCvHash == Some(p.selectedCvHash) && p.selectedCvHash != ""
    && app.profileVersion == p.profileVersion && o.adapter.None? && o.answers.None?
    && (o.planId in db.plans ==> db.plans[o.planId].applicationId == appId)
  }

  // The observed plan is the one live plan of the application, and nothing is approved any more.
  ghost predicate Inspected(db: Db, db': Db, appId: Id, o: Observation)
    requires appId in db.applications
  {
    && db' == db.(applications := db'.applications, plans := db'.plans)
    && db'.applications == db.applications[appId := db.applications[appId].(preparedRevision := None, approvedAt := None, approvalSource := None)]
    && db'.plans.Keys == db.plans.Keys + {o.planId}
    && db'.plans[o.planId] == o.plan.(invalidatedAt := None, invalidationReason := None)
    && forall i :: i in db.plans && i != o.planId ==>
         if db.plans[i].applicationId == appId then db'.plans[i].invalidatedAt.Some? else db'.plans[i] == db.plans[i]
  }

  /** An inspection is persisted exactly when the application may change and the observation is about it as it is. A plan already on record
      changes nothing; a new one becomes the only live plan and voids the approval. */
  lemma InspectsExactlyWhenObservable(db: Db, appId: Id, o: Observation, now: Time)
    ensures PersistPlan(db, appId, o, now).Ok? <==> MayChange(db, appId, ContentIntent, None) && Observable(db, appId, o, now)
    ensures PersistPlan(db, appId, o, now).Ok? ==>
              var db' := PersistPlan(db, appId, o, now).value;
              if o.planId in db.plans then db' == db else Inspected(db, db', appId, o)
  {
    LockGrantedExactly(db, appId, ContentIntent, None);
    LockFindsApplication(db, appId, ContentIntent);
    if appId in db.applications {
      ObservesExactly(db, appId, o, now);
      hide LockRefusal, MayChange, ObservationRefusal, Observable, InvalidatePlans, Inspected;
      if PersistPlan(db, appId, o, now).Ok? && o.planId !in db.plans { InspectedRows(db, appId, o, now); }
    }
    hide MayChange, LockRefusal, Observable, ObservationRefusal, Inspected, InvalidatePlans;
  }

  lemma InspectedRows(db: Db, appId: Id, o: Observation, now: Time)
    requires PersistPlan(db, appId, o, now).Ok? && o.planId !in db.plans && appId in db.applications
    ensures Inspected(db, PersistPlan(db, appId, o, now).value, appId, o)
  {
    hide LockRefusal, ObservationRefusal;
  }

  lemma ObservesExactly(db: Db, appId: Id, o: Observation, now: Time)
    requires appId in db.applications
    ensures ObservationRefusal(db, db.applications[appId], appId, o, now).None? <==> Observable(db, appId, o, now)
  {
  }

  // The application is prepared at its revision, and its job is a draft with it.
  ghost predicate PreparedNow(db: Db, db': Db, appId: Id, source: string, now: Time)
    requires appId in db.applications
  {
    var app := db.applications[appId];
    var revision := if app.revision < 1 then 1 else app.revision;
    && db' == db.(applications := db'.applications, jobs := db'.jobs)
    && db'.applications == db.applications[appId := app.(
         status := JobDraft, approvedAt := Some(now), approvalSource := Some(source), revision := revision, preparedRevision := Some(revision))]
    && db'.jobs == (if app.jobId in db.jobs then db.jobs[app.jobId := db.jobs[app.jobId].(status := JobDraft)] else db.jobs)
  }

  predicate PreparedAlready(app: Application) {
    app.approvedAt.Some? && app.preparedRevision == Some(if app.revision < 1 then 1 else app.revision)
  }

  /** An application is prepared exactly when it may change and its status can be reviewed; one that is prepared already stays as it is. */
  lemma PreparesExactlyWhenReviewable(db: Db, appId: Id, source: string, allowed: set<JobStatus>, now: Time)
    ensures Prepare(db, appId, source, allowed, now).Ok? <==>
            MayChange(db, appId, PrepareIntent, None) && db.applications[appId].status in allowed
    ensures Prepare(db, appId, source, allowed, now).Ok? ==>
              var db' := Prepare(db, appId, source, allowed, now).value;
              if PreparedAlready(db.applications[appId]) then db' == db else PreparedNow(db, db', appId, source, now)
  {
    LockGrantedExactly(db, appId, PrepareIntent, None);
    LockFindsApplication(db, appId, PrepareIntent);
    hide LockRefusal, MayChange;
  }

  // ---------- editing and moving on ----------

  /** Private content is replaced exactly when the application may change, and then everything prepared with the old content is void. */
  lemma EditVoidsPreparation(db: Db, appId: Id, content: Content, reason: Reason, now: Time)
    ensures EditContent(db, appId, content, reason, now).Ok? <==> MayChange(db, appId, ContentIntent, None)
    ensures EditContent(db, appId, content, reason, now).Ok? ==>
              var db' := EditContent(db, appId, content, reason, now).value;
              && db' == db.(applications := db'.applications, plans := db'.plans) && Voided(db, db', appId)
              && db'.applications == db.applications[appId := db.applications[appId].(
                   revision := db'.applications[appId].revision, preparedRevision := None, approvedAt := None, approvalSource := None,
                   selectedCvId := content.selectedCvId, selectedCvHash := content.selectedCvHash, profileVersion := content.profileVersion)]
  {
    LockGrantedExactly(db, appId, ContentIntent, None);
    LockFindsApplication(db, appId, ContentIntent);
    hide LockRefusal, MayChange;
  }

  /** A pending command is claimed exactly while its attempt is still queued, and takes the attempt into inspection. */
  lemma ClaimsExactlyWhenQueued(db: Db, key: string, owner: string, token: string, now: Time)
    ensures var db' := ClaimCommand(db, key, owner, token, now);
      if key in db.commands && db.commands[key].state == CommandPending && db.commands[key].attempt in db.attempts
         && db.attempts[db.commands[key].attempt].stage == Queued
      then
        var id := db.commands[key].attempt;
        db' == db.(
          commands := db.commands[key := db.commands[key].(state := CommandClaimed, lease := Some(Lease(now, owner, token)))],
          attempts := db.attempts[id := db.attempts[id].(stage := Inspecting, status := StatusPending)])
      else db' == db
  {
  }

  // The stages a worker may move an attempt to without crossing the boundary or ending it.
  predicate MayMove(from: Stage, to: Stage) {
    match to
    case Inspecting => from == Queued
    case Preparing => from == Inspecting
    case Ready => from in {Inspecting, Preparing}
    case Verifying => from == Committing
    case _ => false
  }

  /** An attempt moves on exactly along these stages; it is reported pending before the boundary and running after it. */
  lemma MovesExactlyForward(db: Db, id: AttemptId, target: Stage)
    ensures var db' := Advance(db, id, target);
      if id in db.attempts && MayMove(db.attempts[id].stage, target)
      then db' == db.(attempts := db.attempts[id := db.attempts[id].(
                        stage := target, status := if target == Verifying then StatusRunning else StatusPending)])
      else db' == db
  {
  }

  /** A policy decision prepares a draft application, once, and is stored with it; on anything else it has no effect. */
  lemma PolicyPreparesExactly(db: Db, appId: Id, decisionId: Id, decision: PolicyDecision, now: Time)
    ensures var db' := PrepareByPolicy(db, appId, decisionId, decision, now);
      if appId in db.applications && db.applications[appId].status == JobDraft && decisionId !in db.decisions
      then
        var app := db.applications[appId];
        var revision := if app.revision < 1 then 1 else app.revision;
        db' == db.(
          applications := db.applications[appId := app.(
            approvedAt := Some(now), approvalSource := Some("qualified_autopilot_policy"), revision := revision, preparedRevision := Some(revision))],
          decisions := db.decisions[decisionId := decision])
      else db' == db
  {
  }
}
