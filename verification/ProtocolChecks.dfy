/** Every step of the submission protocol keeps the constraints the database enforces, and with them the whole invariant. */
module ProtocolChecks {
  import opened Wrappers
  import opened Records
  import opened Lifecycle
  import opened EmployerTruth
  import opened Schema
  import opened Database
  import opened Admission
  import opened Mutations
  import opened Quarantine
  import opened Protocol
  import opened ProtocolSteps
  import opened FinalAction
  import CanaryChain

  ghost predicate AttemptChecked(db: Db, id: AttemptId)
    requires id in db.attempts
  {
    var a := db.attempts[id];
    RowChecks(a) && EvidenceKey(db.evidence, id, a) && DecisionKey(db.decisions, a.binding) && CanaryKey(db.canaries, a.binding)
  }

  // Row constraints and foreign keys of the attempt, command and evidence tables.
  ghost predicate ChecksOk(db: Db) {
    && (forall id :: id in db.attempts ==> AttemptChecked(db, id))
    && (forall k :: k in db.commands ==> CommandCheck(db.commands[k]))
    && (forall row :: row in db.evidence ==> EvidenceChecks(row))
  }

  // Every stored plan lives at most thirty minutes.
  ghost predicate PlansTimed(plans: map<string, FormPlan>) { forall i :: i in plans ==> ValidPlanLifetime(plans[i]) }

  ghost predicate Inv(db: Db) { CoreOk(db) && ChecksOk(db) && PlansTimed(db.plans) }

  lemma InvIsCore(db: Db)
    requires Inv(db)
    ensures CoreOk(db) && ChecksOk(db) && PlansTimed(db.plans)
  {
  }

  // ---------- what carries over ----------

  // Rows that attempts refer to are still there under the same digests.
  ghost predicate ReferencesKeep(db: Db, db': Db) {
    && db.evidence <= db'.evidence
    && (forall i :: i in db.decisions ==> i in db'.decisions && db'.decisions[i].digest == db.decisions[i].digest)
    && (forall i :: i in db.canaries ==> i in db'.canaries && db'.canaries[i].digest == db.canaries[i].digest)
  }

  // The attempt keeps its evidence columns, and its other columns still meet their constraints.
  ghost predicate RowCarries(a: Attempt, a': Attempt) {
    && a'.binding == a.binding && a'.verificationKind == a.verificationKind && a'.evidenceDigest == a.evidenceDigest
    && (RowChecks(a) ==> RowChecks(a'))
  }

  lemma CheckedCarries(db: Db, db': Db, id: AttemptId)
    requires id in db.attempts && id in db'.attempts && AttemptChecked(db, id)
    requires ReferencesKeep(db, db') && RowCarries(db.attempts[id], db'.attempts[id])
    ensures AttemptChecked(db', id)
  {
    hide RowChecks;
    var a, a' := db.attempts[id], db'.attempts[id];
    if row :| row in db.evidence && Proves(row, id, a) { assert row in db'.evidence && Proves(row, id, a'); }
  }

  lemma ChecksCarry(db: Db, db': Db)
    requires ChecksOk(db) && ReferencesKeep(db, db')
    requires forall id :: id in db'.attempts ==> id in db.attempts && RowCarries(db.attempts[id], db'.attempts[id])
    requires forall k :: k in db'.commands ==> CommandCheck(db'.commands[k])
    requires db'.evidence == db.evidence
    ensures ChecksOk(db')
  {
    hide RowCarries, AttemptChecked, ReferencesKeep;
    forall id | id in db'.attempts ensures AttemptChecked(db', id) { CheckedCarries(db, db', id); }
  }

  lemma SameRowCarries(a: Attempt)
    ensures RowCarries(a, a)
  {
  }

  // Steps that write neither attempts nor commands nor evidence.
  lemma OtherTablesCarry(db: Db, db': Db)
    requires ChecksOk(db) && ReferencesKeep(db, db')
    requires db'.attempts == db.attempts && db'.commands == db.commands && db'.evidence == db.evidence
    ensures ChecksOk(db')
  {
    hide RowCarries, AttemptChecked, ReferencesKeep, CommandCheck;
    forall id | id in db'.attempts ensures RowCarries(db.attempts[id], db'.attempts[id]) { SameRowCarries(db.attempts[id]); }
    ChecksCarry(db, db');
  }

  lemma SameReferences(db: Db, db': Db)
    requires db'.evidence == db.evidence && db'.decisions == db.decisions && db'.canaries == db.canaries
    ensures ReferencesKeep(db, db')
  {
  }

  // One attempt changes, and perhaps its command.
  lemma OneAttemptCarries(db: Db, db': Db, id: AttemptId, key: Option<string>)
    requires ChecksOk(db) && id in db.attempts && ReferencesKeep(db, db') && db'.evidence == db.evidence
    requires id in db'.attempts && db'.attempts == db.attempts[id := db'.attempts[id]] && RowCarries(db.attempts[id], db'.attempts[id])
    requires key.None? ==> db'.commands == db.commands
    requires key.Some? ==> key.value in db'.commands && db'.commands == db.commands[key.value := db'.commands[key.value]]
                           && CommandCheck(db'.commands[key.value])
    ensures ChecksOk(db')
  {
    hide RowCarries, AttemptChecked, ReferencesKeep, CommandCheck;
    forall x | x in db'.attempts ensures x in db.attempts && RowCarries(db.attempts[x], db'.attempts[x]) {
      if x != id { SameRowCarries(db.attempts[x]); }
    }
    ChecksCarry(db, db');
  }

  // ---------- steps of the application writers ----------

  lemma PrepareChecks(db: Db, appId: Id, source: string, allowed: set<JobStatus>, now: Time)
    requires ChecksOk(db) && Prepare(db, appId, source, allowed, now).Ok?
    ensures ChecksOk(Prepare(db, appId, source, allowed, now).value)
  {
    PrepareTables(db, appId, source, allowed, now);
    hide ChecksOk, Prepare, ReferencesKeep;
    var db' := Prepare(db, appId, source, allowed, now).value;
    SameReferences(db, db');
    OtherTablesCarry(db, db');
  }

  lemma PrepareTables(db: Db, appId: Id, source: string, allowed: set<JobStatus>, now: Time)
    requires Prepare(db, appId, source, allowed, now).Ok?
    ensures SameProtocolTables(db, Prepare(db, appId, source, allowed, now).value)
  {
    hide LockRefusal, SetJobStatus, SameProtocolTables;
    var db' := Prepare(db, appId, source, allowed, now).value;
    LockFindsApplication(db, appId, PrepareIntent);
    assert db' == db.(applications := db'.applications, jobs := db'.jobs);
    ApartFromJobs(db, db');
  }

  lemma ApartFromJobs(db: Db, db': Db)
    requires db' == db.(applications := db'.applications, jobs := db'.jobs)
    ensures SameProtocolTables(db, db')
  {
  }

  ghost predicate SameProtocolTables(db: Db, db': Db) {
    && db'.attempts == db.attempts && db'.commands == db.commands && db'.evidence == db.evidence
    && db'.decisions == db.decisions && db'.canaries == db.canaries
  }

  lemma PolicyPrepareChecks(db: Db, appId: Id, decisionId: Id, decision: PolicyDecision, now: Time)
    requires ChecksOk(db)
    ensures ChecksOk(PrepareByPolicy(db, appId, decisionId, decision, now))
  {
    hide ChecksOk;
    var db' := PrepareByPolicy(db, appId, decisionId, decision, now);
    assert ReferencesKeep(db, db');
    OtherTablesCarry(db, db');
  }

  lemma EditChecks(db: Db, appId: Id, content: Content, reason: Reason, now: Time)
    requires ChecksOk(db) && EditContent(db, appId, content, reason, now).Ok?
    ensures ChecksOk(EditContent(db, appId, content, reason, now).value)
  {
    hide ChecksOk, LockRefusal, InvalidatePlans;
    LockFindsApplication(db, appId, ContentIntent);
    var db' := EditContent(db, appId, content, reason, now).value;
    SameReferences(db, db');
    OtherTablesCarry(db, db');
  }

  lemma PersistChecks(db: Db, appId: Id, o: Observation, now: Time)
    requires ChecksOk(db) && PersistPlan(db, appId, o, now).Ok?
    ensures ChecksOk(PersistPlan(db, appId, o, now).value)
  {
    hide ChecksOk, LockRefusal, InvalidatePlans, ObservationRefusal;
    LockFindsApplication(db, appId, ContentIntent);
    var db' := PersistPlan(db, appId, o, now).value;
    SameReferences(db, db');
    OtherTablesCarry(db, db');
  }

  lemma CancelledRow(a: Attempt, reason: Reason, now: Time)
    ensures RowCarries(a, CancelAttempt(a, reason, now))
  {
  }

  lemma CancelChecks(db: Db, id: AttemptId, reason: Reason, now: Time)
    requires ChecksOk(db) && id in db.attempts
    ensures ChecksOk(CancelActive(db, id, reason, now))
  {
    hide ChecksOk, RowCarries;
    var db' := CancelActive(db, id, reason, now);
    CancelledRow(db.attempts[id], reason, now);
    SameReferences(db, db');
    OneAttemptCarries(db, db', id, CommandKey(db, id));
  }

  lemma SkipChecks(db: Db, appId: Id, reason: Reason, now: Time)
    requires ChecksOk(db) && Skip(db, appId, reason, now).Ok?
    ensures ChecksOk(Skip(db, appId, reason, now).value)
  {
    var latest := LatestAttempt(db, appId);
    var cancelled := CancelOpen(db, appId, reason, now);
    var db' := Skip(db, appId, reason, now).value;
    assert ChecksOk(cancelled) by {
      hide ChecksOk, CancelActive, Skip;
      if latest.Some? && db.attempts[latest.value].stage != Finished { CancelChecks(db, latest.value, reason, now); }
    }
    SkipTables(db, appId, reason, now);
    hide ChecksOk, Skip, CancelOpen, ReferencesKeep;
    SameReferences(cancelled, db');
    OtherTablesCarry(cancelled, db');
  }

  lemma SkipTables(db: Db, appId: Id, reason: Reason, now: Time)
    requires Skip(db, appId, reason, now).Ok?
    ensures SameProtocolTables(CancelOpen(db, appId, reason, now), Skip(db, appId, reason, now).value)
  {
    hide LockRefusal, MarkJobSkipped, CancelOpen, JobOf, BumpRevision;
    LockFindsApplication(db, appId, TerminalIntent);
    KeptApplications(db, appId, reason, now);
    var cancelled, app, skipped := CancelOpen(db, appId, reason, now), db.applications[appId], Skip(db, appId, reason, now).value;
    BumpTables(cancelled, appId, reason, now);
    var bumped := BumpRevision(cancelled, appId, reason, now);
    if skipped == bumped.(applications := skipped.applications, jobs := skipped.jobs) {
      hide Skip;
    } else {
      assert cancelled == db && skipped == db.(jobs := skipped.jobs);
      hide Skip;
    }
  }

  lemma KeptApplications(db: Db, appId: Id, reason: Reason, now: Time)
    ensures CancelOpen(db, appId, reason, now).applications == db.applications
  {
  }

  lemma BumpTables(db: Db, appId: Id, reason: Reason, now: Time)
    requires appId in db.applications
    ensures SameProtocolTables(db, BumpRevision(db, appId, reason, now))
  {
  }

  // ---------- the worker's steps ----------

  lemma ClaimChecks(db: Db, key: string, owner: string, token: string, now: Time)
    requires ChecksOk(db)
    ensures ChecksOk(ClaimCommand(db, key, owner, token, now))
  {
    var db' := ClaimCommand(db, key, owner, token, now);
    if db' != db {
      var id := db.commands[key].attempt;
      assert CommandCheck(db.commands[key]) && AttemptChecked(db, id);
      StagedRow(db.attempts[id], Inspecting, StatusPending);
      hide ChecksOk, RowCarries;
      SameReferences(db, db');
      OneAttemptCarries(db, db', id, Some(key));
    }
  }

  // An unfinished attempt moves to another unfinished stage.
  lemma StagedRow(a: Attempt, stage: Stage, status: SubmissionStatus)
    requires stage != Finished && status != StatusSuccess && a.stage != Finished
    ensures RowCarries(a, a.(stage := stage, status := status))
  {
  }

  lemma AdvanceChecks(db: Db, id: AttemptId, target: Stage)
    requires CoreOk(db) && ChecksOk(db)
    ensures ChecksOk(Advance(db, id, target))
  {
    var db' := Advance(db, id, target);
    if db' != db {
      OnlyConfirmedIsGreen(target, None);
      LeavesUnfinished(db.attempts[id].stage, target);
      StagedRow(db.attempts[id], target, db'.attempts[id].status);
      hide ChecksOk, RowCarries, CoreOk;
      SameReferences(db, db');
      OneAttemptCarries(db, db', id, None);
    }
  }

  lemma LeavesUnfinished(s: Stage, target: Stage)
    ensures CanTransition(s, target, None) && target != Finished ==> s != Finished
  {
  }

  lemma CommittedRow(a: Attempt, now: Time)
    requires a.stage != Finished && a.outcome.None?
    ensures RowCarries(a, a.(stage := Committing, status := StatusRunning, finalActionAt := Some(now)))
  {
  }

  lemma RecordCommitChecks(db: Db, id: AttemptId, key: string, now: Time)
    requires ChecksOk(db) && id in db.attempts && id in db.permits && db.attempts[id].stage == Ready && db.attempts[id].outcome.None?
    requires key in db.commands && db.commands[key].state == CommandClaimed && db.commands[key].lease.Some?
    ensures ChecksOk(RecordCommit(db, id, key, now))
  {
    assert CommandCheck(db.commands[key]);
    hide ChecksOk, RowCarries;
    var db' := RecordCommit(db, id, key, now);
    CommittedRow(db.attempts[id], now);
    SameReferences(db, db');
    OneAttemptCarries(db, db', id, Some(key));
  }

  lemma BoundaryChecks(db: Db, v: Boundary, now: Time)
    requires CoreOk(db) && ChecksOk(db)
    ensures ChecksOk(EnterBoundary(db, v, now))
  {
    VerdictNeedsClaim(db, v, now);
    hide ChecksOk, BoundaryVerdict, RecordCommit, FinishAttempt, AtBoundary, LinksOk, RevisionsOk, OneBusy;
    match BoundaryVerdict(db, v, now)
    case Superseded =>
    case Rejected(reason, at) => FinishChecks(db, db.commands[v.key].attempt, FailedBeforeCommit, reason, None, at);
    case Cleared =>
      var id := db.commands[v.key].attempt;
      ClearedIsReady(db, v, now);
      ReadyAtBoundary(db, id);
      assert AttemptOk(db.attempts, id);
      RecordCommitChecks(db, id, v.key, now);
  }

  lemma ClosedRow(a: Attempt, status: SubmissionStatus, outcome: Outcome, reason: Reason, proof: Option<EvidenceRow>, now: Time)
    requires outcome != ConfirmedSubmitted && status != StatusSuccess
    ensures RowCarries(a, FinishedRow(a, status, outcome, reason, proof, now))
  {
  }

  lemma ConfirmedRow(db: Db, id: AttemptId, reason: Reason, proof: EvidenceRow, now: Time)
    requires id in db.attempts && AttemptChecked(db, id)
    requires TakesConfirmation(id, FinishedRow(db.attempts[id], StatusSuccess, ConfirmedSubmitted, reason, Some(proof), now), proof)
    ensures EvidenceChecks(proof)
    ensures var a := FinishedRow(db.attempts[id], StatusSuccess, ConfirmedSubmitted, reason, Some(proof), now);
      && RowChecks(a) && EvidenceKey(db.evidence + {proof}, id, a) && DecisionKey(db.decisions, a.binding) && CanaryKey(db.canaries, a.binding)
  {
    hide BindingEvidenceCheck, EvidenceChecks;
    assert proof in db.evidence + {proof};
  }

  lemma FinishChecks(db: Db, id: AttemptId, outcome: Outcome, reason: Reason, proof: Option<EvidenceRow>, now: Time)
    requires ChecksOk(db)
    ensures ChecksOk(FinishAttempt(db, id, outcome, reason, proof, now))
  {
    hide SetJobStatus, InvalidatePlan, ClosedApplication, AttemptChecked, TakesConfirmation, FinishedRow;
    var db' := FinishAttempt(db, id, outcome, reason, proof, now);
    if db' != db {
      OnlyConfirmedIsGreen(Finished, Some(outcome));
      assert AttemptChecked(db, id);
      var key, status := CommandKey(db, id), ProjectLegacyStatus(Finished, Some(outcome)).value;
      if outcome == ConfirmedSubmitted {
        ConfirmedRow(db, id, reason, proof.value, now);
        ConfirmedCarries(db, db', id, proof.value, key);
      } else {
        ClosedRow(db.attempts[id], status, outcome, reason, proof, now);
        hide ChecksOk, RowCarries;
        SameReferences(db, db');
        OneAttemptCarries(db, db', id, key);
      }
    }
  }

  lemma ConfirmedCarries(db: Db, db': Db, id: AttemptId, proof: EvidenceRow, key: Option<string>)
    requires ChecksOk(db) && id in db.attempts && id in db'.attempts && db'.attempts == db.attempts[id := db'.attempts[id]]
    requires db'.evidence == db.evidence + {proof} && EvidenceChecks(proof)
    requires db'.decisions == db.decisions && db'.canaries == db.canaries
    requires var a := db'.attempts[id];
      RowChecks(a) && EvidenceKey(db'.evidence, id, a) && DecisionKey(db'.decisions, a.binding) && CanaryKey(db'.canaries, a.binding)
    requires key.None? ==> db'.commands == db.commands
    requires key.Some? ==> key.value in db'.commands && db'.commands == db.commands[key.value := db'.commands[key.value]]
                           && CommandCheck(db'.commands[key.value])
    ensures ChecksOk(db')
  {
    assert AttemptChecked(db', id);
    hide AttemptChecked, CommandCheck, EvidenceChecks;
    forall x | x in db'.attempts ensures AttemptChecked(db', x) {
      if x != id {
        SameRowCarries(db.attempts[x]);
        CheckedCarries(db, db', x);
      }
    }
  }

  // ---------- restore ----------

  lemma RestoredRow(id: AttemptId, a: Attempt, permitConsumed: bool, evidence: set<EvidenceRow>, now: Time)
    ensures RowCarries(a, QuarantineAttempt(id, a, permitConsumed, evidence, now))
  {
    hide AttemptIsOpen;
  }

  lemma RestoreChecks(db: Db, now: Time)
    requires ChecksOk(db)
    ensures ChecksOk(Quarantine.Quarantine(db, now))
  {
    hide AttemptChecked, RowCarries, QuarantineAttempt, MovedApplications, MovedJobs, QuarantinePolicies, QuarantineInspections,
      QuarantinePlans, QuarantinePermits;
    var db' := Quarantine.Quarantine(db, now);
    SameReferences(db, db');
    forall id | id in db'.attempts ensures id in db.attempts && RowCarries(db.attempts[id], db'.attempts[id]) {
      RestoredRow(id, db.attempts[id], PermitConsumed(db, id), db.evidence, now);
    }
    forall k | k in db'.commands ensures CommandCheck(db'.commands[k]) { assert CommandCheck(db.commands[k]); }
    ChecksCarry(db, db');
  }

  // ---------- admission ----------

  lemma AuthorityRows(db: Db, app: Application, plan: FormPlan, r: Request, s: Surroundings, release: string, now: Time, d: CanaryChain.Descriptor)
    requires ResolveAuthority(db, app, plan, r, s, release, now).Ok?
    ensures var b := NewBinding(r, plan, d, ResolveAuthority(db, app, plan, r, s, release, now).value, release);
      AuthorityCheck(b) && DecisionKey(db.decisions, b) && CanaryKey(db.canaries, b)
  {
    hide CanaryChain.Validate;
  }

  lemma GroundedRows(db: Db, r: Request, s: Surroundings, now: Time)
    requires Grounded(db, r, s, now).Ok?
    ensures var b := Grounded(db, r, s, now).value.binding; AuthorityCheck(b) && DecisionKey(db.decisions, b) && CanaryKey(db.canaries, b)
  {
    hide Ineligible, InvalidPlan, InvalidAdapter, IssuePermit, ResolveAuthority, NewBinding;
    var app := db.applications[r.appId];
    var refusal := InvalidPlan(app, if r.planId in db.plans then Some(db.plans[r.planId]) else None, r, s, now);
    ValidPlanExists(app, if r.planId in db.plans then Some(db.plans[r.planId]) else None, r, s, now);
    ValidAdapterExists(s.descriptor, db.plans[r.planId]);
    AuthorityRows(db, app, db.plans[r.planId], r, s, s.runtime.value, now, s.descriptor.value);
  }

  lemma InsertChecks(db: Db, r: Request, g: Grounds, now: Time)
    requires ChecksOk(db) && AuthorityCheck(g.binding) && DecisionKey(db.decisions, g.binding) && CanaryKey(db.canaries, g.binding)
    requires g.consumesCanary ==> r.canaryId.Some? && r.canaryId.value in db.canaries
    ensures ChecksOk(Insert(db, r, g, now).0)
  {
    hide AttemptChecked, RowCarries, LastNumber, DecisionKey, CanaryKey, AuthorityCheck, EvidenceChecks;
    var db' := Insert(db, r, g, now).0;
    var id := Insert(db, r, g, now).1.attempt;
    InsertReferences(db, r, g, now);
    hide ReferencesKeep;
    NewRowChecked(db', id, g.binding);
    forall x | x in db'.attempts ensures AttemptChecked(db', x) {
      if x != id {
        SameRowCarries(db.attempts[x]);
        CheckedCarries(db, db', x);
      }
    }
  }

  lemma InsertReferences(db: Db, r: Request, g: Grounds, now: Time)
    requires g.consumesCanary ==> r.canaryId.Some? && r.canaryId.value in db.canaries
    ensures var db' := Insert(db, r, g, now).0;
      ReferencesKeep(db, db') && (CanaryKey(db.canaries, g.binding) ==> CanaryKey(db'.canaries, g.binding))
  {
    hide LastNumber;
  }

  lemma NewRowChecked(db: Db, id: AttemptId, b: Binding)
    requires id in db.attempts && db.attempts[id] == NewAttempt(b)
    requires AuthorityCheck(b) && DecisionKey(db.decisions, b) && CanaryKey(db.canaries, b)
    ensures AttemptChecked(db, id)
  {
    hide AuthorityCheck;
  }

  lemma AdmissionChecks(db: Db, r: Request, s: Surroundings, now: Time)
    requires ChecksOk(db) && CreateOne(db, r, s, now).Ok?
    ensures ChecksOk(CreateOne(db, r, s, now).value.0)
  {
    hide ChecksOk, Grounded, Insert, FindReplay, AuthorityCheck, DecisionKey, CanaryKey;
    if FindReplay(db, r) == Ok(None) {
      GroundedRows(db, r, s, now);
      InsertChecks(db, r, Grounded(db, r, s, now).value, now);
    }
  }

  lemma AdmissionKeeps(db: Db, r: Request, s: Surroundings, now: Time)
    requires Inv(db) && CreateOne(db, r, s, now).Ok?
    ensures Inv(CreateOne(db, r, s, now).value.0) && Extends(db, CreateOne(db, r, s, now).value.0)
  {
    InvIsCore(db);
    OneAdmittedAside(db, r, s, now);
    hide CoreOk, ChecksOk, CreateOne, Extends, PlansTimed;
    CreateOneKeeps(db, r, s, now);
    AdmissionChecks(db, r, s, now);
  }

  lemma OneAdmittedAside(db: Db, r: Request, s: Surroundings, now: Time)
    requires CreateOne(db, r, s, now).Ok?
    ensures var db' := CreateOne(db, r, s, now).value.0; db'.decisions == db.decisions && db'.policies == db.policies && db'.plans == db.plans
  {
    hide Grounded, FindReplay, Insert;
    if FindReplay(db, r) == Ok(None) { InsertAside(db, r, Grounded(db, r, s, now).value, now); }
  }

  lemma InsertAside(db: Db, r: Request, g: Grounds, now: Time)
    requires g.consumesCanary ==> r.canaryId.Some? && r.canaryId.value in db.canaries
    ensures var db' := Insert(db, r, g, now).0; db'.decisions == db.decisions && db'.policies == db.policies && db'.plans == db.plans
  {
    hide LastNumber;
  }

  lemma {:induction false} CreateAllChecks(db: Db, items: seq<Item>, now: Time)
    requires ChecksOk(db) && CreateAll(db, items, now).Ok?
    ensures ChecksOk(CreateAll(db, items, now).value.0)
    decreases |items|
  {
    hide CreateOne, ChecksOk;
    if items != [] {
      AdmissionChecks(db, items[0].request, items[0].surroundings, now);
      CreateAllChecks(CreateOne(db, items[0].request, items[0].surroundings, now).value.0, items[1..], now);
    }
  }

  // ---------- every step ----------

  // Records may be added and spent; their digests stay.
  lemma RecordChecks(db: Db, e: Event, now: Time)
    requires ChecksOk(db)
    ensures ChecksOk(RecordStep(db, e, now))
  {
    var db' := RecordStep(db, e, now);
    assert ReferencesKeep(db, db') by { RecordReferences(db, e, now); }
    hide ChecksOk, RecordStep, ReferencesKeep;
    OtherTablesCarry(db, db');
  }

  lemma RecordReferences(db: Db, e: Event, now: Time)
    ensures ReferencesKeep(db, RecordStep(db, e, now))
  {
    hide CanaryChain.Mint, CanaryChain.RecordDryRun, CanaryChain.ConfirmLive;
    if e.MintCanary? && e.appId in db.applications && e.planId in db.plans {
      MintAdds(db, e.newId, e.dryRunId, e.nonce, e.appId, db.applications[e.appId], e.planId, db.plans[e.planId], e.site, e.release, now);
    }
  }

  lemma MintAdds(
    db: Db, id: Id, dryRunId: Option<Id>, nonce: string, appId: Id, app: Application, planId: string, plan: FormPlan,
    site: CanaryChain.Site, release: string, now: Time)
    ensures var r := CanaryChain.Mint(db, id, dryRunId, nonce, appId, app, planId, plan, site, release, now);
      r.Ok? ==> id in r.value.canaries && r.value.canaries == db.canaries[id := r.value.canaries[id]]
  {
    hide CanaryChain.DescriptorMatchesPlan, CanaryChain.QualifiesMint, CanaryChain.HasActive;
  }

  lemma StepChecks(db: Db, e: Event, now: Time)
    requires CoreOk(db) && ChecksOk(db)
    ensures ChecksOk(Step(db, e, now))
  {
    hide CoreOk, ChecksOk, CreateAll, Prepare, PrepareByPolicy, EditContent, Skip, PersistPlan, ClaimCommand, Advance,
      EnterBoundary, FinishAttempt, Quarantine.Quarantine, InApplicationOrder, RecordStep;
    match e
    case Admit(items, process) =>
      if CreateBatch(db, items, process, now).Ok? { CreateAllChecks(db, InApplicationOrder(items), now); }
    case PrepareApplication(appId, source, allowed) =>
      if Prepare(db, appId, source, allowed, now).Ok? { PrepareChecks(db, appId, source, allowed, now); }
    case PolicyPrepare(appId, decisionId, decision) => PolicyPrepareChecks(db, appId, decisionId, decision, now);
    case Edit(appId, content, reason) =>
      if EditContent(db, appId, content, reason, now).Ok? { EditChecks(db, appId, content, reason, now); }
    case SkipApplication(appId, reason) =>
      if Skip(db, appId, reason, now).Ok? { SkipChecks(db, appId, reason, now); }
    case Inspect(appId, observation) =>
      if PersistPlan(db, appId, observation, now).Ok? { PersistChecks(db, appId, observation, now); }
    case Claim(key, owner, token) => ClaimChecks(db, key, owner, token, now);
    case Move(id, target) => AdvanceChecks(db, id, target);
    case Commit(boundary) => BoundaryChecks(db, boundary, now);
    case Finish(id, outcome, reason, proof) => FinishChecks(db, id, outcome, reason, proof, now);
    case Restore => RestoreChecks(db, now);
    case _ => RecordChecks(db, e, now);
  }

  // ---------- what the steps leave aside ----------

  // Policies and decisions are as they were, and a new plan has a valid lifetime.
  ghost predicate Aside(db: Db, db': Db) {
    db'.decisions == db.decisions && db'.policies == db.policies && NewPlansTimed(db.plans, db'.plans)
  }

  ghost predicate NewPlansTimed(plans: map<string, FormPlan>, plans': map<string, FormPlan>) {
    forall i :: i in plans' ==> i in plans || ValidPlanLifetime(plans'[i])
  }

  lemma TimesCarry(plans: map<string, FormPlan>, plans': map<string, FormPlan>)
    requires PlansTimed(plans) && PlansExtend(plans, plans') && NewPlansTimed(plans, plans')
    ensures PlansTimed(plans')
  {
    forall i | i in plans' ensures ValidPlanLifetime(plans'[i]) {
      if i in plans { assert SamePlan(plans[i], plans'[i]); }
    }
  }

  lemma PrepareAside(db: Db, appId: Id, source: string, allowed: set<JobStatus>, now: Time)
    ensures Aside(db, OrUnchanged(db, Prepare(db, appId, source, allowed, now)))
  {
    hide LockRefusal, SetJobStatus;
  }

  lemma EditAside(db: Db, appId: Id, content: Content, reason: Reason, now: Time)
    ensures Aside(db, OrUnchanged(db, EditContent(db, appId, content, reason, now)))
  {
    hide LockRefusal, ValidPlanLifetime;
  }

  lemma BumpAside(db: Db, appId: Id, reason: Reason, now: Time)
    requires appId in db.applications
    ensures Aside(db, BumpRevision(db, appId, reason, now))
  {
    hide ValidPlanLifetime;
  }

  lemma CancelAside(db: Db, appId: Id, reason: Reason, now: Time)
    ensures CancelOpen(db, appId, reason, now).decisions == db.decisions && CancelOpen(db, appId, reason, now).policies == db.policies
    ensures CancelOpen(db, appId, reason, now).plans == db.plans
  {
  }

  lemma SkipAside(db: Db, appId: Id, reason: Reason, now: Time)
    requires Skip(db, appId, reason, now).Ok?
    ensures Aside(db, Skip(db, appId, reason, now).value)
  {
    hide LockRefusal, MarkJobSkipped, CancelOpen, JobOf, BumpRevision, ValidPlanLifetime;
    LockFindsApplication(db, appId, TerminalIntent);
    KeptApplications(db, appId, reason, now);
    CancelAside(db, appId, reason, now);
    var cancelled, skipped := CancelOpen(db, appId, reason, now), Skip(db, appId, reason, now).value;
    BumpAside(cancelled, appId, reason, now);
    var bumped := BumpRevision(cancelled, appId, reason, now);
    if skipped == bumped.(applications := skipped.applications, jobs := skipped.jobs) {
      hide Skip;
    } else {
      assert cancelled == db && skipped == db.(jobs := skipped.jobs);
      hide Skip;
    }
  }

  lemma PersistAside(db: Db, appId: Id, o: Observation, now: Time)
    ensures Aside(db, OrUnchanged(db, PersistPlan(db, appId, o, now)))
  {
    hide LockRefusal;
    LockFindsApplication(db, appId, ContentIntent);
    if PersistPlan(db, appId, o, now).Ok? {
      assert ObservationRefusal(db, db.applications[appId], appId, o, now).None?;
      assert ValidPlanLifetime(o.plan);
    }
    hide ObservationRefusal, ValidPlanLifetime;
    assert ValidPlanLifetime(o.plan) ==> ValidPlanLifetime(o.plan.(invalidatedAt := None, invalidationReason := None)) by {
      SameLifetime(o.plan);
    }
  }

  lemma SameLifetime(p: FormPlan)
    ensures ValidPlanLifetime(p) ==> ValidPlanLifetime(p.(invalidatedAt := None, invalidationReason := None))
  {
  }

  lemma FinishAside(db: Db, id: AttemptId, outcome: Outcome, reason: Reason, proof: Option<EvidenceRow>, now: Time)
    ensures Aside(db, FinishAttempt(db, id, outcome, reason, proof, now))
  {
    hide SetJobStatus, ClosedApplication, FinishedRow, TakesConfirmation, InvalidatePlan, ValidPlanLifetime;
  }

  lemma BoundaryAside(db: Db, v: Boundary, now: Time)
    ensures Aside(db, EnterBoundary(db, v, now))
  {
    VerdictNeedsClaim(db, v, now);
    hide BoundaryVerdict, FinishAttempt, RecordCommit, Aside;
    match BoundaryVerdict(db, v, now)
    case Superseded => SameAside(db, db);
    case Rejected(reason, at) => FinishAside(db, db.commands[v.key].attempt, FailedBeforeCommit, reason, None, at);
    case Cleared =>
      ClearedIsReady(db, v, now);
      RecordingAside(db, db.commands[v.key].attempt, v.key, now);
  }

  lemma RecordingAside(db: Db, id: AttemptId, key: string, now: Time)
    requires id in db.attempts && id in db.permits && key in db.commands && db.commands[key].lease.Some?
    ensures Aside(db, RecordCommit(db, id, key, now))
  {
  }

  lemma SameAside(db: Db, db': Db)
    requires db'.decisions == db.decisions && db'.policies == db.policies && db'.plans == db.plans
    ensures Aside(db, db')
  {
  }

  lemma {:induction false} AdmittingAside(db: Db, items: seq<Item>, now: Time)
    requires CreateAll(db, items, now).Ok?
    ensures var db' := CreateAll(db, items, now).value.0; db'.decisions == db.decisions && db'.policies == db.policies && db'.plans == db.plans
    decreases |items|
  {
    if items != [] {
      hide CreateOne;
      OneAdmittedAside(db, items[0].request, items[0].surroundings, now);
      AdmittingAside(CreateOne(db, items[0].request, items[0].surroundings, now).value.0, items[1..], now);
    }
  }

  lemma ClaimAside(db: Db, key: string, owner: string, token: string, now: Time)
    ensures Aside(db, ClaimCommand(db, key, owner, token, now))
  {
  }

  lemma AdvanceAside(db: Db, id: AttemptId, target: Stage)
    ensures Aside(db, Advance(db, id, target))
  {
    hide CanTransition, ProjectLegacyStatus;
  }

  lemma RestoreAside(db: Db, now: Time)
    ensures var db' := Quarantine.Quarantine(db, now);
      db'.decisions == db.decisions && db'.policies == QuarantinePolicies(db.policies, now) && NewPlansTimed(db.plans, db'.plans)
  {
    hide QuarantinePlan, ValidPlanLifetime;
  }

  // Only an evaluation writes decisions, and only a restore or the policy service writes policies.
  lemma StepAside(db: Db, e: Event, now: Time)
    requires !e.PolicyPrepare? && !e.Restore?
    ensures Aside(db, Step(db, e, now))
  {
    hide CreateAll, Prepare, EditContent, Skip, PersistPlan, ClaimCommand, Advance, EnterBoundary, FinishAttempt, InApplicationOrder,
      RecordStep, Aside;
    SameAside(db, db);
    match e
    case Admit(items, process) =>
      if CreateBatch(db, items, process, now).Ok? {
        AdmittingAside(db, InApplicationOrder(items), now);
        SameAside(db, Step(db, e, now));
      }
    case PrepareApplication(appId, source, allowed) => PrepareAside(db, appId, source, allowed, now);
    case Edit(appId, content, reason) => EditAside(db, appId, content, reason, now);
    case SkipApplication(appId, reason) => if Skip(db, appId, reason, now).Ok? { SkipAside(db, appId, reason, now); }
    case Inspect(appId, observation) => PersistAside(db, appId, observation, now);
    case Claim(key, owner, token) => ClaimAside(db, key, owner, token, now);
    case Move(id, target) => AdvanceAside(db, id, target);
    case Commit(boundary) => BoundaryAside(db, boundary, now);
    case Finish(id, outcome, reason, proof) => FinishAside(db, id, outcome, reason, proof, now);
    case _ => SameAside(db, RecordStep(db, e, now));
  }

  lemma StepPlans(db: Db, e: Event, now: Time)
    ensures NewPlansTimed(db.plans, Step(db, e, now).plans)
  {
    hide Step, Quarantine.Quarantine;
    if e.PolicyPrepare? {
      PolicyPreparePlans(db, e, now);
    } else if e.Restore? {
      RestoreAside(db, now);
      RestorePlans(db, now);
    } else {
      StepAside(db, e, now);
    }
  }

  lemma RestorePlans(db: Db, now: Time)
    ensures Step(db, Restore, now) == Quarantine.Quarantine(db, now)
  {
    hide Quarantine.Quarantine;
  }

  lemma PolicyPreparePlans(db: Db, e: Event, now: Time)
    requires e.PolicyPrepare?
    ensures Step(db, e, now).plans == db.plans
  {
  }

  /** Every step keeps the whole invariant: schema constraints, foreign keys, gapless numbers, one unfinished attempt, links and
      revisions; and nothing on record is lost. */
  lemma StepKeeps(db: Db, e: Event, now: Time)
    requires Inv(db)
    ensures Inv(Step(db, e, now)) && Extends(db, Step(db, e, now))
  {
    InvIsCore(db);
    hide CoreOk, ChecksOk, Step, Extends;
    StepKeepsCore(db, e, now);
    StepChecks(db, e, now);
    StepPlans(db, e, now);
    assert PlansExtend(db.plans, Step(db, e, now).plans) by { ExtendedPlans(db, Step(db, e, now)); }
    TimesCarry(db.plans, Step(db, e, now).plans);
  }

  lemma ExtendedPlans(db: Db, db': Db)
    requires Extends(db, db')
    ensures PlansExtend(db.plans, db'.plans)
  {
    hide PlansExtend, AttemptsExtend, PermitsExtend, CommandsExtend;
  }
}
