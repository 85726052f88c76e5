/** Where live adapter qualifications come from, over whole runs of the submission protocol. */
module CanaryRuns {
  import opened Wrappers
  import opened Records
  import opened Lifecycle
  import opened Database
  import opened Admission
  import opened Mutations
  import opened Quarantine
  import opened Protocol
  import opened ProtocolSteps
  import opened ProtocolChecks
  import opened ProtocolRuns
  import CanaryChain

  // The dry-run record observed the same application revision, plan, form contract, adapter, URL and release.
  predicate DryRunBacks(q: Qualification, c: CanaryContent) {
    q.tier == DryRunQualified && q.applicationId == c.applicationId && q.revision == c.revision && q.planId == c.planId
    && q.fingerprint == c.fingerprint && q.contractDigest == c.contractDigest && q.adapterName == c.adapterName
    && q.adapterVersion == c.adapterVersion && q.selectorVersion == c.selectorVersion && q.contractVersion == c.contractVersion
    && q.urlHash == c.urlHash && q.release == c.release
  }

  // The live record carries the same bindings, and was written while the authorization was unexpired.
  predicate LiveBacks(q: Qualification, c: CanaryContent) {
    q.tier == LiveCanaryQualified && q.applicationId == c.applicationId && q.revision == c.revision && q.planId == c.planId
    && q.fingerprint == c.fingerprint && q.contractDigest == c.contractDigest && q.adapterName == c.adapterName
    && q.adapterVersion == c.adapterVersion && q.selectorVersion == c.selectorVersion && q.contractVersion == c.contractVersion
    && q.urlHash == c.urlHash && q.release == c.release && q.qualifiedAt < c.expiresAt
  }

  ghost predicate CanariesOk(db: Db) {
    forall i :: i in db.canaries ==>
      && db.canaries[i].digest == db.canaries[i].content
      && db.canaries[i].content.dryRunId in db.qualifications
      && DryRunBacks(db.qualifications[db.canaries[i].content.dryRunId], db.canaries[i].content)
  }

  // The attempt spent the authorization it names, and is bound to the same revision and plan.
  predicate CanaryAttempt(db: Db, id: AttemptId, b: Binding) {
    && b.canaryId.Some? && b.canaryId.value in db.canaries
    && var c := db.canaries[b.canaryId.value];
       && c.consumedAt.Some? && b.canaryDigest == Some(c.digest)
       && c.content.applicationId == id.app && c.content.revision == b.revision && b.planId == Some(c.content.planId)
  }

  ghost predicate CanaryAttemptsOk(db: Db) {
    && (forall id :: id in db.attempts && db.attempts[id].binding.canaryId.Some? ==> CanaryAttempt(db, id, db.attempts[id].binding))
    && (forall x, y ::
          x in db.attempts && y in db.attempts && db.attempts[x].binding.canaryId.Some?
          && db.attempts[x].binding.canaryId == db.attempts[y].binding.canaryId
          ==> x == y)
  }

  // One live record, one confirmed canary attempt, one spent authorization.
  ghost predicate LiveRecordOk(db: Db, q: Qualification) {
    && q.attempt.Some? && q.attempt.value in db.attempts
    && var a := db.attempts[q.attempt.value];
       && a.stage == Finished && a.outcome == Some(ConfirmedSubmitted) && a.binding.authority == QualificationCanary
       && CanaryAttempt(db, q.attempt.value, a.binding)
       && LiveBacks(q, db.canaries[a.binding.canaryId.value].content)
  }

  ghost predicate LiveRecordsOk(db: Db) {
    && (forall i :: i in db.qualifications && db.qualifications[i].tier == LiveCanaryQualified ==> LiveRecordOk(db, db.qualifications[i]))
    && (forall i :: i in db.qualifications && db.qualifications[i].tier == DryRunQualified ==> db.qualifications[i].attempt.None?)
    && (forall i, j ::
          i in db.qualifications && j in db.qualifications && db.qualifications[i].attempt.Some?
          && db.qualifications[i].attempt == db.qualifications[j].attempt
          ==> i == j)
  }

  // At most one authorization of an application is active at the given time.
  ghost predicate OneActive(canaries: map<Id, Canary>, now: Time) {
    forall i, j ::
      i in canaries && j in canaries && CanaryChain.IsActive(canaries[i], now) && CanaryChain.IsActive(canaries[j], now)
      && canaries[i].content.applicationId == canaries[j].content.applicationId
      ==> i == j
  }

  ghost predicate ChainOk(db: Db, clock: Time) {
    CanariesOk(db) && CanaryAttemptsOk(db) && LiveRecordsOk(db) && OneActive(db.canaries, clock)
  }

  // ---------- steps that touch no canary tables ----------

  ghost predicate ChainFrame(db: Db, db': Db) {
    Framed(db, db') && AttemptsExtend(db.attempts, db'.attempts)
  }

  lemma FrameKeepsChain(db: Db, db': Db, clock: Time, now: Time)
    requires ChainOk(db, clock) && ChainFrame(db, db') && clock <= now
    ensures ChainOk(db', now)
  {
    hide DryRunBacks, LiveBacks;
    forall id | id in db'.attempts ensures RowEvolves(db.attempts[id], db'.attempts[id]) { }
    forall i | i in db'.qualifications && db'.qualifications[i].tier == LiveCanaryQualified
      ensures LiveRecordOk(db', db'.qualifications[i])
    {
      assert LiveRecordOk(db, db.qualifications[i]);
    }
  }

  lemma PrepareIsFramed(db: Db, appId: Id, source: string, allowed: set<JobStatus>, now: Time)
    ensures Framed(db, OrUnchanged(db, Prepare(db, appId, source, allowed, now)))
  {
    hide LockRefusal, SetJobStatus;
  }

  lemma PolicyPrepareIsFramed(db: Db, appId: Id, decisionId: Id, decision: PolicyDecision, now: Time)
    ensures Framed(db, PrepareByPolicy(db, appId, decisionId, decision, now))
  {
  }

  lemma BumpIsFramed(db: Db, appId: Id, reason: Reason, now: Time)
    requires appId in db.applications
    ensures Framed(db, BumpRevision(db, appId, reason, now))
  {
    hide InvalidatePlans;
  }

  lemma EditIsFramed(db: Db, appId: Id, content: Content, reason: Reason, now: Time)
    ensures Framed(db, OrUnchanged(db, EditContent(db, appId, content, reason, now)))
  {
    hide LockRefusal, InvalidatePlans;
  }

  lemma CancelIsFramed(db: Db, appId: Id, reason: Reason, now: Time)
    ensures Framed(db, CancelOpen(db, appId, reason, now))
  {
    hide LastNumber;
  }

  lemma SkipIsFramed(db: Db, appId: Id, reason: Reason, now: Time)
    ensures Framed(db, OrUnchanged(db, Skip(db, appId, reason, now)))
  {
    hide LockRefusal, CancelOpen, BumpRevision, MarkJobSkipped;
    CancelIsFramed(db, appId, reason, now);
    LockFindsApplication(db, appId, TerminalIntent);
    if appId in db.applications { BumpIsFramed(CancelOpen(db, appId, reason, now), appId, reason, now); }
  }

  lemma InspectIsFramed(db: Db, appId: Id, o: Observation, now: Time)
    ensures Framed(db, OrUnchanged(db, PersistPlan(db, appId, o, now)))
  {
    hide LockRefusal, InvalidatePlans;
  }

  lemma ClaimIsFramed(db: Db, key: string, owner: string, token: string, now: Time)
    ensures Framed(db, ClaimCommand(db, key, owner, token, now))
  {
  }

  lemma MoveIsFramed(db: Db, id: AttemptId, target: Stage)
    ensures Framed(db, Advance(db, id, target))
  {
    hide CanTransition, ProjectLegacyStatus, Framed;
    UnchangedIsFramed(db);
    if id in db.attempts && ProjectLegacyStatus(target, None).Ok? {
      OneRowIsFramed(db, id, db.attempts[id].(stage := target, status := ProjectLegacyStatus(target, None).value));
    }
  }

  lemma UnchangedIsFramed(db: Db)
    ensures Framed(db, db)
  {
  }

  lemma OneRowIsFramed(db: Db, id: AttemptId, a: Attempt)
    requires id in db.attempts
    ensures Framed(db, db.(attempts := db.attempts[id := a]))
  {
  }

  lemma BoundaryIsFramed(db: Db, v: Boundary, now: Time)
    ensures Framed(db, EnterBoundary(db, v, now))
  {
    VerdictNeedsClaim(db, v, now);
    hide BoundaryVerdict, FinishAttempt, Framed, RecordCommit, AtBoundary;
    match BoundaryVerdict(db, v, now)
    case Superseded => UnchangedIsFramed(db);
    case Rejected(reason, at) => FinishIsFramed(db, db.commands[v.key].attempt, FailedBeforeCommit, reason, None, at);
    case Cleared =>
      ClearedIsReady(db, v, now);
      RecordingIsFramed(db, db.commands[v.key].attempt, v.key, now);
  }

  lemma RecordingIsFramed(db: Db, id: AttemptId, key: string, now: Time)
    requires id in db.attempts && id in db.permits && key in db.commands && db.commands[key].lease.Some?
    ensures Framed(db, RecordCommit(db, id, key, now))
  {
  }

  lemma FinishIsFramed(db: Db, id: AttemptId, outcome: Outcome, reason: Reason, proof: Option<EvidenceRow>, now: Time)
    ensures Framed(db, FinishAttempt(db, id, outcome, reason, proof, now))
  {
    hide SetJobStatus, InvalidatePlan;
  }

  lemma RestoreIsFramed(db: Db, now: Time)
    ensures Framed(db, Quarantine.Quarantine(db, now))
  {
    hide QuarantineAttempt, MovedApplications, MovedJobs;
  }

  lemma StepIsFramed(db: Db, e: Event, now: Time)
    requires !e.Admit? && !e.MintCanary? && !e.ConfirmCanary? && !e.DryRun? && !e.InvalidateRecords?
    ensures Framed(db, Step(db, e, now))
  {
    hide Framed, Prepare, PrepareByPolicy, EditContent, Skip, PersistPlan, ClaimCommand, Advance, EnterBoundary, FinishAttempt,
      Quarantine.Quarantine, CreateBatch, RecordStep;
    match e
    case PrepareApplication(appId, source, allowed) => PrepareIsFramed(db, appId, source, allowed, now);
    case PolicyPrepare(appId, decisionId, decision) => PolicyPrepareIsFramed(db, appId, decisionId, decision, now);
    case Edit(appId, content, reason) => EditIsFramed(db, appId, content, reason, now);
    case SkipApplication(appId, reason) => SkipIsFramed(db, appId, reason, now);
    case Inspect(appId, observation) => InspectIsFramed(db, appId, observation, now);
    case Claim(key, owner, token) => ClaimIsFramed(db, key, owner, token, now);
    case Move(id, target) => MoveIsFramed(db, id, target);
    case Commit(boundary) => BoundaryIsFramed(db, boundary, now);
    case Finish(id, outcome, reason, proof) => FinishIsFramed(db, id, outcome, reason, proof, now);
    case Restore => RestoreIsFramed(db, now);
  }

  // ---------- admission ----------

  lemma AdmissionSpendsCanary(db: Db, r: Request, s: Surroundings, now: Time)
    requires Grounded(db, r, s, now).Ok?
    ensures var g := Grounded(db, r, s, now).value;
      && (g.consumesCanary <==> r.canaryId.Some?)
      && (g.consumesCanary ==>
            r.canaryId.value in db.canaries
            && var c := db.canaries[r.canaryId.value];
               && c.consumedAt.None? && g.binding.canaryDigest == Some(c.digest)
               && c.content.applicationId == r.appId && c.content.revision == r.revision && c.content.planId == r.planId)
  {
    hide InvalidAdapter, IssuePermit, LastNumber, HasImmutableAttempt, HasUnfinishedAttempt, ResolveAuthority;
    GroundsAreSound(db, r, s, now);
    AuthorityIsLive(db, db.applications[r.appId], db.plans[r.planId], r, s, s.runtime.value, now);
  }

  lemma AuthorityIsLive(db: Db, app: Application, plan: FormPlan, r: Request, s: Surroundings, release: string, now: Time)
    requires ResolveAuthority(db, app, plan, r, s, release, now).Ok?
    ensures var auth := ResolveAuthority(db, app, plan, r, s, release, now).value;
      && (auth.canary.Some? <==> r.canaryId.Some?)
      && (auth.canary.Some? ==>
            r.canaryId.value in db.canaries && auth.canary.value == db.canaries[r.canaryId.value]
            && var c := auth.canary.value;
               c.consumedAt.None? && c.content.applicationId == r.appId && c.content.revision == app.revision && c.content.planId == r.planId)
  {
  }

  lemma CreateOneKeepsChain(db: Db, r: Request, s: Surroundings, now: Time, clock: Time)
    requires CoreOk(db) && ChainOk(db, clock) && CreateOne(db, r, s, now).Ok? && clock <= now
    ensures ChainOk(CreateOne(db, r, s, now).value.0, now)
  {
    hide CoreOk, ChainOk, Grounded, CanariesOk, CanaryAttemptsOk, LiveRecordsOk, OneActive;
    CoreHasAttempts(db);
    TablesExtendThemselves(db);
    FrameKeepsChain(db, db, clock, now);
    if FindReplay(db, r) == Ok(None) {
      var g := Grounded(db, r, s, now).value;
      GroundsAreSound(db, r, s, now);
      AdmissionSpendsCanary(db, r, s, now);
      InsertKeepsChain(db, r, g, now);
    }
  }

  lemma InsertKeepsChain(db: Db, r: Request, g: Grounds, now: Time)
    requires ChainOk(db, now)
    requires g.binding.revision == r.revision && g.binding.planId == Some(r.planId) && g.binding.canaryId == r.canaryId
    requires g.consumesCanary <==> r.canaryId.Some?
    requires g.consumesCanary ==>
      && r.canaryId.value in db.canaries
      && var c := db.canaries[r.canaryId.value];
         && c.consumedAt.None? && g.binding.canaryDigest == Some(c.digest)
         && c.content.applicationId == r.appId && c.content.revision == r.revision && c.content.planId == r.planId
    ensures ChainOk(Insert(db, r, g, now).0, now)
  {
    hide LastNumber, CanaryAttemptsOk, LiveRecordsOk, CanariesOk, OneActive;
    var db' := Insert(db, r, g, now).0;
    var id := AttemptId(r.appId, LastNumber(db.attempts, r.appId) + 1);
    assert id !in db.attempts;
    assert Spends(db, db', r, g, id, now);
    SpentCanaries(db, db', r, g, id, now);
    SpentOnce(db, db', r, g, id, now);
    SpentLiveRecords(db, db', id);
  }

  // What an admission does to the tables of the chain.
  ghost predicate Spends(db: Db, db': Db, r: Request, g: Grounds, id: AttemptId, now: Time) {
    && id !in db.attempts && id.app == r.appId && db'.attempts == db.attempts[id := NewAttempt(g.binding)]
    && db'.qualifications == db.qualifications && db'.canaries.Keys == db.canaries.Keys
    && (forall i :: i in db.canaries ==>
          db'.canaries[i] == if Some(i) == r.canaryId then db.canaries[i].(consumedAt := Some(now)) else db.canaries[i])
  }

  lemma SpentCanaries(db: Db, db': Db, r: Request, g: Grounds, id: AttemptId, now: Time)
    requires CanariesOk(db) && OneActive(db.canaries, now) && Spends(db, db', r, g, id, now)
    ensures CanariesOk(db') && OneActive(db'.canaries, now)
  {
    hide DryRunBacks;
  }

  // Nobody else can already name an authorization that is still unspent.
  lemma SpentOnce(db: Db, db': Db, r: Request, g: Grounds, id: AttemptId, now: Time)
    requires CanaryAttemptsOk(db) && Spends(db, db', r, g, id, now)
    requires g.binding.revision == r.revision && g.binding.planId == Some(r.planId) && g.binding.canaryId == r.canaryId
    requires r.canaryId.Some? ==>
      && r.canaryId.value in db.canaries
      && var c := db.canaries[r.canaryId.value];
         && c.consumedAt.None? && g.binding.canaryDigest == Some(c.digest)
         && c.content.applicationId == r.appId && c.content.revision == r.revision && c.content.planId == r.planId
    ensures CanaryAttemptsOk(db')
    ensures forall x :: x in db.attempts && db.attempts[x].binding.canaryId.Some? ==> CanaryAttempt(db', x, db.attempts[x].binding)
    ensures forall x :: x in db.attempts && db.attempts[x].binding.canaryId.Some? ==>
      db.attempts[x].binding.canaryId.value in db.canaries && db.attempts[x].binding.canaryId.value in db'.canaries
      && db'.canaries[db.attempts[x].binding.canaryId.value] == db.canaries[db.attempts[x].binding.canaryId.value]
  {
    forall x | x in db.attempts && db.attempts[x].binding.canaryId.Some?
      ensures CanaryAttempt(db', x, db.attempts[x].binding) && db.attempts[x].binding.canaryId != r.canaryId
    {
      assert CanaryAttempt(db, x, db.attempts[x].binding);
    }
    if r.canaryId.Some? { assert CanaryAttempt(db', id, db'.attempts[id].binding); }
  }

  lemma SpentLiveRecords(db: Db, db': Db, id: AttemptId)
    requires LiveRecordsOk(db) && id !in db.attempts && id in db'.attempts && db'.attempts == db.attempts[id := db'.attempts[id]]
    requires db'.qualifications == db.qualifications
    requires forall x :: x in db.attempts && db.attempts[x].binding.canaryId.Some? ==> CanaryAttempt(db', x, db.attempts[x].binding)
    requires forall x :: x in db.attempts && db.attempts[x].binding.canaryId.Some? ==>
      db.attempts[x].binding.canaryId.value in db.canaries && db.attempts[x].binding.canaryId.value in db'.canaries
      && db'.canaries[db.attempts[x].binding.canaryId.value] == db.canaries[db.attempts[x].binding.canaryId.value]
    ensures LiveRecordsOk(db')
  {
    hide LiveBacks;
    forall i | i in db'.qualifications && db'.qualifications[i].tier == LiveCanaryQualified
      ensures LiveRecordOk(db', db'.qualifications[i])
    {
      assert LiveRecordOk(db, db.qualifications[i]);
    }
  }

  lemma {:induction false} CreateAllKeepsChain(db: Db, items: seq<Item>, now: Time, clock: Time)
    requires CoreOk(db) && ChainOk(db, clock) && CreateAll(db, items, now).Ok? && clock <= now
    ensures ChainOk(CreateAll(db, items, now).value.0, now)
    decreases |items|
  {
    hide CoreOk, ChainOk, CreateOne;
    if items == [] {
      CoreHasAttempts(db);
      TablesExtendThemselves(db);
      FrameKeepsChain(db, db, clock, now);
    } else {
      CreateOneKeepsChain(db, items[0].request, items[0].surroundings, now, clock);
      CreateOneKeeps(db, items[0].request, items[0].surroundings, now);
      CreateAllKeepsChain(CreateOne(db, items[0].request, items[0].surroundings, now).value.0, items[1..], now, now);
    }
  }

  // ---------- qualification records ----------

  lemma MintKeepsChain(db: Db, e: Event, now: Time, clock: Time)
    requires e.MintCanary? && ChainOk(db, clock) && clock <= now
    ensures ChainOk(RecordStep(db, e, now), now)
  {
    hide LiveBacks, DryRunBacks, RecordStep, CanaryAttemptsOk, LiveRecordsOk;
    var db' := RecordStep(db, e, now);
    if db' != db {
      MintedIsBacked(db, e, now);
      CanariesAdded(db, db');
    }
  }

  // New authorizations leave every attempt and every live record with the trail it had.
  lemma CanariesAdded(db: Db, db': Db)
    requires CanaryAttemptsOk(db) && LiveRecordsOk(db) && db'.attempts == db.attempts && db'.qualifications == db.qualifications
    requires forall i :: i in db.canaries ==> i in db'.canaries && db'.canaries[i] == db.canaries[i]
    ensures CanaryAttemptsOk(db') && LiveRecordsOk(db')
  {
    hide LiveBacks;
    forall id | id in db.attempts && db.attempts[id].binding.canaryId.Some? ensures CanaryAttempt(db', id, db.attempts[id].binding) {
      assert CanaryAttempt(db, id, db.attempts[id].binding);
    }
    forall i | i in db.qualifications && db.qualifications[i].tier == LiveCanaryQualified ensures LiveRecordOk(db', db.qualifications[i]) {
      assert LiveRecordOk(db, db.qualifications[i]);
    }
  }

  lemma MintedIsBacked(db: Db, e: Event, now: Time)
    requires e.MintCanary? && RecordStep(db, e, now) != db
    ensures var db' := RecordStep(db, e, now);
      && e.newId !in db.canaries && e.newId in db'.canaries && db'.canaries == db.canaries[e.newId := db'.canaries[e.newId]]
      && db'.qualifications == db.qualifications && db'.attempts == db.attempts
      && var c := db'.canaries[e.newId];
         && c.digest == c.content && c.consumedAt.None? && c.content.applicationId == e.appId
         && c.content.dryRunId in db.qualifications && DryRunBacks(db.qualifications[c.content.dryRunId], c.content)
         && !CanaryChain.HasActive(db, e.appId, now)
  {
    hide CanaryChain.HasActive;
  }

  lemma ConfirmedIsBacked(db: Db, e: Event, now: Time)
    requires e.ConfirmCanary? && RecordStep(db, e, now) != db && CanariesOk(db) && CanaryAttemptsOk(db)
    ensures var db' := RecordStep(db, e, now);
      && e.newId !in db.qualifications && e.newId in db'.qualifications
      && db'.qualifications == db.qualifications[e.newId := db'.qualifications[e.newId]]
      && db'.canaries == db.canaries && db'.attempts == db.attempts
      && LiveRecordOk(db, db'.qualifications[e.newId]) && db'.qualifications[e.newId].attempt == Some(e.id)
      && !CanaryChain.AlreadyQualified(db, e.id)
  {
    hide DryRunBacks, CanaryChain.AlreadyQualified, CanaryChain.HasLiveEvidence;
    assert CanaryAttempt(db, e.id, db.attempts[e.id].binding);
  }

  // A record keeps everything but its invalidation mark.
  predicate SameRecord(q: Qualification, q': Qualification) { q' == q.(invalidatedAt := q'.invalidatedAt) }

  // Dry runs and invalidations change no canary, no attempt and no live record.
  ghost predicate OnlyDryRecords(db: Db, db': Db) {
    && db'.canaries == db.canaries && db'.attempts == db.attempts && db.qualifications.Keys <= db'.qualifications.Keys
    && (forall i :: i in db.qualifications ==> SameRecord(db.qualifications[i], db'.qualifications[i]))
    && (forall i :: i in db'.qualifications && i !in db.qualifications ==>
          db'.qualifications[i].tier == DryRunQualified && db'.qualifications[i].attempt.None?)
  }

  lemma DryRunOnlyGrows(db: Db, e: Event, now: Time)
    requires e.DryRun?
    ensures OnlyDryRecords(db, RecordStep(db, e, now))
  {
    hide CanaryChain.HasDryRun, CanaryChain.DescriptorMatchesPlan;
    var db' := RecordStep(db, e, now);
    if db' != db { assert db'.qualifications == db.qualifications[e.newId := db'.qualifications[e.newId]]; }
  }

  lemma InvalidationOnlyMarks(db: Db, e: Event, now: Time)
    requires e.InvalidateRecords?
    ensures OnlyDryRecords(db, RecordStep(db, e, now))
  {
    hide CanaryChain.RecordDryRun, CanaryChain.Mint, CanaryChain.ConfirmLive;
  }

  lemma DryRecordsKeepChain(db: Db, e: Event, now: Time, clock: Time)
    requires (e.DryRun? || e.InvalidateRecords?) && ChainOk(db, clock) && clock <= now
    ensures ChainOk(RecordStep(db, e, now), now)
  {
    hide RecordStep, CanariesOk, CanaryAttemptsOk, LiveRecordsOk, OnlyDryRecords;
    var db' := RecordStep(db, e, now);
    if e.DryRun? { DryRunOnlyGrows(db, e, now); } else { InvalidationOnlyMarks(db, e, now); }
    DryRecordsKeepTrails(db, db');
    DryRecordsKeepLive(db, db');
  }

  lemma DryRecordsKeepTrails(db: Db, db': Db)
    requires CanariesOk(db) && CanaryAttemptsOk(db) && OnlyDryRecords(db, db')
    ensures CanariesOk(db') && CanaryAttemptsOk(db') && db'.canaries == db.canaries
  {
    forall i | i in db.canaries ensures DryRunBacks(db'.qualifications[db.canaries[i].content.dryRunId], db.canaries[i].content) {
      assert SameRecord(db.qualifications[db.canaries[i].content.dryRunId], db'.qualifications[db.canaries[i].content.dryRunId]);
    }
  }

  lemma DryRecordsKeepLive(db: Db, db': Db)
    requires LiveRecordsOk(db) && OnlyDryRecords(db, db')
    ensures LiveRecordsOk(db')
  {
    hide DryRunBacks;
    forall i | i in db'.qualifications && db'.qualifications[i].tier == LiveCanaryQualified
      ensures LiveRecordOk(db', db'.qualifications[i])
    {
      assert SameRecord(db.qualifications[i], db'.qualifications[i]) && LiveRecordOk(db, db.qualifications[i]);
    }
    forall i, j | i in db'.qualifications && j in db'.qualifications && db'.qualifications[i].attempt.Some?
                  && db'.qualifications[i].attempt == db'.qualifications[j].attempt
      ensures i == j
    {
      assert SameRecord(db.qualifications[i], db'.qualifications[i]) && SameRecord(db.qualifications[j], db'.qualifications[j]);
    }
  }

  lemma ConfirmKeepsChain(db: Db, e: Event, now: Time, clock: Time)
    requires e.ConfirmCanary? && ChainOk(db, clock) && clock <= now
    ensures ChainOk(RecordStep(db, e, now), now)
  {
    hide RecordStep, CanariesOk, CanaryAttemptsOk, LiveRecordsOk, LiveRecordOk, CanaryChain.AlreadyQualified;
    var db' := RecordStep(db, e, now);
    if db' != db {
      ConfirmedIsBacked(db, e, now);
      LiveRecordAdded(db, db', e.newId, e.id);
    }
  }

  lemma LiveRecordAdded(db: Db, db': Db, newId: Id, id: AttemptId)
    requires CanariesOk(db) && CanaryAttemptsOk(db) && LiveRecordsOk(db)
    requires newId !in db.qualifications && newId in db'.qualifications
    requires db'.qualifications == db.qualifications[newId := db'.qualifications[newId]]
    requires db'.canaries == db.canaries && db'.attempts == db.attempts
    requires LiveRecordOk(db, db'.qualifications[newId]) && db'.qualifications[newId].attempt == Some(id)
    requires !CanaryChain.AlreadyQualified(db, id)
    ensures CanariesOk(db') && CanaryAttemptsOk(db') && LiveRecordsOk(db')
  {
    hide LiveRecordOk, CanaryAttempt, CanaryAttemptsOk, LiveRecordsOk, CanariesOk, CanaryChain.AlreadyQualified;
    SameTrails(db, db');
    GrownRecordsBack(db, db');
    forall q | LiveRecordOk(db, q) ensures LiveRecordOk(db', q) { SameLiveRecord(db, db', q); }
    TierOfLive(db, db'.qualifications[newId]);
    LiveRecordsGrow(db, db', newId, id);
  }

  lemma GrownRecordsBack(db: Db, db': Db)
    requires CanariesOk(db) && db'.canaries == db.canaries
    requires forall i :: i in db.qualifications ==> i in db'.qualifications && db'.qualifications[i] == db.qualifications[i]
    ensures CanariesOk(db')
  {
    hide DryRunBacks;
  }

  lemma SameLiveRecord(db: Db, db': Db, q: Qualification)
    requires LiveRecordOk(db, q) && db'.canaries == db.canaries && db'.attempts == db.attempts
    ensures LiveRecordOk(db', q)
  {
    hide LiveBacks;
  }

  lemma LiveRecordsGrow(db: Db, db': Db, newId: Id, id: AttemptId)
    requires LiveRecordsOk(db) && newId !in db.qualifications && newId in db'.qualifications
    requires db'.qualifications == db.qualifications[newId := db'.qualifications[newId]]
    requires db'.qualifications[newId].attempt == Some(id) && db'.qualifications[newId].tier == LiveCanaryQualified
    requires LiveRecordOk(db', db'.qualifications[newId]) && !CanaryChain.AlreadyQualified(db, id)
    requires forall q :: LiveRecordOk(db, q) ==> LiveRecordOk(db', q)
    ensures LiveRecordsOk(db')
  {
    hide LiveRecordOk;
    assert forall i :: i in db.qualifications ==> db.qualifications[i].attempt != Some(id);
  }

  lemma SameTrails(db: Db, db': Db)
    requires CanaryAttemptsOk(db) && db'.canaries == db.canaries && db'.attempts == db.attempts
    ensures CanaryAttemptsOk(db')
  {
  }

  lemma TierOfLive(db: Db, q: Qualification)
    requires LiveRecordOk(db, q)
    ensures q.tier == LiveCanaryQualified
  {
  }

  // ---------- every step, every run ----------

  lemma StepKeepsChain(db: Db, e: Event, now: Time, clock: Time)
    requires CoreOk(db) && ChainOk(db, clock) && clock <= now
    ensures ChainOk(Step(db, e, now), now)
  {
    hide CoreOk, ChainOk, Extends, CreateAll, Prepare, PrepareByPolicy, EditContent, Skip, PersistPlan, ClaimCommand, Advance,
      EnterBoundary, FinishAttempt, Quarantine.Quarantine, InApplicationOrder, RecordStep, AttemptsOk;
    CoreHasAttempts(db);
    if e.Admit? {
      TablesExtendThemselves(db);
      FrameKeepsChain(db, db, clock, now);
      if CreateBatch(db, e.items, e.process, now).Ok? { CreateAllKeepsChain(db, InApplicationOrder(e.items), now, clock); }
    } else if e.MintCanary? {
      MintKeepsChain(db, e, now, clock);
    } else if e.ConfirmCanary? {
      ConfirmKeepsChain(db, e, now, clock);
    } else if e.DryRun? || e.InvalidateRecords? {
      DryRecordsKeepChain(db, e, now, clock);
    } else {
      FramedStepKeepsChain(db, e, now, clock);
    }
  }

  lemma FramedStepKeepsChain(db: Db, e: Event, now: Time, clock: Time)
    requires CoreOk(db) && ChainOk(db, clock) && clock <= now
    requires !e.Admit? && !e.MintCanary? && !e.ConfirmCanary? && !e.DryRun? && !e.InvalidateRecords?
    ensures ChainOk(Step(db, e, now), now)
  {
    hide CoreOk, ChainOk, Step, AttemptsExtend, PlansExtend, PermitsExtend, CommandsExtend;
    StepKeepsCore(db, e, now);
    StepIsFramed(db, e, now);
    FrameKeepsChain(db, Step(db, e, now), clock, now);
  }

  ghost predicate TimeMovesOn(start: Time, times: seq<Time>) {
    (times != [] ==> start <= times[0]) && forall i, j :: 0 <= i < j < |times| ==> times[i] <= times[j]
  }

  lemma {:induction false} RunKeepsChain(states: seq<Db>, events: seq<Event>, times: seq<Time>, start: Time, k: nat)
    requires IsRun(states, events, times) && Inv(states[0]) && ChainOk(states[0], start) && TimeMovesOn(start, times) && k < |states|
    ensures ChainOk(states[k], if k == 0 then start else times[k - 1])
  {
    hide Step, Inv, ChainOk;
    if k > 0 {
      RunKeepsChain(states, events, times, start, k - 1);
      RunKeepsInv(states, events, times, k - 1);
      InvIsCore(states[k - 1]);
      StepKeepsChain(states[k - 1], events[k - 1], times[k - 1], if k == 1 then start else times[k - 2]);
    }
  }

  lemma UnusedChainIsOk(db: Db, clock: Time)
    requires Unused(db)
    ensures Inv(db) && ChainOk(db, clock)
  {
    UnusedIsOk(db);
  }

  /** In every state of every run, each live qualification traces to one confirmed canary attempt, which spent one
      authorization, unexpired when the record was written and minted from a dry run of the same revision, plan, form
      contract, adapter, URL and release. No other record, attempt or authorization shares that trail. */
  lemma LiveQualificationIsEarned(
    states: seq<Db>, events: seq<Event>, times: seq<Time>, start: Time, k: nat, i: Id)
    requires IsRun(states, events, times) && Inv(states[0]) && ChainOk(states[0], start) && TimeMovesOn(start, times) && k < |states|
    requires i in states[k].qualifications && states[k].qualifications[i].tier == LiveCanaryQualified
    ensures var db, q := states[k], states[k].qualifications[i];
      && q.attempt.Some? && q.attempt.value in db.attempts
      && var a := db.attempts[q.attempt.value];
         && a.stage == Finished && a.outcome == Some(ConfirmedSubmitted) && a.binding.canaryId.Some? && a.binding.canaryId.value in db.canaries
         && var c := db.canaries[a.binding.canaryId.value];
            && c.consumedAt.Some? && LiveBacks(q, c.content)
            && c.content.dryRunId in db.qualifications && DryRunBacks(db.qualifications[c.content.dryRunId], c.content)
            && (forall j :: j in db.qualifications && db.qualifications[j].attempt == q.attempt ==> j == i)
            && (forall x :: x in db.attempts && db.attempts[x].binding.canaryId == a.binding.canaryId ==> x == q.attempt.value)
  {
    hide Step, Inv, IsRun, LiveBacks, DryRunBacks;
    RunKeepsChain(states, events, times, start, k);
    assert LiveRecordOk(states[k], states[k].qualifications[i]);
  }

  /** At no moment of any run does an application have two active canary authorizations. */
  lemma OneActiveAuthorization(states: seq<Db>, events: seq<Event>, times: seq<Time>, start: Time, k: nat, now: Time)
    requires IsRun(states, events, times) && Inv(states[0]) && ChainOk(states[0], start) && TimeMovesOn(start, times) && k < |states|
    requires (if k == 0 then start else times[k - 1]) <= now
    ensures OneActive(states[k].canaries, now)
  {
    hide Step, Inv, IsRun, CanariesOk, CanaryAttemptsOk, LiveRecordsOk;
    RunKeepsChain(states, events, times, start, k);
  }
}
