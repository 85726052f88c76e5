/** The submission protocol as a state machine over whole runs, and what every step of it keeps. */
module Protocol {
  import opened Wrappers
  import opened Records
  import opened Lifecycle
  import opened ReviewGrants
  import opened Database
  import opened Admission
  import opened Mutations
  import opened Quarantine
  import CanaryChain

  // ---------- steps ----------

  datatype Event =
    | Admit(items: seq<Item>, process: Process)
    | PrepareApplication(appId: Id, source: string, allowed: set<JobStatus>)
    | PolicyPrepare(appId: Id, decisionId: Id, decision: PolicyDecision)
    | Edit(appId: Id, content: Content, reason: Reason)
    | SkipApplication(appId: Id, reason: Reason)
    | Inspect(appId: Id, observation: Observation)
    | Claim(key: string, owner: string, token: string)
    | Move(id: AttemptId, target: Stage)
    | Commit(boundary: Boundary)
    | Finish(id: AttemptId, outcome: Outcome, reason: Reason, proof: Option<EvidenceRow>)
    | Restore
    | DryRun(newId: Id, appId: Id, planId: string, site: CanaryChain.Site, release: string, trace: string)
    | MintCanary(newId: Id, dryRunId: Option<Id>, nonce: string, appId: Id, planId: string, site: CanaryChain.Site, release: string)
    | ConfirmCanary(newId: Id, id: AttemptId, planId: string, trace: string, site: CanaryChain.Site, release: string)
    | InvalidateRecords(ids: set<Id>)

  function OrUnchanged(db: Db, r: Result<Db, Reason>): Db { if r.Ok? then r.value else db }

  // Qualification bookkeeping: dry-run records, canary authorizations, live confirmations and invalidations.
  function RecordStep(db: Db, e: Event, now: Time): (db': Db)
    ensures db' == db.(qualifications := db'.qualifications, canaries := db'.canaries)
  {
    match e
    case DryRun(newId, appId, planId, site, release, trace) =>
      if appId !in db.applications || planId !in db.plans || newId in db.qualifications then db
      else OrUnchanged(db, CanaryChain.RecordDryRun(db, newId, appId, db.applications[appId], planId, db.plans[planId], site, release, trace, now))
    case MintCanary(newId, dryRunId, nonce, appId, planId, site, release) =>
      if appId !in db.applications || planId !in db.plans || newId in db.canaries then db
      else OrUnchanged(db, CanaryChain.Mint(db, newId, dryRunId, nonce, appId, db.applications[appId], planId, db.plans[planId], site, release, now))
    case ConfirmCanary(newId, id, planId, trace, site, release) =>
      if id !in db.attempts || id.app !in db.applications || planId !in db.plans || newId in db.qualifications then db
      else OrUnchanged(db, CanaryChain.ConfirmLive(db, newId, id, db.applications[id.app], planId, db.plans[planId], trace, site, release, now))
    case InvalidateRecords(ids) =>
      db.(qualifications := map i | i in db.qualifications ::
            if i in ids && db.qualifications[i].invalidatedAt.None? then db.qualifications[i].(invalidatedAt := Some(now))
            else db.qualifications[i])
    case _ => db
  }

  // A committed transaction; a refused operation leaves every table as it was.
  function Step(db: Db, e: Event, now: Time): Db {
    match e
    case Admit(items, process) =>
      (match CreateBatch(db, items, process, now) case Err(_) => db case Ok((db', _)) => db')
    case PrepareApplication(appId, source, allowed) => OrUnchanged(db, Prepare(db, appId, source, allowed, now))
    case PolicyPrepare(appId, decisionId, decision) => PrepareByPolicy(db, appId, decisionId, decision, now)
    case Edit(appId, content, reason) => OrUnchanged(db, EditContent(db, appId, content, reason, now))
    case SkipApplication(appId, reason) => OrUnchanged(db, Skip(db, appId, reason, now))
    case Inspect(appId, observation) => OrUnchanged(db, PersistPlan(db, appId, observation, now))
    case Claim(key, owner, token) => ClaimCommand(db, key, owner, token, now)
    case Move(id, target) => Advance(db, id, target)
    case Commit(boundary) => EnterBoundary(db, boundary, now)
    case Finish(id, outcome, reason, proof) => FinishAttempt(db, id, outcome, reason, proof, now)
    case Restore => Quarantine.Quarantine(db, now)
    case _ => RecordStep(db, e, now)
  }

  // ---------- attempts ----------

  // The attempt entered committing at some point, or is on record as possibly submitted.
  predicate Crossed(a: Attempt) { IsPostCommit(a.stage) || a.outcome in {Some(Unknown), Some(ConfirmedSubmitted)} }

  // The attempt still occupies its application.
  predicate Busy(a: Attempt) { a.stage != Finished || Crossed(a) }

  ghost predicate OneBusy(attempts: map<AttemptId, Attempt>) {
    forall x, y :: x in attempts && y in attempts && x.app == y.app && Busy(attempts[x]) && Busy(attempts[y]) ==> x == y
  }

  ghost predicate AttemptOk(attempts: map<AttemptId, Attempt>, id: AttemptId)
    requires id in attempts
  {
    && id.number >= 1
    && (id.number > 1 ==> AttemptId(id.app, id.number - 1) in attempts)
    && (attempts[id].stage == Finished <==> attempts[id].outcome.Some?)
    && (attempts[id].stage != Finished ==> IsLastNumber(attempts, id.app, id.number))
  }

  // Numbers are gapless from one, stage and outcome agree, an unfinished attempt is the latest, and at most one
  // attempt occupies an application.
  ghost predicate AttemptsOk(db: Db) {
    && (forall id :: id in db.attempts ==> id.app in db.applications && AttemptOk(db.attempts, id))
    && OneBusy(db.attempts)
  }

  // How one attempt row may change in one step.
  ghost predicate RowEvolves(a: Attempt, a': Attempt) {
    && a'.binding == a.binding
    && (a.stage == Finished ==> a' == a)
    && (a'.stage == Finished <==> a'.outcome.Some?)
    && (Crossed(a) ==> Crossed(a'))
  }

  ghost predicate AttemptsEvolve(x: map<AttemptId, Attempt>, y: map<AttemptId, Attempt>) {
    x.Keys == y.Keys && forall id :: id in x ==> RowEvolves(x[id], y[id])
  }

  lemma EvolvingKeepsAttempts(db: Db, db': Db)
    requires AttemptsOk(db) && AttemptsEvolve(db.attempts, db'.attempts) && db.applications.Keys <= db'.applications.Keys
    ensures AttemptsOk(db')
  {
    forall id | id in db'.attempts ensures id.app in db'.applications && AttemptOk(db'.attempts, id) {
      assert AttemptOk(db.attempts, id) && RowEvolves(db.attempts[id], db'.attempts[id]);
    }
    forall x, y | x in db'.attempts && y in db'.attempts && x.app == y.app && Busy(db'.attempts[x]) && Busy(db'.attempts[y])
      ensures x == y
    {
      assert RowEvolves(db.attempts[x], db'.attempts[x]) && RowEvolves(db.attempts[y], db'.attempts[y]);
    }
  }

  // ---------- links between tables ----------

  // The composite foreign key from an attempt to its plan.
  predicate PlanBacks(p: FormPlan, id: AttemptId, b: Binding) {
    p.applicationId == id.app && p.revision == b.revision && b.adapterName == Some(p.adapterName)
    && b.adapterVersion == Some(p.adapterVersion) && b.selectorVersion == Some(p.selectorVersion)
    && b.fingerprint == Some(p.fingerprint) && b.requestedCvId == Some(p.selectedCvId)
    && b.requestedCvHash == Some(p.selectedCvHash) && b.attachedCvId == p.attachedCvId && b.attachedCvHash == p.attachedCvHash
    && b.attachmentVerified == p.attachmentVerified && b.profileVersion == p.profileVersion
  }

  // The permit would be accepted if it were unspent and unexpired.
  predicate PermitBacks(t: Permit, b: Binding, p: FormPlan) {
    InvalidPermit(Some(t.(consumedAt := None, expiresAt := 1)), b, p, t.jobUrlHash, 0) == None
  }

  ghost predicate LinkOk(db: Db, id: AttemptId)
    requires id in db.attempts
  {
    var b := db.attempts[id].binding;
    && (b.planId.Some? ==> b.planId.value in db.plans && PlanBacks(db.plans[b.planId.value], id, b))
    && (id in db.permits ==> b.planId.Some? && PermitBacks(db.permits[id], b, db.plans[b.planId.value]))
  }

  ghost predicate LinksOk(db: Db) {
    && db.permits.Keys <= db.attempts.Keys
    && (forall id :: id in db.attempts ==> LinkOk(db, id))
    && (forall k :: k in db.commands ==> db.commands[k].attempt in db.attempts && db.attempts[db.commands[k].attempt].binding.key == k)
  }

  // ---------- revisions ----------

  ghost predicate OneLivePlan(plans: map<string, FormPlan>) {
    forall i, j ::
      i in plans && j in plans && plans[i].invalidatedAt.None? && plans[j].invalidatedAt.None?
      && plans[i].applicationId == plans[j].applicationId
      ==> i == j
  }

  predicate ApplicationOk(a: Application) { a.revision >= 1 && (a.preparedRevision.None? || a.preparedRevision == Some(a.revision)) }

  ghost predicate ApplicationsOk(applications: map<Id, Application>) {
    forall i :: i in applications ==> ApplicationOk(applications[i])
  }

  // Every unfinished attempt carries its application's current revision.
  ghost predicate RevisionsCurrent(attempts: map<AttemptId, Attempt>, applications: map<Id, Application>) {
    forall id :: id in attempts && attempts[id].stage != Finished ==>
      id.app in applications && attempts[id].binding.revision == applications[id.app].revision
  }

  ghost predicate RevisionsOk(db: Db) {
    OneLivePlan(db.plans) && ApplicationsOk(db.applications) && RevisionsCurrent(db.attempts, db.applications)
  }

  // ---------- nothing on record is lost ----------

  predicate SamePlan(p: FormPlan, p': FormPlan) {
    p' == p.(invalidatedAt := p'.invalidatedAt, invalidationReason := p'.invalidationReason)
    && (p.invalidatedAt.Some? ==> p'.invalidatedAt.Some?)
  }

  predicate SamePermit(t: Permit, t': Permit) {
    t' == t.(expiresAt := t'.expiresAt, consumedAt := t'.consumedAt) && t'.expiresAt <= t.expiresAt
    && (t.consumedAt.Some? ==> t'.consumedAt == t.consumedAt)
  }

  predicate SameCommand(c: Command, c': Command) { c'.id == c.id && c'.attempt == c.attempt }

  ghost predicate AttemptsExtend(x: map<AttemptId, Attempt>, y: map<AttemptId, Attempt>) {
    forall id :: id in x ==> id in y && RowEvolves(x[id], y[id])
  }

  ghost predicate PlansExtend(x: map<string, FormPlan>, y: map<string, FormPlan>) {
    forall i :: i in x ==> i in y && SamePlan(x[i], y[i])
  }

  ghost predicate PermitsExtend(x: map<AttemptId, Permit>, y: map<AttemptId, Permit>) {
    forall id :: id in x ==> id in y && SamePermit(x[id], y[id])
  }

  ghost predicate CommandsExtend(x: map<string, Command>, y: map<string, Command>) {
    forall k :: k in x ==> k in y && SameCommand(x[k], y[k])
  }

  ghost predicate Extends(db: Db, db': Db) {
    && AttemptsExtend(db.attempts, db'.attempts) && PlansExtend(db.plans, db'.plans)
    && PermitsExtend(db.permits, db'.permits) && CommandsExtend(db.commands, db'.commands)
    && db.applications.Keys <= db'.applications.Keys
    && db.evidence <= db'.evidence
  }

  lemma ExtendsIsTransitive(a: Db, b: Db, c: Db)
    requires Extends(a, b) && Extends(b, c)
    ensures Extends(a, c)
  {
    hide SamePlan, SamePermit, SameCommand, RowEvolves;
    forall id | id in a.attempts ensures id in c.attempts && RowEvolves(a.attempts[id], c.attempts[id]) {
      RowsCompose(a.attempts[id], b.attempts[id], c.attempts[id]);
    }
    forall i | i in a.plans ensures i in c.plans && SamePlan(a.plans[i], c.plans[i]) {
      PlansCompose(a.plans[i], b.plans[i], c.plans[i]);
    }
    forall id | id in a.permits ensures id in c.permits && SamePermit(a.permits[id], c.permits[id]) {
      PermitsCompose(a.permits[id], b.permits[id], c.permits[id]);
    }
    forall k | k in a.commands ensures k in c.commands && SameCommand(a.commands[k], c.commands[k]) {
      CommandsCompose(a.commands[k], b.commands[k], c.commands[k]);
    }
  }

  lemma RowsCompose(a: Attempt, b: Attempt, c: Attempt)
    requires RowEvolves(a, b) && RowEvolves(b, c)
    ensures RowEvolves(a, c)
  {
  }

  lemma PlansCompose(a: FormPlan, b: FormPlan, c: FormPlan)
    requires SamePlan(a, b) && SamePlan(b, c)
    ensures SamePlan(a, c)
  {
  }

  lemma PermitsCompose(a: Permit, b: Permit, c: Permit)
    requires SamePermit(a, b) && SamePermit(b, c)
    ensures SamePermit(a, c)
  {
  }

  lemma CommandsCompose(a: Command, b: Command, c: Command)
    requires SameCommand(a, b) && SameCommand(b, c)
    ensures SameCommand(a, c)
  {
  }

  lemma TablesExtendThemselves(db: Db)
    requires AttemptsOk(db)
    ensures AttemptsExtend(db.attempts, db.attempts) && PlansExtend(db.plans, db.plans)
    ensures PermitsExtend(db.permits, db.permits) && CommandsExtend(db.commands, db.commands)
    ensures Extends(db, db)
  {
    forall id | id in db.attempts ensures RowEvolves(db.attempts[id], db.attempts[id]) { assert AttemptOk(db.attempts, id); }
  }

  lemma OneAttemptExtends(db: Db, id: AttemptId, a: Attempt)
    requires AttemptsOk(db) && id in db.attempts && RowEvolves(db.attempts[id], a)
    ensures AttemptsExtend(db.attempts, db.attempts[id := a])
  {
    hide RowEvolves;
    TablesExtendThemselves(db);
  }

  // A revision stays current when the row changes without reopening.
  lemma OneAttemptStaysCurrent(attempts: map<AttemptId, Attempt>, applications: map<Id, Application>, id: AttemptId, a: Attempt)
    requires RevisionsCurrent(attempts, applications) && id in attempts && RowEvolves(attempts[id], a)
    ensures RevisionsCurrent(attempts[id := a], applications)
  {
  }

  lemma OneCommandExtends(commands: map<string, Command>, k: string, c: Command)
    requires k in commands && SameCommand(commands[k], c)
    ensures CommandsExtend(commands, commands[k := c])
  {
  }

  lemma OnePlanExtends(plans: map<string, FormPlan>, i: string, p: FormPlan)
    requires i in plans && SamePlan(plans[i], p) && OneLivePlan(plans)
    ensures PlansExtend(plans, plans[i := p]) && OneLivePlan(plans[i := p])
  {
  }

  lemma OnePermitExtends(permits: map<AttemptId, Permit>, id: AttemptId, t: Permit)
    requires id in permits && SamePermit(permits[id], t)
    ensures PermitsExtend(permits, permits[id := t])
  {
  }

  // Extending tables without new attempts keeps the links intact.
  lemma ExtendingKeepsLinks(db: Db, db': Db)
    requires LinksOk(db) && Extends(db, db')
    requires db'.attempts.Keys == db.attempts.Keys && db'.permits.Keys == db.permits.Keys && db'.commands.Keys == db.commands.Keys
    ensures LinksOk(db')
  {
    hide InvalidPermit;
    forall id | id in db'.attempts ensures LinkOk(db', id) {
      assert LinkOk(db, id) && RowEvolves(db.attempts[id], db'.attempts[id]);
      var b := db.attempts[id].binding;
      if b.planId.Some? {
        assert SamePlan(db.plans[b.planId.value], db'.plans[b.planId.value]);
        if id in db.permits {
          assert SamePermit(db.permits[id], db'.permits[id]);
          SameRowsValidateAlike(db.permits[id], db'.permits[id], b, db.plans[b.planId.value], db'.plans[b.planId.value]);
        }
      }
    }
    forall k | k in db'.commands
      ensures db'.commands[k].attempt in db'.attempts && db'.attempts[db'.commands[k].attempt].binding.key == k
    {
      assert SameCommand(db.commands[k], db'.commands[k]);
    }
  }

  lemma SameRowsValidateAlike(t: Permit, t': Permit, b: Binding, p: FormPlan, p': FormPlan)
    requires SamePermit(t, t') && SamePlan(p, p') && PermitBacks(t, b, p)
    ensures PermitBacks(t', b, p')
  {
    var x, x' := t.(consumedAt := None, expiresAt := 1), t'.(consumedAt := None, expiresAt := 1);
    assert x' == x;
  }
}
