/** Every step of the submission protocol keeps the table invariants and loses nothing on record. */
module ProtocolSteps {
  import opened Wrappers
  import opened Records
  import opened Lifecycle
  import opened FinalAction
  import ReviewGrants
  import opened EmployerTruth
  import opened Database
  import opened Admission
  import opened Mutations
  import opened Quarantine
  import opened Protocol
  import CanaryChain

  ghost predicate CoreOk(db: Db) { AttemptsOk(db) && LinksOk(db) && RevisionsOk(db) }

  ghost predicate SameKeys(db: Db, db': Db) {
    db'.attempts.Keys == db.attempts.Keys && db'.permits.Keys == db.permits.Keys && db'.commands.Keys == db.commands.Keys
  }

  lemma Preserved(db: Db, db': Db)
    requires CoreOk(db) && Extends(db, db') && SameKeys(db, db') && RevisionsOk(db')
    ensures CoreOk(db')
  {
    EvolvingKeepsAttempts(db, db');
    ExtendingKeepsLinks(db, db');
  }

  // ---------- application writers ----------

  // A granted lock leaves nothing unfinished, unless the writer means to end the application.
  lemma LockLeavesNothingUnfinished(db: Db, appId: Id, intent: Intent, expected: Option<int>)
    requires AttemptsOk(db) && LockRefusal(db, appId, intent, expected).None?
    ensures appId in db.applications
    ensures forall id :: id in db.attempts && id.app == appId && db.attempts[id].stage != Finished ==>
      intent == TerminalIntent && LatestAttempt(db, appId) == Some(id) && !CrossedBoundary(db, id)
  {
    forall id | id in db.attempts && id.app == appId && db.attempts[id].stage != Finished
      ensures intent == TerminalIntent && LatestAttempt(db, appId) == Some(id) && !CrossedBoundary(db, id)
    {
      assert AttemptOk(db.attempts, id);
      assert id.number == LastNumber(db.attempts, appId);
    }
  }

  // An application row may change as long as no unfinished attempt relies on its revision.
  lemma OneApplicationStaysOk(db: Db, appId: Id, a: Application)
    requires RevisionsOk(db) && appId in db.applications && ApplicationOk(a)
    requires a.revision == db.applications[appId].revision
          || forall id :: id in db.attempts && id.app == appId ==> db.attempts[id].stage == Finished
    ensures ApplicationsOk(db.applications[appId := a]) && RevisionsCurrent(db.attempts, db.applications[appId := a])
  {
  }

  lemma ApplicationIsOk(db: Db, appId: Id)
    requires CoreOk(db) && appId in db.applications
    ensures ApplicationOk(db.applications[appId])
  {
  }

  // Rewriting one application without touching its revision.
  lemma TouchKeeps(db: Db, db': Db, appId: Id)
    requires CoreOk(db) && appId in db.applications && appId in db'.applications
    requires db'.applications == db.applications[appId := db'.applications[appId]]
    requires ApplicationOk(db'.applications[appId]) && db'.applications[appId].revision == db.applications[appId].revision
    requires db'.plans == db.plans && db'.attempts == db.attempts && db'.permits == db.permits && db'.commands == db.commands
    requires db'.evidence == db.evidence
    ensures CoreOk(db') && Extends(db, db')
  {
    hide LinksOk, OneLivePlan, ApplicationsOk, RevisionsCurrent, AttemptsExtend, PlansExtend, PermitsExtend, CommandsExtend;
    TablesExtendThemselves(db);
    OneApplicationStaysOk(db, appId, db'.applications[appId]);
    Preserved(db, db');
  }

  lemma PrepareKeeps(db: Db, appId: Id, source: string, allowed: set<JobStatus>, now: Time)
    requires CoreOk(db) && Prepare(db, appId, source, allowed, now).Ok?
    ensures var db' := Prepare(db, appId, source, allowed, now).value; CoreOk(db') && Extends(db, db')
  {
    hide CoreOk, Extends, AttemptsOk, LockRefusal, SetJobStatus;
    CoreHasAttempts(db);
    LockLeavesNothingUnfinished(db, appId, PrepareIntent, None);
    TablesExtendThemselves(db);
    ApplicationIsOk(db, appId);
    var db' := Prepare(db, appId, source, allowed, now).value;
    TouchKeeps(db, db', appId);
  }

  lemma PolicyPrepareKeeps(db: Db, appId: Id, decisionId: Id, decision: PolicyDecision, now: Time)
    requires CoreOk(db)
    ensures var db' := PrepareByPolicy(db, appId, decisionId, decision, now); CoreOk(db') && Extends(db, db')
  {
    hide CoreOk, Extends, AttemptsOk;
    CoreHasAttempts(db);
    TablesExtendThemselves(db);
    var db' := PrepareByPolicy(db, appId, decisionId, decision, now);
    if appId in db.applications && decisionId !in db.decisions && db.applications[appId].status == JobDraft {
      ApplicationIsOk(db, appId);
      TouchKeeps(db, db', appId);
    }
  }

  lemma InvalidationKeepsPlans(plans: map<string, FormPlan>, app: Id, reason: Reason, now: Time)
    requires OneLivePlan(plans)
    ensures var after := InvalidatePlans(plans, app, reason, now);
      && OneLivePlan(after) && PlansExtend(plans, after)
      && (forall i :: i in after && after[i].applicationId == app ==> after[i].invalidatedAt.Some?)
  {
  }

  // Bumping is safe when no attempt of the application is unfinished.
  lemma BumpKeeps(db: Db, appId: Id, reason: Reason, now: Time)
    requires CoreOk(db) && appId in db.applications
    requires forall id :: id in db.attempts && id.app == appId ==> db.attempts[id].stage == Finished
    ensures var db' := BumpRevision(db, appId, reason, now); CoreOk(db') && Extends(db, db')
  {
    hide LinksOk, OneLivePlan, ApplicationsOk, RevisionsCurrent, AttemptsExtend, PlansExtend, PermitsExtend, CommandsExtend,
      InvalidatePlans;
    var db' := BumpRevision(db, appId, reason, now);
    TablesExtendThemselves(db);
    InvalidationKeepsPlans(db.plans, appId, reason, now);
    OneApplicationStaysOk(db, appId, db'.applications[appId]);
    Preserved(db, db');
  }

  lemma EditKeeps(db: Db, appId: Id, content: Content, reason: Reason, now: Time)
    requires CoreOk(db) && EditContent(db, appId, content, reason, now).Ok?
    ensures var db' := EditContent(db, appId, content, reason, now).value; CoreOk(db') && Extends(db, db')
  {
    hide LockRefusal, LinksOk, CoreOk, Extends, InvalidatePlans;
    CoreHasAttempts(db);
    LockLeavesNothingUnfinished(db, appId, ContentIntent, None);
    var bumped := BumpRevision(db, appId, reason, now);
    BumpKeeps(db, appId, reason, now);
    var db' := EditContent(db, appId, content, reason, now).value;
    ApplicationIsOk(bumped, appId);
    TouchKeeps(bumped, db', appId);
    ExtendsIsTransitive(db, bumped, db');
  }

  lemma CoreHasAttempts(db: Db)
    requires CoreOk(db)
    ensures AttemptsOk(db)
  {
  }

  lemma CancelKeeps(db: Db, id: AttemptId, reason: Reason, now: Time)
    requires CoreOk(db) && id in db.attempts && IsPreCommit(db.attempts[id].stage)
    ensures var db' := CancelActive(db, id, reason, now); CoreOk(db') && Extends(db, db')
  {
    hide LinksOk, OneLivePlan, ApplicationsOk, RevisionsCurrent, AttemptsExtend, PlansExtend, PermitsExtend, CommandsExtend;
    var db' := CancelActive(db, id, reason, now);
    TablesExtendThemselves(db);
    assert AttemptOk(db.attempts, id);
    OneAttemptExtends(db, id, db'.attempts[id]);
    OneAttemptStaysCurrent(db.attempts, db.applications, id, db'.attempts[id]);
    var key := CommandKey(db, id);
    if key.Some? { OneCommandExtends(db.commands, key.value, db'.commands[key.value]); }
    Preserved(db, db');
  }

  lemma CancelOpenKeeps(db: Db, appId: Id, reason: Reason, now: Time)
    requires CoreOk(db) && LockRefusal(db, appId, TerminalIntent, None).None?
    ensures var db' := CancelOpen(db, appId, reason, now); CoreOk(db') && Extends(db, db')
    ensures var db' := CancelOpen(db, appId, reason, now);
      forall id :: id in db'.attempts && id.app == appId ==> db'.attempts[id].stage == Finished
  {
    hide CoreOk, Extends, CrossedBoundary;
    CoreHasAttempts(db);
    LockLeavesNothingUnfinished(db, appId, TerminalIntent, None);
    hide LockRefusal, LatestAttempt;
    TablesExtendThemselves(db);
    var latest := LatestAttempt(db, appId);
    if latest.Some? && db.attempts[latest.value].stage != Finished {
      UncrossedIsPreCommit(db, latest.value);
      CancelKeeps(db, latest.value, reason, now);
    }
  }

  lemma SkipKeeps(db: Db, appId: Id, reason: Reason, now: Time)
    requires CoreOk(db) && Skip(db, appId, reason, now).Ok?
    ensures var db' := Skip(db, appId, reason, now).value; CoreOk(db') && Extends(db, db')
  {
    hide LinksOk, CoreOk, Extends, AttemptsOk, LockRefusal, CancelOpen, InvalidatePlans, MarkJobSkipped;
    CoreHasAttempts(db);
    TablesExtendThemselves(db);
    LockLeavesNothingUnfinished(db, appId, TerminalIntent, None);
    var cancelled := CancelOpen(db, appId, reason, now);
    CancelOpenKeeps(db, appId, reason, now);
    BumpKeeps(cancelled, appId, reason, now);
    var bumped := BumpRevision(cancelled, appId, reason, now);
    var db' := Skip(db, appId, reason, now).value;
    ApplicationIsOk(db, appId);
    ApplicationIsOk(bumped, appId);
    if db' == db.(jobs := db'.jobs) {
      TouchKeeps(db, db', appId);
    } else {
      TouchKeeps(bumped, db', appId);
      ExtendsIsTransitive(db, cancelled, bumped);
      ExtendsIsTransitive(db, bumped, db');
    }
  }

  lemma UncrossedIsPreCommit(db: Db, id: AttemptId)
    requires id in db.attempts && db.attempts[id].stage != Finished && !CrossedBoundary(db, id)
    ensures IsPreCommit(db.attempts[id].stage)
  {
  }

  lemma ReplacedPlanIsAlone(plans: map<string, FormPlan>, i: string, p: FormPlan)
    requires OneLivePlan(plans) && i !in plans
    requires forall j :: j in plans && plans[j].applicationId == p.applicationId ==> plans[j].invalidatedAt.Some?
    ensures OneLivePlan(plans[i := p])
  {
  }

  lemma PersistKeeps(db: Db, appId: Id, o: Observation, now: Time)
    requires CoreOk(db) && PersistPlan(db, appId, o, now).Ok?
    ensures var db' := PersistPlan(db, appId, o, now).value; CoreOk(db') && Extends(db, db')
  {
    hide LockRefusal, LinksOk, OneLivePlan, ApplicationsOk, RevisionsCurrent, AttemptsExtend, PermitsExtend, CommandsExtend,
      InvalidatePlans, SamePlan;
    var db' := PersistPlan(db, appId, o, now).value;
    LockLeavesNothingUnfinished(db, appId, ContentIntent, None);
    TablesExtendThemselves(db);
    if db' != db {
      var after := InvalidatePlans(db.plans, appId, "FORM_REINSPECTED", now);
      InvalidationKeepsPlans(db.plans, appId, "FORM_REINSPECTED", now);
      InvalidationAddsNothing(db.plans, appId, "FORM_REINSPECTED", now);
      ReplacedPlanIsAlone(after, o.planId, db'.plans[o.planId]);
      ApplicationIsOk(db, appId);
      OneApplicationStaysOk(db, appId, db'.applications[appId]);
    }
    Preserved(db, db');
  }

  lemma InvalidationAddsNothing(plans: map<string, FormPlan>, app: Id, reason: Reason, now: Time)
    ensures InvalidatePlans(plans, app, reason, now).Keys == plans.Keys
  {
  }

  // ---------- the worker ----------

  // One attempt moves on; its command, permit and plan may change with it.
  lemma AttemptMoves(db: Db, db': Db, id: AttemptId)
    requires CoreOk(db) && id in db.attempts && id in db'.attempts && RowEvolves(db.attempts[id], db'.attempts[id])
    requires db'.attempts == db.attempts[id := db'.attempts[id]]
    requires PlansExtend(db.plans, db'.plans) && OneLivePlan(db'.plans)
    requires PermitsExtend(db.permits, db'.permits) && db'.permits.Keys == db.permits.Keys
    requires CommandsExtend(db.commands, db'.commands) && db'.commands.Keys == db.commands.Keys
    requires db.applications.Keys <= db'.applications.Keys && db.evidence <= db'.evidence
    requires ApplicationsOk(db'.applications) && RevisionsCurrent(db.attempts, db'.applications)
    ensures CoreOk(db') && Extends(db, db')
  {
    hide LinksOk, OneLivePlan, ApplicationsOk, RevisionsCurrent, AttemptsExtend, PlansExtend, PermitsExtend, CommandsExtend, RowEvolves;
    OneAttemptExtends(db, id, db'.attempts[id]);
    OneAttemptStaysCurrent(db.attempts, db'.applications, id, db'.attempts[id]);
    Preserved(db, db');
  }

  lemma ClaimKeeps(db: Db, key: string, owner: string, token: string, now: Time)
    requires CoreOk(db)
    ensures var db' := ClaimCommand(db, key, owner, token, now); CoreOk(db') && Extends(db, db')
  {
    hide LinksOk, OneLivePlan, ApplicationsOk, RevisionsCurrent, AttemptsExtend, PlansExtend, PermitsExtend, CommandsExtend;
    var db' := ClaimCommand(db, key, owner, token, now);
    TablesExtendThemselves(db);
    if db' != db {
      var id := db.commands[key].attempt;
      assert AttemptOk(db.attempts, id);
      OneCommandExtends(db.commands, key, db'.commands[key]);
      AttemptMoves(db, db', id);
    }
  }

  lemma AdvanceKeeps(db: Db, id: AttemptId, target: Stage)
    requires CoreOk(db)
    ensures var db' := Advance(db, id, target); CoreOk(db') && Extends(db, db')
  {
    hide LinksOk, OneLivePlan, ApplicationsOk, RevisionsCurrent, AttemptsExtend, PlansExtend, PermitsExtend, CommandsExtend;
    var db' := Advance(db, id, target);
    TablesExtendThemselves(db);
    if db' != db {
      assert AttemptOk(db.attempts, id);
      AttemptMoves(db, db', id);
    }
  }

  // A cleared worker's attempt is ready, its permit unspent and live, and the action bound to both.
  lemma ClearedIsReady(db: Db, v: Boundary, now: Time)
    requires BoundaryVerdict(db, v, now) == Cleared
    ensures v.key in db.commands && db.commands[v.key].state == CommandClaimed && db.commands[v.key].lease.Some?
    ensures var id := db.commands[v.key].attempt;
      && id in db.attempts && id.app in db.applications && id in db.permits && AtBoundary(db, id)
      && db.permits[id].consumedAt.None? && now < db.permits[id].expiresAt
      && ActionBinds(v.action, db.plans[db.attempts[id].binding.planId.value], id, db.permits[id], now)
  {
    hide SameText, ActionBinds, BoundaryReason;
  }

  lemma VerdictNeedsClaim(db: Db, v: Boundary, now: Time)
    ensures BoundaryVerdict(db, v, now) != Superseded ==> v.key in db.commands && db.commands[v.key].attempt in db.attempts
  {
    hide BoundaryRefusal, AtBoundary;
  }

  lemma RecordCommitKeeps(db: Db, id: AttemptId, key: string, now: Time)
    requires CoreOk(db) && id in db.attempts && id in db.permits && db.attempts[id].stage == Ready && db.permits[id].consumedAt.None?
    requires key in db.commands && db.commands[key].lease.Some?
    ensures var db' := RecordCommit(db, id, key, now); CoreOk(db') && Extends(db, db')
  {
    hide LinksOk, OneLivePlan, ApplicationsOk, RevisionsCurrent, AttemptsExtend, PlansExtend, PermitsExtend, CommandsExtend, SameText;
    var db' := RecordCommit(db, id, key, now);
    TablesExtendThemselves(db);
    assert AttemptOk(db.attempts, id);
    OnePermitExtends(db.permits, id, db'.permits[id]);
    OneCommandExtends(db.commands, key, db'.commands[key]);
    AttemptMoves(db, db', id);
  }

  lemma BoundaryKeeps(db: Db, v: Boundary, now: Time)
    requires CoreOk(db)
    ensures var db' := EnterBoundary(db, v, now); CoreOk(db') && Extends(db, db')
  {
    VerdictNeedsClaim(db, v, now);
    hide CoreOk, Extends, BoundaryVerdict, RecordCommit, FinishAttempt, AtBoundary;
    match BoundaryVerdict(db, v, now)
    case Superseded =>
      CoreHasAttempts(db);
      hide AttemptsOk;
      TablesExtendThemselves(db);
    case Rejected(reason, at) =>
      FinishKeeps(db, db.commands[v.key].attempt, FailedBeforeCommit, reason, None, at);
    case Cleared =>
      ClearedIsReady(db, v, now);
      ReadyAtBoundary(db, db.commands[v.key].attempt);
      RecordCommitKeeps(db, db.commands[v.key].attempt, v.key, now);
  }

  lemma ReadyAtBoundary(db: Db, id: AttemptId)
    requires id in db.attempts && id.app in db.applications && AtBoundary(db, id)
    ensures db.attempts[id].stage == Ready
  {
  }

  lemma FinishKeeps(db: Db, id: AttemptId, outcome: Outcome, reason: Reason, proof: Option<EvidenceRow>, now: Time)
    requires CoreOk(db)
    ensures var db' := FinishAttempt(db, id, outcome, reason, proof, now); CoreOk(db') && Extends(db, db')
  {
    hide LinksOk, OneLivePlan, ApplicationsOk, RevisionsCurrent, AttemptsExtend, PlansExtend, PermitsExtend, CommandsExtend, SetJobStatus;
    var db' := FinishAttempt(db, id, outcome, reason, proof, now);
    TablesExtendThemselves(db);
    if db' != db {
      assert AttemptOk(db.attempts, id);
      ApplicationIsOk(db, id.app);
      OneApplicationStaysOk(db, id.app, db'.applications[id.app]);
      var key, plan := CommandKey(db, id), db.attempts[id].binding.planId;
      if key.Some? { OneCommandExtends(db.commands, key.value, db'.commands[key.value]); }
      if db'.plans != db.plans { OnePlanExtends(db.plans, plan.value, db'.plans[plan.value]); }
      AttemptMoves(db, db', id);
    }
  }

  // ---------- restore ----------

  lemma RestoredAttempt(db: Db, id: AttemptId, now: Time)
    requires AttemptsOk(db) && id in db.attempts
    ensures RowEvolves(db.attempts[id], Quarantine.Quarantine(db, now).attempts[id])
    ensures Quarantine.Quarantine(db, now).attempts[id].stage == Finished
  {
    assert AttemptOk(db.attempts, id);
    if db.attempts[id].stage != Finished { UnconfirmedIsUnverified(id, db.attempts[id], db.evidence); }
  }

  lemma RestoredPlans(db: Db, now: Time)
    ensures var plans := Quarantine.Quarantine(db, now).plans; PlansExtend(db.plans, plans) && OneLivePlan(plans)
  {
    hide QuarantineAttempts, MovedApplications, MovedJobs;
  }

  lemma RestoredAuthority(db: Db, now: Time)
    ensures var q := Quarantine.Quarantine(db, now);
      PermitsExtend(db.permits, q.permits) && CommandsExtend(db.commands, q.commands)
  {
    hide QuarantineAttempts, MovedApplications, MovedJobs;
  }

  lemma RestoredApplications(db: Db, now: Time)
    requires ApplicationsOk(db.applications)
    ensures ApplicationsOk(MovedApplications(db, now)) && MovedApplications(db, now).Keys == db.applications.Keys
  {
    hide AffectedIds, AffectedReason;
  }

  lemma RestoreKeeps(db: Db, now: Time)
    requires CoreOk(db)
    ensures var db' := Quarantine.Quarantine(db, now); CoreOk(db') && Extends(db, db')
  {
    hide LinksOk, OneLivePlan, ApplicationsOk, PlansExtend, PermitsExtend, CommandsExtend, RowEvolves, MovedApplications, MovedJobs,
      QuarantineAttempt, HasVerifiedEvidence;
    var db' := Quarantine.Quarantine(db, now);
    forall id | id in db.attempts ensures RowEvolves(db.attempts[id], db'.attempts[id]) && db'.attempts[id].stage == Finished {
      RestoredAttempt(db, id, now);
    }
    RestoredPlans(db, now);
    RestoredAuthority(db, now);
    RestoredApplications(db, now);
    Preserved(db, db');
  }

  // ---------- admission ----------

  lemma AuthorityNamesItsRows(db: Db, app: Application, plan: FormPlan, r: Request, s: Surroundings, release: string, now: Time)
    requires ResolveAuthority(db, app, plan, r, s, release, now).Ok?
    ensures var auth := ResolveAuthority(db, app, plan, r, s, release, now).value;
      (auth.decision.Some? <==> r.decisionId.Some?) && (auth.canary.Some? <==> r.canaryId.Some?)
  {
    hide CanaryChain.Validate;
  }

  lemma GroundsAreSound(db: Db, r: Request, s: Surroundings, now: Time)
    requires Grounded(db, r, s, now).Ok?
    ensures var g := Grounded(db, r, s, now).value;
      && r.appId in db.applications && r.planId in db.plans && g.plan == db.plans[r.planId]
      && r.revision == db.applications[r.appId].revision
      && !HasImmutableAttempt(db, r.appId) && !HasUnfinishedAttempt(db, r.appId)
      && g.binding.key == r.key && g.binding.revision == r.revision && g.binding.planId == Some(r.planId)
      && g.binding.authority == r.authority && g.binding.decisionId == r.decisionId && g.binding.canaryId == r.canaryId
  {
    hide InvalidAdapter, IssuePermit, ResolveAuthority, LastNumber, ReviewGrants.PreparationIsCurrent, ReviewGrants.ReadyForPermitAt,
      HasImmutableAttempt, HasUnfinishedAttempt, Blank;
    AuthorityNamesItsRows(db, db.applications[r.appId], db.plans[r.planId], r, s, s.runtime.value, now);
  }

  lemma GroundsAreBound(db: Db, r: Request, s: Surroundings, now: Time)
    requires Grounded(db, r, s, now).Ok?
    ensures var g := Grounded(db, r, s, now).value;
      && g.plan.applicationId == r.appId
      && PlanBacks(g.plan, AttemptId(r.appId, 1), g.binding)
      && PermitBacks(g.permit, g.binding, g.plan)
  {
    hide Ineligible, ResolveAuthority, ReviewGrants.PreparationIsCurrent, ReviewGrants.ReadyForPermitAt, InvalidPermit, IssuePermit;
    var g := Grounded(db, r, s, now).value;
    var auth := ResolveAuthority(db, db.applications[r.appId], g.plan, r, s, s.runtime.value, now).value;
    assert g.binding == NewBinding(r, g.plan, s.descriptor.value, auth, s.runtime.value);
    assert IssuePermit(g.binding, g.plan, s.urlHash.value, s.permitTtl, now, auth.notAfter) == Ok(g.permit);
    IssuedPermitBacks(r, g.plan, s.descriptor.value, auth, s.runtime.value, s.urlHash.value, s.permitTtl, now);
  }

  lemma IssuedPermitBacks(
    r: Request, p: FormPlan, d: CanaryChain.Descriptor, auth: Authority, release: string, urlHash: string, ttl: int, now: Time)
    requires var b := NewBinding(r, p, d, auth, release); IssuePermit(b, p, urlHash, ttl, now, auth.notAfter).Ok?
    requires p.revision == r.revision && d.platform == p.adapterName && d.adapterVersion == p.adapterVersion
    requires d.selectorVersion == p.selectorVersion
    ensures var b := NewBinding(r, p, d, auth, release);
      PermitBacks(IssuePermit(b, p, urlHash, ttl, now, auth.notAfter).value, b, p)
  {
  }

  lemma InsertedAttempt(db: Db, r: Request, g: Grounds, now: Time)
    requires AttemptsOk(db) && r.appId in db.applications
    requires !HasImmutableAttempt(db, r.appId) && !HasUnfinishedAttempt(db, r.appId)
    ensures var id := AttemptId(r.appId, LastNumber(db.attempts, r.appId) + 1);
      var attempts := db.attempts[id := NewAttempt(g.binding)];
      && id !in db.attempts
      && (forall x :: x in attempts ==> x.app in db.applications && AttemptOk(attempts, x)) && OneBusy(attempts)
  {
    var last := LastNumber(db.attempts, r.appId);
    var id := AttemptId(r.appId, last + 1);
    var attempts := db.attempts[id := NewAttempt(g.binding)];
    assert id !in db.attempts;
    forall x | x in attempts ensures x.app in db.applications && AttemptOk(attempts, x) {
      if x != id {
        assert AttemptOk(db.attempts, x);
        if x.app == r.appId { assert db.attempts[x].stage == Finished; }
      }
    }
    forall x, y | x in attempts && y in attempts && x.app == y.app && Busy(attempts[x]) && Busy(attempts[y]) ensures x == y {
      if x != id { NotBusy(db, r.appId, x); }
      if y != id { NotBusy(db, r.appId, y); }
    }
  }

  // An application open to admission has no attempt that occupies it.
  lemma NotBusy(db: Db, appId: Id, x: AttemptId)
    requires x in db.attempts && !HasImmutableAttempt(db, appId) && !HasUnfinishedAttempt(db, appId)
    ensures x.app == appId ==> !Busy(db.attempts[x])
  {
    if x.app == appId { assert !IsImmutable(db.attempts[x].outcome) && db.attempts[x].stage == Finished; }
  }

  lemma CreateOneKeeps(db: Db, r: Request, s: Surroundings, now: Time)
    requires CoreOk(db) && CreateOne(db, r, s, now).Ok?
    ensures var db' := CreateOne(db, r, s, now).value.0; CoreOk(db') && Extends(db, db')
  {
    hide Grounded, InvalidPermit;
    var db' := CreateOne(db, r, s, now).value.0;
    TablesExtendThemselves(db);
    if FindReplay(db, r).Ok? && FindReplay(db, r).value.None? {
      var g := Grounded(db, r, s, now).value;
      GroundsAreSound(db, r, s, now);
      GroundsAreBound(db, r, s, now);
      InsertedAttempt(db, r, g, now);
      InsertKeeps(db, r, g, now);
    }
  }

  // The rows an admission adds, table by table.
  ghost predicate IsInsert(db: Db, db': Db, r: Request, g: Grounds, id: AttemptId) {
    && db'.attempts == db.attempts[id := NewAttempt(g.binding)]
    && db'.permits == db.permits[id := g.permit]
    && r.key in db'.commands && db'.commands == db.commands[r.key := db'.commands[r.key]] && db'.commands[r.key].attempt == id
    && db'.applications == db.applications && db'.plans == db.plans && db'.evidence == db.evidence
  }

  lemma InsertKeeps(db: Db, r: Request, g: Grounds, now: Time)
    requires CoreOk(db) && r.appId in db.applications && r.planId in db.plans && g.plan == db.plans[r.planId] && r.key !in db.commands
    requires g.consumesCanary ==> r.canaryId.Some? && r.canaryId.value in db.canaries
    requires r.revision == db.applications[r.appId].revision
    requires g.binding.key == r.key && g.binding.revision == r.revision && g.binding.planId == Some(r.planId)
    requires g.plan.applicationId == r.appId && PlanBacks(g.plan, AttemptId(r.appId, 1), g.binding)
    requires PermitBacks(g.permit, g.binding, g.plan)
    requires !HasImmutableAttempt(db, r.appId) && !HasUnfinishedAttempt(db, r.appId)
    ensures var db' := Insert(db, r, g, now).0; CoreOk(db') && Extends(db, db')
  {
    hide PermitBacks, OneLivePlan, ApplicationsOk, HasImmutableAttempt, HasUnfinishedAttempt, LastNumber, AttemptOk, OneBusy,
      LinksOk, RevisionsCurrent, AttemptsExtend, PlansExtend, PermitsExtend, CommandsExtend, PlanBacks;
    var db' := Insert(db, r, g, now).0;
    var id := AttemptId(r.appId, LastNumber(db.attempts, r.appId) + 1);
    TablesExtendThemselves(db);
    InsertedAttempt(db, r, g, now);
    assert IsInsert(db, db', r, g, id);
    InsertedLinks(db, db', r, g, id);
    InsertedTables(db, db', r, g, id);
  }

  lemma InsertedTables(db: Db, db': Db, r: Request, g: Grounds, id: AttemptId)
    requires AttemptsOk(db) && LinksOk(db) && RevisionsOk(db) && IsInsert(db, db', r, g, id)
    requires id !in db.attempts && id.app == r.appId && r.key !in db.commands && r.appId in db.applications
    requires g.binding.revision == db.applications[r.appId].revision
    ensures AttemptsExtend(db.attempts, db'.attempts) && PermitsExtend(db.permits, db'.permits)
    ensures CommandsExtend(db.commands, db'.commands) && RevisionsCurrent(db'.attempts, db'.applications)
  {
    hide LinkOk, AttemptOk, OneBusy, RowEvolves, SamePermit, OneLivePlan, ApplicationsOk;
    TablesExtendThemselves(db);
    assert id !in db.permits;
  }

  lemma InsertedLinks(db: Db, db': Db, r: Request, g: Grounds, id: AttemptId)
    requires LinksOk(db) && IsInsert(db, db', r, g, id) && id !in db.attempts && id.app == r.appId && r.key !in db.commands
    requires r.planId in db.plans && g.plan == db.plans[r.planId]
    requires g.binding.key == r.key && g.binding.planId == Some(r.planId)
    requires g.plan.applicationId == r.appId && PlanBacks(g.plan, AttemptId(r.appId, 1), g.binding)
    requires PermitBacks(g.permit, g.binding, g.plan)
    ensures LinksOk(db')
  {
    hide PermitBacks;
    assert LinkOk(db', id);
    hide PlanBacks;
    forall x | x in db'.attempts ensures LinkOk(db', x) {
      if x != id { assert LinkOk(db, x); }
    }
  }

  lemma {:induction false} CreateAllKeeps(db: Db, items: seq<Item>, now: Time)
    requires CoreOk(db) && CreateAll(db, items, now).Ok?
    ensures var db' := CreateAll(db, items, now).value.0; CoreOk(db') && Extends(db, db')
    decreases |items|
  {
    hide CreateOne, CoreOk, Extends;
    if items == [] {
      CoreHasAttempts(db);
      TablesExtendThemselves(db);
    } else {
      CreateOneKeeps(db, items[0].request, items[0].surroundings, now);
      var next := CreateOne(db, items[0].request, items[0].surroundings, now).value.0;
      CreateAllKeeps(next, items[1..], now);
      ExtendsIsTransitive(db, next, CreateAll(db, items, now).value.0);
    }
  }

  // ---------- every step ----------

  // Canary records touch none of these tables.
  lemma RecordsKeep(db: Db, db': Db)
    requires CoreOk(db)
    requires db' == db.(qualifications := db'.qualifications, canaries := db'.canaries)
    ensures CoreOk(db') && Extends(db, db')
  {
    hide LinksOk, OneLivePlan, ApplicationsOk, RevisionsCurrent, AttemptsExtend, PlansExtend, PermitsExtend, CommandsExtend;
    TablesExtendThemselves(db);
    Preserved(db, db');
  }

  lemma RecordStepsKeep(db: Db, e: Event, now: Time)
    requires CoreOk(db) && (e.DryRun? || e.MintCanary? || e.ConfirmCanary? || e.InvalidateRecords?)
    ensures CoreOk(Step(db, e, now)) && Extends(db, Step(db, e, now))
  {
    hide CoreOk, Extends, RecordStep;
    RecordsKeep(db, RecordStep(db, e, now));
  }

  lemma StepKeepsCore(db: Db, e: Event, now: Time)
    requires CoreOk(db)
    ensures CoreOk(Step(db, e, now)) && Extends(db, Step(db, e, now))
  {
    hide CoreOk, Extends, AttemptsOk, CreateAll, Prepare, PrepareByPolicy, EditContent, Skip, PersistPlan, ClaimCommand, Advance,
      EnterBoundary, FinishAttempt, Quarantine.Quarantine, InApplicationOrder;
    CoreHasAttempts(db);
    TablesExtendThemselves(db);
    match e
    case Admit(items, process) =>
      if CreateBatch(db, items, process, now).Ok? { CreateAllKeeps(db, InApplicationOrder(items), now); }
    case PrepareApplication(appId, source, allowed) =>
      if Prepare(db, appId, source, allowed, now).Ok? { PrepareKeeps(db, appId, source, allowed, now); }
    case PolicyPrepare(appId, decisionId, decision) => PolicyPrepareKeeps(db, appId, decisionId, decision, now);
    case Edit(appId, content, reason) =>
      if EditContent(db, appId, content, reason, now).Ok? { EditKeeps(db, appId, content, reason, now); }
    case SkipApplication(appId, reason) =>
      if Skip(db, appId, reason, now).Ok? { SkipKeeps(db, appId, reason, now); }
    case Inspect(appId, observation) =>
      if PersistPlan(db, appId, observation, now).Ok? { PersistKeeps(db, appId, observation, now); }
    case Claim(key, owner, token) => ClaimKeeps(db, key, owner, token, now);
    case Move(id, target) => AdvanceKeeps(db, id, target);
    case Commit(boundary) => BoundaryKeeps(db, boundary, now);
    case Finish(id, outcome, reason, proof) => FinishKeeps(db, id, outcome, reason, proof, now);
    case Restore => RestoreKeeps(db, now);
    case _ => RecordStepsKeep(db, e, now);
  }
}
