/** Exactly which requests are admitted, and the rows an admission writes, said column by column. */
module AdmissionRules {
  import opened Wrappers
  import opened Records
  import opened Database
  import opened Admission
  import CanaryChain
  import CanaryRules

  // ---------- what the rows must say ----------

  // The application was reviewed at its current revision.
  predicate Reviewed(app: Application, r: Request) {
    && app.revision == r.revision && app.status == JobDraft && app.approvedAt.Some?
    && app.preparedRevision == Some(if app.revision < 1 then 1 else app.revision)
  }

  // No attempt is open or final; after a failed or drafted one the application was prepared again for a retry.
  ghost predicate FreeToTry(db: Db, appId: Id, app: Application) {
    && (forall id :: id in db.attempts && id.app == appId ==>
          db.attempts[id].stage == Finished
          && db.attempts[id].outcome !in {Some(ConfirmedSubmitted), Some(AlreadyApplied), Some(Unknown), Some(OperatorConfirmed),
                                          Some(LegacyUnverified)})
    && var last := AttemptId(appId, LastNumber(db.attempts, appId));
       last in db.attempts ==>
         db.attempts[last].outcome in {Some(FailedBeforeCommit), Some(DraftOnly)} && app.approvalSource == Some("retry_prepare")
  }

  predicate Given(column: Option<string>) { column.Some? && column.value != "" }

  // The plan is live, unblocked and made for this application, revision, CV and profile, with its attachment verified.
  predicate PlanServes(app: Application, p: FormPlan, r: Request, now: Time) {
    && p.applicationId == r.appId && p.invalidatedAt.None? && p.createdAt <= now < p.expiresAt && p.blockers == []
    && p.revision == r.revision
    && p.attachmentVerified && Given(p.attachedCvId) && Given(p.attachedCvHash)
    && p.attachedCvId == Some(p.selectedCvId) == app.selectedCvId && p.attachedCvHash == Some(p.selectedCvHash) == app.selectedCvHash
    && p.profileVersion.Some? && p.profileVersion.value >= 1 && p.profileVersion == app.profileVersion
    && p.sessionVerifiedAt.Some? && p.createdAt <= p.sessionVerifiedAt.value <= now
  }

  // The authority rows the request names are those its kind calls for, and they back it.
  ghost predicate Authorized(db: Db, app: Application, p: FormPlan, r: Request, s: Surroundings, release: string, now: Time) {
    match r.authority
    case Legacy => false
    case QualificationCanary => r.decisionId.None? && r.canaryId.Some? && r.canaryId.value in db.canaries
      && CanaryRules.CanaryHolds(db, r.canaryId.value, db.canaries[r.canaryId.value].digest, false, r.appId, app, r.planId, p, s.site, release, now)
    case QualifiedAutopilot =>
      && r.canaryId.None? && r.decisionId.Some? && r.decisionId.value in db.decisions && s.decision.None?
      && var d := db.decisions[r.decisionId.value];
         d.applicationId == r.appId && d.revision == app.revision && d.planId == r.planId && d.expiresAt.Some? && now < d.expiresAt.value
    case _ => r.canaryId.None? && r.decisionId.None?
  }

  // The registered adapter acts live on forms of this kind, in the version the plan was made with.
  predicate AdapterServes(d: CanaryChain.Descriptor, p: FormPlan) {
    && d.platform == p.adapterName && d.adapterVersion == p.adapterVersion && d.selectorVersion == p.selectorVersion
    && d.live && d.contractVersion == Some("two-phase-v2") && p.fingerprint != "" && p.fingerprint in d.formScope
  }

  ghost predicate Admissible(db: Db, r: Request, s: Surroundings, now: Time) {
    && r.appId in db.applications && r.planId in db.plans
    && var app, p := db.applications[r.appId], db.plans[r.planId];
       && Reviewed(app, r) && FreeToTry(db, r.appId, app) && PlanServes(app, p, r, now)
       && (r.authorityExpiresAt.Some? ==> now < r.authorityExpiresAt.value)
       && s.material.None? && s.profile.None? && s.runtime.Ok? && s.model.None?
       && Authorized(db, app, p, r, s, s.runtime.value, now)
       && s.descriptor.Some? && AdapterServes(s.descriptor.value, p)
       && s.sessionReady && s.urlHash.Some?
  }

  // ---------- the guards say the same ----------

  lemma EligibleExactly(db: Db, r: Request)
    requires r.appId in db.applications
    ensures var app := db.applications[r.appId]; Ineligible(db, app, r).None? <==> Reviewed(app, r) && FreeToTry(db, r.appId, app)
  {
    var app, last := db.applications[r.appId], AttemptId(r.appId, LastNumber(db.attempts, r.appId));
    assert IsLastNumber(db.attempts, r.appId, LastNumber(db.attempts, r.appId));
    if FreeToTry(db, r.appId, app) {
      assert !HasImmutableAttempt(db, r.appId) && !HasUnfinishedAttempt(db, r.appId);
    }
  }

  lemma PlanExactly(app: Application, p: FormPlan, r: Request, s: Surroundings, now: Time)
    requires app.revision == r.revision
    ensures InvalidPlan(app, Some(p), r, s, now).None? <==>
            s.material.None? && PlanServes(app, p, r, now) && (r.authorityExpiresAt.Some? ==> now < r.authorityExpiresAt.value)
  {
  }

  lemma AdapterExactly(d: Option<CanaryChain.Descriptor>, p: FormPlan)
    ensures InvalidAdapter(d, p).None? <==> d.Some? && AdapterServes(d.value, p)
  {
  }

  // ---------- the rows an admission writes ----------

  // Whatever ends an admitted action: the permit's own lifetime, its plan, the requested deadline, and the decision or canary behind it.
  ghost function Deadlines(db: Db, r: Request, s: Surroundings, now: Time): set<int>
    requires r.planId in db.plans
  {
    {now + (if s.permitTtl < 1 then 1 else s.permitTtl), db.plans[r.planId].expiresAt}
    + (if r.authorityExpiresAt.Some? then {r.authorityExpiresAt.value} else {})
    + (if r.authority == QualifiedAutopilot && r.decisionId.Some? && r.decisionId.value in db.decisions
          && db.decisions[r.decisionId.value].expiresAt.Some? then {db.decisions[r.decisionId.value].expiresAt.value} else {})
    + (if r.authority == QualificationCanary && r.canaryId.Some? && r.canaryId.value in db.canaries
       then {db.canaries[r.canaryId.value].content.expiresAt} else {})
  }

  ghost predicate IsEarliest(t: int, times: set<int>) { t in times && forall x :: x in times ==> t <= x }

  // The attempt's fixed columns come from the request, its plan, the adapter and the authority row of its kind.
  ghost predicate BindingWritten(db: Db, b: Binding, r: Request, s: Surroundings)
    requires r.planId in db.plans
  {
    var p := db.plans[r.planId];
    && b.key == r.key && b.revision == r.revision && b.planId == Some(r.planId) && b.authority == r.authority 
    && s.runtime.Ok? && b.runnerRelease == Some(s.runtime.value)
    && b.submitterName == p.adapterName && b.adapterName == Some(p.adapterName) && b.adapterVersion == Some(p.adapterVersion)
    && b.selectorVersion == Some(p.selectorVersion) && b.fingerprint == Some(p.fingerprint)
    && b.requestedCvId == Some(p.selectedCvId) && b.requestedCvHash == Some(p.selectedCvHash)
    && b.attachedCvId == p.attachedCvId && b.attachedCvHash == p.attachedCvHash && b.attachmentVerified && b.profileVersion == p.profileVersion
    && b.decisionId == r.decisionId && b.canaryId == r.canaryId
    && (r.decisionId.Some? <==> b.decisionDigest.Some?) && (r.canaryId.Some? <==> b.canaryDigest.Some?)
    && (r.decisionId.Some? ==> r.decisionId.value in db.decisions && b.decisionDigest == Some(db.decisions[r.decisionId.value].digest))
    && (r.canaryId.Some? ==> r.canaryId.value in db.canaries && b.canaryDigest == Some(db.canaries[r.canaryId.value].digest))
  }

  // The permit repeats what it authorizes, unspent, until the earliest deadline.
  ghost predicate PermitWritten(db: Db, t: Permit, b: Binding, r: Request, s: Surroundings, now: Time)
    requires r.planId in db.plans
  {
    var p := db.plans[r.planId];
    && Some(t.jobUrlHash) == s.urlHash && t.revision == r.revision && t.adapterName == p.adapterName && t.adapterVersion == p.adapterVersion
    && t.selectorVersion == p.selectorVersion && t.fingerprint == p.fingerprint && Some(t.cvHash) == p.attachedCvHash
    && t.authority == r.authority && t.decisionDigest == b.decisionDigest && t.canaryDigest == b.canaryDigest
    && t.issuedAt == now && t.consumedAt.None? && IsEarliest(t.expiresAt, Deadlines(db, r, s, now))
  }

  // The next attempt of the application, queued with its permit and its command; a canary is spent; nothing else changes.
  ghost predicate AdmissionWritten(db: Db, db': Db, r: Request, s: Surroundings, now: Time, created: Created)
    requires r.planId in db.plans
  {
    var id := created.attempt;
    && id.app == r.appId && id !in db.attempts && id.number >= 1 && (id.number == 1 || AttemptId(id.app, id.number - 1) in db.attempts)
    && (forall x :: x in db.attempts && x.app == id.app ==> x.number < id.number)
    && id in db'.attempts && id in db'.permits && !created.replayed
    && var b := db'.attempts[id].binding;
       && BindingWritten(db, b, r, s) && PermitWritten(db, db'.permits[id], b, r, s, now)
       && db'.attempts == db.attempts[id := Attempt(b, StatusPending, Queued, None, None, None, None, None, None, None)]
       && db'.permits == db.permits[id := db'.permits[id]]
       && db'.commands == db.commands[r.key := Command(created.command, id, CommandPending, None, None, None)]
       && (r.canaryId.None? ==> db'.canaries == db.canaries)
       && (r.canaryId.Some? ==> (
             && r.canaryId.value in db.canaries
             && db'.canaries == db.canaries[r.canaryId.value := db.canaries[r.canaryId.value].(consumedAt := Some(now))]))
       && db' == db.(attempts := db'.attempts, permits := db'.permits, commands := db'.commands, canaries := db'.canaries)
  }

  // ---------- main results ----------

  lemma AuthorityExactly(db: Db, app: Application, p: FormPlan, r: Request, s: Surroundings, release: string, now: Time)
    requires r.authorityExpiresAt.Some? ==> now < r.authorityExpiresAt.value
    ensures var auth := ResolveAuthority(db, app, p, r, s, release, now);
      Authorized(db, app, p, r, s, release, now) <==> auth.Ok? && (auth.value.notAfter.Some? ==> now < auth.value.notAfter.value)
  {
    if r.canaryId.Some? && r.canaryId.value in db.canaries { 
      CanaryRules.ValidatesExactlyWhenItHolds(
        db, r.canaryId.value, db.canaries[r.canaryId.value].digest, false, r.appId, app, r.planId, p, s.site, release, now);
     }
    hide CanaryChain.Validate, CanaryRules.CanaryHolds;
  }

  lemma PermitExactly(b: Binding, p: FormPlan, urlHash: string, ttl: int, now: Time, notAfter: Option<Time>)
    requires p.attachmentVerified && Given(p.attachedCvHash) && now < p.expiresAt
    ensures IssuePermit(b, p, urlHash, ttl, now, notAfter).Ok? <==> (notAfter.Some? ==> now < notAfter.value)
  {
  }

  lemma ReviewedPlan(app: Application, p: FormPlan, r: Request, now: Time)
    requires PlanServes(app, p, r, now)
    ensures p.attachmentVerified && Given(p.attachedCvHash) && now < p.expiresAt
  {
  }

  lemma GroundedExactly(db: Db, r: Request, s: Surroundings, now: Time)
    ensures Grounded(db, r, s, now).Ok? <==> Admissible(db, r, s, now)
  {
    if r.appId in db.applications {
      EligibleExactly(db, r);
      var app := db.applications[r.appId];
      hide Ineligible, FreeToTry;
      if Reviewed(app, r) && FreeToTry(db, r.appId, app) {
        hide Reviewed;
        GroundedOnPlan(db, app, r, s, now);
      }
    }
    hide Grounded, InvalidPlan, ResolveAuthority, InvalidAdapter, PlanServes, Authorized, AdapterServes, IssuePermit, NewBinding;
  }

  lemma GroundedOnPlan(db: Db, app: Application, r: Request, s: Surroundings, now: Time)
    requires r.appId in db.applications && app == db.applications[r.appId] && Ineligible(db, app, r).None? && app.revision == r.revision
    requires Reviewed(app, r) && FreeToTry(db, r.appId, app)
    ensures Grounded(db, r, s, now).Ok? <==> Admissible(db, r, s, now)
  {
    hide Ineligible, Reviewed, FreeToTry;
    if r.planId in db.plans {
      var p := db.plans[r.planId];
      PlanExactly(app, p, r, s, now);
      AdapterExactly(s.descriptor, p);
      hide InvalidPlan, InvalidAdapter, AdapterServes;
      if PlanServes(app, p, r, now) && (r.authorityExpiresAt.Some? ==> now < r.authorityExpiresAt.value) && s.runtime.Ok? {
        ReviewedPlan(app, p, r, now);
        AuthorityExactly(db, app, p, r, s, s.runtime.value, now);
        hide PlanServes, ResolveAuthority, Authorized, IssuePermit;
        var auth := ResolveAuthority(db, app, p, r, s, s.runtime.value, now);
        if auth.Ok? && s.descriptor.Some? && s.urlHash.Some? {
          PermitExactly(NewBinding(r, p, s.descriptor.value, auth.value, s.runtime.value), p, s.urlHash.value, s.permitTtl, now, auth.value.notAfter);
        }
      }
    }
  }

  lemma EarliestIsMinimal(db: Db, r: Request, s: Surroundings, now: Time, auth: Authority, app: Application, release: string)
    requires r.planId in db.plans && ResolveAuthority(db, app, db.plans[r.planId], r, s, release, now) == Ok(auth)
    ensures IsEarliest(PermitExpiry(db.plans[r.planId], s.permitTtl, now, auth.notAfter), Deadlines(db, r, s, now))
  {
    hide CanaryChain.Validate;
  }

  lemma AuthorityRows(db: Db, app: Application, p: FormPlan, r: Request, s: Surroundings, release: string, now: Time)
    requires ResolveAuthority(db, app, p, r, s, release, now).Ok?
    ensures var auth := ResolveAuthority(db, app, p, r, s, release, now).value;
      && (auth.decision.Some? <==> r.decisionId.Some?) && (auth.canary.Some? <==> r.canaryId.Some?)
      && (r.decisionId.Some? ==> r.decisionId.value in db.decisions && auth.decision.value == db.decisions[r.decisionId.value])
      && (r.canaryId.Some? ==> r.canaryId.value in db.canaries && auth.canary.value == db.canaries[r.canaryId.value])
  {
    hide CanaryChain.Validate;
  }

  lemma GroundsWritten(db: Db, r: Request, s: Surroundings, now: Time)
    requires Grounded(db, r, s, now).Ok?
    ensures var g := Grounded(db, r, s, now).value;
      r.planId in db.plans && BindingWritten(db, g.binding, r, s) && PermitWritten(db, g.permit, g.binding, r, s, now)
      && (g.consumesCanary <==> r.canaryId.Some?)
  {
    var app, p := db.applications[r.appId], db.plans[r.planId];
    assert InvalidPlan(app, Some(p), r, s, now).None? && InvalidAdapter(s.descriptor, p).None?;
    PlanExactly(app, p, r, s, now);
    ReviewedPlan(app, p, r, now);
    AdapterExactly(s.descriptor, p);
    AuthorityRows(db, app, p, r, s, s.runtime.value, now);
    hide Ineligible, InvalidPlan, InvalidAdapter, ResolveAuthority, Deadlines, IsEarliest, PermitExpiry;
    var auth := ResolveAuthority(db, app, p, r, s, s.runtime.value, now).value;
    EarliestIsMinimal(db, r, s, now, auth, app, s.runtime.value);
  }

  /** A request is newly admitted if and only if the client is current, its key is unused, the application was reviewed at its revision
      and is free to try, the plan and the adapter serve it, and the authority of its kind backs it. What is then written is the next
      attempt with its permit, its command and the spent canary, and the permit ends with the earliest deadline behind it. */
  lemma AdmittedExactlyWhenAdmissible(db: Db, r: Request, s: Surroundings, now: Time)
    ensures CreateOne(db, r, s, now).Ok? && !CreateOne(db, r, s, now).value.1.replayed <==>
            s.clientRelease.None? && r.key !in db.commands && Admissible(db, r, s, now)
    ensures s.clientRelease.None? && r.key !in db.commands && Admissible(db, r, s, now) ==>
      var (db', created) := CreateOne(db, r, s, now).value; AdmissionWritten(db, db', r, s, now, created)
  {
    GroundedExactly(db, r, s, now);
    hide Admissible, Grounded, BindingWritten, PermitWritten, SameBindings;
    if s.clientRelease.None? && r.key !in db.commands && Admissible(db, r, s, now) {
      GroundsWritten(db, r, s, now);
      assert IsLastNumber(db.attempts, r.appId, LastNumber(db.attempts, r.appId));
    }
  }

  // ---------- which refusal a caller sees ----------

  // What can be told of the plan by itself: it is this application's, live, signed for a profile, visited and with its CV attached.
  predicate Presentable(p: FormPlan, r: Request) {
    && p.applicationId == r.appId && p.invalidatedAt.None? && p.profileVersion.Some? && p.profileVersion.value >= 1
    && p.sessionVerifiedAt.Some? && Given(p.attachedCvId) && Given(p.attachedCvHash) && p.attachmentVerified
  }

  // The plan attaches the CV the application has selected, and the request is not late.
  predicate Matching(app: Application, p: FormPlan, r: Request, now: Time) {
    Given(app.selectedCvHash) && app.selectedCvHash == Some(p.selectedCvHash) && (r.authorityExpiresAt.Some? ==> now < r.authorityExpiresAt.value)
  }

  // The plan was made before now and is not over.
  predicate Underway(p: FormPlan, now: Time)
    requires p.sessionVerifiedAt.Some?
  {
    p.createdAt <= now < p.expiresAt && p.sessionVerifiedAt.value <= now
  }

  /** Of an eligible application's plan, the first thing that is wrong is the one reported: what the plan is, then what it attaches, then
      lateness, then what has changed since, then what blocks it. */
  lemma PlanRefusalsTellWhy(app: Application, p: FormPlan, r: Request, s: Surroundings, now: Time)
    requires app.revision == r.revision && s.material.None?
    ensures var why := InvalidPlan(app, Some(p), r, s, now);
      && (why == Some("FORM_PLAN_NOT_FOUND") <==> p.applicationId != r.appId)
      && (why == Some("FORM_CHANGED") <==> p.applicationId == r.appId && p.invalidatedAt.Some?)
      && (Presentable(p, r) ==>
            (why == Some("ATTACHMENT_CHANGED") <==> !Given(app.selectedCvHash) || app.selectedCvHash != Some(p.selectedCvHash))
            && (why == Some("COMMAND_EXPIRED") <==>
                  Matching(app, p, r.(authorityExpiresAt := None), now) && r.authorityExpiresAt.Some? && r.authorityExpiresAt.value <= now)
            && (why == Some("FORM_PLAN_EXPIRED") <==> Matching(app, p, r, now) && p.expiresAt <= now))
      && (Presentable(p, r) && Matching(app, p, r, now) && now < p.expiresAt ==>
            (why == Some("FORM_PLAN_BLOCKED") <==>
               now < p.createdAt
               || (Underway(p, now) && p.revision == r.revision && app.selectedCvId == Some(p.selectedCvId)
                   && app.profileVersion == p.profileVersion && p.blockers != []))
            && (Underway(p, now) ==>
                  (why == Some("APPLICATION_REVISION_CHANGED") <==> p.revision != r.revision)
                  && (p.revision == r.revision ==>
                        (why == Some("CV_SELECTION_CHANGED") <==> app.selectedCvId != Some(p.selectedCvId))
                        && (app.selectedCvId == Some(p.selectedCvId) ==>
                              (why == Some("PROFILE_VERSION_CHANGED") <==> app.profileVersion != p.profileVersion)))))
  {
  }

  /** Of an application's own state, the first thing that is wrong is reported: another revision, another status, no current review, a final
      attempt, a failed attempt without a new preparation, an open attempt. */
  lemma EligibilityRefusalsTellWhy(db: Db, r: Request)
    requires r.appId in db.applications
    ensures var app := db.applications[r.appId];
      var why := Ineligible(db, app, r);
      && (why == Some("APPLICATION_REVISION_CHANGED") <==> r.revision != app.revision)
      && (why == Some("APPLICATION_REVIEW_REQUIRED") <==>
            r.revision == app.revision && app.status == JobDraft
            && !(app.approvedAt.Some? && app.preparedRevision == Some(if app.revision < 1 then 1 else app.revision)))
      && (why == Some("RETRY_PREPARATION_REQUIRED") ==> Reviewed(app, r) && app.approvalSource != Some("retry_prepare"))
      && (why == Some("SUBMISSION_ALREADY_ACTIVE") ==> Reviewed(app, r) && HasUnfinishedAttempt(db, r.appId))
      && (why == Some("APPLICATION_NOT_ELIGIBLE") ==> r.revision == app.revision && (app.status != JobDraft || !FreeToTry(db, r.appId, app)))
  {
    hide HasUnfinishedAttempt;
  }

  // ---------- batches ----------

  // A batch the process may take at all: one to fifty requests, no application and no key twice, with operator and database ready.
  ghost predicate Takeable(items: seq<Item>, p: Process) {
    && 1 <= |items| <= 50 && p.operatorAuth && p.serialized
    && (forall i, j :: 0 <= i < |items| && 0 <= j < |items| && items[i].request.appId == items[j].request.appId ==> i == j)
    && (forall i, j :: 0 <= i < |items| && 0 <= j < |items| && items[i].request.key == items[j].request.key ==> i == j)
  }

  // The requests are admitted one after the other, each on what the one before left.
  ghost predicate Chain(states: seq<Db>, items: seq<Item>, created: seq<Created>, now: Time) {
    && |states| == |items| + 1 && |created| == |items|
    && forall i :: 0 <= i < |items| ==>
         CreateOne(states[i], items[i].request, items[i].surroundings, now) == Ok((states[i + 1], created[i]))
  }

  lemma {:induction false} AdmittedInTurn(db: Db, items: seq<Item>, now: Time) returns (states: seq<Db>)
    requires CreateAll(db, items, now).Ok?
    ensures Chain(states, items, CreateAll(db, items, now).value.1, now)
    ensures states[0] == db && states[|items|] == CreateAll(db, items, now).value.0
    decreases |items|
  {
    hide CreateOne;
    if items == [] {
      states := [db];
    } else {
      var next := CreateOne(db, items[0].request, items[0].surroundings, now).value.0;
      var others := AdmittedInTurn(next, items[1..], now);
      states := [db] + others;
      var created := CreateAll(db, items, now).value.1;
      forall i | 0 <= i < |items|
        ensures CreateOne(states[i], items[i].request, items[i].surroundings, now) == Ok((states[i + 1], created[i]))
      {
        if i > 0 { assert items[i] == items[1..][i - 1] && created[i] == created[1..][i - 1]; }
      }
    }
  }

  lemma TakeableExactly(items: seq<Item>, p: Process)
    ensures BatchRefusal(items, p).None? <==> Takeable(items, p)
  {
  }

  /** A batch is committed exactly when it may be taken, every request is admitted on what the one before left, and no deadline has passed
      when it is about to commit. */
  lemma BatchCommitsExactly(db: Db, items: seq<Item>, p: Process, now: Time)
    ensures CreateBatch(db, items, p, now).Ok? <==>
            && Takeable(items, p) && CreateAll(db, InApplicationOrder(items), now).Ok?
            && forall i :: 0 <= i < |items| && items[i].request.authorityExpiresAt.Some? ==> p.wallClock < items[i].request.authorityExpiresAt.value
    ensures CreateBatch(db, items, p, now).Ok? ==>
              exists states, created ::
                && Chain(states, InApplicationOrder(items), created, now) && states[0] == db
                && CreateBatch(db, items, p, now).value == (states[|states| - 1], created)
  {
    TakeableExactly(items, p);
    hide BatchRefusal, Takeable, CreateAll, InApplicationOrder, CreateOne;
    if CreateBatch(db, items, p, now).Ok? { var states := AdmittedInTurn(db, InApplicationOrder(items), now); }
  }

  /** Which refusal a batch that may not be taken meets. */
  lemma BatchRefusalsTellWhy(items: seq<Item>, p: Process)
    ensures var why := BatchRefusal(items, p);
      && (why == Some("EMPTY_SUBMISSION_BATCH") <==> items == [])
      && (why == Some("SUBMISSION_BATCH_TOO_LARGE") <==> |items| > 50)
      && (why == Some("OPERATOR_AUTH_REQUIRED") ==> !p.operatorAuth)
      && (why == Some("DATABASE_SERIALIZATION_REQUIRED") <==> Takeable(items, p.(serialized := true)) && !p.serialized)
      && (why in {Some("DUPLICATE_APPLICATION_IN_BATCH"), Some("DUPLICATE_IDEMPOTENCY_KEY_IN_BATCH")} ==>
            1 <= |items| <= 50 && !Takeable(items, Process(true, true, p.wallClock)))
  {
    TakeableExactly(items, p);
    TakeableExactly(items, p.(serialized := true));
    TakeableExactly(items, Process(true, true, p.wallClock));
    hide Takeable, DistinctApplications, DistinctKeys;
  }

  /** After a lost race nothing but a lone request the winner admitted is answered, and that one only as bound. */
  lemma RaceAnswersExactly(committed: Db, items: seq<Item>)
    ensures var answer := AfterRace(committed, items);
      && (answer.Ok? <==> |items| == 1 && items[0].request.key in committed.commands
                          && SameBindings(committed, committed.commands[items[0].request.key].attempt, items[0].request))
      && (answer.Ok? ==> var c := committed.commands[items[0].request.key]; answer.value == [Created(c.attempt, c.id, true)])
      && (answer.Err? && !(|items| == 1 && items[0].request.key in committed.commands) ==> answer.error == "SUBMISSION_ALREADY_ACTIVE")
  {
    hide SameBindings;
  }
}
