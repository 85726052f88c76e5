/** The signed policy and the submission protocol run together: evaluating an application writes its decision and its row in one
    transaction, policy changes and restores reach both the policy book and the policy table, and the deadlines behind every
    autopilot admission come from a decision some evaluation made. */
module AutopilotRuns {
  import opened Wrappers
  import opened Records
  import opened Database
  import opened Admission
  import opened Mutations
  import opened Protocol
  import opened ProtocolSteps
  import opened ProtocolChecks
  import opened FinalAction
  import opened ExpiryChain
  import ReviewGrants
  import Quarantine
  import PolicyLimits

  datatype Joint = Joint(db: Db, book: PolicyLimits.Book)

  // One request to evaluate, with the row identifier and digest a new decision would get, the company of its job, the verdicts
  // of the fit and artifact layers, and the reasons of every gate but the application's own status.
  datatype Evaluation = Evaluation(
    appId: Id, planId: string, decisionId: Id, digest: string, company: string, fit: Option<Reason>, profileChanged: bool,
    artifactsChanged: bool, gates: seq<Reason>)

  datatype Event =
    | Submission(step: Protocol.Event)
    | ChangePolicy(change: PolicyLimits.Event)
    | Evaluate(evaluation: Evaluation)

  const RETRYABLE: set<Reason> := {
    "KILL_SWITCH_ACTIVE", "OUTSIDE_ACTIVE_HOURS", "AUTOMATION_DAILY_LIMIT_REACHED", "AUTOMATION_HOURLY_LIMIT_REACHED",
    "AUTOMATION_COMPANY_LIMIT_REACHED"}

  function CandidateOf(db: Db, v: Evaluation): PolicyLimits.Candidate {
    var found := v.appId in db.applications;
    var planned := v.planId in db.plans && db.plans[v.planId].applicationId == v.appId;
    var entry := if !found then Some("APPLICATION_NOT_FOUND") else if !planned then Some("FORM_PLAN_NOT_FOUND") else v.fit;
    var eligible := found && db.applications[v.appId].status == JobDraft;
    PolicyLimits.Candidate(
      v.appId, if found then db.applications[v.appId].revision else 0, v.planId, v.company, entry, v.profileChanged, v.artifactsChanged,
      (if eligible then [] else ["APPLICATION_NOT_ELIGIBLE"]) + v.gates)
  }

  // The first reason an operator has to look at.
  function ReviewReason(reasons: seq<Reason>): Option<Reason> {
    if reasons == [] then None else if reasons[0] !in RETRYABLE then Some(reasons[0]) else ReviewReason(reasons[1..])
  }

  function StoredDecision(d: PolicyLimits.Decision, digest: string): PolicyDecision {
    PolicyDecision(d.app, d.appRevision, d.planId, digest, d.expiresAt)
  }

  // An allowed decision prepares the application; a denial leaves the reason for review. A denial already on record gets no
  // second row.
  function WriteDecision(db: Db, v: Evaluation, d: PolicyLimits.Decision, isNew: bool, now: Time): Db {
    if v.decisionId in db.decisions || v.appId !in db.applications then db
    else
      var app := db.applications[v.appId];
      var written := if d.allowed
                     then app.(approvedAt := Some(now), approvalSource := Some("qualified_autopilot_policy"),
                               revision := ReviewGrants.Revision(app), preparedRevision := Some(ReviewGrants.Revision(app)))
                     else app.(needsReviewReason := ReviewReason(d.reasons));
      db.(applications := db.applications[v.appId := written],
          decisions := if isNew then db.decisions[v.decisionId := StoredDecision(d, v.digest)] else db.decisions)
  }

  function EvaluateJoint(k: PolicyLimits.Calendar, j: Joint, v: Evaluation, now: Time): Result<(Joint, PolicyLimits.Decision), Reason> {
    match PolicyLimits.Evaluate(j.book, k, CandidateOf(j.db, v), now)
    case Err(reason) => Err(reason)
    case Ok((book', d)) =>
      Ok((if PolicyLimits.HasAllowed(j.book.decisions, v.appId) then j else Joint(WriteDecision(j.db, v, d, book' != j.book, now), book'), d))
  }

  // The policy rows as the book's revisions stand, numbered by their place. A row that did not change keeps its provenance.
  function PolicyTable(policies: map<Id, Policy>, revisions: seq<PolicyLimits.Revision>, reason: Reason): map<Id, Policy> {
    map i: Id | 0 <= i < |revisions| ::
      var r := revisions[i];
      if i in policies && policies[i].active == r.active && policies[i].revokedAt == r.revokedAt then policies[i]
      else if r.revokedAt.Some? then Policy(r.active, r.revokedAt, Some("local_operator"), Some(reason))
      else Policy(r.active, None, None, None)
  }

  function ChangePolicies(k: PolicyLimits.Calendar, j: Joint, change: PolicyLimits.Event, now: Time): Joint {
    var book' := PolicyLimits.Apply(k, j.book, change, now);
    var reason := if change.Activated? then "AUTOMATION_POLICY_SUPERSEDED" else "AUTOMATION_POLICY_REVOKED";
    Joint(j.db.(policies := PolicyTable(j.db.policies, book'.revisions, reason)), book')
  }

  function Step(k: PolicyLimits.Calendar, j: Joint, e: Event, now: Time): Joint {
    match e
    case Submission(step) =>
      if step.PolicyPrepare? then j
      else Joint(Protocol.Step(j.db, step, now), if step.Restore? then PolicyLimits.Apply(k, j.book, PolicyLimits.Revoked, now) else j.book)
    case ChangePolicy(change) => if change.Evaluated? then j else ChangePolicies(k, j, change, now)
    case Evaluate(v) => var r := EvaluateJoint(k, j, v, now); if r.Ok? then r.value.0 else j
  }

  ghost predicate IsRun(k: PolicyLimits.Calendar, states: seq<Joint>, events: seq<Event>, times: seq<Time>) {
    && |states| == |events| + 1 && |times| == |events|
    && (forall i :: 0 <= i < |events| ==> states[i + 1] == Step(k, states[i], events[i], times[i]))
    && forall i, j :: 0 <= i < j < |times| ==> times[i] <= times[j]
  }

  class Autopilot {
    const calendar: PolicyLimits.Calendar
    var db: Db
    var book: PolicyLimits.Book

    constructor (calendar: PolicyLimits.Calendar, db: Db, book: PolicyLimits.Book)
      ensures this.calendar == calendar && this.db == db && this.book == book
    {
      this.calendar := calendar;
      this.db := db;
      this.book := book;
    }

    // The decision row and the application row are written in one transaction.
    method EvaluateAutoSubmitPolicy(v: Evaluation, now: Time) returns (r: Result<PolicyLimits.Decision, Reason>)
      modifies this
      ensures match EvaluateJoint(calendar, Joint(old(db), old(book)), v, now)
              case Err(reason) => r == Err(reason) && db == old(db) && book == old(book)
              case Ok((j, d)) => r == Ok(d) && db == j.db && book == j.book
    {
      hide PolicyLimits.Evaluate, PolicyLimits.HasAllowed, CandidateOf;
      var evaluated := PolicyLimits.Evaluate(book, calendar, CandidateOf(db, v), now);
      if evaluated.Err? { return Err(evaluated.error); }
      var (book', d) := evaluated.value;
      r := Ok(d);
      if PolicyLimits.HasAllowed(book.decisions, v.appId) { return; }
      var isNew := book' != book;
      book := book';
      if v.decisionId in db.decisions || v.appId !in db.applications { return; }
      var row := db.applications[v.appId];
      if d.allowed {
        row := row.(approvedAt := Some(now), approvalSource := Some("qualified_autopilot_policy"));
        row := row.(revision := ReviewGrants.Revision(row));
        row := row.(preparedRevision := Some(row.revision));
      } else {
        row := row.(needsReviewReason := ReviewReason(d.reasons));
      }
      db := db.(applications := db.applications[v.appId := row]);
      if isNew { db := db.(decisions := db.decisions[v.decisionId := StoredDecision(d, v.digest)]); }
    }
  }

  // ---------- what every joint step keeps ----------

  // A stored decision that carries authority is one that an evaluation allowed, for that application, revision and plan.
  ghost predicate Backed(row: PolicyDecision, ds: seq<PolicyLimits.Decision>) {
    row.expiresAt.Some? ==> exists n :: 0 <= n < |ds| && ds[n].allowed && row == StoredDecision(ds[n], row.digest)
  }

  ghost predicate AllBacked(db: Db, ds: seq<PolicyLimits.Decision>) { forall i :: i in db.decisions ==> Backed(db.decisions[i], ds) }

  ghost predicate JointOk(k: PolicyLimits.Calendar, j: Joint, clock: Time) {
    && Inv(j.db) && PolicyLimits.Inv(k, j.book, clock) && AllBacked(j.db, j.book.decisions)
    && PoliciesAgree(j.db.policies, j.book.revisions)
  }

  // The policy table says of every revision whether it is active and when it was revoked.
  ghost predicate PoliciesAgree(policies: map<Id, Policy>, revisions: seq<PolicyLimits.Revision>) {
    && (forall i :: i in policies <==> 0 <= i < |revisions|)
    && forall i :: 0 <= i < |revisions| ==> policies[i].active == revisions[i].active && policies[i].revokedAt == revisions[i].revokedAt
  }

  lemma TableAgrees(policies: map<Id, Policy>, revisions: seq<PolicyLimits.Revision>, reason: Reason)
    ensures PoliciesAgree(PolicyTable(policies, revisions, reason), revisions)
  {
  }

  // A restore revokes the same revision in the table and in the book.
  lemma RestoreAgrees(k: PolicyLimits.Calendar, policies: map<Id, Policy>, b: PolicyLimits.Book, now: Time)
    requires PoliciesAgree(policies, b.revisions) && PolicyLimits.RevisionsOk(b.revisions)
    ensures var b' := PolicyLimits.Apply(k, b, PolicyLimits.Revoked, now);
      PoliciesAgree(Quarantine.QuarantinePolicies(policies, now), b'.revisions) && b'.decisions == b.decisions
  {
  }

  lemma PoliciesAreApart(db: Db, policies: map<Id, Policy>)
    requires Inv(db)
    ensures Inv(db.(policies := policies))
  {
    InvIsCore(db);
    CoreHasAttempts(db);
    var db' := db.(policies := policies);
    SameCore(db, db');
    SameReferences(db, db');
    hide CoreOk, ChecksOk, ReferencesKeep;
    OtherTablesCarry(db, db');
  }

  lemma SameCore(db: Db, db': Db)
    requires CoreOk(db) && AttemptsOk(db) && db' == db.(policies := db'.policies)
    ensures CoreOk(db')
  {
    hide LinksOk, OneLivePlan, ApplicationsOk, RevisionsCurrent, AttemptsExtend, PlansExtend, PermitsExtend, CommandsExtend;
    TablesExtendThemselves(db);
    Preserved(db, db');
  }

  lemma MoreDecisions(row: PolicyDecision, ds: seq<PolicyLimits.Decision>, d: PolicyLimits.Decision)
    requires Backed(row, ds)
    ensures Backed(row, ds + [d])
  {
    if n :| 0 <= n < |ds| && ds[n].allowed && row == StoredDecision(ds[n], row.digest) { assert (ds + [d])[n] == ds[n]; }
  }

  // A new decision is the last of the book, allowed exactly when it carries an expiry.
  lemma NewDecision(k: PolicyLimits.Calendar, b: PolicyLimits.Book, c: PolicyLimits.Candidate, now: Time)
    requires PolicyLimits.Evaluate(b, k, c, now).Ok? && PolicyLimits.Evaluate(b, k, c, now).value.0 != b
    ensures var (b', d) := PolicyLimits.Evaluate(b, k, c, now).value;
      b' == b.(decisions := b.decisions + [d]) && (d.allowed <==> d.expiresAt.Some?) && (d.allowed ==> c.gates == []) && d.app == c.app
  {
    hide PolicyLimits.HasAllowed, PolicyLimits.CurrentPolicy, PolicyLimits.Usage, PolicyLimits.KillActive, PolicyLimits.InHours;
  }

  lemma EvaluationBacks(k: PolicyLimits.Calendar, j: Joint, v: Evaluation, now: Time)
    requires AllBacked(j.db, j.book.decisions) && EvaluateJoint(k, j, v, now).Ok?
    ensures var j' := EvaluateJoint(k, j, v, now).value.0; AllBacked(j'.db, j'.book.decisions)
  {
    hide PolicyLimits.Evaluate, PolicyLimits.HasAllowed, CandidateOf, Backed;
    var (b', d) := PolicyLimits.Evaluate(j.book, k, CandidateOf(j.db, v), now).value;
    if b' != j.book {
      NewDecision(k, j.book, CandidateOf(j.db, v), now);
      forall i | i in j.db.decisions ensures Backed(j.db.decisions[i], b'.decisions) { MoreDecisions(j.db.decisions[i], j.book.decisions, d); }
      LastBacks(j.book.decisions, d, v.digest);
    }
  }

  lemma LastBacks(ds: seq<PolicyLimits.Decision>, d: PolicyLimits.Decision, digest: string)
    requires d.allowed <==> d.expiresAt.Some?
    ensures Backed(StoredDecision(d, digest), ds + [d])
  {
    assert (ds + [d])[|ds|] == d;
  }

  lemma WritingKeeps(db: Db, v: Evaluation, d: PolicyLimits.Decision, isNew: bool, now: Time)
    requires Inv(db)
    ensures Inv(WriteDecision(db, v, d, isNew, now)) && Extends(db, WriteDecision(db, v, d, isNew, now))
  {
    InvIsCore(db);
    CoreHasAttempts(db);
    TablesExtendThemselves(db);
    var db' := WriteDecision(db, v, d, isNew, now);
    if v.decisionId !in db.decisions && v.appId in db.applications {
      ApplicationIsOk(db, v.appId);
      assert ReferencesKeep(db, db');
      hide CoreOk, ChecksOk, Extends, ReferencesKeep, ReviewReason;
      TouchKeeps(db, db', v.appId);
      OtherTablesCarry(db, db');
    }
  }

  // Evaluating is the same step of the policy book as on its own.
  lemma EvaluationIsPolicyStep(k: PolicyLimits.Calendar, j: Joint, v: Evaluation, now: Time)
    requires EvaluateJoint(k, j, v, now).Ok?
    ensures EvaluateJoint(k, j, v, now).value.0.book == PolicyLimits.Apply(k, j.book, PolicyLimits.Evaluated(CandidateOf(j.db, v)), now)
  {
    hide PolicyLimits.Judge, PolicyLimits.CurrentPolicy, WriteDecision;
  }

  lemma LaterBook(k: PolicyLimits.Calendar, b: PolicyLimits.Book, clock: Time, now: Time)
    requires PolicyLimits.Inv(k, b, clock) && clock <= now
    ensures PolicyLimits.Inv(k, b, now)
  {
    hide PolicyLimits.DecisionsOk, PolicyLimits.RevisionsOk;
  }

  lemma SubmissionKeeps(k: PolicyLimits.Calendar, j: Joint, step: Protocol.Event, clock: Time, now: Time)
    requires JointOk(k, j, clock) && clock <= now && !step.PolicyPrepare?
    ensures JointOk(k, Step(k, j, Submission(step), now), now)
  {
    hide Inv, PolicyLimits.Inv, AllBacked, PolicyLimits.Apply, Protocol.Step, PoliciesAgree, NewPlansTimed;
    LaterBook(k, j.book, clock, now);
    StepKeeps(j.db, step, now);
    if step.Restore? {
      RestoreAside(j.db, now);
      RestoreStep(j.db, now);
      BookRevisions(k, j.book, clock);
      RestoreAgrees(k, j.db.policies, j.book, now);
      PolicyLimits.StepKeeps(k, j.book, PolicyLimits.Revoked, clock, now);
    } else {
      StepAside(j.db, step, now);
    }
    SameBacking(j.db, Protocol.Step(j.db, step, now), j.book.decisions, Step(k, j, Submission(step), now).book.decisions);
  }

  lemma RestoreStep(db: Db, now: Time)
    ensures Protocol.Step(db, Restore, now) == Quarantine.Quarantine(db, now)
  {
    hide Quarantine.Quarantine;
  }

  lemma BookRevisions(k: PolicyLimits.Calendar, b: PolicyLimits.Book, clock: Time)
    requires PolicyLimits.Inv(k, b, clock)
    ensures PolicyLimits.RevisionsOk(b.revisions)
  {
  }

  lemma PolicyChangeKeeps(k: PolicyLimits.Calendar, j: Joint, change: PolicyLimits.Event, clock: Time, now: Time)
    requires JointOk(k, j, clock) && clock <= now && !change.Evaluated?
    ensures JointOk(k, ChangePolicies(k, j, change, now), now)
  {
    hide Inv, PolicyLimits.Inv, AllBacked, PolicyLimits.Apply, PolicyTable, PoliciesAgree;
    PolicyLimits.StepKeeps(k, j.book, change, clock, now);
    ChangesKeepDecisions(k, j.book, change, now);
    var j' := ChangePolicies(k, j, change, now);
    SameBacking(j.db, j'.db, j.book.decisions, j'.book.decisions);
    PoliciesAreApart(j.db, j'.db.policies);
    TableAgrees(j.db.policies, j'.book.revisions, if change.Activated? then "AUTOMATION_POLICY_SUPERSEDED" else "AUTOMATION_POLICY_REVOKED");
  }

  lemma EvaluationKeeps(k: PolicyLimits.Calendar, j: Joint, v: Evaluation, clock: Time, now: Time)
    requires JointOk(k, j, clock) && clock <= now && EvaluateJoint(k, j, v, now).Ok?
    ensures JointOk(k, EvaluateJoint(k, j, v, now).value.0, now)
  {
    hide Inv, PolicyLimits.Inv, AllBacked, PolicyLimits.Apply, EvaluateJoint, PoliciesAgree;
    PolicyLimits.StepKeeps(k, j.book, PolicyLimits.Evaluated(CandidateOf(j.db, v)), clock, now);
    EvaluationIsPolicyStep(k, j, v, now);
    EvaluationBacks(k, j, v, now);
    EvaluationKeepsDb(k, j, v, now);
    EvaluationKeepsPolicies(k, j, v, now);
  }

  lemma EvaluationKeepsPolicies(k: PolicyLimits.Calendar, j: Joint, v: Evaluation, now: Time)
    requires EvaluateJoint(k, j, v, now).Ok?
    ensures var j' := EvaluateJoint(k, j, v, now).value.0; j'.db.policies == j.db.policies && j'.book.revisions == j.book.revisions
  {
    hide PolicyLimits.Judge, PolicyLimits.HasAllowed, PolicyLimits.CurrentPolicy, CandidateOf, ReviewReason;
  }

  lemma JointStepKeeps(k: PolicyLimits.Calendar, j: Joint, e: Event, clock: Time, now: Time)
    requires JointOk(k, j, clock) && clock <= now
    ensures JointOk(k, Step(k, j, e, now), now)
  {
    LaterJoint(k, j, clock, now);
    hide JointOk, EvaluateJoint, ChangePolicies, Protocol.Step, PolicyLimits.Apply;
    match e
    case Submission(step) => if !step.PolicyPrepare? { SubmissionKeeps(k, j, step, clock, now); }
    case ChangePolicy(change) => if !change.Evaluated? { PolicyChangeKeeps(k, j, change, clock, now); }
    case Evaluate(v) => if EvaluateJoint(k, j, v, now).Ok? { EvaluationKeeps(k, j, v, clock, now); }
  }

  lemma LaterJoint(k: PolicyLimits.Calendar, j: Joint, clock: Time, now: Time)
    requires JointOk(k, j, clock) && clock <= now
    ensures JointOk(k, j, now)
  {
    hide Inv, PolicyLimits.Inv, AllBacked, PoliciesAgree;
    LaterBook(k, j.book, clock, now);
  }

  lemma EvaluationKeepsDb(k: PolicyLimits.Calendar, j: Joint, v: Evaluation, now: Time)
    requires Inv(j.db) && EvaluateJoint(k, j, v, now).Ok?
    ensures Inv(EvaluateJoint(k, j, v, now).value.0.db)
  {
    hide Inv, PolicyLimits.Evaluate, PolicyLimits.HasAllowed, CandidateOf, WriteDecision;
    var (b', d) := PolicyLimits.Evaluate(j.book, k, CandidateOf(j.db, v), now).value;
    WritingKeeps(j.db, v, d, b' != j.book, now);
  }

  lemma SameBacking(db: Db, db': Db, ds: seq<PolicyLimits.Decision>, ds': seq<PolicyLimits.Decision>)
    requires AllBacked(db, ds) && db'.decisions == db.decisions && ds' == ds
    ensures AllBacked(db', ds')
  {
  }

  lemma ChangesKeepDecisions(k: PolicyLimits.Calendar, b: PolicyLimits.Book, change: PolicyLimits.Event, now: Time)
    requires !change.Evaluated?
    ensures PolicyLimits.Apply(k, b, change, now).decisions == b.decisions
  {
  }

  lemma {:induction false} JointRunKeeps(k: PolicyLimits.Calendar, states: seq<Joint>, events: seq<Event>, times: seq<Time>, n: nat)
    requires IsRun(k, states, events, times) && JointOk(k, states[0], 0) && n < |states|
    ensures JointOk(k, states[n], if n == 0 then 0 else times[n - 1])
  {
    hide JointOk, Step;
    if n > 0 {
      JointRunKeeps(k, states, events, times, n - 1);
      JointStepKeeps(k, states[n - 1], events[n - 1], if n == 1 then 0 else times[n - 2], times[n - 1]);
    }
  }

  lemma UnusedIsJointlyOk(k: PolicyLimits.Calendar, db: Db)
    requires Inv(db) && db.decisions == map[] && db.policies == map[]
    ensures JointOk(k, Joint(db, PolicyLimits.EMPTY), 0)
  {
    hide Inv;
  }

  // ---------- main result ----------

  // The deadlines behind an action at the given time.
  ghost predicate InsideEveryDeadline(
    k: PolicyLimits.Calendar, book: PolicyLimits.Book, d: PolicyLimits.Decision, plan: FormPlan, permit: Permit, a: PreparedAction, at: Time)
  {
    && d.allowed && d.expiresAt.Some? && d.revision < |book.revisions|
    && at < a.expiresAt <= permit.expiresAt && permit.expiresAt <= plan.expiresAt && permit.expiresAt <= d.expiresAt.value
    && at < book.revisions[d.revision].expiresAt && at < k.closes(d.at) && at < d.at + 300
    && at < plan.createdAt + 1800 && a.preparedAt <= at < a.preparedAt + 300
  }

  // The decision is for this application, revision and plan.
  predicate DecidesFor(d: PolicyLimits.Decision, app: Id, revision: int, planId: string) {
    d.app == app && d.appRevision == revision && d.planId == planId
  }

  /** In every joint run of policies, evaluations and submissions: an autopilot admission rests on a decision that some
      evaluation of that application, revision and plan allowed, and any action it leads to is accepted only inside every
      deadline behind that decision. */
  lemma AutopilotStaysInsideItsDeadlines(
    k: PolicyLimits.Calendar, states: seq<Joint>, events: seq<Event>, times: seq<Time>, n: nat, r: Request, s: Surroundings, now: Time,
    later: Db, a: PreparedAction, at: Time)
    returns (d: PolicyLimits.Decision)
    requires IsRun(k, states, events, times) && JointOk(k, states[0], 0) && n < |states|
    requires r.authority == QualifiedAutopilot && CreateOne(states[n].db, r, s, now).Ok? && !CreateOne(states[n].db, r, s, now).value.1.replayed
    requires Extends(CreateOne(states[n].db, r, s, now).value.0, later)
    requires var id := CreateOne(states[n].db, r, s, now).value.1.attempt;
      id in later.permits && r.planId in later.plans && ValidAction(a) && ActionBinds(a, later.plans[r.planId], id, later.permits[id], at)
    ensures d in states[n].book.decisions && d.allowed && DecidesFor(d, r.appId, r.revision, r.planId)
    ensures var id := CreateOne(states[n].db, r, s, now).value.1.attempt;
      InsideEveryDeadline(k, states[n].book, d, later.plans[r.planId], later.permits[id], a, at)
  {
    JointRunKeeps(k, states, events, times, n);
    var j, clock := states[n], if n == 0 then 0 else times[n - 1];
    hide IsRun, JointOk, InsideEveryDeadline;
    d := AdmissionRestsOnDecision(k, j, clock, r, s, now);
    var (db', created) := CreateOne(j.db, r, s, now).value;
    ActionIsInside(k, j.book, d, db', created.attempt, r.planId, later, a, at);
  }

  // The stored decision an autopilot admission names is for the admitted application, revision and plan.
  lemma DecisionNamesRequest(db: Db, r: Request, s: Surroundings, now: Time)
    requires r.authority == QualifiedAutopilot && CreateOne(db, r, s, now).Ok? && !CreateOne(db, r, s, now).value.1.replayed
    ensures r.decisionId.Some? && r.decisionId.value in db.decisions
    ensures var row := db.decisions[r.decisionId.value]; row.applicationId == r.appId && row.revision == r.revision && row.planId == r.planId
  {
    hide InvalidPlan, InvalidAdapter, NewBinding, IssuePermit, LastNumber, FindReplay;
    NotReplayed(db, r);
    assert Grounded(db, r, s, now).Ok?;
  }

  lemma AdmissionRestsOnDecision(k: PolicyLimits.Calendar, j: Joint, clock: Time, r: Request, s: Surroundings, now: Time)
    returns (d: PolicyLimits.Decision)
    requires JointOk(k, j, clock)
    requires r.authority == QualifiedAutopilot && CreateOne(j.db, r, s, now).Ok? && !CreateOne(j.db, r, s, now).value.1.replayed
    ensures d in j.book.decisions && d.allowed && DecidesFor(d, r.appId, r.revision, r.planId)
    ensures PolicyLimits.DecisionOk(k, j.book.revisions, d)
    ensures var (db', created) := CreateOne(j.db, r, s, now).value;
      && created.attempt in db'.permits && db'.plans == j.db.plans && r.planId in db'.plans && d.expiresAt.Some?
      && ValidPlanLifetime(db'.plans[r.planId])
      && db'.permits[created.attempt].expiresAt <= db'.plans[r.planId].expiresAt && db'.permits[created.attempt].expiresAt <= d.expiresAt.value
  {
    InvIsCore(j.db);
    hide Inv, CreateOne, PolicyLimits.DecisionOk, PoliciesAgree;
    PermitLapsesWithAuthority(j.db, r, s, now);
    DecisionNamesRequest(j.db, r, s, now);
    d := BackingDecision(k, j, clock, j.db.decisions[r.decisionId.value]);
  }

  lemma BackingDecision(k: PolicyLimits.Calendar, j: Joint, clock: Time, row: PolicyDecision) returns (d: PolicyLimits.Decision)
    requires JointOk(k, j, clock) && row in j.db.decisions.Values && row.expiresAt.Some?
    ensures d in j.book.decisions && d.allowed && row == StoredDecision(d, row.digest) && PolicyLimits.DecisionOk(k, j.book.revisions, d)
  {
    hide Inv, PolicyLimits.DecisionOk, PoliciesAgree;
    assert Backed(row, j.book.decisions);
    var m :| 0 <= m < |j.book.decisions| && j.book.decisions[m].allowed && row == StoredDecision(j.book.decisions[m], row.digest);
    d := j.book.decisions[m];
    assert PolicyLimits.DecisionOk(k, j.book.revisions, d);
  }

  lemma ActionIsInside(
    k: PolicyLimits.Calendar, book: PolicyLimits.Book, d: PolicyLimits.Decision, db: Db, id: AttemptId, planId: string, later: Db,
    a: PreparedAction, at: Time)
    requires d.allowed && PolicyLimits.DecisionOk(k, book.revisions, d) && id in db.permits && planId in db.plans && d.expiresAt.Some?
    requires db.permits[id].expiresAt <= db.plans[planId].expiresAt && db.permits[id].expiresAt <= d.expiresAt.value
    requires ValidPlanLifetime(db.plans[planId]) && Extends(db, later) && id in later.permits && planId in later.plans
    requires ValidAction(a) && ActionBinds(a, later.plans[planId], id, later.permits[id], at)
    ensures InsideEveryDeadline(k, book, d, later.plans[planId], later.permits[id], a, at)
  {
    hide AttemptsExtend, CommandsExtend;
    assert SamePermit(db.permits[id], later.permits[id]);
    assert SamePlan(db.plans[planId], later.plans[planId]);
  }
}
