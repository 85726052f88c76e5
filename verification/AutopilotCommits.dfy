/** Every commit of an autopilot attempt, in any joint run, happens inside every deadline behind the decision that admitted it. */
module AutopilotCommits {
  import opened Wrappers
  import opened Records
  import opened Database
  import opened Admission
  import opened Mutations
  import opened Protocol
  import opened ProtocolSteps
  import opened ProtocolChecks
  import opened FinalAction
  import opened ExpiryChain
  import opened AutopilotRuns
  import CanaryRuns
  import PolicyLimits

  // The attempt names a stored decision for its own application, revision and plan, and holds a permit inside that decision's
  // authority and its plan's lifetime.
  ghost predicate AttemptRests(db: Db, id: AttemptId)
    requires id in db.attempts
  {
    var b := db.attempts[id].binding;
    b.authority == QualifiedAutopilot ==>
      && b.decisionId.Some? && b.decisionId.value in db.decisions && b.planId.Some? && b.planId.value in db.plans && id in db.permits
      && var row, permit := db.decisions[b.decisionId.value], db.permits[id];
         && row.applicationId == id.app && row.revision == b.revision && row.planId == b.planId.value && row.expiresAt.Some?
         && permit.expiresAt <= row.expiresAt.value && permit.expiresAt <= db.plans[b.planId.value].expiresAt
  }

  ghost predicate AttemptsRest(db: Db) { forall id :: id in db.attempts ==> AttemptRests(db, id) }

  ghost predicate DecisionsStand(db: Db, db': Db) {
    forall i :: i in db.decisions ==> i in db'.decisions && db'.decisions[i] == db.decisions[i]
  }

  lemma RestingCarries(db: Db, db': Db, id: AttemptId)
    requires id in db.attempts && AttemptRests(db, id) && Extends(db, db') && DecisionsStand(db, db')
    ensures id in db'.attempts && AttemptRests(db', id)
  {
    hide CommandsExtend;
    assert RowEvolves(db.attempts[id], db'.attempts[id]);
    var b := db.attempts[id].binding;
    if b.authority == QualifiedAutopilot {
      assert SamePermit(db.permits[id], db'.permits[id]);
      assert SamePlan(db.plans[b.planId.value], db'.plans[b.planId.value]);
    }
  }

  // No new attempts.
  lemma RestCarries(db: Db, db': Db)
    requires AttemptsRest(db) && Extends(db, db') && DecisionsStand(db, db')
    requires forall id :: id in db'.attempts ==> id in db.attempts
    ensures AttemptsRest(db')
  {
    hide AttemptRests, Extends, DecisionsStand;
    forall id | id in db'.attempts ensures AttemptRests(db', id) { RestingCarries(db, db', id); }
  }

  // ---------- admission ----------

  lemma AdmittedRests(db: Db, r: Request, s: Surroundings, now: Time)
    requires CreateOne(db, r, s, now).Ok? && !CreateOne(db, r, s, now).value.1.replayed
    ensures var (db', created) := CreateOne(db, r, s, now).value;
      && created.attempt in db'.attempts && AttemptRests(db', created.attempt)
      && (forall id :: id in db'.attempts ==> id in db.attempts || id == created.attempt) && DecisionsStand(db, db')
  {
    AdmittedRow(db, r, s, now);
    OneAdmittedAside(db, r, s, now);
    if r.authority == QualifiedAutopilot {
      PermitLapsesWithAuthority(db, r, s, now);
      DecisionNamesRequest(db, r, s, now);
    }
    hide CreateOne;
  }

  lemma AdmittedRow(db: Db, r: Request, s: Surroundings, now: Time)
    requires CreateOne(db, r, s, now).Ok? && !CreateOne(db, r, s, now).value.1.replayed
    ensures var (db', created) := CreateOne(db, r, s, now).value;
      && created.attempt in db'.attempts && created.attempt.app == r.appId
      && (forall id :: id in db'.attempts ==> id in db.attempts || id == created.attempt)
      && var b := db'.attempts[created.attempt].binding;
         b.authority == r.authority && b.revision == r.revision && b.planId == Some(r.planId)
         && (r.authority == QualifiedAutopilot ==> b.decisionId == r.decisionId)
  {
    hide FindReplay, Grounded, LastNumber;
    NotReplayed(db, r);
    assert Grounded(db, r, s, now).Ok?;
    GroundedNames(db, r, s, now);
  }

  lemma GroundedNames(db: Db, r: Request, s: Surroundings, now: Time)
    requires Grounded(db, r, s, now).Ok?
    ensures var b := Grounded(db, r, s, now).value.binding;
      && b.authority == r.authority && b.revision == r.revision && b.planId == Some(r.planId)
      && (r.authority == QualifiedAutopilot ==> b.decisionId == r.decisionId)
  {
    hide Ineligible, InvalidPlan, InvalidAdapter, IssuePermit;
  }

  lemma AdmissionRests(db: Db, r: Request, s: Surroundings, now: Time)
    requires AttemptsRest(db) && CoreOk(db) && CreateOne(db, r, s, now).Ok?
    ensures AttemptsRest(CreateOne(db, r, s, now).value.0) && DecisionsStand(db, CreateOne(db, r, s, now).value.0)
  {
    var (db', created) := CreateOne(db, r, s, now).value;
    if created.replayed {
      ReplayIsSame(db, r, s, now);
    } else {
      AdmittedRests(db, r, s, now);
      CreateOneKeeps(db, r, s, now);
      hide CreateOne, CoreOk, AttemptRests, Extends, DecisionsStand;
      forall id | id in db'.attempts ensures AttemptRests(db', id) {
        if id != created.attempt { RestingCarries(db, db', id); }
      }
    }
  }

  lemma ReplayIsSame(db: Db, r: Request, s: Surroundings, now: Time)
    requires CreateOne(db, r, s, now).Ok? && CreateOne(db, r, s, now).value.1.replayed
    ensures CreateOne(db, r, s, now).value.0 == db
  {
    hide FindReplay, Grounded, LastNumber;
  }

  lemma {:induction false} BatchRests(db: Db, items: seq<Item>, now: Time)
    requires AttemptsRest(db) && CoreOk(db) && CreateAll(db, items, now).Ok?
    ensures AttemptsRest(CreateAll(db, items, now).value.0)
    decreases |items|
  {
    hide CreateOne, CoreOk, AttemptsRest, DecisionsStand;
    if items != [] {
      AdmissionRests(db, items[0].request, items[0].surroundings, now);
      CreateOneKeeps(db, items[0].request, items[0].surroundings, now);
      BatchRests(CreateOne(db, items[0].request, items[0].surroundings, now).value.0, items[1..], now);
    }
  }

  // ---------- every step ----------

  lemma RecordingAddsNoAttempt(db: Db, e: Protocol.Event, now: Time)
    requires e.MintCanary? || e.ConfirmCanary? || e.DryRun? || e.InvalidateRecords?
    ensures Protocol.Step(db, e, now).attempts == db.attempts
  {
    hide RecordStep;
  }

  lemma OnlyAdmissionAddsAttempts(db: Db, e: Protocol.Event, now: Time)
    requires !e.Admit?
    ensures forall id :: id in Protocol.Step(db, e, now).attempts ==> id in db.attempts
  {
    hide Protocol.Step;
    if e.MintCanary? || e.ConfirmCanary? || e.DryRun? || e.InvalidateRecords? {
      RecordingAddsNoAttempt(db, e, now);
    } else {
      CanaryRuns.StepIsFramed(db, e, now);
    }
  }

  lemma SubmissionRests(db: Db, e: Protocol.Event, now: Time)
    requires Inv(db) && AttemptsRest(db) && !e.PolicyPrepare?
    ensures AttemptsRest(Protocol.Step(db, e, now))
  {
    InvIsCore(db);
    if e.Admit? {
      AdmitStepRests(db, e, now);
    } else {
      hide Protocol.Step, Inv, CoreOk, ChecksOk, AttemptsRest, Extends;
      StepKeeps(db, e, now);
      OnlyAdmissionAddsAttempts(db, e, now);
      DecisionsAreAside(db, e, now);
      RestCarries(db, Protocol.Step(db, e, now));
    }
  }

  lemma AdmitStepRests(db: Db, e: Protocol.Event, now: Time)
    requires CoreOk(db) && AttemptsRest(db) && e.Admit?
    ensures AttemptsRest(Protocol.Step(db, e, now))
  {
    hide CoreOk, AttemptsRest, CreateAll, InApplicationOrder;
    if CreateBatch(db, e.items, e.process, now).Ok? { BatchRests(db, InApplicationOrder(e.items), now); }
  }

  lemma DecisionsAreAside(db: Db, e: Protocol.Event, now: Time)
    requires !e.PolicyPrepare?
    ensures DecisionsStand(db, Protocol.Step(db, e, now))
  {
    hide Protocol.Step;
    if e.Restore? {
      RestoreAside(db, now);
      RestoreStep(db, now);
    } else {
      StepAside(db, e, now);
    }
  }

  lemma EvaluationRests(k: PolicyLimits.Calendar, j: Joint, v: Evaluation, now: Time)
    requires Inv(j.db) && AttemptsRest(j.db) && EvaluateJoint(k, j, v, now).Ok?
    ensures AttemptsRest(EvaluateJoint(k, j, v, now).value.0.db)
  {
    hide Inv, AttemptsRest, PolicyLimits.Evaluate, PolicyLimits.HasAllowed, CandidateOf, WriteDecision, Extends, DecisionsStand;
    var (b', d) := PolicyLimits.Evaluate(j.book, k, CandidateOf(j.db, v), now).value;
    WritingKeeps(j.db, v, d, b' != j.book, now);
    WritingStands(j.db, v, d, b' != j.book, now);
    RestCarries(j.db, WriteDecision(j.db, v, d, b' != j.book, now));
  }

  lemma WritingStands(db: Db, v: Evaluation, d: PolicyLimits.Decision, isNew: bool, now: Time)
    ensures var db' := WriteDecision(db, v, d, isNew, now); DecisionsStand(db, db') && db'.attempts == db.attempts
  {
    hide ReviewReason;
  }

  lemma PoliciesRest(db: Db, policies: map<Id, Policy>)
    requires AttemptsRest(db)
    ensures AttemptsRest(db.(policies := policies))
  {
    forall id | id in db.attempts ensures AttemptRests(db.(policies := policies), id) { assert AttemptRests(db, id); }
  }

  lemma JointStepRests(k: PolicyLimits.Calendar, j: Joint, e: AutopilotRuns.Event, clock: Time, now: Time)
    requires JointOk(k, j, clock) && AttemptsRest(j.db)
    ensures AttemptsRest(AutopilotRuns.Step(k, j, e, now).db)
  {
    hide Inv, PolicyLimits.Inv, AllBacked, PoliciesAgree, AttemptsRest, EvaluateJoint, Protocol.Step, PolicyLimits.Apply, PolicyTable;
    match e
    case Submission(step) => if !step.PolicyPrepare? { SubmissionRests(j.db, step, now); }
    case ChangePolicy(change) => if !change.Evaluated? { PoliciesRest(j.db, ChangePolicies(k, j, change, now).db.policies); }
    case Evaluate(v) => if EvaluateJoint(k, j, v, now).Ok? { EvaluationRests(k, j, v, now); }
  }

  lemma {:induction false} JointRunRests(
    k: PolicyLimits.Calendar, states: seq<Joint>, events: seq<AutopilotRuns.Event>, times: seq<Time>, n: nat)
    requires IsRun(k, states, events, times) && JointOk(k, states[0], 0) && AttemptsRest(states[0].db) && n < |states|
    ensures AttemptsRest(states[n].db)
  {
    hide JointOk, AutopilotRuns.Step, AttemptsRest;
    if n > 0 {
      JointRunRests(k, states, events, times, n - 1);
      JointRunKeeps(k, states, events, times, n - 1);
      JointStepRests(k, states[n - 1], events[n - 1], if n == 1 then 0 else times[n - 2], times[n - 1]);
    }
  }

  // ---------- main result ----------

  // The step commits this autopilot attempt.
  predicate CommitsAutopilot(db: Db, e: AutopilotRuns.Event, now: Time, id: AttemptId) {
    && e.Submission? && e.step.Commit? && BoundaryVerdict(db, e.step.boundary, now) == Cleared
    && e.step.boundary.key in db.commands && db.commands[e.step.boundary.key].attempt == id
    && id in db.attempts && db.attempts[id].binding.authority == QualifiedAutopilot
  }

  /** Whenever any joint run commits an autopilot attempt, some evaluation allowed that very application, revision and plan, and the
      commit happens before its action, permit, plan, decision and policy expire, before closing time of the decision's local
      day, within five minutes of its evaluation and thirty of its plan's creation. */
  lemma EveryCommitIsInsideItsDeadlines(
    k: PolicyLimits.Calendar, states: seq<Joint>, events: seq<AutopilotRuns.Event>, times: seq<Time>, n: nat, id: AttemptId)
    returns (d: PolicyLimits.Decision)
    requires IsRun(k, states, events, times) && JointOk(k, states[0], 0) && AttemptsRest(states[0].db) && n < |events|
    requires CommitsAutopilot(states[n].db, events[n], times[n], id) && ValidAction(events[n].step.boundary.action)
    ensures var db := states[n].db;
      && d in states[n].book.decisions && id in db.attempts && id in db.permits
      && var b := db.attempts[id].binding;
         && b.planId.Some? && b.planId.value in db.plans && DecidesFor(d, id.app, b.revision, b.planId.value)
         && InsideEveryDeadline(k, states[n].book, d, db.plans[b.planId.value], db.permits[id], events[n].step.boundary.action, times[n])
  {
    JointRunRests(k, states, events, times, n);
    JointRunKeeps(k, states, events, times, n);
    hide IsRun;
    d := CommitRests(k, states[n], if n == 0 then 0 else times[n - 1], events[n].step.boundary, times[n]);
  }

  lemma CommitRests(k: PolicyLimits.Calendar, j: Joint, clock: Time, v: Boundary, now: Time) returns (d: PolicyLimits.Decision)
    requires JointOk(k, j, clock) && AttemptsRest(j.db) && BoundaryVerdict(j.db, v, now) == Cleared && ValidAction(v.action)
    requires v.key in j.db.commands && j.db.commands[v.key].attempt in j.db.attempts
    requires j.db.attempts[j.db.commands[v.key].attempt].binding.authority == QualifiedAutopilot
    ensures var id := j.db.commands[v.key].attempt;
      && d in j.book.decisions && id in j.db.permits
      && var b := j.db.attempts[id].binding;
         && b.planId.Some? && b.planId.value in j.db.plans && DecidesFor(d, id.app, b.revision, b.planId.value)
         && InsideEveryDeadline(k, j.book, d, j.db.plans[b.planId.value], j.db.permits[id], v.action, now)
  {
    var id := j.db.commands[v.key].attempt;
    ClearedIsReady(j.db, v, now);
    assert AttemptRests(j.db, id);
    InvIsCore(j.db);
    CoreHasAttempts(j.db);
    hide BoundaryVerdict, Inv, CoreOk, ChecksOk, AtBoundary, AttemptsRest, InsideEveryDeadline, PolicyLimits.DecisionOk;
    var b := j.db.attempts[id].binding;
    d := BackingDecision(k, j, clock, j.db.decisions[b.decisionId.value]);
    TablesExtendThemselves(j.db);
    hide JointOk, AttemptsOk, Extends;
    ActionIsInside(k, j.book, d, j.db, id, b.planId.value, j.db, v.action, now);
  }

  /** Joint runs may start from any unused database with an empty policy book. */
  lemma UnusedMayRun(k: PolicyLimits.Calendar, db: Db)
    requires Inv(db) && db.attempts == map[] && db.decisions == map[] && db.policies == map[]
    ensures JointOk(k, Joint(db, PolicyLimits.EMPTY), 0) && AttemptsRest(db)
  {
    UnusedIsJointlyOk(k, db);
  }
}
