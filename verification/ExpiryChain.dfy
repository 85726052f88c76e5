/** The deadlines that nest behind a final action: policy, decision, plan, permit, action. */
module ExpiryChain {
  import opened Wrappers
  import opened Records
  import opened Database
  import opened Admission
  import opened Protocol
  import opened FinalAction
  import PolicyLimits

  /** A permit issued at admission lapses with its plan and with the authority behind it. */
  lemma PermitLapsesWithAuthority(db: Db, r: Request, s: Surroundings, now: Time)
    requires r.authority == QualifiedAutopilot && CreateOne(db, r, s, now).Ok? && !CreateOne(db, r, s, now).value.1.replayed
    ensures var (db', created) := CreateOne(db, r, s, now).value;
      && created.attempt in db'.permits && r.planId in db'.plans && db'.plans == db.plans
      && r.decisionId.Some? && r.decisionId.value in db.decisions && db.decisions[r.decisionId.value].expiresAt.Some?
      && now < db'.permits[created.attempt].expiresAt <= db.plans[r.planId].expiresAt
      && db'.permits[created.attempt].expiresAt <= db.decisions[r.decisionId.value].expiresAt.value
      && (r.authorityExpiresAt.Some? ==> db'.permits[created.attempt].expiresAt <= r.authorityExpiresAt.value)
  {
    hide Ineligible, InvalidAdapter, NewBinding, LastNumber, FindReplay;
    NotReplayed(db, r);
    assert Grounded(db, r, s, now).Ok?;
    GroundsLapse(db, r, s, now);
    hide Grounded;
  }

  lemma NotReplayed(db: Db, r: Request)
    ensures FindReplay(db, r).Ok? && FindReplay(db, r).value.Some? ==> FindReplay(db, r).value.value.replayed
  {
  }

  lemma GroundsLapse(db: Db, r: Request, s: Surroundings, now: Time)
    requires r.authority == QualifiedAutopilot && Grounded(db, r, s, now).Ok?
    ensures var g := Grounded(db, r, s, now).value;
      && r.planId in db.plans && r.decisionId.Some? && r.decisionId.value in db.decisions && db.decisions[r.decisionId.value].expiresAt.Some?
      && now < g.permit.expiresAt <= db.plans[r.planId].expiresAt
      && g.permit.expiresAt <= db.decisions[r.decisionId.value].expiresAt.value
      && (r.authorityExpiresAt.Some? ==> g.permit.expiresAt <= r.authorityExpiresAt.value)
  {
    hide Ineligible, InvalidAdapter, NewBinding, IssuePermit;
    var app, plan := db.applications[r.appId], db.plans[r.planId];
    var auth := ResolveAuthority(db, app, plan, r, s, s.runtime.value, now);
    assert auth.Ok?;
  }

  /** An autopilot final action accepted at any time, after anything that happened since its admission, is inside every
      deadline behind it: the action's, the permit's, the plan's, the decision's, the policy's, the local day's closing time,
      five minutes from evaluation and thirty from plan creation. */
  lemma ExpiriesNest(
    k: PolicyLimits.Calendar, h: PolicyLimits.History, n: nat, db: Db, r: Request, s: Surroundings, now: Time, later: Db,
    a: PreparedAction, at: Time)
    requires PolicyLimits.Forward(h, 0) && n < |PolicyLimits.Run(k, PolicyLimits.EMPTY, h).decisions|
    requires r.authority == QualifiedAutopilot && CreateOne(db, r, s, now).Ok? && !CreateOne(db, r, s, now).value.1.replayed
    requires r.decisionId.Some? && r.decisionId.value in db.decisions && r.planId in db.plans && ValidPlanLifetime(db.plans[r.planId])
    requires var d := PolicyLimits.Run(k, PolicyLimits.EMPTY, h).decisions[n]; d.allowed && db.decisions[r.decisionId.value].expiresAt == d.expiresAt
    requires Extends(CreateOne(db, r, s, now).value.0, later)
    requires var id := CreateOne(db, r, s, now).value.1.attempt;
      id in later.permits && r.planId in later.plans && ValidAction(a) && ActionBinds(a, later.plans[r.planId], id, later.permits[id], at)
    ensures var book := PolicyLimits.Run(k, PolicyLimits.EMPTY, h);
      var d := book.decisions[n];
      var permit := later.permits[CreateOne(db, r, s, now).value.1.attempt];
      && d.expiresAt.Some? && d.revision < |book.revisions|
      && at < a.expiresAt <= permit.expiresAt && permit.expiresAt <= later.plans[r.planId].expiresAt && permit.expiresAt <= d.expiresAt.value
      && at < book.revisions[d.revision].expiresAt && at < k.closes(d.at) && at < d.at + 300
      && at < later.plans[r.planId].createdAt + 1800 && a.preparedAt <= at < a.preparedAt + 300
  {
    PermitLapsesWithAuthority(db, r, s, now);
    PolicyLimits.AuthorityIsBounded(k, h, n);
    var (db', created) := CreateOne(db, r, s, now).value;
    hide CreateOne, PolicyLimits.Run, AttemptsExtend, CommandsExtend;
    assert SamePermit(db'.permits[created.attempt], later.permits[created.attempt]);
    assert SamePlan(db'.plans[r.planId], later.plans[r.planId]);
  }
}
