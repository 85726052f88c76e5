/** What one evaluation does to the application it is about. */
module EvaluationRules {
  import opened Wrappers
  import opened Records
  import opened Database
  import opened PolicyLimits
  import opened PolicyRules
  import AutopilotRuns

  // Denials that pass with time.
  const PASSING: set<Reason> := {
    "KILL_SWITCH_ACTIVE", "OUTSIDE_ACTIVE_HOURS", "AUTOMATION_DAILY_LIMIT_REACHED", "AUTOMATION_HOURLY_LIMIT_REACHED",
    "AUTOMATION_COMPANY_LIMIT_REACHED"}

  // The first reason that does not pass with time, if there is one.
  ghost predicate FirstLasting(reasons: seq<Reason>, found: Option<Reason>) {
    match found
    case None => forall i :: 0 <= i < |reasons| ==> reasons[i] in PASSING
    case Some(reason) =>
      exists n :: 0 <= n < |reasons| && reasons[n] == reason && reason !in PASSING && forall i :: 0 <= i < n ==> reasons[i] in PASSING
  }

  lemma {:induction false} ReviewReasonIsFirst(reasons: seq<Reason>)
    ensures FirstLasting(reasons, AutopilotRuns.ReviewReason(reasons))
    decreases |reasons|
  {
    if reasons != [] && reasons[0] in AutopilotRuns.RETRYABLE {
      var others := reasons[1..];
      ReviewReasonIsFirst(others);
      var found := AutopilotRuns.ReviewReason(others);
      if found.Some? {
        var n :| 0 <= n < |others| && others[n] == found.value && found.value !in PASSING && forall i :: 0 <= i < n ==> others[i] in PASSING;
        assert reasons[n + 1] == found.value;
        assert forall i :: 0 <= i < n + 1 ==> reasons[i] in PASSING;
      } else {
        assert forall i :: 1 <= i < |reasons| ==> reasons[i] == others[i - 1];
      }
    }
  }

  // The application and its plan are there, the fit layer has no objection, and no decision of the application is on record.
  ghost predicate Evaluable(j: AutopilotRuns.Joint, v: AutopilotRuns.Evaluation) {
    && v.appId in j.db.applications && v.planId in j.db.plans && j.db.plans[v.planId].applicationId == v.appId && v.fit.None?
    && v.decisionId !in j.db.decisions
    && forall i :: 0 <= i < |j.book.decisions| && j.book.decisions[i].allowed ==> j.book.decisions[i].app != v.appId
  }

  // Nothing stands against acting on the application: it is a draft, and the policy has no objection and room in every window.
  ghost predicate Clear(k: Calendar, j: AutopilotRuns.Joint, v: AutopilotRuns.Evaluation, revision: nat, now: Time)
    requires v.appId in j.db.applications && revision < |j.book.revisions|
  {
    var l, ds := j.book.revisions[revision].limits, j.book.decisions;
    && j.db.applications[v.appId].status == JobDraft && v.gates == []
    && Running(j.book) && k.opens(now) <= now < k.closes(now)
    && |AllowedAmong(ds, k.midnight(now), None, None)| < l.daily && |AllowedAmong(ds, now - 3600, None, None)| < l.hourly
    && |AllowedAmong(ds, now - 14 * 86400, Some(now), Some(v.company))| < l.company
  }

  // The row of the application after an allowed evaluation, and after a denied one.
  predicate Prepared(a: Application, a': Application, now: Time) {
    var revision := if a.revision < 1 then 1 else a.revision;
    a' == a.(approvedAt := Some(now), approvalSource := Some("qualified_autopilot_policy"), revision := revision, preparedRevision := Some(revision))
  }

  ghost predicate LeftForReview(a: Application, a': Application, reasons: seq<Reason>) {
    a' == a.(needsReviewReason := a'.needsReviewReason) && FirstLasting(reasons, a'.needsReviewReason)
  }

  /** An evaluation prepares the application if and only if nothing stands against it, and then stores the authority row that names it;
      otherwise it only leaves the first lasting reason for review, and no authority. */
  lemma PreparesExactlyWhenClear(k: Calendar, j: AutopilotRuns.Joint, v: AutopilotRuns.Evaluation, now: Time, revision: nat)
    requires Evaluable(j, v) && InForce(j.book, revision, now)
    ensures AutopilotRuns.EvaluateJoint(k, j, v, now).Ok?
    ensures var (j', d) := AutopilotRuns.EvaluateJoint(k, j, v, now).value;
      var app := j.db.applications[v.appId];
      && v.appId in j'.db.applications && j'.db.applications == j.db.applications[v.appId := j'.db.applications[v.appId]]
      && j'.db == j.db.(applications := j'.db.applications, decisions := j'.db.decisions)
      && (d.allowed <==> Clear(k, j, v, revision, now))
      && (d.allowed ==>
            Prepared(app, j'.db.applications[v.appId], now)
            && d.app == v.appId && d.appRevision == app.revision && d.planId == v.planId && d.revision == revision
            && j'.db.decisions == j.db.decisions[v.decisionId := PolicyDecision(v.appId, app.revision, v.planId, v.digest, d.expiresAt)]
            && Lasts(d, j.book.revisions[revision].expiresAt, k.closes(now), now))
      && (!d.allowed ==>
            LeftForReview(app, j'.db.applications[v.appId], d.reasons)
            && forall i :: i in j'.db.decisions ==> i in j.db.decisions || j'.db.decisions[i].expiresAt.None?)
  {
    var c := AutopilotRuns.CandidateOf(j.db, v);
    AllowedExactlyWhenUnopposed(j.book, k, c, now, revision);
    CandidateIsClear(k, j, v, revision, now);
    var d := Evaluate(j.book, k, c, now).value.1;
    ReviewReasonIsFirst(d.reasons);
    hide Evaluate, Unopposed, Clear, FirstLasting, AutopilotRuns.ReviewReason;
  }

  lemma CandidateIsClear(k: Calendar, j: AutopilotRuns.Joint, v: AutopilotRuns.Evaluation, revision: nat, now: Time)
    requires Evaluable(j, v) && revision < |j.book.revisions|
    ensures Unopposed(j.book, k, revision, AutopilotRuns.CandidateOf(j.db, v), now) <==> Clear(k, j, v, revision, now)
  {
    hide AllowedAmong;
  }
}
