/** Signed auto-submit policies: activation, revocation, the kill switch, and evaluations that reserve authority inside
    hourly, daily and per-company limits. Reasons raised by the other gates come in as a list. */
module PolicyLimits {
  import opened Wrappers
  import opened Records

  const HOUR: nat := 3600
  const COMPANY_WINDOW: nat := 14 * 24 * 3600
  const AUTHORITY_SECONDS: nat := 300

  datatype Limits = Limits(daily: nat, hourly: nat, company: nat)

  datatype Revision = Revision(limits: Limits, activatedAt: Time, expiresAt: Time, active: bool, revokedAt: Option<Time>)

  datatype KillEvent = KillEvent(active: bool, remote: bool, command: Option<string>)

  datatype Decision = Decision(
    revision: nat, app: Id, appRevision: int, planId: string, company: string, allowed: bool, reasons: seq<Reason>,
    at: Time, expiresAt: Option<Time>)

  // Policy revisions are numbered by their place; so are kill events.
  datatype Book = Book(revisions: seq<Revision>, kills: seq<KillEvent>, decisions: seq<Decision>)

  // The local calendar: midnight, opening and closing time of the local day an instant falls in.
  datatype Calendar = Calendar(midnight: Time -> Time, opens: Time -> Time, closes: Time -> Time)

  ghost predicate SaneCalendar(k: Calendar) { forall t: Time :: k.midnight(t) <= t }

  // ---------- policies and the kill switch ----------

  predicate ValidLimits(l: Limits) { 1 <= l.daily <= 25 && 1 <= l.hourly <= 5 && 1 <= l.company <= 2 && l.hourly <= l.daily }

  function Superseded(revisions: seq<Revision>, now: Time): (r: seq<Revision>)
    ensures |r| == |revisions|
  {
    seq(|revisions|, i requires 0 <= i < |revisions| =>
      if revisions[i].active then revisions[i].(active := false, revokedAt := Some(now)) else revisions[i])
  }

  // The bindings and scopes a new policy is built from have their own refusal.
  function Activate(b: Book, limits: Limits, days: int, scope: Option<Reason>, now: Time): Result<Book, Reason> {
    if !(1 <= days <= 30) then Err("AUTOMATION_POLICY_EXPIRY_INVALID")
    else if scope.Some? then Err(scope.value)
    else if !ValidLimits(limits) then Err("AUTOMATION_POLICY_INVALID")
    else
      Ok(b.(revisions := Superseded(b.revisions, now) + [Revision(limits, now, now + days * 86400, true, None)]))
  }

  function ActiveRevision(b: Book): Option<nat> {
    if b.revisions != [] && b.revisions[|b.revisions| - 1].active then Some(|b.revisions| - 1) else None
  }

  function Revoke(b: Book, now: Time): Result<Book, Reason> {
    if ActiveRevision(b).None? then Err("AUTOMATION_POLICY_NOT_ACTIVE")
    else Ok(b.(revisions := Superseded(b.revisions, now)))
  }

  function CurrentPolicy(b: Book, now: Time): Option<nat> {
    var active := ActiveRevision(b);
    if active.Some? && b.revisions[active.value].revokedAt.None? && now < b.revisions[active.value].expiresAt then active else None
  }

  predicate KillActive(b: Book) { b.kills != [] && b.kills[|b.kills| - 1].active }

  predicate SeenCommand(b: Book, command: string) { exists i :: 0 <= i < |b.kills| && b.kills[i].command == Some(command) }

  // A remote command may only stop, and each command is recorded once.
  function SetKillSwitch(b: Book, active: bool, remote: bool, command: Option<string>): Result<Book, Reason> {
    if remote && (!active || command.None?) then Err("REMOTE_KILL_CAN_ONLY_ACTIVATE")
    else if command.Some? && SeenCommand(b, command.value) then
      if exists i :: 0 <= i < |b.kills| && b.kills[i].command == command && b.kills[i].active == active && b.kills[i].remote == remote
      then Ok(b) else Err("KILL_SWITCH_COMMAND_CONFLICT")
    else if b.kills != [] && b.kills[|b.kills| - 1].active == active && command.None? then Ok(b)
    else Ok(b.(kills := b.kills + [KillEvent(active, remote, command)]))
  }

  // ---------- usage ----------

  predicate Counts(d: Decision, from: int, until: Option<Time>, company: Option<string>) {
    d.allowed && from <= d.at && (until.Some? ==> d.at <= until.value) && (company.Some? ==> d.company == company.value)
  }

  function Usage(ds: seq<Decision>, from: int, until: Option<Time>, company: Option<string>): nat {
    if ds == [] then 0
    else Usage(ds[..|ds| - 1], from, until, company) + if Counts(ds[|ds| - 1], from, until, company) then 1 else 0
  }

  // One gate after another adds its reason.
  function Noted(reasons: seq<Reason>, when: bool, code: Reason): (r: seq<Reason>)
    ensures r == [] <==> reasons == [] && !when
  {
    if when then reasons + [code] else reasons
  }

  // ---------- evaluation ----------

  // One application as the gates see it. Missing rows are refused at entry; the other gates list their reasons.
  datatype Candidate = Candidate(
    app: Id, appRevision: int, planId: string, company: string, entry: Option<Reason>, profileChanged: bool, artifactsChanged: bool,
    gates: seq<Reason>)

  predicate InHours(k: Calendar, now: Time) { k.opens(now) <= now < k.closes(now) }

  function Min(x: Time, y: Time): Time { if x < y then x else y }

  function Reasons(b: Book, k: Calendar, l: Limits, c: Candidate, now: Time): seq<Reason> {
    var stopped := Noted([], KillActive(b), "KILL_SWITCH_ACTIVE");
    var gated := Noted(stopped, !InHours(k, now), "OUTSIDE_ACTIVE_HOURS") + c.gates;
    var daily := Noted(gated, Usage(b.decisions, k.midnight(now), None, None) >= l.daily, "AUTOMATION_DAILY_LIMIT_REACHED");
    var hourly := Noted(daily, Usage(b.decisions, now - HOUR, None, None) >= l.hourly, "AUTOMATION_HOURLY_LIMIT_REACHED");
    Noted(hourly, Usage(b.decisions, now - COMPANY_WINDOW, Some(now), Some(c.company)) >= l.company, "AUTOMATION_COMPANY_LIMIT_REACHED")
  }

  // Repeated reasons are dropped, each kept where it first came.
  function Unique(reasons: seq<Reason>): (r: seq<Reason>)
    ensures r == [] <==> reasons == []
    ensures forall x :: x in r <==> x in reasons
    ensures forall i, j :: 0 <= i < j < |r| ==> r[i] != r[j]
  {
    if reasons == [] then []
    else
      var init, last := reasons[..|reasons| - 1], reasons[|reasons| - 1];
      assert reasons == init + [last];
      var before := Unique(init);
      if last in before then before else before + [last]
  }

  function Judge(b: Book, k: Calendar, revision: nat, c: Candidate, now: Time): Decision
    requires revision < |b.revisions|
  {
    var reasons := Unique(Reasons(b, k, b.revisions[revision].limits, c, now));
    var expiry := Min(b.revisions[revision].expiresAt, Min(k.closes(now), now + AUTHORITY_SECONDS));
    Decision(revision, c.app, c.appRevision, c.planId, c.company, reasons == [], reasons, now, if reasons == [] then Some(expiry) else None)
  }

  predicate HasAllowed(ds: seq<Decision>, app: Id) { exists i :: 0 <= i < |ds| && ds[i].allowed && ds[i].app == app }

  function Evaluate(b: Book, k: Calendar, c: Candidate, now: Time): Result<(Book, Decision), Reason> {
    if c.entry.Some? then Err(c.entry.value)
    else
      var policy := CurrentPolicy(b, now);
      if policy.None? then Err("AUTOMATION_POLICY_NOT_ACTIVE")
      else if HasAllowed(b.decisions, c.app) then
        var i := FirstAllowed(b.decisions, c.app);
        var d := b.decisions[i];
        if d.revision == policy.value && d.appRevision == c.appRevision && d.planId == c.planId then
          if c.profileChanged then Err("PROFILE_VERSION_CHANGED")
          else if c.artifactsChanged then Err("FIT_QUALIFICATION_CHANGED")
          else Ok((b, d))
        else Err("AUTOMATION_AUTHORITY_ALREADY_RESERVED")
      else
        var d := Judge(b, k, policy.value, c, now);
        Ok((if d in b.decisions then b else b.(decisions := b.decisions + [d]), d))
  }

  function FirstAllowed(ds: seq<Decision>, app: Id): (i: nat)
    requires HasAllowed(ds, app)
    ensures i < |ds| && ds[i].allowed && ds[i].app == app
  {
    if ds[0].allowed && ds[0].app == app then 0
    else
      assert HasAllowed(ds[1..], app) by {
        var j :| 0 <= j < |ds| && ds[j].allowed && ds[j].app == app;
        assert ds[1..][j - 1] == ds[j];
      }
      1 + FirstAllowed(ds[1..], app)
  }

  // A decision that may still be acted on: allowed, unexpired, under the policy in force, with no stop.
  function DecisionRefusal(b: Book, k: Calendar, d: Decision, now: Time): Option<Reason> {
    if !d.allowed then Some("AUTOMATION_DECISION_DENIED")
    else if d.expiresAt.None? || d.expiresAt.value <= now then Some("AUTOMATION_AUTHORITY_EXPIRED")
    else if CurrentPolicy(b, now).None? then Some("AUTOMATION_POLICY_NOT_ACTIVE")
    else if CurrentPolicy(b, now).value != d.revision then Some("AUTOMATION_POLICY_CHANGED")
    else if KillActive(b) then Some("KILL_SWITCH_ACTIVE")
    else if !InHours(k, now) then Some("OUTSIDE_ACTIVE_HOURS")
    else None
  }

  // ---------- the service ----------

  class PolicyService {
    var book: Book

    constructor ()
      ensures book == Book([], [], [])
    {
      book := Book([], [], []);
    }

    method UsageCounts(k: Calendar, company: string, now: Time) returns (daily: nat, hourly: nat, perCompany: nat)
      ensures daily == Usage(book.decisions, k.midnight(now), None, None)
      ensures hourly == Usage(book.decisions, now - HOUR, None, None)
      ensures perCompany == Usage(book.decisions, now - COMPANY_WINDOW, Some(now), Some(company))
    {
      daily, hourly, perCompany := 0, 0, 0;
      var rows := book.decisions;
      for n := 0 to |rows|
        invariant daily == Usage(rows[..n], k.midnight(now), None, None)
        invariant hourly == Usage(rows[..n], now - HOUR, None, None)
        invariant perCompany == Usage(rows[..n], now - COMPANY_WINDOW, Some(now), Some(company))
      {
        assert rows[..n + 1][..n] == rows[..n];
        var row := rows[n];
        if row.allowed {
          if row.at >= k.midnight(now) { daily := daily + 1; }
          if row.at >= now - HOUR { hourly := hourly + 1; }
          if row.company == company && now - COMPANY_WINDOW <= row.at <= now { perCompany := perCompany + 1; }
        }
      }
      assert rows[..|rows|] == rows;
    }

    // The reasons are collected one gate after another.
    method Weigh(k: Calendar, c: Candidate, revision: nat, now: Time) returns (d: Decision)
      requires revision < |book.revisions|
      ensures d == Judge(book, k, revision, c, now)
    {
      hide Usage, Noted, Unique;
      var row := book.revisions[revision];
      var reasons := Noted([], KillActive(book), "KILL_SWITCH_ACTIVE");
      reasons := Noted(reasons, !InHours(k, now), "OUTSIDE_ACTIVE_HOURS");
      reasons := reasons + c.gates;
      var daily, hourly, perCompany := UsageCounts(k, c.company, now);
      reasons := Noted(reasons, daily >= row.limits.daily, "AUTOMATION_DAILY_LIMIT_REACHED");
      reasons := Noted(reasons, hourly >= row.limits.hourly, "AUTOMATION_HOURLY_LIMIT_REACHED");
      reasons := Noted(reasons, perCompany >= row.limits.company, "AUTOMATION_COMPANY_LIMIT_REACHED");
      assert reasons == Reasons(book, k, row.limits, c, now);
      reasons := Unique(reasons);
      var expiry: Option<Time> := None;
      if reasons == [] { expiry := Some(Min(row.expiresAt, Min(k.closes(now), now + AUTHORITY_SECONDS))); }
      d := Decision(revision, c.app, c.appRevision, c.planId, c.company, reasons == [], reasons, now, expiry);
    }

    // The decision is stored whatever its reasons say.
    method EvaluateAutoSubmitPolicy(k: Calendar, c: Candidate, now: Time) returns (result: Result<Decision, Reason>)
      modifies this
      ensures match Evaluate(old(book), k, c, now)
              case Err(e) => result == Err(e) && book == old(book)
              case Ok((book', d)) => result == Ok(d) && book == book'
    {
      hide Judge, HasAllowed;
      if c.entry.Some? { return Err(c.entry.value); }
      var policy := CurrentPolicy(book, now);
      if policy.None? { return Err("AUTOMATION_POLICY_NOT_ACTIVE"); }
      if HasAllowed(book.decisions, c.app) {
        var existing := book.decisions[FirstAllowed(book.decisions, c.app)];
        if existing.revision == policy.value && existing.appRevision == c.appRevision && existing.planId == c.planId {
          if c.profileChanged { return Err("PROFILE_VERSION_CHANGED"); }
          if c.artifactsChanged { return Err("FIT_QUALIFICATION_CHANGED"); }
          return Ok(existing);
        }
        return Err("AUTOMATION_AUTHORITY_ALREADY_RESERVED");
      }
      var d := Weigh(k, c, policy.value, now);
      if d !in book.decisions { book := book.(decisions := book.decisions + [d]); }
      result := Ok(d);
    }
  }

  // ---------- runs ----------

  datatype Event =
    | Activated(limits: Limits, days: int, scope: Option<Reason>)
    | Revoked
    | KillSet(active: bool, remote: bool, command: Option<string>)
    | Evaluated(candidate: Candidate)

  function OrSame(b: Book, r: Result<Book, Reason>): Book { if r.Ok? then r.value else b }

  function Apply(k: Calendar, b: Book, e: Event, now: Time): Book {
    match e
    case Activated(limits, days, scope) => OrSame(b, Activate(b, limits, days, scope, now))
    case Revoked => OrSame(b, Revoke(b, now))
    case KillSet(active, remote, command) => OrSame(b, SetKillSwitch(b, active, remote, command))
    case Evaluated(c) => var r := Evaluate(b, k, c, now); if r.Ok? then r.value.0 else b
  }

  // Each event with the time it happens at; times never go back.
  type History = seq<(Event, Time)>

  ghost predicate Forward(h: History, clock: Time) {
    (forall i :: 0 <= i < |h| ==> clock <= h[i].1) && forall i, j :: 0 <= i < j < |h| ==> h[i].1 <= h[j].1
  }

  function Run(k: Calendar, b: Book, h: History): Book
    decreases |h|
  {
    if h == [] then b else Run(k, Apply(k, b, h[0].0, h[0].1), h[1..])
  }

  const EMPTY := Book([], [], [])

  // ---------- what every step keeps ----------

  ghost predicate RevisionsOk(rs: seq<Revision>) {
    && (forall i :: 0 <= i < |rs| ==> ValidLimits(rs[i].limits) && (rs[i].active <==> rs[i].revokedAt.None?))
    && (forall i :: 0 <= i < |rs| - 1 ==> !rs[i].active)
  }

  // What was true of the decisions before it when an allowed decision was made.
  ghost predicate MadeInside(k: Calendar, earlier: seq<Decision>, d: Decision) {
    && Usage(earlier, k.midnight(d.at), None, None) < 25
    && Usage(earlier, d.at - HOUR, None, None) < 5
    && Usage(earlier, d.at - COMPANY_WINDOW, Some(d.at), Some(d.company)) < 2
    && !HasAllowed(earlier, d.app)
  }

  ghost predicate DecisionOk(k: Calendar, revisions: seq<Revision>, d: Decision) {
    d.allowed ==> d.revision < |revisions| && d.expiresAt.Some? && InHours(k, d.at)
                  && d.expiresAt.value == Min(revisions[d.revision].expiresAt, Min(k.closes(d.at), d.at + AUTHORITY_SECONDS))
                  && d.at < d.expiresAt.value
  }

  ghost predicate DecisionsOk(k: Calendar, b: Book) {
    && (forall i :: 0 <= i < |b.decisions| && b.decisions[i].allowed ==> MadeInside(k, b.decisions[..i], b.decisions[i]))
    && (forall i :: 0 <= i < |b.decisions| ==> DecisionOk(k, b.revisions, b.decisions[i]))
  }

  ghost predicate InTimeOrder(ds: seq<Decision>, clock: Time) {
    (forall i :: 0 <= i < |ds| ==> ds[i].at <= clock) && forall i, j :: 0 <= i < j < |ds| ==> ds[i].at <= ds[j].at
  }

  ghost predicate Inv(k: Calendar, b: Book, clock: Time) {
    RevisionsOk(b.revisions) && DecisionsOk(k, b) && InTimeOrder(b.decisions, clock)
  }

  // A policy revision keeps its terms, and once revoked it stays revoked.
  ghost predicate RevisionsExtend(rs: seq<Revision>, rs': seq<Revision>) {
    |rs| <= |rs'| && forall i :: 0 <= i < |rs| ==> rs'[i].expiresAt == rs[i].expiresAt && (!rs[i].active ==> !rs'[i].active)
  }

  lemma RevisionsStepKeeps(k: Calendar, b: Book, e: Event, now: Time)
    requires RevisionsOk(b.revisions)
    ensures RevisionsOk(Apply(k, b, e, now).revisions) && RevisionsExtend(b.revisions, Apply(k, b, e, now).revisions)
  {
    hide Judge, HasAllowed, CurrentPolicy;
  }

  lemma ExtendedDecisionsKeep(k: Calendar, b: Book, b': Book)
    requires DecisionsOk(k, b) && b'.decisions == b.decisions && RevisionsExtend(b.revisions, b'.revisions)
    ensures DecisionsOk(k, b')
  {
    hide MadeInside;
  }

  lemma JudgedIsInside(k: Calendar, b: Book, revision: nat, c: Candidate, now: Time)
    requires revision < |b.revisions| && ValidLimits(b.revisions[revision].limits) && now < b.revisions[revision].expiresAt
    requires !HasAllowed(b.decisions, c.app)
    ensures var d := Judge(b, k, revision, c, now);
      d.at == now && DecisionOk(k, b.revisions, d) && (d.allowed ==> MadeInside(k, b.decisions, d))
  {
    hide HasAllowed;
  }

  lemma EvaluationKeeps(k: Calendar, b: Book, c: Candidate, clock: Time, now: Time)
    requires Inv(k, b, clock) && clock <= now
    ensures Inv(k, Apply(k, b, Evaluated(c), now), now)
  {
    hide Judge, HasAllowed, MadeInside, DecisionOk;
    var policy := CurrentPolicy(b, now);
    if c.entry.None? && policy.Some? && !HasAllowed(b.decisions, c.app) {
      JudgedIsInside(k, b, policy.value, c, now);
      var d := Judge(b, k, policy.value, c, now);
      if d !in b.decisions {
        var ds' := b.decisions + [d];
        forall i | 0 <= i < |ds'| && ds'[i].allowed ensures MadeInside(k, ds'[..i], ds'[i]) {
          assert ds'[..i] == b.decisions[..i];
          assert b.decisions[..|b.decisions|] == b.decisions;
        }
      }
    }
  }

  lemma StepKeeps(k: Calendar, b: Book, e: Event, clock: Time, now: Time)
    requires Inv(k, b, clock) && clock <= now
    ensures Inv(k, Apply(k, b, e, now), now) && RevisionsExtend(b.revisions, Apply(k, b, e, now).revisions)
  {
    RevisionsStepKeeps(k, b, e, now);
    if e.Evaluated? {
      EvaluationKeeps(k, b, e.candidate, clock, now);
    } else {
      assert Apply(k, b, e, now).decisions == b.decisions;
      ExtendedDecisionsKeep(k, b, Apply(k, b, e, now));
    }
    hide Apply, RevisionsOk, DecisionsOk, RevisionsExtend;
  }

  lemma {:induction false} RunKeeps(k: Calendar, b: Book, h: History, clock: Time) returns (clock': Time)
    requires Inv(k, b, clock) && Forward(h, clock)
    ensures Inv(k, Run(k, b, h), clock') && RevisionsExtend(b.revisions, Run(k, b, h).revisions)
    decreases |h|
  {
    hide Apply, RevisionsOk, DecisionsOk, InTimeOrder;
    if h == [] {
      clock' := clock;
    } else {
      StepKeeps(k, b, h[0].0, clock, h[0].1);
      clock' := RunKeeps(k, Apply(k, b, h[0].0, h[0].1), h[1..], h[0].1);
    }
  }

  // ---------- windows ----------

  lemma {:induction false} UsageShrinks(ds: seq<Decision>, from: int, until: Option<Time>, from': int, until': Option<Time>, company: Option<string>)
    requires from' <= from && (forall i :: 0 <= i < |ds| ==> until'.None? || ds[i].at <= until'.value)
    ensures Usage(ds, from, until, company) <= Usage(ds, from', until', company)
    decreases |ds|
  {
    if ds != [] { UsageShrinks(ds[..|ds| - 1], from, until, from', until', company); }
  }

  ghost predicate PrefixesOk(k: Calendar, ds: seq<Decision>) {
    forall i :: 0 <= i < |ds| && ds[i].allowed ==> MadeInside(k, ds[..i], ds[i])
  }

  lemma ShorterIsOk(k: Calendar, ds: seq<Decision>, clock: Time)
    requires ds != [] && PrefixesOk(k, ds) && InTimeOrder(ds, clock)
    ensures PrefixesOk(k, ds[..|ds| - 1]) && InTimeOrder(ds[..|ds| - 1], ds[|ds| - 1].at)
    ensures ds[|ds| - 1].allowed ==> MadeInside(k, ds[..|ds| - 1], ds[|ds| - 1])
  {
    hide MadeInside;
    var init := ds[..|ds| - 1];
    forall i | 0 <= i < |init| && init[i].allowed ensures MadeInside(k, init[..i], init[i]) {
      assert init[..i] == ds[..i];
    }
  }

  lemma {:induction false} HourlyWindow(k: Calendar, ds: seq<Decision>, clock: Time, from: Time)
    requires PrefixesOk(k, ds) && InTimeOrder(ds, clock)
    ensures Usage(ds, from, Some(from + HOUR), None) <= 5
    decreases |ds|
  {
    if ds != [] {
      var init, last := ds[..|ds| - 1], ds[|ds| - 1];
      ShorterIsOk(k, ds, clock);
      HourlyWindow(k, init, last.at, from);
      if Counts(last, from, Some(from + HOUR), None) { UsageShrinks(init, from, Some(from + HOUR), last.at - HOUR, None, None); }
    }
  }

  lemma {:induction false} CompanyWindow(k: Calendar, ds: seq<Decision>, clock: Time, from: Time, company: string)
    requires PrefixesOk(k, ds) && InTimeOrder(ds, clock)
    ensures Usage(ds, from, Some(from + COMPANY_WINDOW), Some(company)) <= 2
    decreases |ds|
  {
    if ds != [] {
      var init, last := ds[..|ds| - 1], ds[|ds| - 1];
      ShorterIsOk(k, ds, clock);
      CompanyWindow(k, init, last.at, from, company);
      if Counts(last, from, Some(from + COMPANY_WINDOW), Some(company)) {
        UsageShrinks(init, from, Some(from + COMPANY_WINDOW), last.at - COMPANY_WINDOW, Some(last.at), Some(company));
      }
    }
  }

  // Allowed decisions made on the local day that starts at the given midnight.
  function OnDay(k: Calendar, ds: seq<Decision>, midnight: Time): nat {
    if ds == [] then 0
    else OnDay(k, ds[..|ds| - 1], midnight) + if ds[|ds| - 1].allowed && k.midnight(ds[|ds| - 1].at) == midnight then 1 else 0
  }

  lemma {:induction false} DayIsSinceMidnight(k: Calendar, ds: seq<Decision>, midnight: Time)
    requires SaneCalendar(k)
    ensures OnDay(k, ds, midnight) <= Usage(ds, midnight, None, None)
    decreases |ds|
  {
    if ds != [] { DayIsSinceMidnight(k, ds[..|ds| - 1], midnight); }
  }

  lemma {:induction false} DailyWindow(k: Calendar, ds: seq<Decision>, clock: Time, midnight: Time)
    requires SaneCalendar(k) && PrefixesOk(k, ds) && InTimeOrder(ds, clock)
    ensures OnDay(k, ds, midnight) <= 25
    decreases |ds|
  {
    if ds != [] {
      ShorterIsOk(k, ds, clock);
      DailyWindow(k, ds[..|ds| - 1], ds[|ds| - 1].at, midnight);
      DayIsSinceMidnight(k, ds[..|ds| - 1], midnight);
    }
  }

  // ---------- main results ----------

  /** Whatever policies come and go, no closed hour holds more than five allowed decisions, no local day more than
      twenty-five, no closed fortnight more than two for one company. */
  lemma LimitsHoldInEveryWindow(k: Calendar, h: History, from: Time, company: string)
    requires SaneCalendar(k) && Forward(h, 0)
    ensures var ds := Run(k, EMPTY, h).decisions;
      && Usage(ds, from, Some(from + HOUR), None) <= 5
      && OnDay(k, ds, from) <= 25
      && Usage(ds, from, Some(from + COMPANY_WINDOW), Some(company)) <= 2
  {
    var clock := RunKeeps(k, EMPTY, h, 0);
    var ds := Run(k, EMPTY, h).decisions;
    hide Run;
    assert PrefixesOk(k, ds);
    HourlyWindow(k, ds, clock, from);
    DailyWindow(k, ds, clock, from);
    CompanyWindow(k, ds, clock, from, company);
  }

  /** An application is allowed at most once, ever. */
  lemma AllowedOnce(k: Calendar, h: History, i: nat, j: nat)
    requires Forward(h, 0)
    requires var ds := Run(k, EMPTY, h).decisions; i < j < |ds| && ds[i].allowed && ds[j].allowed
    ensures var ds := Run(k, EMPTY, h).decisions; ds[i].app != ds[j].app
  {
    var clock := RunKeeps(k, EMPTY, h, 0);
    var ds := Run(k, EMPTY, h).decisions;
    hide Run;
    assert MadeInside(k, ds[..j], ds[j]);
    assert ds[..j][i] == ds[i];
  }

  /** Authority granted by a run lasts no longer than its policy, its local day's closing time and five minutes. */
  lemma AuthorityIsBounded(k: Calendar, h: History, i: nat)
    requires Forward(h, 0)
    requires var b := Run(k, EMPTY, h); i < |b.decisions| && b.decisions[i].allowed
    ensures var b := Run(k, EMPTY, h); DecisionOk(k, b.revisions, b.decisions[i])
  {
    var clock := RunKeeps(k, EMPTY, h, 0);
    hide Run;
  }

  /** Once a policy revision is no longer active, nothing that happens later makes its decisions usable again. */
  lemma RevokedStaysPowerless(k: Calendar, past: History, future: History, clock: Time, d: Decision, now: Time)
    requires Forward(past, 0) && Forward(future, clock) && InTimeOrder(Run(k, EMPTY, past).decisions, clock)
    requires d.revision < |Run(k, EMPTY, past).revisions| && !Run(k, EMPTY, past).revisions[d.revision].active
    ensures DecisionRefusal(Run(k, Run(k, EMPTY, past), future), k, d, now).Some?
  {
    var before := RunKeeps(k, EMPTY, past, 0);
    var later := RunKeeps(k, Run(k, EMPTY, past), future, clock);
    hide Run;
  }

  ghost predicate CommandsOnce(kills: seq<KillEvent>) {
    forall i, j :: 0 <= i < j < |kills| && kills[i].command.Some? ==> kills[i].command != kills[j].command
  }

  // Remote events only ever stop.
  ghost predicate RemoteOnlyStops(kills: seq<KillEvent>) {
    forall i :: 0 <= i < |kills| && kills[i].remote ==> kills[i].active && kills[i].command.Some?
  }

  /** In every run each kill-switch command is recorded once and no remote event resumes; a remote command never turns an
      active switch off. */
  lemma {:induction false} RemoteKillOnlyStops(k: Calendar, b: Book, h: History, command: Option<string>, active: bool)
    requires CommandsOnce(b.kills) && RemoteOnlyStops(b.kills)
    ensures var b' := Run(k, b, h);
      && CommandsOnce(b'.kills) && RemoteOnlyStops(b'.kills)
      && (KillActive(b') ==> KillActive(OrSame(b', SetKillSwitch(b', active, true, command))))
    decreases |h|
  {
    if h != [] {
      KillStepKeeps(k, b, h[0].0, h[0].1);
      RemoteKillOnlyStops(k, Apply(k, b, h[0].0, h[0].1), h[1..], command, active);
    }
    hide Apply, CommandsOnce, RemoteOnlyStops;
  }

  lemma KillStepKeeps(k: Calendar, b: Book, e: Event, now: Time)
    requires CommandsOnce(b.kills) && RemoteOnlyStops(b.kills)
    ensures CommandsOnce(Apply(k, b, e, now).kills) && RemoteOnlyStops(Apply(k, b, e, now).kills)
  {
    hide Judge, HasAllowed, CurrentPolicy;
    if e.KillSet? && e.command.Some? && !SeenCommand(b, e.command.value) {
      assert forall i :: 0 <= i < |b.kills| ==> b.kills[i].command != e.command;
    }
  }

  /** Asking again about the same state gives the recorded decision and writes nothing. */
  lemma EvaluationIsIdempotent(k: Calendar, b: Book, c: Candidate, now: Time, later: Time)
    requires Evaluate(b, k, c, now).Ok? && Evaluate(b, k, c, now).value.1.allowed
    requires CurrentPolicy(Evaluate(b, k, c, now).value.0, later) == Some(Evaluate(b, k, c, now).value.1.revision)
    requires !c.profileChanged && !c.artifactsChanged
    requires forall i, j :: 0 <= i < j < |b.decisions| && b.decisions[i].allowed && b.decisions[j].allowed ==> b.decisions[i].app != b.decisions[j].app
    ensures var (b', d) := Evaluate(b, k, c, now).value; Evaluate(b', k, c, later) == Ok((b', d))
  {
    hide Judge;
    var (b', d) := Evaluate(b, k, c, now).value;
    if !HasAllowed(b.decisions, c.app) {
      assert d == Judge(b, k, CurrentPolicy(b, now).value, c, now);
      JudgedApp(b, k, CurrentPolicy(b, now).value, c, now);
      assert d !in b.decisions;
      assert b'.decisions[|b.decisions|] == d;
      assert HasAllowed(b'.decisions, c.app);
    }
  }

  lemma JudgedApp(b: Book, k: Calendar, revision: nat, c: Candidate, now: Time)
    requires revision < |b.revisions|
    ensures var d := Judge(b, k, revision, c, now); d.app == c.app && d.appRevision == c.appRevision && d.planId == c.planId && d.revision == revision
  {
  }
}
