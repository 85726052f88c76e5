/** Exactly when an evaluation allows, whatever happened before it. */
module PolicyRules {
  import opened Wrappers
  import opened Records
  import opened PolicyLimits

  // ---------- counting ----------

  // The allowed decisions from one instant on, up to another if there is one, for one company if one is named.
  ghost function AllowedAmong(ds: seq<Decision>, from: int, until: Option<Time>, company: Option<string>): set<nat> {
    set i | 0 <= i < |ds| && ds[i].allowed && from <= ds[i].at && (until.None? || ds[i].at <= until.value)
            && (company.None? || ds[i].company == company.value)
  }

  lemma {:induction false} UsageIsCount(ds: seq<Decision>, from: int, until: Option<Time>, company: Option<string>)
    ensures Usage(ds, from, until, company) == |AllowedAmong(ds, from, until, company)|
    decreases |ds|
  {
    if ds == [] {
      assert AllowedAmong(ds, from, until, company) == {};
    } else {
      var init := ds[..|ds| - 1];
      UsageIsCount(init, from, until, company);
      LastCounts(ds, from, until, company);
      hide AllowedAmong, Counts;
    }
  }

  lemma LastCounts(ds: seq<Decision>, from: int, until: Option<Time>, company: Option<string>)
    requires ds != []
    ensures var n := |ds| - 1;
      && n !in AllowedAmong(ds[..n], from, until, company)
      && AllowedAmong(ds, from, until, company)
         == AllowedAmong(ds[..n], from, until, company) + if Counts(ds[n], from, until, company) then {n} else {}
  {
  }

  // ---------- one evaluation ----------

  // The last kill switch event, if there is any, does not stop.
  predicate Running(b: Book) { b.kills != [] ==> !b.kills[|b.kills| - 1].active }

  // The newest policy revision is active, unrevoked and unexpired.
  predicate InForce(b: Book, revision: nat, now: Time) {
    && |b.revisions| == revision + 1 && b.revisions[revision].active && b.revisions[revision].revokedAt.None?
    && now < b.revisions[revision].expiresAt
  }

  // Nothing stands against acting now: no stop, active hours, no objection of any gate, and room in all three windows.
  ghost predicate Unopposed(b: Book, k: Calendar, revision: nat, c: Candidate, now: Time)
    requires revision < |b.revisions|
  {
    var l := b.revisions[revision].limits;
    && Running(b) && k.opens(now) <= now < k.closes(now) && c.gates == []
    && |AllowedAmong(b.decisions, k.midnight(now), None, None)| < l.daily
    && |AllowedAmong(b.decisions, now - 3600, None, None)| < l.hourly
    && |AllowedAmong(b.decisions, now - 14 * 86400, Some(now), Some(c.company))| < l.company
  }

  lemma InForceExactly(b: Book, now: Time, revision: nat)
    ensures CurrentPolicy(b, now) == Some(revision) <==> InForce(b, revision, now)
  {
  }

  lemma JudgedExactly(b: Book, k: Calendar, revision: nat, c: Candidate, now: Time)
    requires revision < |b.revisions|
    ensures Judge(b, k, revision, c, now).allowed <==> Unopposed(b, k, revision, c, now)
  {
    UsageIsCount(b.decisions, k.midnight(now), None, None);
    UsageIsCount(b.decisions, now - 3600, None, None);
    UsageIsCount(b.decisions, now - 14 * 86400, Some(now), Some(c.company));
    hide Usage, AllowedAmong;
  }

  // The new decision of an evaluation, if it makes one: under the policy in force, about the candidate as it is, at this time.
  ghost predicate About(d: Decision, revision: nat, c: Candidate, now: Time) {
    d.revision == revision && d.app == c.app && d.appRevision == c.appRevision && d.planId == c.planId && d.company == c.company && d.at == now
  }

  // An allowed decision's authority ends with the earliest of the three; a denied one has none.
  ghost predicate Lasts(d: Decision, policyEnds: Time, closes: Time, now: Time) {
    if d.allowed then
      && d.expiresAt.Some? && d.expiresAt.value in {policyEnds, closes, now + 300}
      && d.expiresAt.value <= policyEnds && d.expiresAt.value <= closes && d.expiresAt.value <= now + 300
    else d.expiresAt.None?
  }

  /** An application without an allowed decision is judged afresh exactly when its rows are there and a policy is in force. The decision is
      kept, and it allows if and only if nothing stands against it; then its authority ends with the policy, the local closing time or
      five minutes, whichever is first. */
  lemma AllowedExactlyWhenUnopposed(b: Book, k: Calendar, c: Candidate, now: Time, revision: nat)
    requires InForce(b, revision, now) && c.entry.None?
    requires forall i :: 0 <= i < |b.decisions| && b.decisions[i].allowed ==> b.decisions[i].app != c.app
    ensures Evaluate(b, k, c, now).Ok?
    ensures var (b', d) := Evaluate(b, k, c, now).value;
      && About(d, revision, c, now) && d in b'.decisions && b' == b.(decisions := b'.decisions)
      && (b'.decisions == b.decisions || b'.decisions == b.decisions + [d])
      && (d.allowed <==> Unopposed(b, k, revision, c, now)) && (d.allowed <==> d.reasons == [])
      && Lasts(d, b.revisions[revision].expiresAt, k.closes(now), now)
  {
    InForceExactly(b, now, revision);
    JudgedExactly(b, k, revision, c, now);
    JudgedAbout(b, k, revision, c, now);
    hide Judge, CurrentPolicy, Unopposed;
  }

  lemma JudgedAbout(b: Book, k: Calendar, revision: nat, c: Candidate, now: Time)
    requires revision < |b.revisions|
    ensures var d := Judge(b, k, revision, c, now);
      && About(d, revision, c, now) && (d.allowed <==> d.reasons == [])
      && Lasts(d, b.revisions[revision].expiresAt, k.closes(now), now)
  {
    hide Reasons;
  }

  /** Nothing is decided when a row is missing, when no policy is in force, or when an allowed decision is on record. */
  lemma UndecidedExactly(b: Book, k: Calendar, c: Candidate, now: Time)
    ensures Apply(k, b, Evaluated(c), now) != b ==>
      && c.entry.None? && b.revisions != [] && InForce(b, |b.revisions| - 1, now)
      && forall i :: 0 <= i < |b.decisions| && b.decisions[i].allowed ==> b.decisions[i].app != c.app
  {
    hide Judge;
    if b.revisions != [] { InForceExactly(b, now, |b.revisions| - 1); }
  }

  /** An application with an allowed decision is answered with it, unchanged, exactly under the policy it was made under, for the same
      revision and plan, while its profile and its artifacts stand; otherwise it is refused and nothing is written. */
  lemma RecordedExactlyWhenSame(b: Book, k: Calendar, c: Candidate, now: Time, revision: nat, i: nat)
    requires InForce(b, revision, now) && c.entry.None? && i < |b.decisions| && b.decisions[i].allowed && b.decisions[i].app == c.app
    requires forall j :: 0 <= j < |b.decisions| && b.decisions[j].allowed && b.decisions[j].app == c.app ==> j == i
    ensures var d := b.decisions[i];
      var same := d.revision == revision && d.appRevision == c.appRevision && d.planId == c.planId;
      Evaluate(b, k, c, now) ==
        if !same then Err("AUTOMATION_AUTHORITY_ALREADY_RESERVED")
        else if c.profileChanged then Err("PROFILE_VERSION_CHANGED")
        else if c.artifactsChanged then Err("FIT_QUALIFICATION_CHANGED")
        else Ok((b, d))
  {
    InForceExactly(b, now, revision);
    assert HasAllowed(b.decisions, c.app);
    hide Judge, CurrentPolicy;
  }

  // ---------- policies, stops and use ----------

  /** A policy takes force exactly when its terms are in range. It replaces the one before and lasts its days unless revoked. */
  lemma ActivationTakesForce(b: Book, l: Limits, days: int, scope: Option<Reason>, now: Time, later: Time)
    ensures var r := Activate(b, l, days, scope, now);
      && (r.Ok? <==> 1 <= days <= 30 && scope.None? && 1 <= l.hourly <= 5 && l.hourly <= l.daily <= 25 && 1 <= l.company <= 2)
      && (r.Ok? ==>
            var b' := r.value;
            && |b'.revisions| == |b.revisions| + 1 && b'.revisions[|b.revisions|].limits == l
            && b' == b.(revisions := b'.revisions)
            && (InForce(b', |b.revisions|, later) <==> later < now + days * 24 * 3600)
            && forall earlier: nat :: earlier < |b.revisions| ==> !InForce(b', earlier, later) && !b'.revisions[earlier].active)
  {
  }

  /** Revoking needs a policy and leaves none in force. */
  lemma RevocationEndsForce(b: Book, now: Time, revision: nat, later: Time)
    ensures Revoke(b, now).Ok? <==> b.revisions != [] && b.revisions[|b.revisions| - 1].active
    ensures Revoke(b, now).Ok? ==> !InForce(Revoke(b, now).value, revision, later) && Revoke(b, now).value.decisions == b.decisions
  {
  }

  // The command has been recorded with this content.
  ghost predicate RecordedAs(b: Book, active: bool, remote: bool, command: Option<string>) {
    exists i :: 0 <= i < |b.kills| && b.kills[i] == KillEvent(active, remote, command)
  }

  /** The switch is as it was last set: a new order takes effect at once, a repeated one changes nothing, and what is refused is a remote
      order that does not stop or has no command, and a command reused for another order. */
  lemma SwitchObeys(b: Book, active: bool, remote: bool, command: Option<string>)
    ensures var r := SetKillSwitch(b, active, remote, command);
      var seen := command.Some? && exists i :: 0 <= i < |b.kills| && b.kills[i].command == command;
      && (r.Ok? <==> (remote ==> active && command.Some?) && (seen ==> RecordedAs(b, active, remote, command)))
      && (r.Ok? && seen ==> r.value == b)
      && (r.Ok? && !seen ==>
            if command.None? && b.kills != [] && b.kills[|b.kills| - 1].active == active then r.value == b
            else r.value == b.(kills := b.kills + [KillEvent(active, remote, command)]) && (Running(r.value) <==> !active))
  {
  }

  /** A decision may be acted on exactly while it is allowed and unexpired, its policy is in force, nothing stops and it is active hours. */
  lemma UsableExactly(b: Book, k: Calendar, d: Decision, now: Time)
    ensures DecisionRefusal(b, k, d, now).None? <==>
            d.allowed && d.expiresAt.Some? && now < d.expiresAt.value && InForce(b, d.revision, now) && Running(b)
            && k.opens(now) <= now < k.closes(now)
  {
    InForceExactly(b, now, d.revision);
  }

  // ---------- runs ----------

  lemma {:induction false} RunSplits(k: Calendar, b: Book, h: History, n: nat)
    requires n < |h|
    ensures Run(k, b, h[..n + 1]) == Apply(k, Run(k, b, h[..n]), h[n].0, h[n].1)
    decreases n
  {
    hide Apply;
    if n == 0 {
      assert h[..1] == [h[0]] && h[..0] == [];
      assert Run(k, b, [h[0]]) == Run(k, Apply(k, b, h[0].0, h[0].1), [h[0]][1..]);
    } else {
      RunSplits(k, Apply(k, b, h[0].0, h[0].1), h[1..], n - 1);
      assert h[..n + 1][1..] == h[1..][..n] && h[..n][1..] == h[1..][..n - 1];
    }
  }

  // The event of the run that made decision number i, with the book it was made on.
  ghost predicate Made(k: Calendar, h: History, n: nat, i: nat) {
    && n < |h| && h[n].0.Evaluated?
    && var before, after := Run(k, EMPTY, h[..n]), Run(k, EMPTY, h[..n + 1]);
       |before.decisions| == i && |after.decisions| == i + 1
       && after.decisions[..i] == before.decisions
  }

  lemma StepAppends(k: Calendar, b: Book, e: Event, now: Time)
    ensures var b' := Apply(k, b, e, now);
      b'.decisions == b.decisions || (e.Evaluated? && |b'.decisions| == |b.decisions| + 1 && b'.decisions[..|b.decisions|] == b.decisions)
  {
    hide Judge, HasAllowed, CurrentPolicy;
  }

  // Every decision of a run was made by one of its events and has not changed since.
  lemma {:induction false} DecisionWasMade(k: Calendar, h: History, m: nat, i: nat) returns (n: nat)
    requires m <= |h| && i < |Run(k, EMPTY, h[..m]).decisions|
    ensures n < m && Made(k, h, n, i) && Run(k, EMPTY, h[..n + 1]).decisions[i] == Run(k, EMPTY, h[..m]).decisions[i]
    decreases m
  {
    hide Apply;
    assert h[..0] == [];
    if m > 0 {
      RunSplits(k, EMPTY, h, m - 1);
      var before := Run(k, EMPTY, h[..m - 1]);
      StepAppends(k, before, h[m - 1].0, h[m - 1].1);
      hide Run;
      if i < |before.decisions| {
        n := DecisionWasMade(k, h, m - 1, i);
      } else {
        n := m - 1;
      }
    }
  }

  /** Every allowed decision of any run was made by an evaluation that nothing stood against: the policy it names was in force, the last
      kill event did not stop, it was inside active hours, no gate objected, and all three windows had room. */
  lemma EveryAllowedDecisionWasUnopposed(k: Calendar, h: History, i: nat) returns (n: nat)
    requires i < |Run(k, EMPTY, h).decisions| && Run(k, EMPTY, h).decisions[i].allowed
    ensures Made(k, h, n, i)
    ensures var before, d := Run(k, EMPTY, h[..n]), Run(k, EMPTY, h).decisions[i];
      && About(d, d.revision, h[n].0.candidate, h[n].1)
      && InForce(before, d.revision, d.at) && Unopposed(before, k, d.revision, h[n].0.candidate, d.at)
  {
    assert h[..|h|] == h;
    n := DecisionWasMade(k, h, |h|, i);
    RunSplits(k, EMPTY, h, n);
    hide Run;
    MadeUnopposed(k, Run(k, EMPTY, h[..n]), h[n].0.candidate, h[n].1, i);
  }

  lemma MadeUnopposed(k: Calendar, b: Book, c: Candidate, now: Time, i: nat)
    requires var b' := Apply(k, b, Evaluated(c), now);
      |b.decisions| == i && |b'.decisions| == i + 1 && b'.decisions[i].allowed
    ensures var d := Apply(k, b, Evaluated(c), now).decisions[i];
      About(d, d.revision, c, now) && InForce(b, d.revision, now) && Unopposed(b, k, d.revision, c, now)
  {
    hide Evaluate, InForce, Unopposed, Lasts;
    UndecidedExactly(b, k, c, now);
    AllowedExactlyWhenUnopposed(b, k, c, now, |b.revisions| - 1);
    assert Apply(k, b, Evaluated(c), now) == Evaluate(b, k, c, now).value.0;
    hide Apply;
  }
}
