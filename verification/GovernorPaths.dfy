/** Single paths through the governor: what one undisturbed worker is told, the in-process fallback that must tell the same, and
    how late executions close the gap. */
module GovernorPaths {
  import opened Governor

  datatype Verdict = Verdict(allowed: bool, reason: string)

  const GRANT := Verdict(true, "reserved")
  const ALREADY := Verdict(true, "already reserved")

  // ---------- the shared path without interference ----------

  function SharedVerdict(c: Settings, store: Values, r: Request, now: Time): Verdict {
    if Get(store, KillKey) == 1 then Verdict(false, "kill switch active")
    else if now < Get(store, CooldownKey) then Verdict(false, "in challenge cooldown")
    else if Reserved(store, r.id, now) then ALREADY
    else if r.linkedin && Get(store, CountKey(Day(now))) >= c.cap then Verdict(false, "daily cap reached")
    else if r.linkedin && now < Get(store, NextKey) then Verdict(false, "min gap not elapsed")
    else GRANT
  }

  // How many readings are left before EXEC.
  function Rank(w: Worker): nat {
    match w
    case Watching(r, _, _, _, _, phase) =>
      (match phase
       case ReadKill => if r.linkedin then 10 else 4
       case ReadCooldown => if r.linkedin then 9 else 3
       case CheckCooldown(_) => if r.linkedin then 8 else 2
       case ReadReservation => if r.linkedin then 7 else 1
       case PickCountDay => 6
       case ReadCount(_) => 5
       case ReadNext(_) => 4
       case CheckGap(_, _) => 3
       case QueueCount(_) => 2
       case QueueStamp(_, _) => 1
       case Exec(_, _, _, _) => 0)
    case _ => 0
  }

  // The worker once it has nothing left to read.
  function Settle(c: Settings, store: Values, now: Time, w: Worker, gap: nat): Worker
    decreases Rank(w)
  {
    if w.Watching? && !w.phase.Exec? then Settle(c, store, now, Think(c, store, now, w, gap), gap) else w
  }

  function ExecPhase(r: Request, now: Time, gap: nat): Phase {
    if r.linkedin then Exec(Day(now), Day(now), now, gap) else Exec(0, 0, 0, 0)
  }

  lemma GapSettles(c: Settings, store: Values, now: Time, w: Worker, gap: nat)
    requires w.Watching? && w.phase.ReadNext?
    ensures Settle(c, store, now, w, gap) ==
            if now < Get(store, NextKey) then Answered(w.r, false, "min gap not elapsed")
            else w.(phase := Exec(w.phase.countDay, Day(now), now, gap))
  {
    var w1 := Think(c, store, now, w, gap);
    var w2 := Think(c, store, now, w1, gap);
    if w2.Watching? {
      var w3 := Think(c, store, now, w2, gap);
      var w4 := Think(c, store, now, w3, gap);
      assert Settle(c, store, now, w3, gap) == Settle(c, store, now, w4, gap) == w4;
      assert Settle(c, store, now, w2, gap) == w4;
    }
    assert Settle(c, store, now, w, gap) == Settle(c, store, now, w2, gap);
  }

  lemma LimitsSettle(c: Settings, store: Values, now: Time, w: Worker, gap: nat)
    requires w.Watching? && w.phase == PickCountDay
    ensures Settle(c, store, now, w, gap) ==
            if Get(store, CountKey(Day(now))) >= c.cap then Answered(w.r, false, "daily cap reached")
            else if now < Get(store, NextKey) then Answered(w.r, false, "min gap not elapsed")
            else w.(phase := Exec(Day(now), Day(now), now, gap))
  {
    var w1 := Think(c, store, now, w, gap);
    var w2 := Think(c, store, now, w1, gap);
    if w2.Watching? { GapSettles(c, store, now, w2, gap); }
    assert Settle(c, store, now, w, gap) == Settle(c, store, now, w2, gap);
  }

  lemma ReadingSettles(c: Settings, store: Values, now: Time, w: Worker, gap: nat)
    requires w.Watching? && w.phase == ReadKill
    ensures var v := SharedVerdict(c, store, w.r, now);
      Settle(c, store, now, w, gap) ==
        if v == GRANT then w.(phase := ExecPhase(w.r, now, gap)) else Answered(w.r, v.allowed, v.reason)
  {
    var w1 := Think(c, store, now, w, gap);
    if w1.Watching? {
      var w2 := Think(c, store, now, w1, gap);
      var w3 := Think(c, store, now, w2, gap);
      if w3.Watching? {
        var w4 := Think(c, store, now, w3, gap);
        if w4.Watching? && w4.phase.PickCountDay? { LimitsSettle(c, store, now, w4, gap); }
        assert Settle(c, store, now, w3, gap) == Settle(c, store, now, w4, gap);
      }
      assert Settle(c, store, now, w1, gap) == Settle(c, store, now, w3, gap);
    }
    assert Settle(c, store, now, w, gap) == Settle(c, store, now, w1, gap);
  }

  function Alone(i: WorkerId, gap: nat, n: nat): (events: seq<Event>)
    ensures |events| == n
  {
    seq(n, _ => Proceed(i, gap))
  }

  lemma AloneOnce(c: Settings, s: System, i: WorkerId, gap: nat, n: nat)
    ensures Run(c, s, Alone(i, gap, n + 1)) == Run(c, Apply(c, s, Proceed(i, gap)), Alone(i, gap, n))
  {
    assert Alone(i, gap, n + 1)[1..] == Alone(i, gap, n);
  }

  lemma {:induction false} AnsweredStays(c: Settings, s: System, i: WorkerId, gap: nat, n: nat)
    requires i in s.workers && s.workers[i].Answered?
    ensures Run(c, s, Alone(i, gap, n)) == s
  {
    if n > 0 {
      AloneOnce(c, s, i, gap, n - 1);
      AnsweredStays(c, s, i, gap, n - 1);
    }
  }

  // Reading alone changes the worker and nothing else.
  lemma {:induction false} ReadingAlone(c: Settings, s: System, i: WorkerId, w: Worker, gap: nat, n: nat)
    requires c.minGap <= gap <= c.maxGap && w.Watching? && Rank(w) <= n
    ensures var w' := Settle(c, s.store, s.clock, w, gap);
      Run(c, s.(workers := s.workers[i := w]), Alone(i, gap, n)) ==
        if w'.Watching? then Run(c, s.(workers := s.workers[i := w']), Alone(i, gap, n - Rank(w)))
        else s.(workers := s.workers[i := w'])
    decreases Rank(w)
  {
    var s0 := s.(workers := s.workers[i := w]);
    if !w.phase.Exec? {
      var w1 := Think(c, s.store, s.clock, w, gap);
      var s1 := s.(workers := s.workers[i := w1]);
      assert Apply(c, s0, Proceed(i, gap)) == s1;
      AloneOnce(c, s0, i, gap, n - 1);
      if w1.Watching? {
        SettlingTakesTime(c, s.store, s.clock, w, gap);
        ReadingAlone(c, s, i, w1, gap, n - 1);
      } else {
        AnsweredStays(c, s1, i, gap, n - 1);
      }
    }
  }

  lemma SettlingTakesTime(c: Settings, store: Values, now: Time, w: Worker, gap: nat)
    requires w.Watching? && !w.phase.Exec? && Think(c, store, now, w, gap).Watching?
    ensures Rank(Think(c, store, now, w, gap)) == Rank(w) - 1
  {
  }

  // The clock time, day and gap a lone worker would record.
  function LoneGrant(r: Request, now: Time, gap: nat): Granted {
    if r.linkedin then Granted(r, Day(now), now, gap, now) else Granted(r, 0, 0, 0, now)
  }

  /** A worker that nobody disturbs is told the verdict of the store it started from, and executes at most its own grant. */
  lemma UncontendedRun(c: Settings, s: System, i: WorkerId, r: Request, gap: nat)
    requires c.minGap <= gap <= c.maxGap && i !in s.workers
    ensures var v, s' := SharedVerdict(c, s.store, r, s.clock), Run(c, s, [Begin(i, r)] + Alone(i, gap, 12));
      && i in s'.workers && s'.workers[i] == Answered(r, v.allowed, v.reason)
      && s'.store == (if v == GRANT then GrantStore(s.store, LoneGrant(r, s.clock, gap)) else s.store)
      && s'.log == (s.log + if v == GRANT then [LoneGrant(r, s.clock, gap)] else [])
      && s'.clock == s.clock
  {
    var w0 := Starting(r, WatchList(r, s.clock), 0);
    var w := Watching(r, w0.watched, 0, s.clock, false, ReadKill);
    BegunAlone(c, s, i, r, gap, 11);
    ReadingSettles(c, s.store, s.clock, w, gap);
    ReadingAlone(c, s, i, w, gap, 11);
    var w' := Settle(c, s.store, s.clock, w, gap);
    if w'.Watching? { ExecutedAlone(c, s, i, w', gap, 11 - Rank(w)); }
  }

  lemma BegunAlone(c: Settings, s: System, i: WorkerId, r: Request, gap: nat, n: nat)
    requires c.minGap <= gap <= c.maxGap && i !in s.workers
    ensures Run(c, s, [Begin(i, r)] + Alone(i, gap, n + 1)) ==
            Run(c, s.(workers := s.workers[i := Watching(r, WatchList(r, s.clock), 0, s.clock, false, ReadKill)]), Alone(i, gap, n))
  {
    var s1 := Apply(c, s, Begin(i, r));
    assert ([Begin(i, r)] + Alone(i, gap, n + 1))[1..] == Alone(i, gap, n + 1);
    AloneOnce(c, s1, i, gap, n);
    var s2 := s.(workers := s.workers[i := Watching(r, WatchList(r, s.clock), 0, s.clock, false, ReadKill)]);
    assert Apply(c, s1, Proceed(i, gap)) == s2;
  }

  lemma ExecutedAlone(c: Settings, s: System, i: WorkerId, w: Worker, gap: nat, n: nat)
    requires c.minGap <= gap <= c.maxGap && n > 0
    requires w.Watching? && w.phase.Exec? && !w.dirty
    ensures var s0 := s.(workers := s.workers[i := w]); Run(c, s0, Alone(i, gap, n)) == Execute(s0, i, w)
  {
    var s0 := s.(workers := s.workers[i := w]);
    AloneOnce(c, s0, i, gap, n - 1);
    AnsweredStays(c, Execute(s0, i, w), i, gap, n - 1);
  }

  // ---------- the in-process fallback ----------

  function StopVerdict(values: Values, now: Time): Verdict {
    if Get(values, KillKey) == 1 then Verdict(false, "kill switch active")
    else if now < Get(values, CooldownKey) then Verdict(false, "in challenge cooldown")
    else Verdict(true, "ok")
  }

  // The fallback looks for the reservation first and never forgets one.
  function MemoryVerdict(c: Settings, values: Values, r: Request, now: Time): Verdict {
    var stop := StopVerdict(values, now);
    if Get(values, ReservationKey(r.id)) != 0 then (if stop.allowed then ALREADY else stop)
    else if !stop.allowed then stop
    else if r.linkedin && c.cap - Get(values, CountKey(Day(now))) <= 0 then Verdict(false, "daily cap reached")
    else if r.linkedin && now < Get(values, NextKey) then Verdict(false, "min gap not elapsed")
    else GRANT
  }

  function MemoryGrant(values: Values, r: Request, now: Time, gap: nat): Values {
    var reserved := values[ReservationKey(r.id) := 1];
    if r.linkedin then reserved[CountKey(Day(now)) := Get(values, CountKey(Day(now))) + 1][NextKey := now + gap] else reserved
  }

  function Entry(r: Request, withinHours: bool): Verdict {
    if r.id == "" || |r.id| > 128 then Verdict(false, "invalid reservation")
    else if !withinHours then Verdict(false, "outside active hours")
    else Verdict(true, "ok")
  }

  /** A reservation enters exactly with an identifier of one to a hundred and twenty-eight characters, inside active hours. */
  lemma EntersExactly(r: Request, withinHours: bool)
    ensures Entry(r, withinHours).allowed <==> 1 <= |r.id| <= 128 && withinHours
    ensures Entry(r, withinHours).reason == "invalid reservation" <==> !(1 <= |r.id| <= 128)
  {
  }

  class MemoryGovernor {
    const settings: Settings
    var values: Values

    constructor (settings: Settings)
      ensures this.settings == settings && values == map[]
    {
      this.settings := settings;
      values := map[];
    }

    method ReserveFinalAction(r: Request, withinHours: bool, now: Time, gap: nat) returns (allowed: bool, reason: string)
      modifies this
      ensures var entry := Entry(r, withinHours);
        var v := if entry.allowed then MemoryVerdict(settings, old(values), r, now) else entry;
        && Verdict(allowed, reason) == v
        && values == if v == GRANT then MemoryGrant(old(values), r, now, gap) else old(values)
    {
      var entry := Entry(r, withinHours);
      if !entry.allowed { return false, entry.reason; }
      if Get(values, ReservationKey(r.id)) != 0 {
        var stop := StopVerdict(values, now);
        if !stop.allowed { return false, stop.reason; }
        return true, "already reserved";
      }
      allowed, reason := ReservationPolicy(r, now);
      if !allowed { return; }
      values := values[ReservationKey(r.id) := 1];
      if r.linkedin {
        values := values[CountKey(Day(now)) := Get(values, CountKey(Day(now))) + 1];
        values := values[NextKey := now + gap];
      }
      reason := "reserved";
    }

    method ReservationPolicy(r: Request, now: Time) returns (allowed: bool, reason: string)
      ensures Get(values, ReservationKey(r.id)) == 0 ==>
                var v := MemoryVerdict(settings, values, r, now);
                allowed == v.allowed && reason == if v == GRANT then "ok" else v.reason
    {
      var stop := StopVerdict(values, now);
      if !stop.allowed { return false, stop.reason; }
      if r.linkedin {
        var remaining := settings.cap - Get(values, CountKey(Day(now)));
        if remaining <= 0 { return false, "daily cap reached"; }
        if now < Get(values, NextKey) { return false, "min gap not elapsed"; }
      }
      return true, "ok";
    }
  }

  // The two stores hold the same stops, counters and gap; the fallback remembers every reservation the shared one does.
  ghost predicate SameBudget(memory: Values, shared: Values, id: string, now: Time) {
    && (forall k: Key :: !k.ReservationKey? ==> Get(memory, k) == Get(shared, k))
    && (Reserved(shared, id, now) ==> Get(memory, ReservationKey(id)) != 0)
  }

  // A reservation the shared store has let expire, asked for again when a new one would be refused.
  predicate OnlyRemembered(c: Settings, memory: Values, shared: Values, r: Request, now: Time) {
    && Get(memory, ReservationKey(r.id)) != 0 && !Reserved(shared, r.id, now) && StopVerdict(shared, now).allowed
    && r.linkedin && (Get(shared, CountKey(Day(now))) >= c.cap || now < Get(shared, NextKey))
  }

  /** The locked fallback allows exactly what an uncontended worker is allowed, except for a lapsed reservation it still remembers. */
  lemma FallbackAgrees(c: Settings, s: System, i: WorkerId, r: Request, gap: nat, memory: Values)
    requires c.minGap <= gap <= c.maxGap && i !in s.workers && SameBudget(memory, s.store, r.id, s.clock)
    ensures var s' := Run(c, s, [Begin(i, r)] + Alone(i, gap, 12));
      var v := MemoryVerdict(c, memory, r, s.clock);
      && i in s'.workers && s'.workers[i].Answered?
      && (s'.workers[i].allowed == v.allowed <==> !OnlyRemembered(c, memory, s.store, r, s.clock))
      && (Get(memory, ReservationKey(r.id)) == 0 || Reserved(s.store, r.id, s.clock) ==>
            var memory' := if v == GRANT then MemoryGrant(memory, r, s.clock, gap) else memory;
            s'.workers[i].reason == v.reason && forall k: Key :: !k.ReservationKey? ==> Get(memory', k) == Get(s'.store, k))
  {
    UncontendedRun(c, s, i, r, gap);
    hide Run;
  }

  const ONE_A_DAY := Settings(1, 0, 0)
  const FIRST := Request("a", true)
  const SECOND := Request("b", true)

  // The fallback's store after granting the first request at once and the second a day later.
  function RememberedValues(): Values { MemoryGrant(MemoryGrant(map[], FIRST, 0, 0), SECOND, DAY, 0) }

  lemma RememberedByGrants()
    ensures MemoryVerdict(ONE_A_DAY, map[], FIRST, 0) == GRANT
    ensures MemoryVerdict(ONE_A_DAY, MemoryGrant(map[], FIRST, 0, 0), SECOND, DAY) == GRANT
    ensures MemoryVerdict(ONE_A_DAY, RememberedValues(), FIRST, DAY) == ALREADY
  {
  }

  // The same two requests through the shared store.
  lemma TwoDays() returns (events: seq<Event>)
    ensures var s := Run(ONE_A_DAY, Fresh(), events);
      && s.clock == DAY && 2 !in s.workers
      && s.store == GrantStore(GrantStore(map[], Granted(FIRST, 0, 0, 0, 0)), Granted(SECOND, 1, DAY, 0, DAY))
  {
    hide Run;
    var c := ONE_A_DAY;
    var first, wait, second := [Begin(0, FIRST)] + Alone(0, 0, 12), [Tick(DAY)], [Begin(1, SECOND)] + Alone(1, 0, 12);
    UncontendedRun(c, Fresh(), 0, FIRST, 0);
    var s1 := Run(c, Fresh(), first);
    assert s1.store == GrantStore(map[], Granted(FIRST, 0, 0, 0, 0));
    OnlyItsWorker(c, Fresh(), 0, FIRST, 0);
    WaitingRun(c, s1, DAY);
    var s2 := Run(c, s1, wait);
    assert SharedVerdict(c, s2.store, SECOND, DAY) == GRANT;
    UncontendedRun(c, s2, 1, SECOND, 0);
    OnlyItsWorker(c, s2, 1, SECOND, 0);
    RunsInTurn(c, Fresh(), first, wait);
    RunsInTurn(c, Fresh(), first + wait, second);
    events := first + wait + second;
  }

  lemma WaitingRun(c: Settings, s: System, n: nat)
    ensures Run(c, s, [Tick(n)]) == s.(clock := s.clock + n)
  {
    assert [Tick(n)][1..] == [];
  }

  // A lone worker adds no worker but itself.
  lemma {:induction false} OnlyItsWorker(c: Settings, s: System, i: WorkerId, r: Request, gap: nat)
    ensures Run(c, s, [Begin(i, r)] + Alone(i, gap, 12)).workers.Keys <= s.workers.Keys + {i}
  {
    var s1 := Apply(c, s, Begin(i, r));
    assert ([Begin(i, r)] + Alone(i, gap, 12))[1..] == Alone(i, gap, 12);
    AloneAddsNobody(c, s1, i, gap, 12);
  }

  lemma {:induction false} AloneAddsNobody(c: Settings, s: System, i: WorkerId, gap: nat, n: nat)
    ensures Run(c, s, Alone(i, gap, n)).workers.Keys <= s.workers.Keys + {i}
    decreases n
  {
    if n > 0 {
      AloneOnce(c, s, i, gap, n - 1);
      var s1 := Apply(c, s, Proceed(i, gap));
      assert s1.workers.Keys <= s.workers.Keys + {i};
      hide Apply;
      AloneAddsNobody(c, s1, i, gap, n - 1);
    }
  }

  /** One grant a day: the first request, asked for again a day later once another has used up that day, is still allowed by the
      fallback and refused to a worker of its own. */
  lemma FallbackRemembersTooLong() returns (events: seq<Event>)
    ensures var s := Run(ONE_A_DAY, Fresh(), events);
      var s' := Run(ONE_A_DAY, s, [Begin(2, FIRST)] + Alone(2, 0, 12));
      && SameBudget(RememberedValues(), s.store, FIRST.id, s.clock) && OnlyRemembered(ONE_A_DAY, RememberedValues(), s.store, FIRST, s.clock)
      && MemoryVerdict(ONE_A_DAY, RememberedValues(), FIRST, s.clock).allowed
      && 2 in s'.workers && s'.workers[2].Answered? && !s'.workers[2].allowed
  {
    hide Run;
    events := TwoDays();
    var s := Run(ONE_A_DAY, Fresh(), events);
    RememberedByGrants();
    RememberedBudget(s.store);
    FallbackAgrees(ONE_A_DAY, s, 2, FIRST, 0, RememberedValues());
  }

  lemma RememberedBudget(store: Values)
    requires store == GrantStore(GrantStore(map[], Granted(FIRST, 0, 0, 0, 0)), Granted(SECOND, 1, DAY, 0, DAY))
    ensures SameBudget(RememberedValues(), store, FIRST.id, DAY) && OnlyRemembered(ONE_A_DAY, RememberedValues(), store, FIRST, DAY)
  {
  }

  // ---------- how far apart the executions are ----------

  ghost predicate Prompt(log: seq<Granted>, delay: nat) {
    forall j :: 0 <= j < |log| && log[j].r.linkedin ==> log[j].at <= log[j].stamp + delay
  }

  ghost predicate Spaced(c: Settings, log: seq<Granted>) {
    forall i, j :: 0 <= i < j < |log| && log[i].r.linkedin && log[j].r.linkedin ==> log[j].at >= log[i].at + c.minGap
  }

  lemma PromptIsSpaced(c: Settings, events: seq<Event>)
    requires Prompt(Run(c, Fresh(), events).log, 0)
    ensures Spaced(c, Run(c, Fresh(), events).log)
  {
    var log := Run(c, Fresh(), events).log;
    forall i, j | 0 <= i < j < |log| && log[i].r.linkedin && log[j].r.linkedin ensures log[j].at >= log[i].at + c.minGap {
      ExecutionsKeepTheGapLessDelay(c, events, i, j);
    }
  }

  lemma {:induction false} RunsInTurn(c: Settings, s: System, first: seq<Event>, second: seq<Event>)
    ensures Run(c, s, first + second) == Run(c, Run(c, s, first), second)
    decreases |first|
  {
    if first == [] {
      assert first + second == second;
    } else {
      assert (first + second)[1..] == first[1..] + second;
      RunsInTurn(c, Apply(c, s, first[0]), first[1..], second);
    }
  }

  // The first worker stamps its gap at time zero and executes after a delay.
  lemma LateFirst(c: Settings, delay: nat) returns (events: seq<Event>)
    requires c.minGap <= c.maxGap && c.cap >= 1
    ensures var s := Run(c, Fresh(), events);
      && s.clock == delay && s.workers.Keys == {0} && s.log == [Granted(Request("a", true), 0, 0, c.minGap, delay)]
      && s.store == GrantStore(map[], s.log[0])
  {
    var r, g := Request("a", true), c.minGap;
    var s := Fresh();
    var w := Watching(r, WatchList(r, 0), 0, 0, false, ReadKill);
    BegunAlone(c, s, 0, r, g, 10);
    ReadingSettles(c, s.store, 0, w, g);
    ReadingAlone(c, s, 0, w, g, 10);
    var w' := w.(phase := Exec(0, 0, 0, g));
    var reading := [Begin(0, r)] + Alone(0, g, 11);
    var s1 := s.(workers := map[0 := w']);
    assert s.workers[0 := w'] == map[0 := w'];
    assert Run(c, s, reading) == s1;
    var late := [Tick(delay), Proceed(0, g)];
    RunsInTurn(c, s, reading, late);
    assert late[1..] == [Proceed(0, g)];
    var s2 := s1.(clock := delay);
    assert Run(c, s1, late) == Run(c, s2, [Proceed(0, g)]) == Apply(c, s2, Proceed(0, g));
    events := reading + late;
  }

  /** Every delay between stamp and EXEC comes off the next gap. */
  lemma LateExecutionClosesTheGap(c: Settings, delay: nat) returns (events: seq<Event>)
    requires delay <= c.minGap <= c.maxGap && c.cap >= 2
    ensures var log := Run(c, Fresh(), events).log;
      && |log| == 2 && log[0].r.linkedin && log[1].r.linkedin && log[0].at == log[0].stamp + delay && log[1].at == log[1].stamp
      && log[1].at - log[0].at == c.minGap - delay
  {
    var first := LateFirst(c, delay);
    var s := Run(c, Fresh(), first);
    var wait := [Tick(c.minGap - delay)];
    var s' := s.(clock := c.minGap);
    RunsInTurn(c, Fresh(), first, wait);
    assert wait[1..] == [];
    assert Run(c, s, wait) == s';
    var r := Request("b", true);
    UncontendedRun(c, s', 1, r, c.minGap);
    RunsInTurn(c, Fresh(), first + wait, [Begin(1, r)] + Alone(1, c.minGap, 12));
    events := first + wait + ([Begin(1, r)] + Alone(1, c.minGap, 12));
    assert SharedVerdict(c, s'.store, r, s'.clock) == GRANT;
  }

  /** With workers at most so late, executions are sure to be the minimum gap apart exactly when none is late at all. */
  lemma SpacedExactlyWhenPrompt(c: Settings, delay: nat)
    requires 1 <= c.minGap <= c.maxGap && c.cap >= 2
    ensures (forall events :: Prompt(Run(c, Fresh(), events).log, delay) ==> Spaced(c, Run(c, Fresh(), events).log)) <==> delay == 0
  {
    if delay == 0 {
      forall events | Prompt(Run(c, Fresh(), events).log, delay) ensures Spaced(c, Run(c, Fresh(), events).log) {
        PromptIsSpaced(c, events);
      }
    } else {
      var late := if delay <= c.minGap then delay else c.minGap;
      var events := LateExecutionClosesTheGap(c, late);
      var log := Run(c, Fresh(), events).log;
      hide Run;
      assert Prompt(log, delay);
      assert log[1].at < log[0].at + c.minGap;
      assert !Spaced(c, log);
    }
  }
}
