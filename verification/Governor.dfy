/** The shared rate governor: any number of workers reserve final actions through optimistic WATCH, read and EXEC steps
    while operators kill, resume and trip cooldowns in between. Every read of the clock and of a key is its own step. */
module Governor {
  type Time = nat
  type WorkerId = nat

  const DAY: nat := 86400
  const ATTEMPTS: nat := 5

  datatype Settings = Settings(cap: int, minGap: nat, maxGap: nat)

  datatype Key = ReservationKey(id: string) | KillKey | CooldownKey | CountKey(day: nat) | NextKey

  // A key holds a number, and an absent key reads as zero. A reservation holds the time its key expires.
  type Values = map<Key, nat>

  function Get(store: Values, k: Key): nat { if k in store then store[k] else 0 }

  function Day(t: Time): nat { t / DAY }

  predicate Reserved(store: Values, id: string, now: Time) { now < Get(store, ReservationKey(id)) }

  datatype Request = Request(id: string, linkedin: bool)

  // Where a worker is between WATCH and EXEC, with what it has read so far.
  datatype Phase =
    | ReadKill | ReadCooldown | CheckCooldown(until: nat) | ReadReservation
    | PickCountDay | ReadCount(countDay: nat) | ReadNext(countDay: nat) | CheckGap(countDay: nat, next: nat)
    | QueueCount(countDay: nat) | QueueStamp(countDay: nat, day: nat) | Exec(countDay: nat, day: nat, stamp: Time, gap: nat)

  datatype Worker =
    | Starting(r: Request, watched: set<Key>, tries: nat)
    | Watching(r: Request, watched: set<Key>, tries: nat, since: Time, dirty: bool, phase: Phase)
    | Answered(r: Request, allowed: bool, reason: string)

  // One executed reservation: the day it counts for, the time it stamped its gap from, and the time it executed.
  datatype Granted = Granted(r: Request, day: nat, stamp: Time, gap: nat, at: Time)

  datatype System = System(clock: Time, store: Values, workers: map<WorkerId, Worker>, log: seq<Granted>)

  datatype Event =
    | Tick(seconds: nat)
    | Begin(w: WorkerId, r: Request)
    | Proceed(w: WorkerId, gap: nat)
    | Abort(w: WorkerId)      // a watched key expired
    | Kill
    | Resume
    | Cool(until: nat)

  // The watched keys are listed once, before the first try, so the counter key is the one of that day.
  function WatchList(r: Request, now: Time): set<Key> {
    {ReservationKey(r.id), KillKey, CooldownKey} + if r.linkedin then {CountKey(Day(now)), NextKey} else {}
  }

  function Touch(w: Worker, keys: set<Key>): Worker {
    if w.Watching? && w.watched * keys != {} then w.(dirty := true) else w
  }

  function TouchAll(workers: map<WorkerId, Worker>, keys: set<Key>): map<WorkerId, Worker> {
    map w | w in workers :: Touch(workers[w], keys)
  }

  function Write(s: System, k: Key, v: nat): System {
    s.(store := s.store[k := v], workers := TouchAll(s.workers, {k}))
  }

  function GrantKeys(r: Request, day: nat): set<Key> {
    {ReservationKey(r.id)} + if r.linkedin then {CountKey(day), NextKey} else {}
  }

  function GrantStore(store: Values, g: Granted): Values {
    var reserved := store[ReservationKey(g.r.id) := g.at + DAY];
    if g.r.linkedin then reserved[CountKey(g.day) := Get(store, CountKey(g.day)) + 1][NextKey := g.stamp + g.gap] else reserved
  }

  // What a watching worker reads and decides next, short of executing.
  function Think(c: Settings, store: Values, now: Time, w: Worker, gap: nat): Worker
    requires w.Watching?
  {
    match w.phase
    case ReadKill => if Get(store, KillKey) == 1 then Answered(w.r, false, "kill switch active") else w.(phase := ReadCooldown)
    case ReadCooldown => w.(phase := CheckCooldown(Get(store, CooldownKey)))
    case CheckCooldown(until) => if now < until then Answered(w.r, false, "in challenge cooldown") else w.(phase := ReadReservation)
    case ReadReservation =>
      if Reserved(store, w.r.id, now) then Answered(w.r, true, "already reserved")
      else w.(phase := if w.r.linkedin then PickCountDay else Exec(0, 0, 0, 0))
    case PickCountDay => w.(phase := ReadCount(Day(now)))
    case ReadCount(d) =>
      if Get(store, CountKey(d)) >= c.cap then Answered(w.r, false, "daily cap reached") else w.(phase := ReadNext(d))
    case ReadNext(d) => w.(phase := CheckGap(d, Get(store, NextKey)))
    case CheckGap(d, next) => if now < next then Answered(w.r, false, "min gap not elapsed") else w.(phase := QueueCount(d))
    case QueueCount(d) => w.(phase := QueueStamp(d, Day(now)))
    case QueueStamp(d, day) => w.(phase := Exec(d, day, now, gap))
    case Exec(_, _, _, _) => w
  }

  function Execute(s: System, i: WorkerId, w: Worker): System
    requires w.Watching? && w.phase.Exec?
  {
    if w.dirty then
      s.(workers := s.workers[i := if w.tries + 1 == ATTEMPTS then Answered(w.r, false, "governor contention")
                                   else Starting(w.r, w.watched, w.tries + 1)])
    else
      var g := Granted(w.r, w.phase.day, w.phase.stamp, w.phase.gap, s.clock);
      s.(store := GrantStore(s.store, g), log := s.log + [g],
         workers := TouchAll(s.workers, GrantKeys(w.r, w.phase.day))[i := Answered(w.r, true, "reserved")])
  }

  function Apply(c: Settings, s: System, e: Event): System {
    match e
    case Tick(n) => s.(clock := s.clock + n)
    case Begin(i, r) => if i in s.workers then s else s.(workers := s.workers[i := Starting(r, WatchList(r, s.clock), 0)])
    case Abort(i) => if i in s.workers && s.workers[i].Watching? then s.(workers := s.workers[i := s.workers[i].(dirty := true)]) else s
    case Kill => Write(s, KillKey, 1)
    case Resume => Write(s, KillKey, 0)
    case Cool(until) => Write(s, CooldownKey, until)
    case Proceed(i, gap) =>
      if i !in s.workers || !(c.minGap <= gap <= c.maxGap) then s
      else
        match s.workers[i]
        case Answered(_, _, _) => s
        case Starting(r, watched, tries) => s.(workers := s.workers[i := Watching(r, watched, tries, s.clock, false, ReadKill)])
        case Watching(_, _, _, _, _, _) =>
          var w := s.workers[i];
          if w.phase.Exec? then Execute(s, i, w) else s.(workers := s.workers[i := Think(c, s.store, s.clock, w, gap)])
  }

  function Run(c: Settings, s: System, events: seq<Event>): System
    decreases |events|
  {
    if events == [] then s else Run(c, Apply(c, s, events[0]), events[1..])
  }

  function Fresh(): System { System(0, map[], map[], []) }

  // ---------- what every step keeps ----------

  function CountOn(log: seq<Granted>, day: nat): nat {
    if log == [] then 0
    else CountOn(log[..|log| - 1], day) + if log[|log| - 1].r.linkedin && log[|log| - 1].day == day then 1 else 0
  }

  ghost predicate CountsOk(c: Settings, now: Time, store: Values, log: seq<Granted>) {
    && (forall d: nat :: Get(store, CountKey(d)) == CountOn(log, d))
    && (forall d: nat :: Get(store, CountKey(d)) > 0 ==> d <= Day(now) && Get(store, CountKey(d)) <= c.cap)
  }

  ghost predicate GapsOk(c: Settings, now: Time, store: Values, log: seq<Granted>) {
    && (forall j :: 0 <= j < |log| ==> log[j].stamp <= log[j].at <= now)
    && (forall j :: 0 <= j < |log| && log[j].r.linkedin ==> log[j].stamp + log[j].gap <= Get(store, NextKey) && c.minGap <= log[j].gap)
    && (forall i, j :: 0 <= i < j < |log| && log[i].r.linkedin && log[j].r.linkedin ==> log[i].stamp + log[i].gap <= log[j].stamp)
  }

  ghost predicate ReservationsOk(store: Values, log: seq<Granted>) {
    && (forall j :: 0 <= j < |log| ==> log[j].at + DAY <= Get(store, ReservationKey(log[j].r.id)))
    && (forall i, j :: 0 <= i < j < |log| && log[i].r.id == log[j].r.id ==> log[i].at + DAY <= log[j].at)
    && (forall id: string :: Get(store, ReservationKey(id)) > 0 ==> exists j :: 0 <= j < |log| && log[j].r.id == id)
  }

  // What an undisturbed worker may rely on at each point of its reading.
  ghost predicate PassedKill(store: Values) { Get(store, KillKey) != 1 }

  ghost predicate PassedStops(store: Values, now: Time) { PassedKill(store) && Get(store, CooldownKey) <= now }

  ghost predicate PassedReservation(store: Values, now: Time, r: Request) {
    PassedStops(store, now) && Get(store, ReservationKey(r.id)) <= now
  }

  ghost predicate PassedCount(c: Settings, store: Values, now: Time, w: Worker, d: nat)
    requires w.Watching?
  {
    && PassedReservation(store, now, w.r) && w.r.linkedin && Day(w.since) <= d <= Day(now) && Get(store, CountKey(d)) < c.cap
  }

  ghost predicate PhaseOk(c: Settings, store: Values, now: Time, w: Worker)
    requires w.Watching?
  {
    match w.phase
    case ReadKill => true
    case ReadCooldown => PassedKill(store)
    case CheckCooldown(until) => PassedKill(store) && until == Get(store, CooldownKey)
    case ReadReservation => PassedStops(store, now)
    case PickCountDay => PassedReservation(store, now, w.r) && w.r.linkedin
    case ReadCount(d) => PassedReservation(store, now, w.r) && w.r.linkedin && Day(w.since) <= d <= Day(now)
    case ReadNext(d) => PassedCount(c, store, now, w, d)
    case CheckGap(d, next) => PassedCount(c, store, now, w, d) && next == Get(store, NextKey)
    case QueueCount(d) => PassedCount(c, store, now, w, d) && Get(store, NextKey) <= now
    case QueueStamp(d, day) => PassedCount(c, store, now, w, d) && Get(store, NextKey) <= now && d <= day <= Day(now)
    case Exec(d, day, stamp, gap) =>
      if w.r.linkedin
      then PassedCount(c, store, now, w, d) && Get(store, NextKey) <= stamp <= now && d <= day <= Day(now) && c.minGap <= gap
      else PassedReservation(store, now, w.r) && stamp == 0
  }

  // Nobody has been counted for a day that had not begun when the worker started watching.
  ghost predicate FutureIsEmpty(store: Values, since: Time) {
    forall d: nat :: d > Day(since) ==> Get(store, CountKey(d)) == 0
  }

  ghost predicate WatchesEnough(r: Request, watched: set<Key>) {
    ReservationKey(r.id) in watched && KillKey in watched && CooldownKey in watched && (r.linkedin ==> NextKey in watched)
  }

  ghost predicate AnswerOk(log: seq<Granted>, w: Worker)
    requires w.Answered?
  {
    w.allowed ==> exists j :: 0 <= j < |log| && log[j].r.id == w.r.id
  }

  ghost predicate WorkerOk(c: Settings, s: System, w: Worker) {
    match w
    case Starting(r, watched, tries) => WatchesEnough(r, watched) && tries < ATTEMPTS
    case Answered(_, _, _) => AnswerOk(s.log, w)
    case Watching(r, watched, tries, since, dirty, _) =>
      && WatchesEnough(r, watched) && tries < ATTEMPTS && since <= s.clock
      && (!dirty ==> PhaseOk(c, s.store, s.clock, w) && (r.linkedin ==> FutureIsEmpty(s.store, since)))
  }

  ghost predicate StoreOk(c: Settings, s: System) {
    CountsOk(c, s.clock, s.store, s.log) && GapsOk(c, s.clock, s.store, s.log) && ReservationsOk(s.store, s.log)
  }

  ghost predicate Inv(c: Settings, s: System) {
    StoreOk(c, s) && forall i :: i in s.workers ==> WorkerOk(c, s, s.workers[i])
  }

  // ---------- time and other writers ----------

  lemma DaysGoForward(t: Time, u: Time)
    requires t <= u
    ensures Day(t) <= Day(u)
  {
  }

  lemma WorkerOutlivesTime(c: Settings, s: System, n: nat, w: Worker)
    requires WorkerOk(c, s, w)
    ensures WorkerOk(c, s.(clock := s.clock + n), w)
  {
    DaysGoForward(s.clock, s.clock + n);
  }

  lemma TickKeeps(c: Settings, s: System, n: nat)
    requires Inv(c, s)
    ensures Inv(c, s.(clock := s.clock + n))
  {
    DaysGoForward(s.clock, s.clock + n);
    var s' := s.(clock := s.clock + n);
    forall i | i in s'.workers ensures WorkerOk(c, s', s'.workers[i]) { WorkerOutlivesTime(c, s, n, s.workers[i]); }
    hide WorkerOk;
  }

  // Two stores that agree everywhere except on the written keys.
  ghost predicate SameExcept(store: Values, store': Values, keys: set<Key>) {
    forall k :: k !in keys ==> Get(store', k) == Get(store, k)
  }

  lemma Apart(watched: set<Key>, keys: set<Key>)
    requires watched * keys == {}
    ensures forall k :: k in watched ==> k !in keys
  {
    assert forall k :: k in watched && k in keys ==> k in watched * keys;
  }

  // A worker whose watched keys were not written still sees what it saw.
  lemma UntouchedWorkerKeeps(c: Settings, s: System, s': System, keys: set<Key>, w: Worker)
    requires WorkerOk(c, s, w) && s'.clock == s.clock && SameExcept(s.store, s'.store, keys)
    requires s'.log == s.log || (|s.log| < |s'.log| && s'.log[..|s.log|] == s.log)
    requires (forall d: nat :: CountKey(d) !in keys) || NextKey in keys
    ensures WorkerOk(c, s', Touch(w, keys))
  {
    if w.Watching? && !Touch(w, keys).dirty {
      assert w.watched * keys == {};
      Apart(w.watched, keys);
      if w.r.linkedin {
        assert NextKey !in keys;
        assert forall d: nat :: Get(s'.store, CountKey(d)) == Get(s.store, CountKey(d));
      }
    } else if w.Answered? && w.allowed {
      var j :| 0 <= j < |s.log| && s.log[j].r.id == w.r.id;
      assert s'.log[j] == s'.log[..|s.log|][j];
    }
  }

  lemma WriteKeeps(c: Settings, s: System, k: Key, v: nat)
    requires Inv(c, s) && (k == KillKey || k == CooldownKey)
    ensures Inv(c, Write(s, k, v))
  {
    var s' := Write(s, k, v);
    assert SameExcept(s.store, s'.store, {k});
    StopsAreNotCounted(c, s.clock, s.store, s'.store, s.log);
    hide StoreOk, CountsOk, GapsOk, ReservationsOk;
    forall i | i in s'.workers ensures WorkerOk(c, s', s'.workers[i]) {
      hide SameExcept, WorkerOk;
      UntouchedWorkerKeeps(c, s, s', {k}, s.workers[i]);
    }
    hide WorkerOk;
  }

  lemma StopsAreNotCounted(c: Settings, now: Time, store: Values, store': Values, log: seq<Granted>)
    requires SameExcept(store, store', {KillKey, CooldownKey})
    requires CountsOk(c, now, store, log) && GapsOk(c, now, store, log) && ReservationsOk(store, log)
    ensures CountsOk(c, now, store', log) && GapsOk(c, now, store', log) && ReservationsOk(store', log)
  {
    assert forall d: nat :: Get(store', CountKey(d)) == Get(store, CountKey(d));
    assert forall id: string :: Get(store', ReservationKey(id)) == Get(store, ReservationKey(id));
    assert Get(store', NextKey) == Get(store, NextKey);
    hide Get;
  }

  // ---------- a worker's own steps ----------

  // Replacing one worker by one that is in order leaves the rest of the system alone.
  lemma ReplacingKeeps(c: Settings, s: System, i: WorkerId, w: Worker)
    requires Inv(c, s) && WorkerOk(c, s, w)
    ensures Inv(c, s.(workers := s.workers[i := w]))
  {
    var s' := s.(workers := s.workers[i := w]);
    forall k | k in s'.workers ensures WorkerOk(c, s', s'.workers[k]) {
      SameSurroundings(c, s, s', if k == i then w else s.workers[k]);
    }
    hide WorkerOk;
  }

  lemma SameSurroundings(c: Settings, s: System, s': System, w: Worker)
    requires WorkerOk(c, s, w) && s'.clock == s.clock && s'.store == s.store && s'.log == s.log
    ensures WorkerOk(c, s', w)
  {
  }

  lemma ThinkKeeps(c: Settings, s: System, w: Worker, gap: nat)
    requires StoreOk(c, s) && WorkerOk(c, s, w) && w.Watching? && !w.phase.Exec? && c.minGap <= gap
    ensures WorkerOk(c, s, Think(c, s.store, s.clock, w, gap))
  {
    hide CountsOk, GapsOk;
    DaysGoForward(w.since, s.clock);
    if w.phase.ReadReservation? && Reserved(s.store, w.r.id, s.clock) {
      assert Get(s.store, ReservationKey(w.r.id)) > 0;
    }
  }

  lemma StartWatching(c: Settings, s: System, w: Worker)
    requires StoreOk(c, s) && WorkerOk(c, s, w) && w.Starting?
    ensures WorkerOk(c, s, Watching(w.r, w.watched, w.tries, s.clock, false, ReadKill))
  {
  }

  // ---------- executing ----------

  ghost predicate MayGrant(c: Settings, s: System, g: Granted) {
    && PassedReservation(s.store, s.clock, g.r) && g.at == s.clock && g.stamp <= s.clock
    && (g.r.linkedin ==>
          g.day <= Day(s.clock) && Get(s.store, CountKey(g.day)) < c.cap && Get(s.store, NextKey) <= g.stamp && c.minGap <= g.gap)
  }

  /** An undisturbed worker that reaches EXEC may be granted, even if midnight passed while it was reading. */
  lemma ReadyToGrant(c: Settings, s: System, w: Worker)
    requires WorkerOk(c, s, w) && w.Watching? && w.phase.Exec? && !w.dirty
    ensures MayGrant(c, s, Granted(w.r, w.phase.day, w.phase.stamp, w.phase.gap, s.clock))
  {
    if w.r.linkedin && w.phase.day != w.phase.countDay {
      assert Get(s.store, CountKey(w.phase.day)) == 0;
    }
  }

  lemma GrantChanges(store: Values, g: Granted)
    ensures SameExcept(store, GrantStore(store, g), GrantKeys(g.r, g.day))
    ensures Get(GrantStore(store, g), ReservationKey(g.r.id)) == g.at + DAY
    ensures g.r.linkedin ==> Get(GrantStore(store, g), CountKey(g.day)) == Get(store, CountKey(g.day)) + 1
                             && Get(GrantStore(store, g), NextKey) == g.stamp + g.gap
  {
  }

  lemma GrantKeepsCounts(c: Settings, s: System, g: Granted)
    requires CountsOk(c, s.clock, s.store, s.log) && MayGrant(c, s, g)
    ensures CountsOk(c, s.clock, GrantStore(s.store, g), s.log + [g])
  {
    GrantChanges(s.store, g);
    var store', log' := GrantStore(s.store, g), s.log + [g];
    assert log'[..|log'| - 1] == s.log;
    forall d: nat
      ensures Get(store', CountKey(d)) == Get(s.store, CountKey(d)) + if g.r.linkedin && g.day == d then 1 else 0
    {
    }
    hide GrantStore;
  }

  lemma GrantKeepsGaps(c: Settings, s: System, g: Granted)
    requires GapsOk(c, s.clock, s.store, s.log) && MayGrant(c, s, g)
    ensures GapsOk(c, s.clock, GrantStore(s.store, g), s.log + [g])
  {
    GrantChanges(s.store, g);
    var store', log' := GrantStore(s.store, g), s.log + [g];
    assert Get(store', NextKey) == if g.r.linkedin then g.stamp + g.gap else Get(s.store, NextKey);
    hide GrantStore;
  }

  lemma GrantKeepsReservations(c: Settings, s: System, g: Granted)
    requires ReservationsOk(s.store, s.log) && MayGrant(c, s, g)
    ensures ReservationsOk(GrantStore(s.store, g), s.log + [g])
  {
    GrantChanges(s.store, g);
    var store', log' := GrantStore(s.store, g), s.log + [g];
    assert forall id: string ::
        Get(store', ReservationKey(id)) == if id == g.r.id then g.at + DAY else Get(s.store, ReservationKey(id));
    hide GrantStore;
    forall id: string | Get(store', ReservationKey(id)) > 0 ensures exists j :: 0 <= j < |log'| && log'[j].r.id == id {
      if id == g.r.id {
        assert log'[|s.log|].r.id == id;
      } else {
        var j :| 0 <= j < |s.log| && s.log[j].r.id == id;
        assert log'[j].r.id == id;
      }
    }
  }

  lemma GrantKeeps(c: Settings, s: System, i: WorkerId, w: Worker)
    requires Inv(c, s) && i in s.workers && s.workers[i] == w && w.Watching? && w.phase.Exec? && !w.dirty
    ensures Inv(c, Execute(s, i, w))
  {
    hide CountsOk, GapsOk, ReservationsOk;
    var g := Granted(w.r, w.phase.day, w.phase.stamp, w.phase.gap, s.clock);
    var keys := GrantKeys(w.r, w.phase.day);
    var s' := Execute(s, i, w);
    ReadyToGrant(c, s, w);
    GrantKeepsCounts(c, s, g);
    GrantKeepsGaps(c, s, g);
    GrantKeepsReservations(c, s, g);
    GrantChanges(s.store, g);
    forall k | k in s'.workers ensures WorkerOk(c, s', s'.workers[k]) {
      if k == i {
        assert s'.log[|s.log|].r.id == w.r.id;
      } else {
        UntouchedWorkerKeeps(c, s, s', keys, s.workers[k]);
      }
    }
  }

  lemma ProceedKeeps(c: Settings, s: System, i: WorkerId, gap: nat)
    requires Inv(c, s)
    ensures Inv(c, Apply(c, s, Proceed(i, gap)))
  {
    if i in s.workers && c.minGap <= gap <= c.maxGap {
      var w := s.workers[i];
      assert WorkerOk(c, s, w);
      if w.Starting? {
        StartWatching(c, s, w);
        hide Inv, WorkerOk;
        ReplacingKeeps(c, s, i, Watching(w.r, w.watched, w.tries, s.clock, false, ReadKill));
      } else if w.Watching? && !w.phase.Exec? {
        ThinkKeeps(c, s, w, gap);
        hide Inv, WorkerOk, Think;
        ReplacingKeeps(c, s, i, Think(c, s.store, s.clock, w, gap));
      } else if w.Watching? && w.dirty {
        var w' := if w.tries + 1 == ATTEMPTS then Answered(w.r, false, "governor contention") else Starting(w.r, w.watched, w.tries + 1);
        assert WorkerOk(c, s, w');
        hide Inv, WorkerOk;
        ReplacingKeeps(c, s, i, w');
      } else if w.Watching? {
        GrantKeeps(c, s, i, w);
        hide Inv, WorkerOk, Execute;
      }
    }
  }

  lemma StepKeeps(c: Settings, s: System, e: Event)
    requires Inv(c, s)
    ensures Inv(c, Apply(c, s, e))
  {
    hide StoreOk;
    match e
    case Tick(n) => TickKeeps(c, s, n);
    case Begin(i, r) =>
      if i !in s.workers { ReplacingKeeps(c, s, i, Starting(r, WatchList(r, s.clock), 0)); }
    case Abort(i) =>
      if i in s.workers && s.workers[i].Watching? {
        assert WorkerOk(c, s, s.workers[i]);
        ReplacingKeeps(c, s, i, s.workers[i].(dirty := true));
      }
    case Kill => WriteKeeps(c, s, KillKey, 1);
    case Resume => WriteKeeps(c, s, KillKey, 0);
    case Cool(until) => WriteKeeps(c, s, CooldownKey, until);
    case Proceed(i, gap) => ProceedKeeps(c, s, i, gap);
  }

  lemma {:induction false} RunKeeps(c: Settings, s: System, events: seq<Event>)
    requires Inv(c, s)
    ensures Inv(c, Run(c, s, events))
    decreases |events|
  {
    if events != [] {
      StepKeeps(c, s, events[0]);
      RunKeeps(c, Apply(c, s, events[0]), events[1..]);
    }
  }

  lemma FreshIsOk(c: Settings)
    ensures Inv(c, Fresh())
  {
  }

  // ---------- main results ----------

  /** However the workers interleave, no day is counted past the cap and the counter is exactly the number of grants. */
  lemma DailyCapHolds(c: Settings, events: seq<Event>, day: nat)
    ensures var s := Run(c, Fresh(), events);
      && Get(s.store, CountKey(day)) == CountOn(s.log, day)
      && (CountOn(s.log, day) == 0 || CountOn(s.log, day) <= c.cap)
  {
    FreshIsOk(c);
    RunKeeps(c, Fresh(), events);
    hide Run;
  }

  /** Consecutive LinkedIn grants stamp their gaps at least the minimum apart. */
  lemma StampsKeepTheGap(c: Settings, events: seq<Event>, i: nat, j: nat)
    requires var log := Run(c, Fresh(), events).log; i < j < |log| && log[i].r.linkedin && log[j].r.linkedin
    ensures var log := Run(c, Fresh(), events).log; log[j].stamp >= log[i].stamp + c.minGap
  {
    FreshIsOk(c);
    RunKeeps(c, Fresh(), events);
    hide Run;
  }

  /** The executions themselves are apart by the minimum gap less the time the earlier one spent between its stamp and EXEC. */
  lemma ExecutionsKeepTheGapLessDelay(c: Settings, events: seq<Event>, i: nat, j: nat)
    requires var log := Run(c, Fresh(), events).log; i < j < |log| && log[i].r.linkedin && log[j].r.linkedin
    ensures var log := Run(c, Fresh(), events).log; log[j].at - log[i].at >= c.minGap - (log[i].at - log[i].stamp)
  {
    FreshIsOk(c);
    RunKeeps(c, Fresh(), events);
    hide Run;
  }

  /** While a reservation lives, which is twenty-four hours, its identifier is not granted again. */
  lemma LiveReservationCountsOnce(c: Settings, events: seq<Event>, i: nat, j: nat)
    requires var log := Run(c, Fresh(), events).log; i < j < |log| && log[i].r.id == log[j].r.id
    ensures var log := Run(c, Fresh(), events).log; log[j].at >= log[i].at + 24 * 3600
  {
    FreshIsOk(c);
    RunKeeps(c, Fresh(), events);
    hide Run;
  }

  /** Whatever an allowed worker was told, a grant of its reservation executed. */
  lemma AllowedMeansGranted(c: Settings, events: seq<Event>, w: WorkerId)
    requires var s := Run(c, Fresh(), events); w in s.workers && s.workers[w].Answered? && s.workers[w].allowed
    ensures var s := Run(c, Fresh(), events); exists j :: 0 <= j < |s.log| && s.log[j].r.id == s.workers[w].r.id
  {
    FreshIsOk(c);
    RunKeeps(c, Fresh(), events);
    var s := Run(c, Fresh(), events);
    hide Run;
    assert WorkerOk(c, s, s.workers[w]);
  }

  /** No grant executes while the kill switch is on or the cooldown lasts. */
  lemma StopsPreventGrants(c: Settings, events: seq<Event>, e: Event)
    ensures var s := Run(c, Fresh(), events);
      |Apply(c, s, e).log| > |s.log| ==> Get(s.store, KillKey) != 1 && Get(s.store, CooldownKey) <= s.clock
  {
    FreshIsOk(c);
    RunKeeps(c, Fresh(), events);
    var s := Run(c, Fresh(), events);
    hide Run;
    if |Apply(c, s, e).log| > |s.log| {
      var w := s.workers[e.w];
      assert WorkerOk(c, s, w);
      ReadyToGrant(c, s, w);
    }
  }

  /** A worker whose watched keys were touched executes nothing: it starts over, and gives up after its fifth try. */
  lemma TouchedWorkersStartOver(c: Settings, s: System, i: WorkerId, gap: nat)
    requires i in s.workers && s.workers[i].Watching? && s.workers[i].phase.Exec? && s.workers[i].dirty && c.minGap <= gap <= c.maxGap
    ensures var w, s' := s.workers[i], Apply(c, s, Proceed(i, gap));
      && s' == s.(workers := s'.workers) && i in s'.workers && s'.workers == s.workers[i := s'.workers[i]]
      && s'.workers[i] == if w.tries == 4 then Answered(w.r, false, "governor contention") else Starting(w.r, w.watched, w.tries + 1)
  {
  }
}
