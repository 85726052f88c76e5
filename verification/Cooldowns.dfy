/** Challenge cooldowns: any number of trips, each of which reads the trip counter, writes it, reads the clock and writes the
    cooldown, with every one of those a step that others may come between. */
module Cooldowns {
  type Time = nat
  type TripId = nat

  const HOUR: nat := 3600
  const WINDOW: nat := 168 * HOUR

  // How long a serialized trip may stall between counting itself and reading the clock.
  const PATIENCE: nat := 126 * HOUR

  function Power(n: nat): (p: nat)
    ensures p >= 1
  {
    if n == 0 then 1 else 2 * Power(n - 1)
  }

  function Hours(trips: nat): (h: nat)
    ensures 6 <= h <= 48
  {
    if 6 * Power(trips) < 48 then 6 * Power(trips) else 48
  }

  /** The cooldown doubles with every counted trip: six, twelve, twenty-four hours, and forty-eight from the third on. */
  lemma HoursDouble(trips: nat)
    ensures Hours(trips) == if trips == 0 then 6 else if trips == 1 then 12 else if trips == 2 then 24 else 48
    ensures forall look: Time :: Until(trips, look) == look + Hours(trips) * 3600
  {
    assert Power(0) == 1 && Power(1) == 2 && Power(2) == 4;
    if trips >= 3 { assert Power(trips) == 2 * Power(trips - 1) && Power(trips - 1) == 2 * Power(trips - 2) && Power(trips - 2) == 2 * Power(trips - 3); }
  }

  // A trip under way: what it counted, when it stored the counter, when it read the clock.
  datatype Trip =
    | Counted(count: nat)
    | Stored(count: nat, at: Time)
    | Looked(count: nat, at: Time, look: Time)

  // A finished trip, as it wrote the cooldown.
  datatype Written = Written(count: nat, at: Time, look: Time)

  // The counter key expires; the cooldown key does not. An absent key reads as zero.
  datatype State = State(clock: Time, counter: nat, counterEnds: Time, until: Time, trips: map<TripId, Trip>, log: seq<Written>)

  datatype Event = Tick(seconds: nat) | Count(i: TripId) | Store(i: TripId) | Look(i: TripId) | Set(i: TripId)

  function Until(count: nat, look: Time): Time { look + Hours(count) * HOUR }

  function ReadCounter(s: State): nat { if s.clock < s.counterEnds then s.counter else 0 }

  function Apply(s: State, e: Event): State {
    match e
    case Tick(n) => s.(clock := s.clock + n)
    case Count(i) => if i in s.trips then s else s.(trips := s.trips[i := Counted(ReadCounter(s))])
    case Store(i) =>
      if i !in s.trips || !s.trips[i].Counted? then s
      else s.(counter := s.trips[i].count + 1, counterEnds := s.clock + WINDOW, trips := s.trips[i := Stored(s.trips[i].count, s.clock)])
    case Look(i) =>
      if i !in s.trips || !s.trips[i].Stored? then s
      else s.(trips := s.trips[i := Looked(s.trips[i].count, s.trips[i].at, s.clock)])
    case Set(i) =>
      if i !in s.trips || !s.trips[i].Looked? then s
      else
        var t := s.trips[i];
        s.(until := Until(t.count, t.look), trips := s.trips - {i}, log := s.log + [Written(t.count, t.at, t.look)])
  }

  function Run(s: State, events: seq<Event>): State
    decreases |events|
  {
    if events == [] then s else Run(Apply(s, events[0]), events[1..])
  }

  const FRESH := State(0, 0, 0, 0, map[], [])

  // No step of the run moves the end of the cooldown earlier.
  ghost predicate NeverShortens(s: State, events: seq<Event>)
    decreases |events|
  {
    events == [] || (Apply(s, events[0]).until >= s.until && NeverShortens(Apply(s, events[0]), events[1..]))
  }

  // ---------- the challenge handler on its own ----------

  class ChallengeStore {
    var counter: nat
    var counterEnds: Time
    var until: Time
    var clock: Time

    constructor ()
      ensures counter == counterEnds == until == clock == 0
    {
      counter, counterEnds, until, clock := 0, 0, 0, 0;
    }

    // One trip that nothing comes between, with the time it takes after counting itself.
    method TripCooldown(stall: nat) returns (hours: nat)
      modifies this
      ensures var s := State(old(clock), old(counter), old(counterEnds), old(until), map[], []);
        var s' := Run(s, Alone(0, stall));
        clock == s'.clock && counter == s'.counter && counterEnds == s'.counterEnds && until == s'.until
      ensures hours == Hours(if old(clock) < old(counterEnds) then old(counter) else 0)
    {
      ghost var s := State(clock, counter, counterEnds, until, map[], []);
      var trips := if clock < counterEnds then counter else 0;
      hours := Hours(trips);
      counter := trips + 1;
      counterEnds := clock + WINDOW;
      clock := clock + stall;
      until := clock + hours * HOUR;
      TripAlone(s, 0, stall, 1, stall);
    }
  }

  // ---------- when one write shortens the cooldown ----------

  ghost predicate Recorded(s: State) {
    && s.until == (if s.log == [] then 0 else Until(s.log[|s.log| - 1].count, s.log[|s.log| - 1].look))
    && (s.log != [] ==> s.log[|s.log| - 1].look <= s.clock)
    && (forall i :: i in s.trips && s.trips[i].Looked? ==> s.trips[i].look <= s.clock)
  }

  lemma {:induction false} RunsAreRecorded(s: State, events: seq<Event>)
    requires Recorded(s)
    ensures Recorded(Run(s, events))
    decreases |events|
  {
    if events != [] {
      assert Recorded(Apply(s, events[0]));
      RunsAreRecorded(Apply(s, events[0]), events[1..]);
    }
  }

  /** In every run, whatever interleaves, a write shortens the cooldown if and only if its clock reading follows the previous
      writer's by less than the hours it counted fall short of the previous writer's. */
  lemma WriteShortensExactly(events: seq<Event>, i: TripId)
    requires var s := Run(FRESH, events); i in s.trips && s.trips[i].Looked?
    ensures var s := Run(FRESH, events);
      Apply(s, Set(i)).until < s.until <==>
        s.log != [] && var last, t := s.log[|s.log| - 1], s.trips[i]; t.look - last.look < (Hours(last.count) - Hours(t.count)) * HOUR
  {
    RunsAreRecorded(FRESH, events);
    hide Run;
  }

  /** What a trip counted is harmless, however soon after the previous writer it reads the clock, if and only if it stands for
      at least as many hours. */
  lemma HarmlessCount(events: seq<Event>, count: nat)
    requires Run(FRESH, events).log != []
    ensures var s := Run(FRESH, events);
      var last := s.log[|s.log| - 1];
      (forall look: Time :: last.look <= look ==> Until(count, look) >= s.until) <==> Hours(count) >= Hours(last.count)
  {
    RunsAreRecorded(FRESH, events);
    var s := Run(FRESH, events);
    var last := s.log[|s.log| - 1];
    hide Run;
    if Hours(count) < Hours(last.count) {
      assert Until(count, last.look) < s.until;
    }
  }

  // ---------- which runs never shorten it ----------

  // At most so many trips are under way, and none stalls longer than that between storing the counter and reading the clock.
  ghost predicate StateWithin(s: State, k: nat, stall: nat) {
    |s.trips| <= k && forall i :: i in s.trips && s.trips[i].Looked? ==> s.trips[i].look <= s.trips[i].at + stall
  }

  ghost predicate RunWithin(s: State, events: seq<Event>, k: nat, stall: nat)
    decreases |events|
  {
    StateWithin(s, k, stall) && (events == [] || RunWithin(Apply(s, events[0]), events[1..], k, stall))
  }

  lemma {:induction false} HoursGrow(m: nat, n: nat)
    requires m <= n
    ensures Hours(m) <= Hours(n)
    decreases n - m
  {
    if m < n {
      assert Power(m + 1) == 2 * Power(m);
      HoursGrow(m + 1, n);
    }
  }

  // What a count may be once the last writer is done: one more than that writer's, or zero after its window.
  ghost predicate Follows(last: Written, count: nat, now: Time) {
    count == last.count + 1 || (count == 0 && now >= last.at + WINDOW)
  }

  ghost predicate TripOk(s: State, t: Trip) {
    s.log == [] || var last := s.log[|s.log| - 1];
      && last.look <= s.clock
      && match t
         case Counted(c) => Follows(last, c, s.clock)
         case Stored(c, at) => Follows(last, c, at) && last.look <= at <= s.clock
         case Looked(c, at, look) => Follows(last, c, at) && last.look <= at <= look
  }

  // The counter is that of the last trip to have stored it.
  ghost predicate CounterOk(s: State) {
    && (forall i :: i in s.trips && !s.trips[i].Counted? ==> s.counter == s.trips[i].count + 1 && s.counterEnds == s.trips[i].at + WINDOW)
    && ((forall i :: i in s.trips ==> s.trips[i].Counted?) ==>
          if s.log == [] then s.counter == 0
          else s.counter == s.log[|s.log| - 1].count + 1 && s.counterEnds == s.log[|s.log| - 1].at + WINDOW)
  }

  ghost predicate Single(trips: map<TripId, Trip>) { forall i, j :: i in trips && j in trips ==> i == j }

  ghost predicate Serial(s: State, stall: nat) {
    && Recorded(s) && CounterOk(s) && Single(s.trips)
    && (s.log != [] ==> s.log[|s.log| - 1].look <= s.log[|s.log| - 1].at + stall)
    && forall i :: i in s.trips ==> TripOk(s, s.trips[i])
  }

  lemma AtMostOne(trips: map<TripId, Trip>)
    requires |trips| <= 1
    ensures Single(trips)
  {
    forall i, j | i in trips && j in trips ensures i == j {
      if i != j {
        assert {i, j} <= trips.Keys;
        SubsetCard({i, j}, trips.Keys);
        assert false;
      }
    }
  }

  lemma SubsetCard(a: set<TripId>, b: set<TripId>)
    requires a <= b
    ensures |a| <= |b|
  {
    assert b == a + (b - a);
    assert |b| == |a| + |b - a|;
  }

  lemma SerialCount(s: State, i: TripId, stall: nat)
    requires Serial(s, stall) && Single(Apply(s, Count(i)).trips)
    ensures Serial(Apply(s, Count(i)), stall)
  {
    var s' := Apply(s, Count(i));
    if i !in s.trips {
      forall j | j in s'.trips ensures j == i { assert i in s'.trips; }
      assert forall j :: j in s.trips ==> j in s'.trips;
      assert TripOk(s', s'.trips[i]);
    }
  }

  lemma SerialStore(s: State, i: TripId, stall: nat)
    requires Serial(s, stall) && i in s.trips && s.trips[i].Counted?
    ensures Serial(Apply(s, Store(i)), stall)
  {
    var s' := Apply(s, Store(i));
    assert TripOk(s, s.trips[i]);
    forall j | j in s'.trips ensures j == i { assert j in s.trips; }
    assert i in s'.trips && !s'.trips[i].Counted?;
    assert TripOk(s', s'.trips[i]);
  }

  lemma SerialLook(s: State, i: TripId, stall: nat)
    requires Serial(s, stall) && i in s.trips && s.trips[i].Stored?
    ensures Serial(Apply(s, Look(i)), stall)
  {
    var s' := Apply(s, Look(i));
    assert TripOk(s, s.trips[i]);
    forall j | j in s'.trips ensures j == i { assert j in s.trips; }
    assert i in s'.trips && !s'.trips[i].Counted?;
    assert TripOk(s', s'.trips[i]);
  }

  lemma SerialSet(s: State, i: TripId, stall: nat)
    requires Serial(s, stall) && stall <= PATIENCE && StateWithin(s, 1, stall) && i in s.trips && s.trips[i].Looked?
    ensures Serial(Apply(s, Set(i)), stall) && Apply(s, Set(i)).until >= s.until
  {
    var s', t := Apply(s, Set(i)), s.trips[i];
    assert TripOk(s, t);
    assert forall j :: j in s'.trips ==> j in s.trips && j != i;
    if s.log != [] {
      var last := s.log[|s.log| - 1];
      if t.count == last.count + 1 { HoursGrow(last.count, t.count); }
    }
  }

  lemma SerialStep(s: State, e: Event, stall: nat)
    requires Serial(s, stall) && stall <= PATIENCE && StateWithin(s, 1, stall) && StateWithin(Apply(s, e), 1, stall)
    ensures Serial(Apply(s, e), stall) && Apply(s, e).until >= s.until
  {
    AtMostOne(Apply(s, e).trips);
    match e
    case Tick(n) =>
    case Count(i) => SerialCount(s, i, stall);
    case Store(i) => if i in s.trips && s.trips[i].Counted? { SerialStore(s, i, stall); }
    case Look(i) => if i in s.trips && s.trips[i].Stored? { SerialLook(s, i, stall); }
    case Set(i) => if i in s.trips && s.trips[i].Looked? { SerialSet(s, i, stall); }
  }

  lemma {:induction false} SerialRun(s: State, events: seq<Event>, stall: nat)
    requires Serial(s, stall) && stall <= PATIENCE && RunWithin(s, events, 1, stall)
    ensures NeverShortens(s, events)
    decreases |events|
  {
    if events != [] {
      assert StateWithin(Apply(s, events[0]), 1, stall);
      SerialStep(s, events[0], stall);
      SerialRun(Apply(s, events[0]), events[1..], stall);
    }
  }

  // ---------- runs that do shorten it ----------

  function Alone(i: TripId, stall: nat): seq<Event> { [Count(i), Store(i), Tick(stall), Look(i), Set(i)] }

  // The state after one trip that nothing comes between.
  function AfterTrip(s: State, stall: nat): State {
    var c := ReadCounter(s);
    State(s.clock + stall, c + 1, s.clock + WINDOW, Until(c, s.clock + stall), s.trips, s.log + [Written(c, s.clock, s.clock + stall)])
  }

  lemma TripAlone(s: State, i: TripId, stall: nat, k: nat, bound: nat)
    requires s.trips == map[] && k >= 1 && stall <= bound
    ensures Run(s, Alone(i, stall)) == AfterTrip(s, stall) && RunWithin(s, Alone(i, stall), k, bound)
  {
    var events := Alone(i, stall);
    var s1 := Apply(s, Count(i));
    var s2 := Apply(s1, Store(i));
    var s3 := Apply(s2, Tick(stall));
    var s4 := Apply(s3, Look(i));
    var s5 := Apply(s4, Set(i));
    assert events[1..] == [Store(i), Tick(stall), Look(i), Set(i)];
    assert events[1..][1..] == [Tick(stall), Look(i), Set(i)];
    assert events[1..][1..][1..] == [Look(i), Set(i)];
    assert events[1..][1..][1..][1..] == [Set(i)];
    assert s5.trips == map[];
    assert Run(s4, [Set(i)]) == s5;
    assert Run(s3, [Look(i), Set(i)]) == s5;
    assert Run(s2, [Tick(stall), Look(i), Set(i)]) == s5;
    assert Run(s1, events[1..]) == s5;
    assert RunWithin(s5, [], k, bound);
    assert RunWithin(s4, [Set(i)], k, bound);
    assert RunWithin(s3, [Look(i), Set(i)], k, bound);
    assert RunWithin(s2, [Tick(stall), Look(i), Set(i)], k, bound);
    assert RunWithin(s1, events[1..], k, bound);
  }

  lemma {:induction false} RunsInTurn(s: State, first: seq<Event>, second: seq<Event>, k: nat, stall: nat)
    requires RunWithin(s, first, k, stall) && RunWithin(Run(s, first), second, k, stall)
    ensures Run(s, first + second) == Run(Run(s, first), second) && RunWithin(s, first + second, k, stall)
    decreases |first|
  {
    if first == [] {
      assert first + second == second;
    } else {
      assert (first + second)[1..] == first[1..] + second;
      RunsInTurn(Apply(s, first[0]), first[1..], second, k, stall);
    }
  }

  lemma {:induction false} UnshortenedGrows(s: State, first: seq<Event>, second: seq<Event>)
    requires NeverShortens(s, first + second)
    ensures Run(s, first).until <= Run(s, first + second).until
    decreases |first| + |second|
  {
    if first != [] {
      assert (first + second)[1..] == first[1..] + second;
      UnshortenedGrows(Apply(s, first[0]), first[1..], second);
    } else if second != [] {
      assert first + second == second && [] + second[1..] == second[1..];
      UnshortenedGrows(Apply(s, second[0]), [], second[1..]);
    }
  }

  lemma TwoSteps(s: State, a: Event, b: Event, k: nat, stall: nat)
    requires StateWithin(s, k, stall) && StateWithin(Apply(s, a), k, stall) && StateWithin(Apply(Apply(s, a), b), k, stall)
    ensures Run(s, [a, b]) == Apply(Apply(s, a), b) && RunWithin(s, [a, b], k, stall)
  {
    assert [a, b][1..] == [b] && [b][1..] == [];
    assert Run(Apply(s, a), [b]) == Apply(Apply(s, a), b);
    assert RunWithin(Apply(s, a), [b], k, stall);
  }

  const OVERTAKING1 := State(0, 1, WINDOW, 0, map[0 := Stored(0, 0)], [])
  const OVERTAKING2 := State(0, 2, WINDOW, 0, map[0 := Stored(0, 0), 1 := Stored(1, 0)], [])
  const OVERTAKING3 := State(0, 2, WINDOW, 12 * HOUR, map[0 := Stored(0, 0)], [Written(1, 0, 0)])
  const OVERTAKING4 := State(0, 2, WINDOW, 6 * HOUR, map[], [Written(1, 0, 0), Written(0, 0, 0)])

  lemma OvertakenCounts(k: nat, stall: nat)
    requires k >= 2
    ensures Run(FRESH, [Count(0), Store(0)]) == OVERTAKING1 && RunWithin(FRESH, [Count(0), Store(0)], k, stall)
    ensures Run(OVERTAKING1, [Count(1), Store(1)]) == OVERTAKING2 && RunWithin(OVERTAKING1, [Count(1), Store(1)], k, stall)
  {
    hide Run, RunWithin;
    assert Apply(Apply(FRESH, Count(0)), Store(0)).trips == OVERTAKING1.trips;
    TwoSteps(FRESH, Count(0), Store(0), k, stall);
    assert Apply(OVERTAKING1, Count(1)).trips.Keys == {0, 1} == OVERTAKING2.trips.Keys;
    assert Apply(Apply(OVERTAKING1, Count(1)), Store(1)).trips == OVERTAKING2.trips;
    TwoSteps(OVERTAKING1, Count(1), Store(1), k, stall);
  }

  lemma OvertakenWrites(k: nat, stall: nat)
    requires k >= 2
    ensures Run(OVERTAKING2, [Look(1), Set(1)]) == OVERTAKING3 && RunWithin(OVERTAKING2, [Look(1), Set(1)], k, stall)
    ensures Run(OVERTAKING3, [Look(0), Set(0)]) == OVERTAKING4 && RunWithin(OVERTAKING3, [Look(0), Set(0)], k, stall)
  {
    hide Run, RunWithin;
    assert Power(1) == 2 * Power(0) == 2;
    assert Apply(OVERTAKING2, Look(1)).trips.Keys == {0, 1} == OVERTAKING2.trips.Keys;
    assert Apply(Apply(OVERTAKING2, Look(1)), Set(1)).trips == OVERTAKING3.trips;
    TwoSteps(OVERTAKING2, Look(1), Set(1), k, stall);
    assert Apply(OVERTAKING3, Look(0)).trips.Keys == {0} == OVERTAKING3.trips.Keys;
    assert Apply(Apply(OVERTAKING3, Look(0)), Set(0)).trips == OVERTAKING4.trips;
    TwoSteps(OVERTAKING3, Look(0), Set(0), k, stall);
  }

  /** One trip counts itself, another then counts and finishes first: the first leaves a shorter cooldown although both read
      the counter fresh and no time passes. */
  lemma OvertakenTripShortens(k: nat, stall: nat) returns (events: seq<Event>)
    requires k >= 2
    ensures RunWithin(FRESH, events, k, stall) && !NeverShortens(FRESH, events)
  {
    hide Run, RunWithin, NeverShortens;
    OvertakenCounts(k, stall);
    OvertakenWrites(k, stall);
    var e1, e2, e3, e4 := [Count(0), Store(0)], [Count(1), Store(1)], [Look(1), Set(1)], [Look(0), Set(0)];
    RunsInTurn(FRESH, e1, e2, k, stall);
    RunsInTurn(FRESH, e1 + e2, e3, k, stall);
    RunsInTurn(FRESH, e1 + e2 + e3, e4, k, stall);
    events := e1 + e2 + e3 + e4;
    ShorterEnd(FRESH, e1 + e2 + e3, e4);
  }

  lemma ShorterEnd(s: State, first: seq<Event>, second: seq<Event>)
    requires Run(s, first + second).until < Run(s, first).until
    ensures !NeverShortens(s, first + second)
  {
    hide Run, NeverShortens;
    if NeverShortens(s, first + second) { UnshortenedGrows(s, first, second); }
  }

  lemma OneTick(s: State, n: nat, k: nat, stall: nat)
    requires s.trips == map[]
    ensures Run(s, [Tick(n)]) == s.(clock := s.clock + n) && RunWithin(s, [Tick(n)], k, stall)
  {
    assert [Tick(n)][1..] == [];
  }

  /** Trips one after another, the fourth of which stalls too long between counting itself and reading the clock: the fifth
      finds the counter lapsed and leaves a shorter cooldown. */
  lemma StalledTripShortens(k: nat, stall: nat) returns (events: seq<Event>)
    requires k >= 1 && stall > PATIENCE
    ensures RunWithin(FRESH, events, k, stall) && !NeverShortens(FRESH, events)
  {
    hide Run, RunWithin, NeverShortens, AfterTrip, Alone;
    var late := PATIENCE + 1;
    var s1, s2, s3, s4, s5, s6 := StalledStates();
    var quick, slow, wait := Alone(0, 0), Alone(0, late), [Tick(WINDOW - late)];
    TripAlone(FRESH, 0, 0, k, stall);
    TripAlone(s1, 0, 0, k, stall);
    TripAlone(s2, 0, 0, k, stall);
    TripAlone(s3, 0, late, k, stall);
    OneTick(s4, WINDOW - late, k, stall);
    TripAlone(s5, 0, 0, k, stall);
    var three := quick + quick + quick;
    RunsInTurn(FRESH, quick, quick, k, stall);
    RunsInTurn(FRESH, quick + quick, quick, k, stall);
    RunsInTurn(FRESH, three, slow, k, stall);
    RunsInTurn(FRESH, three + slow, wait, k, stall);
    RunsInTurn(FRESH, three + slow + wait, quick, k, stall);
    events := three + slow + wait + quick;
    ShorterEnd(FRESH, three + slow + wait, quick);
  }

  // Three quick trips, one that stalls just too long, and one when the counter has lapsed.
  lemma StalledStates() returns (s1: State, s2: State, s3: State, s4: State, s5: State, s6: State)
    ensures s1 == AfterTrip(FRESH, 0) && s2 == AfterTrip(s1, 0) && s3 == AfterTrip(s2, 0) && s4 == AfterTrip(s3, PATIENCE + 1)
    ensures s5 == s4.(clock := s4.clock + (WINDOW - (PATIENCE + 1))) && s6 == AfterTrip(s5, 0)
    ensures s1.trips == s2.trips == s3.trips == s4.trips == s5.trips == map[]
    ensures s6.until < s4.until == s5.until
  {
    assert Power(1) == 2 * Power(0) && Power(2) == 2 * Power(1) && Power(3) == 2 * Power(2);
    s1 := AfterTrip(FRESH, 0);
    s2 := AfterTrip(s1, 0);
    s3 := AfterTrip(s2, 0);
    s4 := AfterTrip(s3, PATIENCE + 1);
    s5 := s4.(clock := s4.clock + (WINDOW - (PATIENCE + 1)));
    s6 := AfterTrip(s5, 0);
    assert ReadCounter(s3) == 3 && ReadCounter(s5) == 0;
  }

  /** Over all interleavings, trips are sure never to shorten the cooldown if and only if they are serialized and none stalls
      for more than 126 hours between counting itself and reading the clock. */
  lemma NeverShortensExactlyWhenSerial(k: nat, stall: nat)
    requires k >= 1
    ensures (forall events :: RunWithin(FRESH, events, k, stall) ==> NeverShortens(FRESH, events)) <==> k == 1 && stall <= PATIENCE
  {
    if k == 1 && stall <= PATIENCE {
      forall events | RunWithin(FRESH, events, k, stall) ensures NeverShortens(FRESH, events) { SerialRun(FRESH, events, stall); }
    } else if k >= 2 {
      var events := OvertakenTripShortens(k, stall);
    } else {
      var events := StalledTripShortens(k, stall);
    }
  }
}
