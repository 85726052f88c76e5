/** Durable operational metrics: a permanent receipt per event key, cumulative rollups, labelled detail that is pruned when a
    transaction commits, and the savepoint bookkeeping that decides whether it is. */
module Metrics {
  import opened Wrappers

  type Time = nat
  type Labels = string

  const RETENTION: nat := 90 * 24 * 3600
  const MAX_ROWS: nat := 100_000
  const MAX_DURATION_MS: nat := 7 * 24 * 60 * 60 * 1000

  // One request to record an event, its labels already normalized and its duration in milliseconds.
  datatype Recorded = Recorded(key: string, labels: Labels, duration: Option<int>, at: Time)

  datatype Histogram = Histogram(
    count: nat, sum: nat, le1s: nat, le5s: nat, le15s: nat, le60s: nat, le300s: nat, le900s: nat, leInf: nat)

  datatype Rollup = Rollup(events: nat, durations: Histogram)

  datatype Tables = Tables(receipts: set<string>, events: map<nat, Recorded>, nextId: nat, rollups: map<Labels, Rollup>)

  // ---------- histograms ----------

  function ClampMs(duration: Option<int>): Option<nat> {
    if duration.None? then None
    else if duration.value < 0 then Some(0)
    else if duration.value > MAX_DURATION_MS then Some(MAX_DURATION_MS)
    else Some(duration.value)
  }

  function Bit(b: bool): nat { if b then 1 else 0 }

  function Increments(ms: Option<nat>): Histogram {
    if ms.None? then Histogram(0, 0, 0, 0, 0, 0, 0, 0, 0)
    else
      var d := ms.value;
      Histogram(1, d, Bit(d <= 1_000), Bit(d <= 5_000), Bit(d <= 15_000), Bit(d <= 60_000), Bit(d <= 300_000), Bit(d <= 900_000), 1)
  }

  function Plus(x: Histogram, y: Histogram): Histogram {
    Histogram(x.count + y.count, x.sum + y.sum, x.le1s + y.le1s, x.le5s + y.le5s, x.le15s + y.le15s, x.le60s + y.le60s,
              x.le300s + y.le300s, x.le900s + y.le900s, x.leInf + y.leInf)
  }

  const NO_ROLLUP := Rollup(0, Histogram(0, 0, 0, 0, 0, 0, 0, 0, 0))

  function Bumped(r: Rollup, duration: Option<int>): Rollup { Rollup(r.events + 1, Plus(r.durations, Increments(ClampMs(duration)))) }

  // ---------- pruning ----------

  predicate Older(events: map<nat, Recorded>, i: nat, j: nat)
    requires i in events && j in events
  {
    events[i].at < events[j].at || (events[i].at == events[j].at && i < j)
  }

  ghost predicate IsOldest(events: map<nat, Recorded>, i: nat) {
    i in events && forall j :: j in events && j != i ==> Older(events, i, j)
  }

  lemma {:induction false} OldestExists(events: map<nat, Recorded>) returns (i: nat)
    requires events != map[]
    ensures IsOldest(events, i)
    decreases |events|
  {
    var k :| k in events;
    var others := events - {k};
    assert events.Keys == others.Keys + {k};
    if others == map[] {
      assert forall j :: j in events ==> j == k;
      i := k;
    } else {
      assert |others.Keys| < |events.Keys|;
      var m := OldestExists(others);
      i := if Older(events, m, k) then m else k;
      forall j | j in events && j != i ensures Older(events, i, j) {
        if j != k && j != m { assert j in others && Older(others, m, j); }
      }
    }
  }

  function InWindow(events: map<nat, Recorded>, cutoff: int): map<nat, Recorded> {
    map i | i in events && events[i].at >= cutoff :: events[i]
  }

  // The newest rows up to the cap: the rest, all of them older, are gone.
  ghost predicate NewestOf(events: map<nat, Recorded>, kept: map<nat, Recorded>, cap: nat) {
    && (forall i :: i in kept ==> i in events && kept[i] == events[i])
    && |kept| == (if |events| <= cap then |events| else cap)
    && forall i, j :: i in events && i !in kept && j in kept ==> Older(events, i, j)
  }

  /** The rows kept are the only ones that fit the description. */
  lemma NewestIsUnique(events: map<nat, Recorded>, x: map<nat, Recorded>, y: map<nat, Recorded>, cap: nat)
    requires NewestOf(events, x, cap) && NewestOf(events, y, cap)
    ensures x == y
  {
    Nested(events, x, y, cap);
    if x.Keys <= y.Keys { SameSizeSubset(x.Keys, y.Keys); } else { SameSizeSubset(y.Keys, x.Keys); }
  }

  lemma Nested(events: map<nat, Recorded>, x: map<nat, Recorded>, y: map<nat, Recorded>, cap: nat)
    requires NewestOf(events, x, cap) && NewestOf(events, y, cap)
    ensures x.Keys <= y.Keys || y.Keys <= x.Keys
  {
    if i :| i in x.Keys && i !in y.Keys {
      forall j | j in y.Keys ensures j in x.Keys {
        assert Older(events, i, j);
        assert !Older(events, j, i);
      }
    }
  }

  lemma SameSizeSubset(a: set<nat>, b: set<nat>)
    requires a <= b && |a| == |b|
    ensures a == b
  {
    assert b * a == a;
    assert |b - a| == |b| - |b * a|;
    assert b - a == {};
    assert forall z :: z in b && z !in a ==> z in b - a;
  }

  method PruneEvents(events: map<nat, Recorded>, now: Time) returns (kept: map<nat, Recorded>, removed: nat)
    ensures NewestOf(InWindow(events, now - RETENTION), kept, MAX_ROWS)
    ensures |kept| + removed == |events|
  {
    var window := InWindow(events, now - RETENTION);
    WindowIsSmaller(events, now - RETENTION);
    removed := |events| - |window|;
    kept := window;
    while |kept| > MAX_ROWS
      invariant NewestOf(window, kept, if |window| <= MAX_ROWS then MAX_ROWS else |kept|)
      invariant |kept| + removed == |events| && (|window| > MAX_ROWS ==> |kept| >= MAX_ROWS)
      decreases |kept|
    {
      ghost var oldest := OldestExists(kept);
      var i :| i in kept && forall j :: j in kept && j != i ==> Older(kept, i, j);
      DroppingOldest(window, kept, i);
      kept := kept - {i};
      removed := removed + 1;
    }
  }

  lemma DroppingOldest(events: map<nat, Recorded>, kept: map<nat, Recorded>, i: nat)
    requires NewestOf(events, kept, |kept|) && IsOldest(kept, i)
    ensures NewestOf(events, kept - {i}, |kept| - 1) && |kept - {i}| == |kept| - 1
  {
    assert kept.Keys == (kept - {i}).Keys + {i};
    assert |kept.Keys| == |(kept - {i}).Keys| + 1;
    forall j | j in kept && j != i ensures Older(events, i, j) { assert Older(kept, i, j); }
    assert |kept| <= |events|;
  }

  lemma WindowIsSmaller(events: map<nat, Recorded>, cutoff: int)
    ensures |InWindow(events, cutoff)| <= |events|
  {
    var w := InWindow(events, cutoff);
    assert w.Keys <= events.Keys;
    assert events.Keys == w.Keys + (events.Keys - w.Keys);
    assert |events.Keys| == |w.Keys| + |events.Keys - w.Keys|;
  }

  /** A duration counts as it is between nothing and seven days, and as the nearer of the two outside. */
  lemma DurationsAreClamped(ms: int)
    ensures var kept := ClampMs(Some(ms));
      && ClampMs(None).None? && kept.Some? && kept.value <= 7 * 24 * 3600 * 1000
      && (0 <= ms <= 7 * 24 * 3600 * 1000 ==> kept.value == ms)
      && (ms < 0 ==> kept.value == 0) && (ms > 7 * 24 * 3600 * 1000 ==> kept.value == 7 * 24 * 3600 * 1000)
  {
  }

  /** The window holds exactly the rows of the last ninety days. */
  lemma WindowExactly(events: map<nat, Recorded>, now: Time, i: nat)
    ensures i in InWindow(events, now - RETENTION) <==> i in events && now - events[i].at <= 90 * 24 * 3600
    ensures i in InWindow(events, now - RETENTION) ==> InWindow(events, now - RETENTION)[i] == events[i]
  {
  }
}
