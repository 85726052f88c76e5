/** Metrics recorded inside transactions with savepoints. The session keeps, per open transaction, how many events asked for a
    retention pass; releases promote that number, rollbacks discard it. */
module MetricsSession {
  import opened Wrappers
  import opened Metrics

  // An open transaction or savepoint, with the tables when it began.
  datatype Savepoint = Savepoint(id: nat, before: Tables)

  // How many events had been kept when it began: as many as there were receipts.
  function Mark(p: Savepoint): nat { |p.before.receipts| }

  // `kept` lists, in order, the first recordings that no rollback has undone.
  datatype Session = Session(tables: Tables, kept: seq<Recorded>, stack: seq<Savepoint>, pending: map<nat, nat>, serial: nat)

  function Count(pending: map<nat, nat>, id: nat): nat { if id in pending then pending[id] else 0 }

  function RollupAt(rollups: map<Labels, Rollup>, l: Labels): Rollup { if l in rollups then rollups[l] else NO_ROLLUP }

  function Open(s: Session): Session {
    s.(stack := s.stack + [Savepoint(s.serial, s.tables)], serial := s.serial + 1)
  }

  function Began(s: Session): Session { if s.stack == [] then Open(s) else s }

  function Insert(t: Tables, r: Recorded): Tables {
    Tables(t.receipts + {r.key}, t.events[t.nextId := r], t.nextId + 1, t.rollups[r.labels := Bumped(RollupAt(t.rollups, r.labels), r.duration)])
  }

  function Innermost(s: Session): nat
    requires s.stack != []
  {
    s.stack[|s.stack| - 1].id
  }

  function Record(s: Session, r: Recorded): Session
    requires s.stack != []
  {
    if r.key in s.tables.receipts then s
    else
      var id := Innermost(s);
      s.(tables := Insert(s.tables, r), kept := s.kept + [r], pending := s.pending[id := Count(s.pending, id) + 1])
  }

  // The listener at the end of a nested transaction.
  function Ended(pending: map<nat, nat>, id: nat, parent: nat, undone: bool): map<nat, nat> {
    var count := Count(pending, id);
    var others := pending - {id};
    if count > 0 && !undone then others[parent := Count(others, parent) + count] else others
  }

  function Release(s: Session): Session
    requires |s.stack| >= 2
  {
    var n := |s.stack|;
    s.(stack := s.stack[..n - 1], pending := Ended(s.pending, s.stack[n - 1].id, s.stack[n - 2].id, false))
  }

  function RollBack(s: Session): Session
    requires |s.stack| >= 2 && Mark(s.stack[|s.stack| - 1]) <= |s.kept|
  {
    var n := |s.stack|;
    s.(tables := s.stack[n - 1].before, kept := s.kept[..Mark(s.stack[n - 1])], stack := s.stack[..n - 1],
       pending := Ended(s.pending, s.stack[n - 1].id, s.stack[n - 2].id, true))
  }

  function Abandon(s: Session): Session
    requires s.stack != [] && Mark(s.stack[0]) <= |s.kept|
  {
    s.(tables := s.stack[0].before, kept := s.kept[..Mark(s.stack[0])], stack := [], pending := map[])
  }

  function ReleaseAll(s: Session): (s': Session)
    requires s.stack != []
    ensures |s'.stack| == 1
    decreases |s.stack|
  {
    if |s.stack| == 1 then s else ReleaseAll(Release(s))
  }

  // Committing the outermost transaction; detail is pruned when it holds a request.
  ghost predicate Closed(s: Session, s': Session, now: Time)
    requires |s.stack| == 1
  {
    && s' == Session(s.tables.(events := s'.tables.events), s.kept, [], map[], s.serial)
    && if Count(s.pending, s.stack[0].id) > 0
       then NewestOf(InWindow(s.tables.events, now - RETENTION), s'.tables.events, MAX_ROWS)
       else s'.tables.events == s.tables.events
  }

  datatype Op = Nest | RecordOne(r: Recorded) | ReleaseOne | RollBackOne | AbandonAll | Commit(now: Time)

  ghost predicate Step(s: Session, op: Op, s': Session) {
    match op
    case Nest => s' == Open(Began(s))
    case RecordOne(r) => s' == Record(Began(s), r)
    case ReleaseOne => s' == if |s.stack| >= 2 then Release(s) else s
    case RollBackOne => if |s.stack| >= 2 && Mark(s.stack[|s.stack| - 1]) <= |s.kept| then s' == RollBack(s) else s' == s
    case AbandonAll => if s.stack != [] && Mark(s.stack[0]) <= |s.kept| then s' == Abandon(s) else s' == s
    case Commit(now) => if s.stack == [] then s' == s else Closed(ReleaseAll(s), s', now)
  }

  const EMPTY := Session(Tables({}, map[], 0, map[]), [], [], map[], 0)

  ghost predicate IsRun(states: seq<Session>, ops: seq<Op>) {
    |states| == |ops| + 1 && states[0] == EMPTY && forall i :: 0 <= i < |ops| ==> Step(states[i], ops[i], states[i + 1])
  }

  // ---------- what the tables mean ----------

  function KeysOf(kept: seq<Recorded>): set<string> { set i | 0 <= i < |kept| :: kept[i].key }

  function LabelsOf(kept: seq<Recorded>): set<Labels> { set i | 0 <= i < |kept| :: kept[i].labels }

  ghost predicate DistinctKeys(kept: seq<Recorded>) { forall i, j :: 0 <= i < j < |kept| ==> kept[i].key != kept[j].key }

  function RollupOf(kept: seq<Recorded>, l: Labels): Rollup {
    if kept == [] then NO_ROLLUP
    else
      var r := RollupOf(kept[..|kept| - 1], l);
      if kept[|kept| - 1].labels == l then Bumped(r, kept[|kept| - 1].duration) else r
  }

  ghost predicate ReceiptsOk(receipts: set<string>, kept: seq<Recorded>) { receipts == KeysOf(kept) && DistinctKeys(kept) }

  ghost predicate RollupsOk(rollups: map<Labels, Rollup>, kept: seq<Recorded>) {
    rollups.Keys == LabelsOf(kept) && forall l :: RollupAt(rollups, l) == RollupOf(kept, l)
  }

  ghost predicate EventsOk(events: map<nat, Recorded>, nextId: nat, kept: seq<Recorded>) {
    forall i :: i in events ==> i < nextId && events[i] in kept
  }

  ghost predicate TablesOk(t: Tables, kept: seq<Recorded>) {
    ReceiptsOk(t.receipts, kept) && RollupsOk(t.rollups, kept) && EventsOk(t.events, t.nextId, kept)
  }

  // ---------- what every step keeps ----------

  function MarkAfter(s: Session, j: nat): nat { if j + 1 < |s.stack| then Mark(s.stack[j + 1]) else |s.kept| }

  function TablesAfter(s: Session, j: nat): Tables { if j + 1 < |s.stack| then s.stack[j + 1].before else s.tables }

  // The request count of an open transaction is the number of events it has kept itself.
  ghost predicate LevelOk(s: Session, j: nat)
    requires j < |s.stack|
  {
    var p := s.stack[j];
    && Mark(p) <= MarkAfter(s, j) <= |s.kept| && TablesOk(p.before, s.kept[..Mark(p)])
    && Count(s.pending, p.id) == MarkAfter(s, j) - Mark(p)
    && (MarkAfter(s, j) == Mark(p) ==> TablesAfter(s, j) == p.before)
  }

  ghost predicate IdsOk(s: Session) {
    && (forall j :: 0 <= j < |s.stack| ==> s.stack[j].id < s.serial)
    && (forall i, j :: 0 <= i < j < |s.stack| ==> s.stack[i].id < s.stack[j].id)
    && (forall id :: id in s.pending ==> exists j :: 0 <= j < |s.stack| && s.stack[j].id == id)
  }

  ghost predicate Inv(s: Session) {
    && TablesOk(s.tables, s.kept) && IdsOk(s)
    && (forall j :: 0 <= j < |s.stack| ==> LevelOk(s, j))
    && |(if s.stack == [] then s.tables else s.stack[0].before).events| <= MAX_ROWS
  }

  lemma {:induction false} OneReceiptEach(receipts: set<string>, kept: seq<Recorded>)
    requires ReceiptsOk(receipts, kept)
    ensures |receipts| == |kept|
    decreases |kept|
  {
    if kept != [] {
      var init, last := kept[..|kept| - 1], kept[|kept| - 1];
      assert kept == init + [last];
      AddedOne(init, last);
      assert last.key !in KeysOf(init);
      OneReceiptEach(KeysOf(init), init);
    }
  }

  lemma OneReceiptPerEvent(t: Tables, kept: seq<Recorded>)
    requires TablesOk(t, kept)
    ensures |t.receipts| == |kept|
  {
    hide ReceiptsOk;
    OneReceiptEach(t.receipts, kept);
  }

  lemma OpenKeeps(s: Session)
    requires Inv(s)
    ensures Inv(Open(s))
  {
    hide TablesOk;
    var s' := Open(s);
    var n := |s.stack|;
    assert s.kept[..|s.kept|] == s.kept;
    OneReceiptPerEvent(s.tables, s.kept);
    assert Count(s.pending, s.serial) == 0;
    forall j | 0 <= j < |s'.stack| ensures LevelOk(s', j) {
      if j < n { assert LevelOk(s, j) && s'.stack[j] == s.stack[j]; }
    }
    forall id | id in s'.pending ensures exists j :: 0 <= j < |s'.stack| && s'.stack[j].id == id {
      var j :| 0 <= j < n && s.stack[j].id == id;
      assert s'.stack[j].id == id;
    }
  }

  lemma InsertedTables(t: Tables, kept: seq<Recorded>, r: Recorded)
    requires TablesOk(t, kept) && r.key !in t.receipts
    ensures TablesOk(Insert(t, r), kept + [r])
  {
    AddedOne(kept, r);
    InsertedReceipt(t.receipts, kept, r);
    InsertedRollup(t.rollups, kept, r);
    hide ReceiptsOk, RollupsOk;
    assert forall x :: x in kept ==> x in kept + [r];
  }

  lemma InsertedReceipt(receipts: set<string>, kept: seq<Recorded>, r: Recorded)
    requires ReceiptsOk(receipts, kept) && r.key !in receipts
    ensures ReceiptsOk(receipts + {r.key}, kept + [r])
  {
    AddedOne(kept, r);
    var kept' := kept + [r];
    forall i, j | 0 <= i < j < |kept'| ensures kept'[i].key != kept'[j].key {
      assert i < |kept| ==> kept[i].key in KeysOf(kept);
    }
  }

  lemma InsertedRollup(rollups: map<Labels, Rollup>, kept: seq<Recorded>, r: Recorded)
    requires RollupsOk(rollups, kept)
    ensures RollupsOk(rollups[r.labels := Bumped(RollupAt(rollups, r.labels), r.duration)], kept + [r])
  {
    AddedOne(kept, r);
    hide Bumped, KeysOf, LabelsOf;
    var kept' := kept + [r];
    assert kept'[..|kept'| - 1] == kept && kept'[|kept'| - 1] == r;
    var rollups' := rollups[r.labels := Bumped(RollupAt(rollups, r.labels), r.duration)];
    forall l ensures RollupAt(rollups', l) == RollupOf(kept', l) {
      assert RollupAt(rollups, l) == RollupOf(kept, l);
    }
  }

  lemma AddedOne(kept: seq<Recorded>, r: Recorded)
    ensures KeysOf(kept + [r]) == KeysOf(kept) + {r.key} && LabelsOf(kept + [r]) == LabelsOf(kept) + {r.labels}
  {
    var kept' := kept + [r];
    assert kept'[|kept|] == r;
    forall i | 0 <= i < |kept| ensures kept[i].key in KeysOf(kept') && kept[i].labels in LabelsOf(kept') { assert kept'[i] == kept[i]; }
  }

  lemma RecordKeeps(s: Session, r: Recorded)
    requires Inv(s) && s.stack != []
    ensures Inv(Record(s, r))
  {
    if r.key !in s.tables.receipts {
      var s' := Record(s, r);
      InsertedTables(s.tables, s.kept, r);
      hide TablesOk, Insert;
      forall j | 0 <= j < |s'.stack| ensures LevelOk(s', j) { RecordedLevel(s, r, j); }
      RecordedIds(s, r);
      hide LevelOk, IdsOk;
    }
  }

  lemma RecordedIds(s: Session, r: Recorded)
    requires IdsOk(s) && s.stack != [] && r.key !in s.tables.receipts
    ensures IdsOk(Record(s, r))
  {
    hide Insert;
    var s' := Record(s, r);
    var n := |s.stack|;
    forall id | id in s'.pending ensures exists j :: 0 <= j < |s'.stack| && s'.stack[j].id == id {
      if id == s.stack[n - 1].id {
        assert s'.stack[n - 1].id == id;
      } else {
        var j :| 0 <= j < n && s.stack[j].id == id;
        assert s'.stack[j].id == id;
      }
    }
  }

  lemma RecordedLevel(s: Session, r: Recorded, j: nat)
    requires Inv(s) && j < |s.stack| && r.key !in s.tables.receipts
    ensures LevelOk(Record(s, r), j)
  {
    hide TablesOk, Insert;
    assert LevelOk(s, j);
    assert (s.kept + [r])[..Mark(s.stack[j])] == s.kept[..Mark(s.stack[j])];
  }

  lemma EndedCounts(s: Session, undone: bool, id: nat)
    requires IdsOk(s) && |s.stack| >= 2
    ensures var n := |s.stack|;
      var inner, parent := s.stack[n - 1].id, s.stack[n - 2].id;
      Count(Ended(s.pending, inner, parent, undone), id) ==
        if id == inner then 0
        else if id == parent && !undone then Count(s.pending, parent) + Count(s.pending, inner)
        else Count(s.pending, id)
  {
  }

  lemma EndedIds(s: Session, s': Session, undone: bool)
    requires IdsOk(s) && |s.stack| >= 2 && s'.stack == s.stack[..|s.stack| - 1] && s'.serial == s.serial
    requires s'.pending == Ended(s.pending, s.stack[|s.stack| - 1].id, s.stack[|s.stack| - 2].id, undone)
    ensures IdsOk(s')
  {
    var n := |s.stack|;
    forall id | id in s'.pending ensures exists j :: 0 <= j < |s'.stack| && s'.stack[j].id == id {
      if id == s.stack[n - 2].id {
        assert s'.stack[n - 2].id == id;
      } else {
        var j :| 0 <= j < n && s.stack[j].id == id;
        assert s'.stack[j].id == id;
      }
    }
  }

  lemma ReleaseKeeps(s: Session)
    requires Inv(s) && |s.stack| >= 2
    ensures Inv(Release(s)) && Release(s).kept == s.kept && Release(s).tables == s.tables && Release(s).stack[0] == s.stack[0]
  {
    hide TablesOk, Ended;
    var s' := Release(s);
    var n := |s.stack|;
    EndedIds(s, s', false);
    forall j | 0 <= j < |s'.stack| ensures LevelOk(s', j) {
      assert s'.stack[j] == s.stack[j];
      assert LevelOk(s, j);
      EndedCounts(s, false, s.stack[j].id);
      if j == n - 2 { assert LevelOk(s, n - 1); }
    }
    hide IdsOk;
  }

  lemma RollBackKeeps(s: Session)
    requires Inv(s) && |s.stack| >= 2
    ensures Mark(s.stack[|s.stack| - 1]) <= |s.kept| && Inv(RollBack(s))
  {
    hide TablesOk, Ended;
    var n := |s.stack|;
    assert LevelOk(s, n - 1);
    var s' := RollBack(s);
    EndedIds(s, s', true);
    forall j | 0 <= j < |s'.stack| ensures LevelOk(s', j) { RolledBackLevel(s, j); }
    hide IdsOk, LevelOk;
  }

  lemma RolledBackLevel(s: Session, j: nat)
    requires Inv(s) && j + 1 < |s.stack| && Mark(s.stack[|s.stack| - 1]) <= |s.kept|
    ensures LevelOk(RollBack(s), j)
  {
    hide TablesOk, Ended;
    var n := |s.stack|;
    assert RollBack(s).stack[j] == s.stack[j];
    assert LevelOk(s, j);
    EndedCounts(s, true, s.stack[j].id);
    MarksGoUp(s, j, n - 1);
    MarksGoUp(s, j + 1, n - 1);
    assert s.kept[..Mark(s.stack[n - 1])][..Mark(s.stack[j])] == s.kept[..Mark(s.stack[j])];
  }

  lemma {:induction false} MarksGoUp(s: Session, i: nat, j: nat)
    requires (forall k :: 0 <= k < |s.stack| ==> LevelOk(s, k)) && i <= j < |s.stack|
    ensures Mark(s.stack[i]) <= Mark(s.stack[j]) <= |s.kept|
    decreases j - i
  {
    hide TablesOk;
    assert LevelOk(s, i);
    if i < j { MarksGoUp(s, i + 1, j); }
  }

  lemma AbandonKeeps(s: Session)
    requires Inv(s) && s.stack != []
    ensures Mark(s.stack[0]) <= |s.kept| && Inv(Abandon(s))
  {
    hide TablesOk;
    assert LevelOk(s, 0);
  }

  lemma {:induction false} ReleaseAllKeeps(s: Session)
    requires Inv(s) && s.stack != []
    ensures Inv(ReleaseAll(s)) && ReleaseAll(s).kept == s.kept && ReleaseAll(s).tables == s.tables && ReleaseAll(s).stack[0] == s.stack[0]
    decreases |s.stack|
  {
    hide Inv;
    if |s.stack| >= 2 {
      ReleaseKeeps(s);
      ReleaseAllKeeps(Release(s));
    }
  }

  lemma CloseKeeps(s: Session, s': Session, now: Time)
    requires Inv(s) && |s.stack| == 1 && Closed(s, s', now)
    ensures Inv(s') && |s'.tables.events| <= MAX_ROWS
    ensures Count(s.pending, s.stack[0].id) == |s.kept| - Mark(s.stack[0])
  {
    assert LevelOk(s, 0);
    hide ReceiptsOk, RollupsOk;
    if Count(s.pending, s.stack[0].id) > 0 {
      PrunedEvents(s.tables.events, s.tables.nextId, s.kept, s'.tables.events, now - RETENTION);
    }
    hide EventsOk, NewestOf, InWindow, IdsOk;
  }

  lemma PrunedEvents(events: map<nat, Recorded>, nextId: nat, kept: seq<Recorded>, events': map<nat, Recorded>, cutoff: int)
    requires EventsOk(events, nextId, kept) && NewestOf(InWindow(events, cutoff), events', MAX_ROWS)
    ensures EventsOk(events', nextId, kept) && |events'| <= MAX_ROWS
  {
  }

  lemma StepKeeps(s: Session, op: Op, s': Session)
    requires Inv(s) && Step(s, op, s')
    ensures Inv(s')
  {
    hide Inv, Record, Release, RollBack, Abandon, Closed;
    if s.stack == [] { OpenKeeps(s); }
    match op
    case Nest => OpenKeeps(Began(s));
    case RecordOne(r) => RecordKeeps(Began(s), r);
    case ReleaseOne => if |s.stack| >= 2 { ReleaseKeeps(s); }
    case RollBackOne => if |s.stack| >= 2 { RollBackKeeps(s); }
    case AbandonAll => if s.stack != [] { AbandonKeeps(s); }
    case Commit(now) =>
      if s.stack != [] {
        ReleaseAllKeeps(s);
        CloseKeeps(ReleaseAll(s), s', now);
      }
  }

  lemma {:induction false} RunKeeps(states: seq<Session>, ops: seq<Op>, n: nat)
    requires IsRun(states, ops) && n < |states|
    ensures Inv(states[n])
  {
    hide Step;
    if n == 0 {
      EmptyIsOk();
    } else {
      hide Inv;
      RunKeeps(states, ops, n - 1);
      StepKeeps(states[n - 1], ops[n - 1], states[n]);
    }
  }

  lemma EmptyIsOk()
    ensures Inv(EMPTY)
  {
  }

  // ---------- main results ----------

  // How many kept events with these labels satisfy a bound on their duration; no bound counts every one.
  function Within(kept: seq<Recorded>, l: Labels, bound: nat): nat {
    if kept == [] then 0
    else
      var last := kept[|kept| - 1];
      Within(kept[..|kept| - 1], l, bound) + Bit(last.labels == l && last.duration.Some? && ClampMs(last.duration).value <= bound)
  }

  function KeysWith(kept: seq<Recorded>, l: Labels): set<string> { set i | 0 <= i < |kept| && kept[i].labels == l :: kept[i].key }

  ghost predicate Cumulative(h: Histogram) {
    h.le1s <= h.le5s <= h.le15s <= h.le60s <= h.le300s <= h.le900s <= h.leInf == h.count
  }

  // The clamped durations of the kept events with these labels, added up.
  function DurationSum(kept: seq<Recorded>, l: Labels): nat {
    if kept == [] then 0
    else
      var last := kept[|kept| - 1];
      DurationSum(kept[..|kept| - 1], l) + if last.labels == l && last.duration.Some? then ClampMs(last.duration).value else 0
  }

  // What the totals of one label set say about the kept events.
  ghost predicate Describes(h: Histogram, kept: seq<Recorded>, l: Labels) {
    && h.le1s == Within(kept, l, 1_000) && h.le5s == Within(kept, l, 5_000) && h.le15s == Within(kept, l, 15_000)
    && h.le60s == Within(kept, l, 60_000) && h.le300s == Within(kept, l, 300_000) && h.le900s == Within(kept, l, 900_000)
    && h.leInf == h.count == Within(kept, l, MAX_DURATION_MS) && h.sum == DurationSum(kept, l)
  }

  lemma {:induction false} RollupMeaning(kept: seq<Recorded>, l: Labels)
    requires DistinctKeys(kept)
    ensures var r := RollupOf(kept, l);
      r.events == |KeysWith(kept, l)| && r.durations.count <= r.events && Cumulative(r.durations) && Describes(r.durations, kept, l)
    decreases |kept|
  {
    if kept == [] {
      assert KeysWith(kept, l) == {};
    } else {
      var init, last := kept[..|kept| - 1], kept[|kept| - 1];
      RollupMeaning(init, l);
      OneMoreKey(kept, l);
      hide KeysWith;
      if last.labels == l { BumpedMeaning(RollupOf(init, l), kept, l); }
    }
  }

  lemma BumpedMeaning(r: Rollup, kept: seq<Recorded>, l: Labels)
    requires kept != [] && kept[|kept| - 1].labels == l && Cumulative(r.durations) && Describes(r.durations, kept[..|kept| - 1], l)
    ensures var h := Bumped(r, kept[|kept| - 1].duration).durations; Cumulative(h) && Describes(h, kept, l)
  {
    var last := kept[|kept| - 1];
    assert forall bound ::
        Within(kept, l, bound) == Within(kept[..|kept| - 1], l, bound) + Bit(last.duration.Some? && ClampMs(last.duration).value <= bound);
    hide Within;
  }

  lemma OneMoreKey(kept: seq<Recorded>, l: Labels)
    requires kept != [] && DistinctKeys(kept)
    ensures |KeysWith(kept, l)| == |KeysWith(kept[..|kept| - 1], l)| + Bit(kept[|kept| - 1].labels == l)
  {
    var init, last := kept[..|kept| - 1], kept[|kept| - 1];
    assert kept == init + [last];
    forall i | 0 <= i < |init| && init[i].labels == l ensures init[i].key in KeysWith(kept, l) { assert kept[i] == init[i]; }
    if last.labels == l {
      assert KeysWith(kept, l) == KeysWith(init, l) + {last.key};
      assert last.key !in KeysWith(init, l);
    } else {
      assert KeysWith(kept, l) == KeysWith(init, l);
    }
  }

  /** However records are redelivered, rolled back, released and pruned, each rollup counts every surviving event key exactly
      once, under the labels of its first recording, and its buckets are cumulative. */
  lemma RollupsCountEachKeyOnce(states: seq<Session>, ops: seq<Op>, n: nat, l: Labels)
    requires IsRun(states, ops) && n < |states|
    ensures var s := states[n];
      var r := RollupAt(s.tables.rollups, l);
      && r.events == |KeysWith(s.kept, l)| && s.tables.receipts == KeysOf(s.kept)
      && Cumulative(r.durations) && r.durations.count <= r.events && Describes(r.durations, s.kept, l)
  {
    RunKeeps(states, ops, n);
    RollupMeaning(states[n].kept, l);
    hide IsRun, RollupOf, KeysWith, LevelOk, IdsOk, Describes, Cumulative;
  }

  /** A commit prunes exactly when the transaction keeps a new event, whatever its savepoints did; it then leaves exactly the
      newest events inside the retention window, up to the cap. Either way no more than the cap is ever committed. */
  lemma CommitPrunesWhatItMust(states: seq<Session>, ops: seq<Op>, n: nat)
    requires IsRun(states, ops) && n < |ops| && ops[n].Commit? && states[n].stack != []
    ensures var s, s' := states[n], states[n + 1];
      && s'.stack == [] && s'.kept == s.kept && s'.tables.rollups == s.tables.rollups && s'.tables.receipts == s.tables.receipts
      && |s'.tables.events| <= 100_000
      && if |s.kept| > Mark(s.stack[0])
         then NewestOf(InWindow(s.tables.events, ops[n].now - RETENTION), s'.tables.events, 100_000)
         else s'.tables == s.stack[0].before
  {
    hide Step, Inv, NewestOf, InWindow;
    RunKeeps(states, ops, n);
    assert Step(states[n], Commit(ops[n].now), states[n + 1]);
    hide IsRun;
    CommitEffect(states[n], ops[n].now, states[n + 1]);
  }

  lemma CommitEffect(s: Session, now: Time, s': Session)
    requires Inv(s) && s.stack != [] && Step(s, Commit(now), s')
    ensures s'.stack == [] && s'.kept == s.kept && s'.tables.rollups == s.tables.rollups && s'.tables.receipts == s.tables.receipts
    ensures |s'.tables.events| <= MAX_ROWS
    ensures if |s.kept| > Mark(s.stack[0])
            then NewestOf(InWindow(s.tables.events, now - RETENTION), s'.tables.events, MAX_ROWS)
            else s'.tables == s.stack[0].before
  {
    hide TablesOk, IdsOk, NewestOf, InWindow;
    var released := ReleaseAll(s);
    assert Closed(released, s', now);
    ReleaseAllKeeps(s);
    CloseKeeps(released, s', now);
    assert LevelOk(released, 0);
    hide Inv;
  }

  // ---------- the session itself ----------

  class SessionStore {
    var tables: Tables
    var stack: seq<Savepoint>
    var pending: map<nat, nat>
    var rolledBack: set<nat>
    var serial: nat
    ghost var kept: seq<Recorded>

    ghost function State(): Session
      reads this
    {
      Session(tables, kept, stack, pending, serial)
    }

    ghost predicate Valid()
      reads this
    {
      Inv(State()) && rolledBack == {}
    }

    constructor ()
      ensures Valid() && State() == EMPTY
    {
      tables, stack, pending, rolledBack, serial, kept := Tables({}, map[], 0, map[]), [], map[], {}, 0, [];
      new;
      EmptyIsOk();
    }

    method Begin()
      requires Valid()
      modifies this
      ensures Valid() && State() == Began(old(State())) && stack != []
    {
      if stack == [] {
        OpenKeeps(State());
        hide Inv;
        stack, serial := stack + [Savepoint(serial, tables)], serial + 1;
      }
    }

    method RecordOperationalEvent(r: Recorded) returns (inserted: bool)
      requires Valid()
      modifies this
      ensures Valid() && State() == Record(Began(old(State())), r)
      ensures inserted <==> r.key !in old(tables).receipts
    {
      hide Inv, Bumped;
      Begin();
      RecordKeeps(State(), r);
      inserted := r.key !in tables.receipts;
      if !inserted { return; }
      var rollups := tables.rollups;
      var row := if r.labels in rollups then rollups[r.labels] else NO_ROLLUP;
      tables := Tables(tables.receipts + {r.key}, tables.events[tables.nextId := r], tables.nextId + 1, rollups[r.labels := Bumped(row, r.duration)]);
      kept := kept + [r];
      ScheduleOperationalPruning();
    }

    // One more request on the innermost open transaction.
    method ScheduleOperationalPruning()
      requires stack != []
      modifies this`pending
      ensures var id := stack[|stack| - 1].id; pending == old(pending)[id := Count(old(pending), id) + 1]
    {
      var id := stack[|stack| - 1].id;
      pending := pending[id := (if id in pending then pending[id] else 0) + 1];
    }

    method BeginNested()
      requires Valid()
      modifies this
      ensures Valid() && State() == Open(Began(old(State())))
    {
      hide Inv;
      Begin();
      OpenKeeps(State());
      stack, serial := stack + [Savepoint(serial, tables)], serial + 1;
    }

    // What the session's listener does when a nested transaction ends.
    method EndNested(id: nat, parent: nat)
      modifies this`pending, this`rolledBack
      ensures pending == Ended(old(pending), id, parent, id in old(rolledBack)) && rolledBack == old(rolledBack) - {id}
    {
      var count := if id in pending then pending[id] else 0;
      pending := pending - {id};
      var wasRolledBack := id in rolledBack;
      rolledBack := rolledBack - {id};
      if count > 0 && !wasRolledBack {
        pending := pending[parent := (if parent in pending then pending[parent] else 0) + count];
      }
    }

    method ReleaseSavepoint()
      requires Valid() && |stack| >= 2
      modifies this
      ensures Valid() && State() == Release(old(State()))
    {
      hide Inv, Ended;
      ReleaseKeeps(State());
      var n := |stack|;
      EndNested(stack[n - 1].id, stack[n - 2].id);
      stack := stack[..n - 1];
    }

    method RollBackSavepoint()
      requires Valid() && |stack| >= 2
      modifies this
      ensures Mark(old(stack)[|old(stack)| - 1]) <= |old(kept)|
      ensures Valid() && State() == RollBack(old(State()))
    {
      hide Inv, Ended;
      RollBackKeeps(State());
      var inner := stack[|stack| - 1];
      rolledBack := rolledBack + {inner.id};
      tables, kept := inner.before, kept[..Mark(inner)];
      EndNested(inner.id, stack[|stack| - 2].id);
      stack := stack[..|stack| - 1];
    }

    // Every savepoint still open is released on the way; then the request of the outermost transaction decides.
    method CommitTransaction(now: Time)
      requires Valid() && stack != []
      modifies this
      ensures Valid() && Step(old(State()), Commit(now), State())
    {
      hide Inv;
      ghost var s0 := State();
      while |stack| > 1
        invariant Valid() && stack != [] && ReleaseAll(State()) == ReleaseAll(s0)
        decreases |stack|
      {
        ReleaseSavepoint();
      }
      ghost var s := State();
      if Count(pending, stack[0].id) > 0 {
        var events, _ := PruneEvents(tables.events, now);
        tables := tables.(events := events);
      }
      stack, pending, rolledBack := [], map[], {};
      assert Closed(s, State(), now) by { hide NewestOf, InWindow; }
      CloseKeeps(s, State(), now);
    }
  }

  /** Inside a savepoint a release gives its requests to the transaction around it and keeps the tables, a rollback discards them and puts
      the tables back; outside one, releasing and rolling back a savepoint do nothing, and abandoning ends every level. */
  lemma LevelsEnd(s: Session, op: Op, s': Session)
    requires Step(s, op, s') && Inv(s)
    ensures op.ReleaseOne? && |s.stack| >= 2 ==>
              var n := |s.stack|;
              s'.stack == s.stack[..n - 1] && s'.tables == s.tables && s'.kept == s.kept
              && Count(s'.pending, s.stack[n - 2].id) == Count(s.pending, s.stack[n - 2].id) + Count(s.pending, s.stack[n - 1].id)
    ensures op.RollBackOne? && |s.stack| >= 2 ==>
              var n := |s.stack|;
              s'.stack == s.stack[..n - 1] && s'.tables == s.stack[n - 1].before && s'.kept <= s.kept
              && Count(s'.pending, s.stack[n - 2].id) == Count(s.pending, s.stack[n - 2].id)
    ensures (op.ReleaseOne? || op.RollBackOne?) && |s.stack| < 2 ==> s' == s
    ensures op.AbandonAll? && s.stack != [] ==> s'.stack == [] && s'.tables == s.stack[0].before && s'.pending == map[]
  {
    hide TablesOk;
    if |s.stack| >= 1 { assert LevelOk(s, |s.stack| - 1) && LevelOk(s, 0); }
  }
}
