/** The archive deduper: an insertion-ordered map from digests to the time they were added, pruned by age and by size. A value
    stands for its digest. */
module Deduper {
  import opened Wrappers

  type Time = nat

  datatype Entry = Entry(key: string, seenAt: Time)

  datatype Limits = Limits(capacity: nat, ttl: nat)

  const DEFAULT_MAX_ENTRIES: nat := 10_000
  const DEFAULT_TTL_MS: nat := 24 * 60 * 60 * 1_000

  function Setting(value: int, default: nat): nat { if value == 0 then default else if value < 1 then 1 else value }

  /** A setting left at zero is ten thousand entries or a day, and any other is at least one. */
  lemma SettingsDefault(value: int, default: nat)
    ensures Setting(0, DEFAULT_MAX_ENTRIES) == 10_000 && Setting(0, DEFAULT_TTL_MS) == 86_400_000
    ensures value > 0 ==> Setting(value, default) == value
    ensures value < 0 ==> Setting(value, default) == 1
  {
  }

  // ---------- the map ----------

  predicate Expired(l: Limits, e: Entry, now: Time) { now - e.seenAt >= l.ttl }

  function Live(l: Limits, entries: seq<Entry>, now: Time): seq<Entry> {
    if entries == [] then []
    else if Expired(l, entries[0], now) then Live(l, entries[1..], now)
    else [entries[0]] + Live(l, entries[1..], now)
  }

  function Trimmed(l: Limits, entries: seq<Entry>): seq<Entry> {
    if |entries| > l.capacity then entries[|entries| - l.capacity..] else entries
  }

  function Pruned(l: Limits, entries: seq<Entry>, now: Time): seq<Entry> { Trimmed(l, Live(l, entries, now)) }

  function Without(entries: seq<Entry>, key: string): seq<Entry> {
    if entries == [] then []
    else if entries[0].key == key then Without(entries[1..], key)
    else [entries[0]] + Without(entries[1..], key)
  }

  predicate Contains(entries: seq<Entry>, key: string) { exists i :: 0 <= i < |entries| && entries[i].key == key }

  function SeenAt(entries: seq<Entry>, key: string): Time
    requires Contains(entries, key)
  {
    if entries[0].key == key then entries[0].seenAt
    else
      assert Contains(entries[1..], key) by {
        var i :| 0 <= i < |entries| && entries[i].key == key;
        assert entries[1..][i - 1] == entries[i];
      }
      SeenAt(entries[1..], key)
  }

  // A hit moves the entry to the recent end and keeps the time it was added.
  function Has(l: Limits, entries: seq<Entry>, key: string, now: Time): (seq<Entry>, bool) {
    var pruned := Pruned(l, entries, now);
    if Contains(pruned, key) then (Without(pruned, key) + [Entry(key, SeenAt(pruned, key))], true) else (pruned, false)
  }

  function Add(l: Limits, entries: seq<Entry>, key: string, now: Time): seq<Entry> {
    Pruned(l, Without(Pruned(l, entries, now), key) + [Entry(key, now)], now)
  }

  class BoundedDeduper {
    const limits: Limits
    var entries: seq<Entry>

    // An option of zero counts as absent and takes its default; anything below one is raised to one.
    constructor (maxEntries: int, ttl: int)
      ensures limits == Limits(Setting(maxEntries, DEFAULT_MAX_ENTRIES), Setting(ttl, DEFAULT_TTL_MS)) && entries == []
      ensures limits.capacity >= 1 && limits.ttl >= 1
    {
      limits := Limits(Setting(maxEntries, DEFAULT_MAX_ENTRIES), Setting(ttl, DEFAULT_TTL_MS));
      entries := [];
    }

    method Prune(now: Time)
      modifies this
      ensures entries == Pruned(limits, old(entries), now)
    {
      var i := 0;
      while i < |entries|
        invariant 0 <= i <= |entries|
        invariant entries[..i] + Live(limits, entries[i..], now) == Live(limits, old(entries), now)
        decreases |entries| - i
      {
        ghost var before := entries;
        if Expired(limits, entries[i], now) {
          entries := entries[..i] + entries[i + 1..];
          assert before[i..][1..] == entries[i..] && entries[..i] == before[..i];
        } else {
          assert entries[i..][1..] == entries[i + 1..] && entries[..i + 1] == entries[..i] + [entries[i]];
          i := i + 1;
        }
      }
      assert entries[..i] + [] == entries;
      ghost var live := entries;
      while |entries| > limits.capacity
        invariant |entries| <= |live| && entries == live[|live| - |entries|..] && (|live| > limits.capacity ==> |entries| >= limits.capacity)
        invariant |live| <= limits.capacity ==> entries == live
        decreases |entries|
      {
        entries := entries[1..];
      }
    }

    method Delete(key: string)
      modifies this
      ensures entries == Without(old(entries), key)
    {
      var i := 0;
      while i < |entries|
        invariant 0 <= i <= |entries|
        invariant entries[..i] + Without(entries[i..], key) == Without(old(entries), key)
        decreases |entries| - i
      {
        ghost var before := entries;
        if entries[i].key == key {
          entries := entries[..i] + entries[i + 1..];
          assert before[i..][1..] == entries[i..] && entries[..i] == before[..i];
        } else {
          assert entries[i..][1..] == entries[i + 1..] && entries[..i + 1] == entries[..i] + [entries[i]];
          i := i + 1;
        }
      }
      assert entries[..i] + [] == entries;
    }

    method HasValue(key: string, now: Time) returns (hit: bool)
      modifies this
      ensures (entries, hit) == Has(limits, old(entries), key, now)
    {
      Prune(now);
      hit := Contains(entries, key);
      if hit {
        var seenAt := SeenAt(entries, key);
        Delete(key);
        entries := entries + [Entry(key, seenAt)];
      }
    }

    method AddValue(key: string, now: Time)
      modifies this
      ensures entries == Add(limits, old(entries), key, now)
    {
      Prune(now);
      Delete(key);
      entries := entries + [Entry(key, now)];
      Prune(now);
    }
  }

  // ---------- call histories ----------

  datatype Call = Added(key: string, at: Time) | Asked(key: string, at: Time)

  // The map after a history of calls that started from an empty one.
  function Entries(l: Limits, calls: seq<Call>): seq<Entry> {
    if calls == [] then []
    else
      var entries := Entries(l, calls[..|calls| - 1]);
      match calls[|calls| - 1]
      case Added(key, at) => Add(l, entries, key, at)
      case Asked(key, at) => Has(l, entries, key, at).0
  }

  // What the last call of the history touched: an added value, or a value found.
  function Touched(l: Limits, calls: seq<Call>): Option<string>
    requires calls != []
  {
    match calls[|calls| - 1]
    case Added(key, at) => Some(key)
    case Asked(key, at) => if Has(l, Entries(l, calls[..|calls| - 1]), key, at).1 then Some(key) else None
  }

  function LastAdded(calls: seq<Call>, key: string): Option<Time> {
    if calls == [] then None
    else if calls[|calls| - 1].Added? && calls[|calls| - 1].key == key then Some(calls[|calls| - 1].at)
    else LastAdded(calls[..|calls| - 1], key)
  }

  // The other values touched since the value itself was.
  function OthersSince(l: Limits, calls: seq<Call>, key: string): set<string> {
    if calls == [] then {}
    else
      var t := Touched(l, calls);
      if t == Some(key) then {}
      else OthersSince(l, calls[..|calls| - 1], key) + if t.Some? then {t.value} else {}
  }

  ghost predicate Forward(calls: seq<Call>) { forall i, j :: 0 <= i < j < |calls| ==> calls[i].at <= calls[j].at }

  function Clock(calls: seq<Call>): Time { if calls == [] then 0 else calls[|calls| - 1].at }

  // ---------- facts about the map operations ----------

  ghost predicate Distinct(entries: seq<Entry>) { forall i, j :: 0 <= i < j < |entries| ==> entries[i].key != entries[j].key }

  // The keys that come after the key's entry.
  function After(entries: seq<Entry>, key: string): set<string> {
    if entries == [] then {}
    else if entries[0].key == key then set i | 1 <= i < |entries| :: entries[i].key
    else After(entries[1..], key)
  }

  lemma TailIsHeld(entries: seq<Entry>, key: string)
    requires entries != []
    ensures Contains(entries, key) <==> entries[0].key == key || Contains(entries[1..], key)
  {
    if i :| 0 <= i < |entries| && entries[i].key == key {
      if i > 0 { assert entries[1..][i - 1].key == key; }
    }
    if j :| 0 <= j < |entries[1..]| && entries[1..][j].key == key {
      assert entries[j + 1].key == key;
    }
  }

  // What a list says about one key: the same time, and no more keys after it, as another list.
  ghost predicate Agrees(shorter: seq<Entry>, longer: seq<Entry>, key: string) {
    Contains(shorter, key) ==>
      Contains(longer, key) && SeenAt(shorter, key) == SeenAt(longer, key) && After(shorter, key) <= After(longer, key)
  }

  lemma {:induction false} LiveAgrees(l: Limits, entries: seq<Entry>, now: Time, key: string)
    requires Distinct(entries)
    ensures var live := Live(l, entries, now);
      && Distinct(live) && |live| <= |entries| && Agrees(live, entries, key)
      && (forall k: string :: Contains(live, k) ==> Contains(entries, k))
      && (Contains(entries, key) && !Expired(l, Entry(key, SeenAt(entries, key)), now) ==> Contains(live, key))
      && (Contains(live, key) ==> !Expired(l, Entry(key, SeenAt(live, key)), now))
    decreases |entries|
  {
    if entries != [] {
      var head, rest := entries[0], entries[1..];
      var live := Live(l, rest, now);
      LiveAgrees(l, rest, now, key);
      forall k: string ensures Contains(entries, k) <==> head.key == k || Contains(rest, k) { TailIsHeld(entries, k); }
      assert !Contains(rest, head.key);
      if !Expired(l, head, now) {
        PrependAgrees(head, live, rest, key);
        assert entries == [head] + rest;
      }
    }
  }

  // Putting the same entry in front of both lists.
  lemma PrependAgrees(e: Entry, shorter: seq<Entry>, longer: seq<Entry>, key: string)
    requires Agrees(shorter, longer, key) && Distinct(shorter) && !Contains(longer, e.key)
    requires forall k: string :: Contains(shorter, k) ==> Contains(longer, k)
    ensures Agrees([e] + shorter, [e] + longer, key) && Distinct([e] + shorter)
    ensures forall k: string :: Contains([e] + shorter, k) <==> e.key == k || Contains(shorter, k)
  {
    forall k: string ensures Contains([e] + shorter, k) <==> e.key == k || Contains(shorter, k) { TailIsHeld([e] + shorter, k); }
    TailIsHeld([e] + longer, key);
    assert ([e] + shorter)[1..] == shorter && ([e] + longer)[1..] == longer;
    forall i | 0 <= i < |shorter| ensures shorter[i].key != e.key && Contains(longer, shorter[i].key) {
      assert Contains(shorter, shorter[i].key);
    }
    if e.key == key {
      forall k | k in After([e] + shorter, key) ensures k in After([e] + longer, key) {
        var i :| 1 <= i < |[e] + shorter| && ([e] + shorter)[i].key == k;
        assert Contains(longer, shorter[i - 1].key);
        var j :| 0 <= j < |longer| && longer[j].key == k;
        assert ([e] + longer)[j + 1].key == k;
      }
    }
  }

  lemma {:induction false} WithoutAgrees(entries: seq<Entry>, gone: string, key: string)
    requires Distinct(entries)
    ensures var rest := Without(entries, gone);
      && Distinct(rest) && Agrees(rest, entries, key) && |rest| <= |entries| && (Contains(entries, gone) ==> |rest| < |entries|)
      && forall k: string :: Contains(rest, k) <==> Contains(entries, k) && k != gone
    decreases |entries|
  {
    if entries != [] {
      var head, tail := entries[0], entries[1..];
      WithoutAgrees(tail, gone, key);
      forall k: string ensures Contains(entries, k) <==> head.key == k || Contains(tail, k) { TailIsHeld(entries, k); }
      assert !Contains(tail, head.key);
      if head.key != gone {
        PrependAgrees(head, Without(tail, gone), tail, key);
        assert entries == [head] + tail;
      }
    }
  }

  lemma {:induction false} AppendAgrees(entries: seq<Entry>, e: Entry, key: string)
    requires Distinct(entries) && !Contains(entries, e.key)
    ensures var longer := entries + [e];
      && Distinct(longer) && (Contains(longer, key) <==> Contains(entries, key) || key == e.key)
      && (Contains(entries, key) ==> SeenAt(longer, key) == SeenAt(entries, key) && After(longer, key) == After(entries, key) + {e.key})
      && (key == e.key ==> SeenAt(longer, key) == e.seenAt && After(longer, key) == {})
    decreases |entries|
  {
    var longer := entries + [e];
    assert longer[|entries|] == e;
    forall i | 0 <= i < |entries| ensures entries[i].key != e.key { assert Contains(entries, entries[i].key); }
    if entries != [] {
      var head, tail := entries[0], entries[1..];
      TailIsHeld(entries, key);
      TailIsHeld(longer, key);
      TailIsHeld(entries, e.key);
      assert longer[1..] == tail + [e];
      AppendAgrees(tail, e, key);
      if head.key == key {
        assert After(longer, key) == After(entries, key) + {e.key} by {
          forall k | k in After(entries, key) ensures k in After(longer, key) {
            var i :| 1 <= i < |entries| && entries[i].key == k;
            assert longer[i].key == k;
          }
        }
      }
    }
  }

  // Dropping the oldest entries: a key that goes had as many keys after it as stay.
  lemma {:induction false} DropAgrees(entries: seq<Entry>, n: nat, key: string)
    requires Distinct(entries) && n <= |entries|
    ensures var rest := entries[n..];
      && Distinct(rest) && Agrees(rest, entries, key) && (forall k: string :: Contains(rest, k) ==> Contains(entries, k))
      && (Contains(entries, key) && !Contains(rest, key) ==> |After(entries, key)| >= |entries| - n)
    decreases n
  {
    if n == 0 {
      assert entries[0..] == entries;
    } else {
      var tail := entries[1..];
      DropAgrees(tail, n - 1, key);
      assert tail[n - 1..] == entries[n..];
      forall k: string ensures Contains(entries, k) <==> entries[0].key == k || Contains(tail, k) { TailIsHeld(entries, k); }
      if entries[0].key == key {
        assert !Contains(tail, key);
        AllAfterHead(entries);
      }
    }
  }

  lemma AllAfterHead(entries: seq<Entry>)
    requires Distinct(entries) && entries != []
    ensures |After(entries, entries[0].key)| == |entries| - 1
  {
    DistinctKeysCount(entries, |entries|);
  }

  lemma {:induction false} DistinctKeysCount(entries: seq<Entry>, n: nat)
    requires Distinct(entries) && 1 <= n <= |entries|
    ensures |set i | 1 <= i < n :: entries[i].key| == n - 1
    decreases n
  {
    var keys := set i | 1 <= i < n :: entries[i].key;
    if n == 1 {
      assert keys == {};
    } else {
      DistinctKeysCount(entries, n - 1);
      var fewer := set i | 1 <= i < n - 1 :: entries[i].key;
      assert keys == fewer + {entries[n - 1].key};
      assert entries[n - 1].key !in fewer;
    }
  }

  // ---------- tracking one value ----------

  // While the value is held, its time is that of its last addition and only values touched since come after it. When it is
  // not, it has expired or been crowded out.
  ghost predicate Tracks(l: Limits, entries: seq<Entry>, key: string, added: Option<Time>, others: set<string>, now: Time) {
    && (Contains(entries, key) ==> added == Some(SeenAt(entries, key)) && After(entries, key) <= others)
    && (!Contains(entries, key) && added.Some? ==> now - added.value >= l.ttl || |others| >= l.capacity)
  }

  lemma PrunedTracks(l: Limits, entries: seq<Entry>, key: string, added: Option<Time>, others: set<string>, now: Time, now': Time)
    requires Distinct(entries) && Tracks(l, entries, key, added, others, now) && now <= now'
    ensures var pruned := Pruned(l, entries, now');
      && Distinct(pruned) && |pruned| <= l.capacity && Tracks(l, pruned, key, added, others, now')
      && (Contains(pruned, key) ==> now' - SeenAt(pruned, key) < l.ttl)
      && (forall k: string :: Contains(pruned, k) ==> Contains(entries, k))
  {
    var live := Live(l, entries, now');
    LiveAgrees(l, entries, now', key);
    var dropped := if |live| > l.capacity then |live| - l.capacity else 0;
    DropAgrees(live, dropped, key);
    assert live[0..] == live;
    var pruned := Pruned(l, entries, now');
    assert pruned == live[dropped..];
    hide Pruned, Live, After, SeenAt;
    if Contains(live, key) && !Contains(pruned, key) {
      SubsetCard(After(live, key), others);
    }
  }

  lemma SubsetCard(a: set<string>, b: set<string>)
    requires a <= b
    ensures |a| <= |b|
  {
    assert b == a + (b - a);
    assert |b| == |a| + |b - a|;
  }

  lemma RemovedTracks(l: Limits, entries: seq<Entry>, gone: string, key: string, added: Option<Time>, others: set<string>, now: Time)
    requires Distinct(entries) && Tracks(l, entries, key, added, others, now) && key != gone
    ensures Tracks(l, Without(entries, gone), key, added, others, now)
  {
    WithoutAgrees(entries, gone, key);
    hide Without;
  }

  lemma AppendedTracks(l: Limits, entries: seq<Entry>, e: Entry, key: string, added: Option<Time>, others: set<string>, now: Time)
    requires Distinct(entries) && !Contains(entries, e.key) && key != e.key && Tracks(l, entries, key, added, others, now)
    ensures Tracks(l, entries + [e], key, added, others + {e.key}, now)
  {
    AppendAgrees(entries, e, key);
    SubsetCard(others, others + {e.key});
  }

  // ---------- every call keeps track ----------

  lemma MovedTracks(l: Limits, entries: seq<Entry>, e: Entry, key: string, added: Option<Time>, others: set<string>, now: Time)
    requires Distinct(entries) && Tracks(l, entries, key, added, others, now)
    ensures var moved := Without(entries, e.key) + [e];
      && Distinct(moved)
      && (key != e.key ==> Tracks(l, moved, key, added, others + {e.key}, now))
      && (key == e.key ==> Tracks(l, moved, key, Some(e.seenAt), {}, now))
      && |moved| <= |entries| + 1 && (Contains(entries, e.key) ==> |moved| <= |entries|)
  {
    WithoutAgrees(entries, e.key, key);
    WithoutAgrees(entries, e.key, e.key);
    var rest := Without(entries, e.key);
    AppendAgrees(rest, e, key);
    if key != e.key {
      RemovedTracks(l, entries, e.key, key, added, others, now);
      AppendedTracks(l, rest, e, key, added, others, now);
    }
    hide Without, SeenAt, After;
  }

  lemma {:induction false} HistoryTracks(l: Limits, calls: seq<Call>, key: string)
    requires l.capacity >= 1 && l.ttl >= 1 && Forward(calls)
    ensures var entries := Entries(l, calls);
      Distinct(entries) && |entries| <= l.capacity
      && Tracks(l, entries, key, LastAdded(calls, key), OthersSince(l, calls, key), Clock(calls))
    decreases |calls|
  {
    if calls != [] {
      var init, last := calls[..|calls| - 1], calls[|calls| - 1];
      HistoryTracks(l, init, key);
      CallTracks(l, Entries(l, init), last, key, LastAdded(init, key), OthersSince(l, init, key), Clock(init));
      hide Tracks, Distinct, Add, Has;
      assert OthersSince(l, calls, key) == Others(l, Entries(l, init), last, key, OthersSince(l, init, key));
    }
  }

  function Others(l: Limits, entries: seq<Entry>, call: Call, key: string, others: set<string>): set<string> {
    var t := if call.Added? || Has(l, entries, call.key, call.at).1 then Some(call.key) else None;
    if t == Some(key) then {} else others + if t.Some? then {t.value} else {}
  }

  lemma CallTracks(l: Limits, entries: seq<Entry>, call: Call, key: string, added: Option<Time>, others: set<string>, now: Time)
    requires l.capacity >= 1 && l.ttl >= 1 && now <= call.at && Distinct(entries) && Tracks(l, entries, key, added, others, now)
    ensures var entries' := if call.Added? then Add(l, entries, call.key, call.at) else Has(l, entries, call.key, call.at).0;
      var added' := if call.Added? && call.key == key then Some(call.at) else added;
      && Distinct(entries') && |entries'| <= l.capacity
      && Tracks(l, entries', key, added', Others(l, entries, call, key, others), call.at)
  {
    var pruned := Pruned(l, entries, call.at);
    PrunedTracks(l, entries, key, added, others, now, call.at);
    if call.Added? {
      var e := Entry(call.key, call.at);
      MovedTracks(l, pruned, e, key, added, others, call.at);
      var moved := Without(pruned, call.key) + [e];
      var others' := Others(l, entries, call, key, others);
      var added' := if call.key == key then Some(call.at) else added;
      hide Pruned, Tracks;
      PrunedTracks(l, moved, key, added', others', call.at, call.at);
    } else if Contains(pruned, call.key) {
      MovedTracks(l, pruned, Entry(call.key, SeenAt(pruned, call.key)), key, added, others, call.at);
    }
  }

  // ---------- main results ----------

  /** For every history of calls with a clock that never goes back, the index stays within its capacity; a value is found only
      if it was last added less than the time to live ago; and it is found whenever that is so and fewer than `capacity`
      other values were added or found since the value itself was. */
  lemma DedupesWithinItsLimits(l: Limits, calls: seq<Call>, key: string, now: Time)
    requires l.capacity >= 1 && l.ttl >= 1 && Forward(calls) && Clock(calls) <= now
    ensures |Entries(l, calls)| <= l.capacity
    ensures var hit := Has(l, Entries(l, calls), key, now).1;
      var added := LastAdded(calls, key);
      && (hit ==> added.Some? && now - added.value < l.ttl)
      && (added.Some? && now - added.value < l.ttl && |OthersSince(l, calls, key)| < l.capacity ==> hit)
  {
    HistoryTracks(l, calls, key);
    PrunedTracks(l, Entries(l, calls), key, LastAdded(calls, key), OthersSince(l, calls, key), Clock(calls), now);
    hide Entries, OthersSince, LastAdded, Pruned;
  }
}
