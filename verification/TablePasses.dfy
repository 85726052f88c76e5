/** One pass over a table whose rows come back in no particular order: what has been rewritten and how many rows counted. */
module TablePasses {
  // Rows visited so far hold their target value; the others are untouched.
  ghost predicate Rewriting<K, V>(before: map<K, V>, target: map<K, V>, todo: set<K>, table: map<K, V>) {
    && todo <= before.Keys && table.Keys == before.Keys == target.Keys
    && forall k :: k in before ==> table[k] == if k in todo then before[k] else target[k]
  }

  lemma RewritingStarts<K, V>(before: map<K, V>, target: map<K, V>)
    requires target.Keys == before.Keys
    ensures Rewriting(before, target, before.Keys, before)
  {
  }

  lemma Rewritten<K, V>(before: map<K, V>, target: map<K, V>, todo: set<K>, table: map<K, V>, k: K)
    requires Rewriting(before, target, todo, table) && k in todo
    ensures k in before && k in table && k in target && table[k] == before[k]
    ensures Rewriting(before, target, todo - {k}, table[k := target[k]])
    ensures target[k] == before[k] ==> Rewriting(before, target, todo - {k}, table)
  {
  }

  lemma RewritingEnds<K, V>(before: map<K, V>, target: map<K, V>, table: map<K, V>)
    requires Rewriting(before, target, {}, table)
    ensures table == target
  {
  }

  // So many of the rows visited so far were hits.
  ghost predicate Tally<K>(hits: set<K>, todo: set<K>, count: nat) { count == |hits - todo| }

  lemma TallyStarts<K>(hits: set<K>, all: set<K>)
    requires hits <= all
    ensures Tally(hits, all, 0)
  {
    assert hits - all == {};
  }

  lemma Tallied<K>(hits: set<K>, todo: set<K>, count: nat, k: K)
    requires k in todo && Tally(hits, todo, count)
    ensures Tally(hits, todo - {k}, if k in hits then count + 1 else count)
  {
    assert hits - (todo - {k}) == hits - todo + if k in hits then {k} else {};
  }

  lemma TallyEnds<K>(hits: set<K>, count: nat)
    requires Tally(hits, {}, count)
    ensures count == |hits|
  {
    assert hits - {} == hits;
  }
}
