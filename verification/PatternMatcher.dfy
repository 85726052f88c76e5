/** The position-set matcher for compiled patterns, proved against plain splitting of the value. */
module PatternMatcher {
  import opened Wrappers
  import opened PatternSyntax
  import opened PatternGrammar
  import opened PatternCompiler

  // ---------- what a match is ----------

  // One atom covers the characters from one cut to the next.
  ghost predicate Covers(a: Atom, value: string, from: nat, to: nat) {
    from <= to <= |value| && a.minimum <= to - from <= a.maximum
    && forall k :: from <= k < to ==> value[k] in a.characters
  }

  // The cuts split the first `end` characters into one consecutive run per atom.
  ghost predicate IsSplit(atoms: seq<Atom>, value: string, cuts: seq<nat>, end: nat) {
    |cuts| == |atoms| + 1 && cuts[0] == 0 && cuts[|atoms|] == end
    && forall k :: 0 <= k < |atoms| ==> Covers(atoms[k], value, cuts[k], cuts[k + 1])
  }

  ghost predicate Reaches(atoms: seq<Atom>, value: string, end: nat) {
    exists cuts :: IsSplit(atoms, value, cuts, end)
  }

  ghost predicate Accepts(atoms: seq<Atom>, value: string) {
    Reaches(atoms, value, |value|)
  }

  // ---------- prefixes of the atom list ----------

  lemma ReachesNothing(value: string, end: nat)
    ensures Reaches([], value, end) <==> end == 0
  {
    if end == 0 { assert IsSplit([], value, [0], 0); }
  }

  lemma ReachesOneMore(atoms: seq<Atom>, a: Atom, value: string, end: nat)
    ensures Reaches(atoms + [a], value, end)
       <==> exists q: nat :: Reaches(atoms, value, q) && Covers(a, value, q, end)
  {
    if Reaches(atoms + [a], value, end) {
      var cuts :| IsSplit(atoms + [a], value, cuts, end);
      var n := |atoms|;
      forall k | 0 <= k < n ensures Covers(atoms[k], value, cuts[..n + 1][k], cuts[..n + 1][k + 1]) {
        assert (atoms + [a])[k] == atoms[k];
      }
      assert IsSplit(atoms, value, cuts[..n + 1], cuts[n]);
      assert (atoms + [a])[n] == a;
    }
    if q: nat :| Reaches(atoms, value, q) && Covers(a, value, q, end) {
      var cuts :| IsSplit(atoms, value, cuts, q);
      assert IsSplit(atoms + [a], value, cuts + [end], end);
    }
  }

  // A split of the whole list splits every prefix of it.
  lemma StuckPrefix(atoms: seq<Atom>, k: nat, value: string, positions: set<nat>)
    requires k <= |atoms| && positions == {}
    requires forall q: nat :: q in positions <==> Reaches(atoms[..k], value, q)
    ensures !Accepts(atoms, value)
  {
    forall cuts | IsSplit(atoms, value, cuts, |value|) ensures false {
      assert IsSplit(atoms[..k], value, cuts[..k + 1], cuts[k]);
      assert Reaches(atoms[..k], value, cuts[k]);
    }
  }

  // No split reaches further than the maxima allow.
  lemma {:induction false} ReachIsBounded(atoms: seq<Atom>, value: string, end: nat)
    requires Reaches(atoms, value, end)
    ensures end <= States(atoms)
    decreases |atoms|
  {
    if atoms == [] {
      ReachesNothing(value, end);
    } else {
      var n := |atoms| - 1;
      assert atoms == atoms[..n] + [atoms[n]];
      ReachesOneMore(atoms[..n], atoms[n], value, end);
      var q: nat :| Reaches(atoms[..n], value, q) && Covers(atoms[n], value, q, end);
      ReachIsBounded(atoms[..n], value, q);
      StatesSnoc(atoms[..n], atoms[n]);
    }
  }

  lemma {:induction false} StatesSnoc(atoms: seq<Atom>, a: Atom)
    ensures States(atoms + [a]) == States(atoms) + a.maximum
  {
    if atoms == [] {
      assert atoms + [a] == [a];
      assert States([a]) == a.maximum + States([]);
    } else {
      assert (atoms + [a])[1..] == atoms[1..] + [a];
      StatesSnoc(atoms[1..], a);
    }
  }

  // ---------- the loops ----------

  // Every position one atom can lead to from one starting position, added to those already found.
  method Advance(a: Atom, value: string, position: nat, found: set<nat>) returns (next: set<nat>)
    requires position <= |value|
    ensures forall p: nat :: p in next <==> p in found || Covers(a, value, position, p)
  {
    next := found;
    if a.minimum == 0 { next := next + {position}; }
    var cursor, count := position, 1;
    while count <= a.maximum && cursor < |value| && value[cursor] in a.characters
      invariant 1 <= count <= a.maximum + 1 && cursor == position + count - 1 <= |value|
      invariant forall k :: position <= k < cursor ==> value[k] in a.characters
      invariant forall p: nat :: p in next <==> p in found || (Covers(a, value, position, p) && p <= cursor)
    {
      cursor := cursor + 1;
      if count >= a.minimum { next := next + {cursor}; }
      count := count + 1;
    }
  }

  // Every position one atom can lead to from any of the given positions.
  method AdvanceAll(a: Atom, value: string, positions: set<nat>) returns (next: set<nat>)
    requires forall q :: q in positions ==> q <= |value|
    ensures forall p: nat :: p in next <==> exists q: nat :: q in positions && Covers(a, value, q, p)
  {
    next := {};
    var todo := positions;
    while todo != {}
      invariant todo <= positions
      invariant forall p: nat :: p in next <==> exists q: nat :: q in positions - todo && Covers(a, value, q, p)
      decreases |todo|
    {
      var q :| q in todo;
      ghost var previous := next;
      next := Advance(a, value, q, next);
      todo := todo - {q};
    }
  }

  /** Accepts exactly the values that split into one admissible run per atom. */
  method MatchesAtoms(atoms: seq<Atom>, value: string) returns (b: bool)
    ensures b <==> Accepts(atoms, value)
  {
    var maximumLength := States(atoms);
    if |value| > maximumLength {
      if Accepts(atoms, value) { ReachIsBounded(atoms, value, |value|); }
      return false;
    }
    var positions: set<nat> := {0};
    forall p: nat ensures Reaches(atoms[..0], value, p) <==> p == 0 { ReachesNothing(value, p); }
    var i := 0;
    while i < |atoms|
      invariant 0 <= i <= |atoms|
      invariant forall p :: p in positions ==> p <= |value|
      invariant forall p: nat :: p in positions <==> Reaches(atoms[..i], value, p)
    {
      var next := AdvanceAll(atoms[i], value, positions);
      assert atoms[..i + 1] == atoms[..i] + [atoms[i]];
      forall p: nat ensures p in next <==> Reaches(atoms[..i + 1], value, p) {
        ReachesOneMore(atoms[..i], atoms[i], value, p);
      }
      if next == {} {
        StuckPrefix(atoms, i + 1, value, next);
        return false;
      }
      positions := next;
      i := i + 1;
    }
    assert atoms[..|atoms|] == atoms;
    return |value| in positions;
  }

  // The pattern spells a supported tree and the value splits over the atoms it denotes.
  ghost predicate PatternAccepts(pattern: string, value: string) {
    exists p :: WellFormed(p) && Print(p) == pattern && Accepts(Denote(p.terms), value)
  }

  /** Matches a value against an untrusted pattern without a regular-expression engine: true exactly
      when the pattern spells a supported tree and the value splits over the atoms it denotes. */
  method MatchesBoundedFormPattern(pattern: string, value: string) returns (b: bool)
    ensures b <==> PatternAccepts(pattern, value)
  {
    hide Read;
    var atoms := ParseBoundedFormPattern(pattern);
    forall p ensures Read(pattern) == Some(p) <==> WellFormed(p) && Print(p) == pattern {
      ReadingInvertsSpelling(pattern, p);
    }
    if atoms.None? { return false; }
    b := MatchesAtoms(atoms.value, value);
  }

  // ---------- what every accepted pattern guarantees ----------

  predicate BoundedAtom(a: Atom) {
    a.characters != {} && a.minimum <= a.maximum && 1 <= a.maximum <= MAX_REPEAT
  }

  lemma {:induction false} BaseIsInhabited(b: Base)
    requires WellFormedBase(b)
    ensures BaseSet(b) != {}
  {
    var u := match b case Single(u) => u case Class(items) =>
      assert WellFormedItem(items[0]); if items[0].One? then items[0].unit else items[0].low;
    var c := match u case Plain(c) => c case Escaped(c) => c case AnyDigit => '0' case AnyWord => 'a' case AnySpace => ' ';
    assert c in UnitSet(u);
    if b.Class? {
      if b.items[0].Range? { assert InRange(c, c, Literal(b.items[0].high).value); }
      assert c in ItemSet(b.items[0]);
      assert c in ItemsSet(b.items);
    }
    assert c in BaseSet(b);
  }

  lemma {:induction false} DenotedAtomsAreBounded(terms: seq<Term>)
    requires WellFormedTerms(terms)
    ensures forall a :: a in Denote(terms) ==> BoundedAtom(a)
  {
    if terms != [] {
      BaseIsInhabited(terms[0].base);
      assert BoundedAtom(TermAtom(terms[0]));
      DenotedAtomsAreBounded(terms[1..]);
    }
  }

  /** Whatever compiles is finite: inhabited sets, ordered and capped repeats, a capped state count. */
  lemma CompiledPatternsAreBounded(pattern: string)
    requires Read(pattern).Some?
    ensures var atoms := Denote(Read(pattern).value.terms);
      && atoms != [] && States(atoms) <= MAX_STATES
      && (forall a :: a in atoms ==> BoundedAtom(a))
      && (forall value :: Accepts(atoms, value) ==> |value| <= MAX_STATES)
  {
    ReadIsSpelled(pattern);
    var terms := Read(pattern).value.terms;
    DenotedAtomsAreBounded(terms);
    forall value | Accepts(Denote(terms), value) ensures |value| <= MAX_STATES {
      ReachIsBounded(Denote(terms), value, |value|);
    }
  }
}
