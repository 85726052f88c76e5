/** The bounded-pattern compiler: cursor-driven loops over an untrusted pattern, as the domain
    boundary runs them, proved against the syntax trees. */
module PatternCompiler {
  import opened Wrappers
  import opened PatternSyntax
  import opened PatternGrammar

  // ---------- single steps ----------

  function EscapedPatternCharacters(pattern: string, index: nat): (r: Option<(set<char>, nat)>)
    requires index < |pattern| && pattern[index] == '\\'
    ensures r.Some? <==> ReadEscape(pattern[index..]).Some?
    ensures r.Some? ==> index < r.value.1 <= |pattern|
    ensures r.Some? ==> pattern[r.value.1..] == ReadEscape(pattern[index..]).value.1
    ensures r.Some? ==> r.value.0 == UnitSet(ReadEscape(pattern[index..]).value.0)
  {
    if index + 1 >= |pattern| then None
    else
      var escaped := pattern[index + 1];
      assert pattern[index..][2..] == pattern[index + 2..];
      if escaped == 'd' then Some(((set c: char | IsDigit(c)), index + 2))
      else if escaped == 'w' then Some(((set c: char | IsWord(c)), index + 2))
      else if escaped == 's' then Some(((set c: char | IsSpace(c)), index + 2))
      else if IsEscapable(escaped) then Some(({escaped}, index + 2))
      else None
  }

  lemma SoleElement(s: set<char>, a: char, b: char)
    requires |s| == 1 && a in s && b in s
    ensures a == b
  {
    assert |s - {a}| == 0;
  }

  // The only member of a one-element set.
  function Sole(s: set<char>): (r: Option<char>)
    ensures r.Some? <==> |s| == 1
    ensures r.Some? ==> s == {r.value}
  {
    if |s| == 1 then
      assert s != {};
      assert forall a, b :: a in s && b in s ==> a == b by {
        forall a, b | a in s && b in s ensures a == b { SoleElement(s, a, b); }
      }
      var c :| c in s;
      Some(c)
    else None
  }

  lemma {:induction false} SoleOfUnit(u: Unit)
    ensures Sole(UnitSet(u)) == Literal(u)
  {
    match u
    case AnyDigit => if |UnitSet(u)| == 1 { SoleElement(UnitSet(u), '0', '1'); }
    case AnyWord => if |UnitSet(u)| == 1 { SoleElement(UnitSet(u), 'a', 'b'); }
    case AnySpace => if |UnitSet(u)| == 1 { SoleElement(UnitSet(u), ' ', '\t'); }
    case Plain(c) => assert c in UnitSet(u) && Sole(UnitSet(u)).value in UnitSet(u);
    case Escaped(c) => assert c in UnitSet(u) && Sole(UnitSet(u)).value in UnitSet(u);
  }

  function ClassUnit(pattern: string, index: nat): (r: Option<(set<char>, Option<char>, nat)>)
    requires index <= |pattern|
    ensures r.Some? <==> ReadUnit(pattern[index..]).Some?
    ensures r.Some? ==> index < r.value.2 <= |pattern|
    ensures r.Some? ==> pattern[r.value.2..] == ReadUnit(pattern[index..]).value.1
    ensures r.Some? ==> r.value.0 == UnitSet(ReadUnit(pattern[index..]).value.0)
    ensures r.Some? ==> r.value.1 == Literal(ReadUnit(pattern[index..]).value.0)
  {
    if index >= |pattern| || pattern[index] == ']' then None
    else if pattern[index] == '\\' then
      var escaped := EscapedPatternCharacters(pattern, index);
      if escaped.None? then None
      else
        SoleOfUnit(ReadEscape(pattern[index..]).value.0);
        Some((escaped.value.0, Sole(escaped.value.0), escaped.value.1))
    else
      var character := pattern[index];
      if !IsPlain(character) || character == '[' then None
      else Some(({character}, Some(character), index + 1))
  }

  // The repetition bounds between braces: one count, or two separated by a comma.
  function CountBounds(body: string): (r: Option<(nat, nat)>)
    ensures r.Some? <==> ReadCounts(body).Some?
    ensures r.Some? ==> r.value == (Minimum(ReadCounts(body).value), Maximum(ReadCounts(body).value))
  {
    hide CountValue;
    var comma := IndexOf(body, ',');
    assert comma == |body| ==> body[..comma] == body;
    var low := body[..comma];
    var high := if comma == |body| then low else body[comma + 1..];
    if !IsCount(low) || !IsCount(high) then None
    else
      var minimum, maximum := CountValue(low), CountValue(high);
      if maximum < 1 || minimum > maximum || maximum > MAX_REPEAT then None
      else Some((minimum, maximum))
  }

  // The result agrees with reading a quantifier at the index.
  ghost predicate QuantifierAt(pattern: string, index: nat, r: Option<(nat, nat, nat)>)
    requires index <= |pattern|
  {
    var q := ReadQuantifier(pattern[index..]);
    && (r.Some? <==> q.Some?)
    && (r.Some? ==>
      && index <= r.value.2 <= |pattern| && pattern[r.value.2..] == q.value.1
      && r.value.0 == Minimum(q.value.0) && r.value.1 == Maximum(q.value.0))
  }

  lemma {:induction false} BracesAt(pattern: string, index: nat, close: nat)
    requires index < |pattern| && pattern[index] == '{' && close == IndexOf(pattern[index + 1..], '}')
    ensures close == |pattern[index + 1..]| ==> QuantifierAt(pattern, index, None)
    ensures close < |pattern[index + 1..]| ==>
      var bounds := CountBounds(pattern[index + 1..][..close]);
      QuantifierAt(pattern, index,
                   if bounds.None? then None else Some((bounds.value.0, bounds.value.1, index + close + 2)))
  {
    hide ReadCounts, CountBounds, CountValue;
    var s := pattern[index..];
    assert s[1..] == pattern[index + 1..];
    if close < |s[1..]| { assert s[1..][close + 1..] == pattern[index + close + 2..]; }
  }

  lemma {:induction false} NoBracesAt(pattern: string, index: nat)
    requires index <= |pattern| && (index < |pattern| ==> pattern[index] != '{')
    ensures QuantifierAt(pattern, index,
      if index == |pattern| then Some((1, 1, index))
      else if pattern[index] == '?' then Some((0, 1, index + 1))
      else if pattern[index] == '*' || pattern[index] == '+' then None
      else Some((1, 1, index)))
  {
  }

  method BoundedQuantifier(pattern: string, index: nat) returns (r: Option<(nat, nat, nat)>)
    requires index <= |pattern|
    ensures QuantifierAt(pattern, index, r)
  {
    hide QuantifierAt, CountBounds, IndexOf;
    if index < |pattern| && pattern[index] == '{' {
      var close := IndexOf(pattern[index + 1..], '}');
      BracesAt(pattern, index, close);
      if close == |pattern[index + 1..]| { return None; }
      var bounds := CountBounds(pattern[index + 1..][..close]);
      if bounds.None? { return None; }
      return Some((bounds.value.0, bounds.value.1, index + close + 2));
    }
    NoBracesAt(pattern, index);
    if index >= |pattern| { return Some((1, 1, index)); }
    if pattern[index] == '?' { return Some((0, 1, index + 1)); }
    if pattern[index] == '*' || pattern[index] == '+' { return None; }
    return Some((1, 1, index));
  }

  // ---------- the class loop ----------

  lemma {:induction false} ItemsSetSnoc(items: seq<Item>, i: Item)
    requires WellFormedItems(items) && WellFormedItem(i)
    ensures WellFormedItems(items + [i])
    ensures ItemsSet(items + [i]) == ItemsSet(items) + ItemSet(i)
  {
    if items == [] {
      assert items + [i] == [i];
      assert ItemsSet([i]) == ItemSet(i) + ItemsSet([]);
    } else {
      assert (items + [i])[1..] == items[1..] + [i];
      ItemsSetSnoc(items[1..], i);
    }
  }

  // What reading a class gives once some items are already behind the cursor.
  ghost function After(seen: seq<Item>, s: string): Option<(seq<Item>, string)> {
    match ReadItems(s)
    case None => None
    case Some((items, rest)) => Some((seen + items, rest))
  }

  lemma {:induction false} AfterOne(seen: seq<Item>, s: string)
    requires s != [] && s[0] != ']'
    ensures ReadItem(s).None? ==> After(seen, s).None?
    ensures ReadItem(s).Some? ==> After(seen, s) == After(seen + [ReadItem(s).value.0], ReadItem(s).value.1)
  {
    hide ReadItem;
    if ReadItem(s).Some? && ReadItems(ReadItem(s).value.1).Some? {
      var item, tail := ReadItem(s).value.0, ReadItem(s).value.1;
      assert seen + ([item] + ReadItems(tail).value.0) == seen + [item] + ReadItems(tail).value.0;
    }
  }

  method CharacterClass(pattern: string, index: nat) returns (r: Option<(set<char>, nat)>)
    requires index < |pattern| && pattern[index] == '['
    ensures r.Some? <==> ReadBase(pattern[index..]).Some?
    ensures r.Some? ==> index < r.value.1 <= |pattern|
    ensures r.Some? ==> pattern[r.value.1..] == ReadBase(pattern[index..]).value.1
    ensures r.Some? ==> WellFormedBase(ReadBase(pattern[index..]).value.0)
    ensures r.Some? ==> r.value.0 == BaseSet(ReadBase(pattern[index..]).value.0)
  {
    hide ReadItem, ReadItems, ReadUnit, ReadBase, UnitSet, ItemSet, BaseSet, ClassUnit, After, InRange, WellFormedItem, WellFormedBase;
    var cursor := index + 1;
    ClassIsItems(pattern, index);
    if cursor >= |pattern| || pattern[cursor] == '^' || pattern[cursor] == ']' { return None; }
    var characters: set<char> := {};
    ghost var seen: seq<Item> := [];
    NothingSeen(pattern[cursor..]);
    while cursor < |pattern| && pattern[cursor] != ']'
      invariant index < cursor <= |pattern|
      invariant WellFormedItems(seen) && characters == ItemsSet(seen)
      invariant ReadItems(pattern[index + 1..]) == After(seen, pattern[cursor..])
      decreases |pattern| - cursor
    {
      AfterOne(seen, pattern[cursor..]);
      ItemAt(pattern, cursor);
      ghost var item := ReadItem(pattern[cursor..]);
      var first := ClassUnit(pattern, cursor);
      if first.None? { return None; }
      var (firstChars, firstLiteral, next) := first.value;
      cursor := next;
      if cursor + 1 < |pattern| && pattern[cursor] == '-' && pattern[cursor + 1] != ']' {
        var second := ClassUnit(pattern, cursor + 1);
        if second.None? { return None; }
        var (secondChars, secondLiteral, next') := second.value;
        cursor := next';
        if firstLiteral.None? || secondLiteral.None? || firstLiteral.value > secondLiteral.value { return None; }
        characters := characters + set c: char | InRange(firstLiteral.value, c, secondLiteral.value);
      } else {
        characters := characters + firstChars;
      }
      ItemsSetSnoc(seen, item.value.0);
      seen := seen + [item.value.0];
    }
    AfterLast(seen, pattern[cursor..]);
    if cursor >= |pattern| { return None; }
    BaseReadIsSpelled(pattern[index..]);
    ClassSet(seen);
    assert pattern[cursor..][1..] == pattern[cursor + 1..];
    return Some((characters, cursor + 1));
  }

  lemma {:induction false} ClassSet(items: seq<Item>)
    requires WellFormedBase(Class(items)) && WellFormedItems(items)
    ensures BaseSet(Class(items)) == ItemsSet(items)
  {
  }

  lemma {:induction false} NothingSeen(s: string)
    ensures After([], s) == ReadItems(s)
    ensures WellFormedItems([]) && ItemsSet([]) == {}
  {
    if ReadItems(s).Some? { assert [] + ReadItems(s).value.0 == ReadItems(s).value.0; }
  }

  lemma {:induction false} AfterLast(seen: seq<Item>, s: string)
    requires s == [] || s[0] == ']'
    ensures After(seen, s) == if s == [] then None else Some((seen, s[1..]))
  {
    if s != [] { assert seen + [] == seen; }
  }

  lemma {:induction false} ClassIsItems(pattern: string, index: nat)
    requires index < |pattern| && pattern[index] == '['
    ensures var s, inner := pattern[index..], pattern[index + 1..];
      if inner == [] || inner[0] == '^' || inner[0] == ']' then ReadBase(s).None?
      else if ReadItems(inner).None? then ReadBase(s).None?
      else ReadBase(s) == Some((Class(ReadItems(inner).value.0), ReadItems(inner).value.1))
  {
    hide ReadItems;
    assert pattern[index..][1..] == pattern[index + 1..];
  }

  // One class item, read as one or two cursor steps.
  lemma {:induction false} ItemAt(pattern: string, index: nat)
    requires index < |pattern|
    ensures var s, first := pattern[index..], ClassUnit(pattern, index);
      && (first.None? ==> ReadItem(s).None?)
      && (first.Some? ==>
        var (cs, a, next) := first.value;
        if next + 1 < |pattern| && pattern[next] == '-' && pattern[next + 1] != ']' then
          RangeAt(pattern, s, a, next)
        else
          && ReadItem(s).Some? && ReadItem(s).value.1 == pattern[next..]
          && WellFormedItem(ReadItem(s).value.0) && ItemSet(ReadItem(s).value.0) == cs)
  {
    hide ReadUnit, ClassUnit;
    var first := ClassUnit(pattern, index);
    if first.Some? {
      var next := first.value.2;
      if next < |pattern| { assert pattern[next..][1..] == pattern[next + 1..]; }
    }
  }

  ghost predicate RangeAt(pattern: string, s: string, a: Option<char>, dash: nat)
    requires dash + 1 < |pattern|
  {
    var second := ClassUnit(pattern, dash + 1);
    if second.None? || a.None? || second.value.1.None? || a.value > second.value.1.value then ReadItem(s).None?
    else
      && ReadItem(s).Some? && ReadItem(s).value.1 == pattern[second.value.2..]
      && WellFormedItem(ReadItem(s).value.0)
      && ItemSet(ReadItem(s).value.0) == set c: char | InRange(a.value, c, second.value.1.value)
  }

  // ---------- the pattern loop ----------

  method CountSlashes(text: string) returns (count: nat)
    ensures count == TrailingSlashes(text)
  {
    count := 0;
    var k := |text|;
    assert text[..k] == text;
    while k > 0 && text[k - 1] == '\\'
      invariant 0 <= k <= |text|
      invariant count + TrailingSlashes(text[..k]) == TrailingSlashes(text)
    {
      assert text[..k][..k - 1] == text[..k - 1];
      count, k := count + 1, k - 1;
    }
  }

  lemma {:induction false} DenoteSnoc(terms: seq<Term>, t: Term)
    requires WellFormedTerms(terms) && WellFormedTerm(t)
    ensures WellFormedTerms(terms + [t])
    ensures Denote(terms + [t]) == Denote(terms) + [TermAtom(t)]
  {
    if terms == [] {
      assert terms + [t] == [t];
      assert Denote([t]) == [TermAtom(t)] + Denote([]);
    } else {
      assert (terms + [t])[1..] == terms[1..] + [t];
      DenoteSnoc(terms[1..], t);
    }
  }

  lemma NothingDenoted()
    ensures WellFormedTerms([]) && Denote([]) == []
  {
  }

  ghost function Continue(seen: seq<Term>, s: string, budget: int): Option<seq<Term>> {
    match ReadTerms(s, budget)
    case None => None
    case Some(terms) => Some(seen + terms)
  }

  lemma {:induction false} ContinueOne(seen: seq<Term>, s: string, budget: int)
    requires s != []
    ensures ReadTerm(s).None? ==> Continue(seen, s, budget).None?
    ensures ReadTerm(s).Some? ==>
      var (t, rest) := ReadTerm(s).value; var left := budget - Maximum(t.quantifier);
      Continue(seen, s, budget) == if left < 0 then None else Continue(seen + [t], rest, left)
  {
    hide ReadTerm;
    if ReadTerm(s).Some? {
      var (t, rest) := ReadTerm(s).value;
      var left := budget - Maximum(t.quantifier);
      if left >= 0 && ReadTerms(rest, left).Some? {
        assert seen + ([t] + ReadTerms(rest, left).value) == seen + [t] + ReadTerms(rest, left).value;
      }
    }
  }

  lemma {:induction false} ContinueEnds(seen: seq<Term>, s: string, budget: int)
    ensures s == [] ==> Continue(seen, s, budget) == Some(seen)
    ensures seen == [] ==> Continue(seen, s, budget) == ReadTerms(s, budget)
  {
    hide ReadTerm;
    if s == [] { assert seen + [] == seen; }
    if seen == [] && ReadTerms(s, budget).Some? { assert [] + ReadTerms(s, budget).value == ReadTerms(s, budget).value; }
  }

  // One character set at the cursor: a class, an escape or a literal.
  method AtomBase(text: string, cursor: nat) returns (r: Option<(set<char>, nat)>)
    requires cursor < |text|
    ensures r.Some? <==> ReadBase(text[cursor..]).Some?
    ensures r.Some? ==> cursor < r.value.1 <= |text|
    ensures r.Some? ==> text[r.value.1..] == ReadBase(text[cursor..]).value.1
    ensures r.Some? ==> WellFormedBase(ReadBase(text[cursor..]).value.0)
    ensures r.Some? ==> r.value.0 == BaseSet(ReadBase(text[cursor..]).value.0)
  {
    var character := text[cursor];
    if character == '[' {
      r := CharacterClass(text, cursor);
    } else if character == '\\' {
      r := EscapedPatternCharacters(text, cursor);
    } else if IsPlain(character) {
      r := Some(({character}, cursor + 1));
    } else {
      r := None;
    }
  }

  lemma {:induction false} TermAt(text: string, cursor: nat)
    requires cursor < |text|
    ensures var base := ReadBase(text[cursor..]);
      if base.None? then ReadTerm(text[cursor..]).None?
      else var quantifier := ReadQuantifier(base.value.1);
        if quantifier.None? then ReadTerm(text[cursor..]).None?
        else ReadTerm(text[cursor..]) == Some((Term(base.value.0, quantifier.value.0), quantifier.value.1))
  {
    hide ReadBase, ReadQuantifier;
  }

  lemma {:induction false} ReadBody(pattern: string)
    requires 0 < |pattern| <= MAX_CHARS
    ensures var start, stop := if pattern[0] == '^' then 1 else 0, if EndsWithAnchor(pattern) then |pattern| - 1 else |pattern|;
      if start > stop then Read(pattern).None?
      else var terms := ReadTerms(pattern[start..stop], MAX_STATES);
        if terms.None? || terms.value == [] then Read(pattern).None?
        else Read(pattern).Some? && Read(pattern).value.terms == terms.value
  {
    hide ReadTerms, EndsWithAnchor;
  }

  /** Compiles an untrusted pattern into atoms, exactly as its syntax tree denotes. */
  method ParseBoundedFormPattern(pattern: string) returns (r: Option<seq<Atom>>)
    ensures r == match Read(pattern) case None => None case Some(p) => Some(Denote(p.terms))
  {
    hide Continue, Denote, ReadTerm, ReadTerms, ReadBase, ReadQuantifier, BaseSet, Minimum, Maximum,
      WellFormedTerm, TrailingSlashes;
    if |pattern| == 0 || |pattern| > MAX_CHARS { return None; }
    hide Read;
    ReadBody(pattern);
    var cursor := if pattern[0] == '^' then 1 else 0;
    var slashCount := CountSlashes(pattern[..|pattern| - 1]);
    var terminalAnchor := pattern[|pattern| - 1] == '$' && slashCount % 2 == 0;
    var terminal := if terminalAnchor then |pattern| - 1 else |pattern|;
    if cursor > terminal { return None; }

    var text := pattern[..terminal];
    ghost var body := text[cursor..];
    assert body == pattern[cursor..terminal];
    var atoms: seq<Atom> := [];
    var stateCount := 0;
    ghost var seen: seq<Term> := [];
    ContinueEnds([], body, MAX_STATES);
    NothingDenoted();
    while cursor < terminal
      invariant cursor <= terminal == |text|
      invariant WellFormedTerms(seen) && atoms == Denote(seen)
      invariant Continue([], body, MAX_STATES) == Continue(seen, text[cursor..], MAX_STATES - stateCount)
      invariant |atoms| == |seen|
    {
      ContinueOne(seen, text[cursor..], MAX_STATES - stateCount);
      TermAt(text, cursor);
      var base := AtomBase(text, cursor);
      if base.None? { return None; }
      ghost var t := ReadTerm(text[cursor..]);
      var (characters, next) := base.value;
      var quantifier := BoundedQuantifier(text, next);
      if quantifier.None? { return None; }
      var (minimum, maximum, next') := quantifier.value;
      cursor := next';
      stateCount := stateCount + maximum;
      if stateCount > MAX_STATES { return None; }
      DenoteSnoc(seen, t.value.0);
      atoms := atoms + [Atom(characters, minimum, maximum)];
      seen := seen + [t.value.0];
    }
    ContinueEnds(seen, text[cursor..], MAX_STATES - stateCount);
    return if atoms == [] then None else Some(atoms);
  }
}
