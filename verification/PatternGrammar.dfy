/** A reading function for pattern trees, and the proof that it is the exact inverse of spelling:
    every supported tree reads back to itself, and every text that reads is the spelling of a
    supported tree. */
module PatternGrammar {
  import opened Wrappers
  import opened PatternSyntax

  // ---------- reading, from the front of the remaining text ----------

  function ReadEscape(s: string): (r: Option<(Unit, string)>)
    requires s != [] && s[0] == '\\'
    ensures r.Some? ==> WellFormedUnit(r.value.0) && s == PrintUnit(r.value.0) + r.value.1
    ensures r.Some? ==> !r.value.0.Plain?
  {
    if |s| < 2 then None
    else if s[1] == 'd' then Some((AnyDigit, s[2..]))
    else if s[1] == 'w' then Some((AnyWord, s[2..]))
    else if s[1] == 's' then Some((AnySpace, s[2..]))
    else if IsEscapable(s[1]) then Some((Escaped(s[1]), s[2..]))
    else None
  }

  function ReadUnit(s: string): (r: Option<(Unit, string)>)
    ensures r.Some? ==> WellFormedUnit(r.value.0) && s == PrintUnit(r.value.0) + r.value.1
  {
    if s == [] then None
    else if s[0] == '\\' then ReadEscape(s)
    else if IsPlain(s[0]) then Some((Plain(s[0]), s[1..]))
    else None
  }

  function ReadItem(s: string): (r: Option<(Item, string)>)
    ensures r.Some? ==> WellFormedItem(r.value.0) && s == PrintItem(r.value.0) + r.value.1
    ensures r.Some? ==> |r.value.1| < |s|
    ensures r.Some? && r.value.0.One? && |r.value.1| >= 2 && r.value.1[0] == '-' ==> r.value.1[1] == ']'
  {
    var first := ReadUnit(s);
    if first.None? then None
    else
      var (low, rest) := first.value;
      if |rest| >= 2 && rest[0] == '-' && rest[1] != ']' then
        var second := ReadUnit(rest[1..]);
        if second.None? then None
        else
          var (high, rest') := second.value;
          if Literal(low).None? || Literal(high).None? || Literal(low).value > Literal(high).value then None
          else
            assert s == PrintItem(Range(low, high)) + rest';
            Some((Range(low, high), rest'))
      else Some((One(low), rest))
  }

  // The items of a class and the text after its closing bracket.
  function ReadItems(s: string): (r: Option<(seq<Item>, string)>)
    ensures r.Some? ==> |r.value.1| < |s|
    decreases |s|
  {
    if s == [] then None
    else if s[0] == ']' then Some(([], s[1..]))
    else
      var item := ReadItem(s);
      if item.None? then None
      else
        var others := ReadItems(item.value.1);
        if others.None? then None else Some(([item.value.0] + others.value.0, others.value.1))
  }

  function IndexOf(s: string, c: char): (i: nat)
    ensures i <= |s| && (i < |s| ==> s[i] == c) && c !in s[..i]
  {
    if s == [] || s[0] == c then 0 else 1 + IndexOf(s[1..], c)
  }

  function ReadCounts(body: string): (r: Option<Quantifier>)
    ensures r.Some? ==> WellFormedQuantifier(r.value) && PrintQuantifier(r.value) == ['{'] + body + ['}']
  {
    var comma := IndexOf(body, ',');
    var q := if comma == |body| then Exactly(body) else Between(body[..comma], body[comma + 1..]);
    if WellFormedQuantifier(q) then
      assert comma < |body| ==> body == body[..comma] + [','] + body[comma + 1..];
      Some(q)
    else None
  }

  function ReadQuantifier(s: string): (r: Option<(Quantifier, string)>)
    ensures r.Some? ==> WellFormedQuantifier(r.value.0) && s == PrintQuantifier(r.value.0) + r.value.1
  {
    hide ReadCounts, IndexOf, CountValue;
    if s == [] then Some((Once, s))
    else if s[0] == '?' then Some((Optional, s[1..]))
    else if s[0] == '{' then
      var close := IndexOf(s[1..], '}');
      if close == |s[1..]| then None
      else
        var q := ReadCounts(s[1..][..close]);
        if q.None? then None
        else
          assert s == ['{'] + s[1..][..close] + ['}'] + s[1..][close + 1..];
          Some((q.value, s[1..][close + 1..]))
    else if s[0] == '*' || s[0] == '+' then None
    else Some((Once, s))
  }

  function ReadBase(s: string): (r: Option<(Base, string)>)
    requires s != []
    ensures r.Some? ==> |r.value.1| < |s|
  {
    if s[0] == '[' then
      if |s| < 2 || s[1] == '^' || s[1] == ']' then None
      else
        var items := ReadItems(s[1..]);
        if items.None? then None else Some((Class(items.value.0), items.value.1))
    else
      var unit := ReadUnit(s);
      if unit.None? then None else Some((Single(unit.value.0), unit.value.1))
  }

  function ReadTerm(s: string): (r: Option<(Term, string)>)
    requires s != []
    ensures r.Some? ==> |r.value.1| < |s| && WellFormedTerm(r.value.0)
  {
    var base := ReadBase(s);
    if base.None? then None
    else
      BaseReadIsSpelled(s);
      var quantifier := ReadQuantifier(base.value.1);
      if quantifier.None? then None
      else
        assert |quantifier.value.1| <= |base.value.1|;
        Some((Term(base.value.0, quantifier.value.0), quantifier.value.1))
  }

  // Terms to the end of the text, within what is left of the state budget.
  function ReadTerms(s: string, budget: int): (r: Option<seq<Term>>)
    ensures r.Some? ==> WellFormedTerms(r.value)
    decreases |s|
  {
    if s == [] then Some([])
    else
      var term := ReadTerm(s);
      if term.None? then None
      else if Maximum(term.value.0.quantifier) > budget then None
      else
        var others := ReadTerms(term.value.1, budget - Maximum(term.value.0.quantifier));
        if others.None? then None else Some([term.value.0] + others.value)
  }

  // Number of backslashes at the end of a text.
  function TrailingSlashes(s: string): nat {
    if s == [] || s[|s| - 1] != '\\' then 0 else 1 + TrailingSlashes(s[..|s| - 1])
  }

  // A final dollar is an anchor unless a backslash escapes it.
  predicate EndsWithAnchor(s: string) {
    s != [] && s[|s| - 1] == '$' && TrailingSlashes(s[..|s| - 1]) % 2 == 0
  }

  function Read(s: string): (r: Option<Pattern>)
  {
    if s == [] || |s| > MAX_CHARS then None
    else
      var start := if s[0] == '^' then 1 else 0;
      var stop := if EndsWithAnchor(s) then |s| - 1 else |s|;
      if start > stop then None
      else
        var terms := ReadTerms(s[start..stop], MAX_STATES);
        if terms.None? || terms.value == [] then None
        else Some(Pattern(start == 1, terms.value, EndsWithAnchor(s)))
  }

  // ---------- what was read is a spelling ----------

  lemma {:induction false} Associate(a: string, b: string, c: string)
    ensures a + (b + c) == a + b + c
  {
  }

  // A dash that follows a single unit can only be the last item of its class.
  lemma {:induction false} DashCloses(s: string)
    requires s != [] && s[0] == '-' && (|s| >= 2 ==> s[1] == ']')
    requires ReadItems(s).Some?
    ensures ReadItems(s).value.0 == [One(Plain('-'))]
  {
    assert ReadUnit(s) == Some((Plain('-'), s[1..]));
    assert ReadItem(s) == Some((One(Plain('-')), s[1..]));
    assert ReadItems(s[1..]).value.0 == [];
  }

  lemma {:induction false} ItemStart(s: string)
    requires ReadItem(s).Some?
    ensures s != [] && StartsWithDash(ReadItem(s).value.0) == (s[0] == '-')
  {
  }

  lemma {:induction false} ItemsReadAreSpelled(s: string)
    requires ReadItems(s).Some?
    ensures WellFormedItems(ReadItems(s).value.0)
    ensures DashesAreUnambiguous(ReadItems(s).value.0)
    ensures s == PrintItems(ReadItems(s).value.0) + [']'] + ReadItems(s).value.1
    ensures ReadItems(s).value.0 != [] ==> StartsWithDash(ReadItems(s).value.0[0]) == (s[0] == '-')
    decreases |s|
  {
    hide ReadItem, PrintItem, WellFormedItem;
    if s[0] != ']' {
      var item, tail := ReadItem(s).value.0, ReadItem(s).value.1;
      var others := ReadItems(tail).value.0;
      ItemsReadAreSpelled(tail);
      ItemStart(s);
      var items := [item] + others;
      assert items[1..] == others;
      if item.One? && tail[0] == '-' { DashCloses(tail); }
      Associate(PrintItem(item), PrintItems(others), [']'] + ReadItems(tail).value.1);
      Associate(PrintItems(others), [']'], ReadItems(tail).value.1);
      Associate(PrintItems(items), [']'], ReadItems(tail).value.1);
    }
  }

  lemma {:induction false} BaseReadIsSpelled(s: string)
    requires s != [] && ReadBase(s).Some?
    ensures WellFormedBase(ReadBase(s).value.0)
    ensures s == PrintBase(ReadBase(s).value.0) + ReadBase(s).value.1
  {
    if s[0] == '[' {
      ItemsReadAreSpelled(s[1..]);
    }
  }

  lemma {:induction false} TermReadIsSpelled(s: string)
    requires s != [] && ReadTerm(s).Some?
    ensures s == PrintTerm(ReadTerm(s).value.0) + ReadTerm(s).value.1
  {
    var base := ReadBase(s).value;
    var quantifier := ReadQuantifier(base.1).value;
    BaseReadIsSpelled(s);
    Associate(PrintBase(base.0), PrintQuantifier(quantifier.0), quantifier.1);
  }

  lemma {:induction false} TermsReadAreSpelled(s: string, budget: nat)
    requires ReadTerms(s, budget).Some?
    ensures s == PrintTerms(ReadTerms(s, budget).value)
    ensures States(Denote(ReadTerms(s, budget).value)) <= budget
    decreases |s|
  {
    if s != [] {
      var term, rest := ReadTerm(s).value.0, ReadTerm(s).value.1;
      TermReadIsSpelled(s);
      TermsReadAreSpelled(rest, budget - Maximum(term.quantifier));
      var terms := ReadTerms(s, budget).value;
      assert terms[1..] == ReadTerms(rest, budget - Maximum(term.quantifier)).value;
      assert Denote(terms)[1..] == Denote(terms[1..]);
    }
  }

  lemma {:induction false} Framed(s: string, start: nat, stop: nat)
    requires start <= stop <= |s|
    ensures s[..start] + s[start..stop] + s[stop..] == s
  {
  }

  lemma {:induction false} ReadIsSpelled(s: string)
    requires Read(s).Some?
    ensures WellFormed(Read(s).value) && Print(Read(s).value) == s
  {
    var p := Read(s).value;
    var start := if s[0] == '^' then 1 else 0;
    var stop := if EndsWithAnchor(s) then |s| - 1 else |s|;
    TermsReadAreSpelled(s[start..stop], MAX_STATES);
    Framed(s, start, stop);
    assert s[..start] == if p.leading then ['^'] else [];
    assert s[stop..] == if p.trailing then ['$'] else [];
  }

  // ---------- every spelling is read back ----------

  lemma {:induction false} UnitReadsBack(u: Unit, rest: string)
    requires WellFormedUnit(u)
    ensures ReadUnit(PrintUnit(u) + rest) == Some((u, rest))
  {
    assert (PrintUnit(u) + rest)[|PrintUnit(u)|..] == rest;
  }

  lemma {:induction false} ItemReadsBack(i: Item, rest: string)
    requires WellFormedItem(i)
    requires i.One? && |rest| >= 2 && rest[0] == '-' ==> rest[1] == ']'
    ensures ReadItem(PrintItem(i) + rest) == Some((i, rest))
  {
    match i
    case One(u) => UnitReadsBack(u, rest);
    case Range(low, high) =>
      UnitReadsBack(low, ['-'] + PrintUnit(high) + rest);
      UnitReadsBack(high, rest);
      assert PrintItem(i) + rest == PrintUnit(low) + (['-'] + PrintUnit(high) + rest);
      assert (['-'] + PrintUnit(high) + rest)[1..] == PrintUnit(high) + rest;
  }

  lemma {:induction false} ItemsStep(s: string, i: Item, rest: string)
    requires s != [] && s[0] != ']' && ReadItem(s) == Some((i, rest)) && ReadItems(rest).Some?
    ensures ReadItems(s) == Some(([i] + ReadItems(rest).value.0, ReadItems(rest).value.1))
  {
    hide ReadItem;
  }

  lemma {:induction false} ItemsReadBack(items: seq<Item>, rest: string)
    requires WellFormedItems(items)
    requires DashesAreUnambiguous(items)
    ensures ReadItems(PrintItems(items) + [']'] + rest) == Some((items, rest))
  {
    hide ReadItem;
    if items == [] {
      assert PrintItems(items) + [']'] + rest == [']'] + rest;
    } else {
      var tail := PrintItems(items[1..]) + [']'] + rest;
      assert PrintItems(items) + [']'] + rest == PrintItem(items[0]) + tail;
      ItemsReadBack(items[1..], rest);
      if items[0].One? && tail[0] == '-' {
        assert items[1..] == [One(Plain('-'))];
        assert PrintItems(items[1..]) == ['-'] + PrintItems([]);
      }
      ItemReadsBack(items[0], tail);
      assert WellFormedItem(items[0]) && PrintItem(items[0])[0] != ']';
      ItemsStep(PrintItem(items[0]) + tail, items[0], tail);
      assert [items[0]] + items[1..] == items;
    }
  }

  lemma {:induction false} BaseReadsBack(b: Base, rest: string)
    requires WellFormedBase(b)
    ensures ReadBase(PrintBase(b) + rest) == Some((b, rest))
  {
    hide ReadItems, ReadUnit;
    match b
    case Single(u) => UnitReadsBack(u, rest);
    case Class(items) =>
      assert (PrintBase(b) + rest)[1..] == PrintItems(items) + [']'] + rest;
      ItemsReadBack(items, rest);
      assert WellFormedItem(items[0]);
      assert PrintItems(items)[0] == PrintItem(items[0])[0];
  }

  lemma {:induction false} FirstIndex(prefix: string, c: char, rest: string)
    requires c !in prefix
    ensures IndexOf(prefix + [c] + rest, c) == |prefix|
  {
    if prefix != [] {
      assert (prefix + [c] + rest)[1..] == prefix[1..] + [c] + rest;
      FirstIndex(prefix[1..], c, rest);
    }
  }

  lemma {:induction false} NoIndex(s: string, c: char)
    requires c !in s
    ensures IndexOf(s, c) == |s|
  {
    if s != [] { NoIndex(s[1..], c); }
  }

  lemma {:induction false} DigitsOnly(n: string, c: char)
    requires IsCount(n) && !IsDigit(c)
    ensures c !in n
  {
  }

  lemma {:induction false} ExactlyReadsBack(n: string)
    requires WellFormedQuantifier(Exactly(n))
    ensures ReadCounts(n) == Some(Exactly(n)) && '}' !in n
  {
    DigitsOnly(n, ',');
    DigitsOnly(n, '}');
    NoIndex(n, ',');
  }

  lemma {:induction false} BetweenReadsBack(n: string, m: string)
    requires WellFormedQuantifier(Between(n, m))
    ensures ReadCounts(n + [','] + m) == Some(Between(n, m)) && '}' !in n + [','] + m
  {
    DigitsOnly(n, ',');
    DigitsOnly(n, '}');
    DigitsOnly(m, '}');
    FirstIndex(n, ',', m);
    var body := n + [','] + m;
    assert body[..|n|] == n && body[|n| + 1..] == m;
  }

  lemma {:induction false} BracesReadBack(body: string, q: Quantifier, rest: string)
    requires '}' !in body && ReadCounts(body) == Some(q)
    ensures ReadQuantifier(['{'] + body + ['}'] + rest) == Some((q, rest))
  {
    hide ReadCounts, IndexOf;
    var s := ['{'] + body + ['}'] + rest;
    assert s[1..] == body + ['}'] + rest;
    FirstIndex(body, '}', rest);
    assert s[1..][..|body|] == body && s[1..][|body| + 1..] == rest;
  }

  lemma {:induction false} QuantifierReadsBack(q: Quantifier, rest: string)
    requires WellFormedQuantifier(q)
    requires q.Once? && rest != [] ==> rest[0] != '?' && rest[0] != '{' && rest[0] != '*' && rest[0] != '+'
    ensures ReadQuantifier(PrintQuantifier(q) + rest) == Some((q, rest))
  {
    hide ReadCounts, IndexOf, CountValue;
    var s := PrintQuantifier(q) + rest;
    match q
    case Once => assert s == rest;
    case Optional => assert s[1..] == rest;
    case Exactly(n) =>
      ExactlyReadsBack(n);
      BracesReadBack(n, q, rest);
    case Between(n, m) =>
      BetweenReadsBack(n, m);
      BracesReadBack(n + [','] + m, q, rest);
      assert PrintQuantifier(q) == ['{'] + (n + [','] + m) + ['}'];
  }

  lemma {:induction false} TermReadsBack(t: Term, rest: string)
    requires WellFormedTerm(t)
    requires rest != [] ==> rest[0] != '?' && rest[0] != '{' && rest[0] != '*' && rest[0] != '+'
    ensures ReadTerm(PrintTerm(t) + rest) == Some((t, rest))
  {
    assert PrintTerm(t) + rest == PrintBase(t.base) + (PrintQuantifier(t.quantifier) + rest);
    BaseReadsBack(t.base, PrintQuantifier(t.quantifier) + rest);
    QuantifierReadsBack(t.quantifier, rest);
  }

  lemma {:induction false} TermsStep(s: string, t: Term, rest: string, others: seq<Term>, budget: int)
    requires s != [] && ReadTerm(s) == Some((t, rest)) && WellFormedTerm(t)
    requires Maximum(t.quantifier) <= budget
    requires ReadTerms(rest, budget - Maximum(t.quantifier)) == Some(others)
    ensures ReadTerms(s, budget) == Some([t] + others)
  {
    hide ReadTerm;
  }

  lemma {:induction false} TermsReadBack(terms: seq<Term>, budget: int)
    requires WellFormedTerms(terms)
    requires States(Denote(terms)) <= budget
    ensures ReadTerms(PrintTerms(terms), budget) == Some(terms)
  {
    hide ReadTerm;
    if terms == [] {
      assert PrintTerms(terms) == [];
    } else {
      var rest := PrintTerms(terms[1..]);
      TermsStartPlainly(terms);
      if terms[1..] != [] { TermsStartPlainly(terms[1..]); }
      TermReadsBack(terms[0], rest);
      assert Denote(terms)[1..] == Denote(terms[1..]);
      TermsReadBack(terms[1..], budget - Maximum(terms[0].quantifier));
      TermsStep(PrintTerms(terms), terms[0], rest, terms[1..], budget);
      assert [terms[0]] + terms[1..] == terms;
    }
  }

  // ---------- anchors ----------

  // The text is a row of complete tokens: a bare character, or a backslash and what it escapes.
  // No bare token is a dollar sign.
  predicate Tokens(s: string) {
    s == []
    || (s[0] == '\\' && |s| >= 2 && Tokens(s[2..]))
    || (s[0] != '\\' && s[0] != '$' && Tokens(s[1..]))
  }

  lemma {:induction false} TokensAppend(a: string, b: string)
    requires Tokens(a) && Tokens(b)
    ensures Tokens(a + b)
  {
    if a == [] {
      assert a + b == b;
    } else if a[0] == '\\' {
      assert (a + b)[2..] == a[2..] + b;
      TokensAppend(a[2..], b);
    } else {
      assert (a + b)[1..] == a[1..] + b;
      TokensAppend(a[1..], b);
    }
  }

  lemma {:induction false} PlainTokens(s: string)
    requires forall k :: 0 <= k < |s| ==> s[k] != '\\' && s[k] != '$'
    ensures Tokens(s)
  {
    if s != [] { PlainTokens(s[1..]); }
  }

  lemma {:induction false} UnitTokens(u: Unit)
    requires WellFormedUnit(u)
    ensures Tokens(PrintUnit(u))
  {
  }

  lemma {:induction false} ItemsTokens(items: seq<Item>)
    requires WellFormedItems(items)
    ensures Tokens(PrintItems(items))
  {
    if items != [] {
      match items[0] {
        case One(u) => UnitTokens(u);
        case Range(low, high) =>
          UnitTokens(low);
          UnitTokens(high);
          PlainTokens(['-']);
          TokensAppend(PrintUnit(low), ['-']);
          TokensAppend(PrintUnit(low) + ['-'], PrintUnit(high));
      }
      ItemsTokens(items[1..]);
      TokensAppend(PrintItem(items[0]), PrintItems(items[1..]));
    }
  }

  lemma {:induction false} TermTokens(t: Term)
    requires WellFormedTerm(t)
    ensures Tokens(PrintTerm(t))
  {
    hide CountValue, PrintItems;
    match t.base {
      case Single(u) => UnitTokens(u);
      case Class(items) =>
        ItemsTokens(items);
        PlainTokens(['[']);
        PlainTokens([']']);
        TokensAppend(['['], PrintItems(items));
        TokensAppend(['['] + PrintItems(items), [']']);
    }
    PlainTokens(PrintQuantifier(t.quantifier));
    TokensAppend(PrintBase(t.base), PrintQuantifier(t.quantifier));
  }

  lemma {:induction false} TermsTokens(terms: seq<Term>)
    requires WellFormedTerms(terms)
    ensures Tokens(PrintTerms(terms))
  {
    if terms != [] {
      TermTokens(terms[0]);
      TermsTokens(terms[1..]);
      TokensAppend(PrintTerm(terms[0]), PrintTerms(terms[1..]));
    }
  }

  lemma {:induction false} SlashesAppend(a: string, b: string)
    ensures TrailingSlashes(a + b)
         == TrailingSlashes(b) + (if TrailingSlashes(b) == |b| then TrailingSlashes(a) else 0)
    ensures TrailingSlashes(b) <= |b|
  {
    if b == [] {
      assert a + b == a;
    } else if b[|b| - 1] == '\\' {
      assert (a + b)[..|a + b| - 1] == a + b[..|b| - 1];
      SlashesAppend(a, b[..|b| - 1]);
    }
  }

  // Complete tokens end in an even run of backslashes.
  lemma {:induction false} TokensEndEven(s: string)
    requires Tokens(s)
    ensures TrailingSlashes(s) % 2 == 0
  {
    if s != [] {
      var n := if s[0] == '\\' then 2 else 1;
      hide TrailingSlashes;
      TokensEndEven(s[n..]);
      assert s == s[..n] + s[n..];
      SlashesAppend(s[..n], s[n..]);
      TokenSlashes(s[..n]);
    }
  }

  // One token ends in no backslash, or is an escaped backslash.
  lemma {:induction false} TokenSlashes(s: string)
    requires s != [] && |s| == (if s[0] == '\\' then 2 else 1)
    ensures TrailingSlashes(s) % 2 == 0
  {
    if |s| == 2 {
      assert s == ['\\'] + [s[1]];
      SlashesAppend(['\\'], [s[1]]);
      OneSlash(['\\']);
      OneSlash([s[1]]);
    } else {
      OneSlash(s);
    }
  }

  // A dollar that ends complete tokens is escaped.
  lemma {:induction false} TokensEndUnanchored(s: string)
    requires Tokens(s)
    ensures !EndsWithAnchor(s)
  {
    hide TrailingSlashes;
    if s != [] {
      var n := if s[0] == '\\' then 2 else 1;
      if |s| == n {
        if n == 2 { OneSlash(s[..1]); }
      } else {
        var rest := s[n..];
        TokensEndUnanchored(rest);
        assert s[..|s| - 1] == s[..n] + rest[..|rest| - 1];
        SlashesAppend(s[..n], rest[..|rest| - 1]);
        TokenSlashes(s[..n]);
      }
    }
  }

  lemma {:induction false} OneSlash(s: string)
    requires |s| == 1
    ensures TrailingSlashes(s) == if s[0] == '\\' then 1 else 0
  {
    assert s[..0] == [];
  }

  // The anchors a tree is spelled with are the anchors found in its spelling.
  lemma {:induction false} SpelledAnchors(p: Pattern)
    requires WellFormedTerms(p.terms) && p.terms != []
    ensures var body := PrintTerms(p.terms); body != [] && body[0] != '^'
    ensures EndsWithAnchor(Print(p)) == p.trailing
  {
    hide PrintTerms, TrailingSlashes;
    var body := PrintTerms(p.terms);
    TermsStartPlainly(p.terms);
    TermsTokens(p.terms);
    var prefix: string := if p.leading then ['^'] else [];
    PlainTokens(prefix);
    TokensAppend(prefix, body);
    if p.trailing {
      TokensEndEven(prefix + body);
      assert Print(p)[..|Print(p)| - 1] == prefix + body;
    } else {
      TokensEndUnanchored(prefix + body);
      assert Print(p) == prefix + body;
    }
  }

  lemma {:induction false} SpellingIsRead(p: Pattern)
    requires WellFormed(p)
    ensures Read(Print(p)) == Some(p)
  {
    hide ReadTerms, EndsWithAnchor, PrintTerms, Denote;
    TermsReadBack(p.terms, MAX_STATES);
    SpelledAnchors(p);
    var body, s := PrintTerms(p.terms), Print(p);
    var start := if p.leading then 1 else 0;
    assert s[start..start + |body|] == body;
  }

  lemma {:induction false} TermsStartPlainly(terms: seq<Term>)
    requires terms != [] && WellFormedTerm(terms[0])
    ensures PrintTerms(terms) != []
    ensures var c := PrintTerms(terms)[0]; c != '^' && c != '?' && c != '{' && c != '*' && c != '+'
  {
    assert PrintTerms(terms)[0] == PrintTerm(terms[0])[0] == PrintBase(terms[0].base)[0];
  }

  /** Reading is the exact inverse of spelling, over all texts and all trees. */
  lemma {:induction false} ReadingInvertsSpelling(s: string, p: Pattern)
    ensures Read(s) == Some(p) <==> WellFormed(p) && Print(p) == s
  {
    if Read(s) == Some(p) { ReadIsSpelled(s); }
    if WellFormed(p) && Print(p) == s { SpellingIsRead(p); }
  }

  /** An unanchored pattern means the same with both anchors written out, as long as it still fits. */
  lemma {:induction false} AnchorsAreImplied(s: string)
    requires Read(s).Some? && !Read(s).value.leading && !Read(s).value.trailing
    requires |s| + 2 <= MAX_CHARS
    ensures Read(['^'] + s + ['$']) == Some(Read(s).value.(leading := true, trailing := true))
  {
    ReadIsSpelled(s);
    var p := Read(s).value.(leading := true, trailing := true);
    assert Print(Read(s).value) == PrintTerms(p.terms);
    SpellingIsRead(p);
  }
}
