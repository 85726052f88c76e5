/** The supported subset of employer form patterns: syntax trees, their spelling, and the
    finite atoms they denote. The trees say what the compiler must accept and what it must build. */
module PatternSyntax {
  import opened Wrappers

  const MAX_CHARS := 128
  const MAX_REPEAT := 64
  const MAX_STATES := 256

  predicate IsDigit(c: char) { '0' <= c <= '9' }

  predicate IsLetter(c: char) { 'a' <= c <= 'z' || 'A' <= c <= 'Z' }

  predicate IsWord(c: char) { IsLetter(c) || IsDigit(c) || c == '_' }

  // Space, tab, carriage return, newline, form feed, vertical tab.
  predicate IsSpace(c: char) {
    c == ' ' || c == '\t' || c == '\r' || c == '\n' || c == '\U{000C}' || c == '\U{000B}'
  }

  // Characters that stand for themselves without an escape.
  predicate IsPlain(c: char) {
    IsLetter(c) || IsDigit(c) || c == ' ' || c == '_' || c == ':' || c == '/' || c == '@'
    || c == '.' || c == ',' || c == '%' || c == '-'
  }

  // Characters that stand for themselves after a backslash.
  predicate IsEscapable(c: char) {
    c == '\\' || c == '.' || c == '+' || c == '-' || c == '*' || c == '?' || c == '{' || c == '}'
    || c == '[' || c == ']' || c == '(' || c == ')' || c == '|' || c == '^' || c == '$'
  }

  /** One finite character predicate with an explicitly bounded repetition. */
  datatype Atom = Atom(characters: set<char>, minimum: nat, maximum: nat)

  datatype Unit = Plain(c: char) | Escaped(c: char) | AnyDigit | AnyWord | AnySpace
  datatype Item = One(unit: Unit) | Range(low: Unit, high: Unit)
  datatype Base = Single(unit: Unit) | Class(items: seq<Item>)
  datatype Quantifier = Once | Optional | Exactly(count: string) | Between(low: string, high: string)
  datatype Term = Term(base: Base, quantifier: Quantifier)
  datatype Pattern = Pattern(leading: bool, terms: seq<Term>, trailing: bool)

  // ---------- what a tree denotes ----------

  // The single character a unit stands for, when it stands for exactly one.
  function Literal(u: Unit): Option<char> {
    match u
    case Plain(c) => Some(c)
    case Escaped(c) => Some(c)
    case _ => None
  }

  function UnitSet(u: Unit): set<char> {
    match u
    case Plain(c) => {c}
    case Escaped(c) => {c}
    case AnyDigit => set c: char | IsDigit(c)
    case AnyWord => set c: char | IsWord(c)
    case AnySpace => set c: char | IsSpace(c)
  }

  predicate InRange(low: char, c: char, high: char) { low <= c <= high }

  function ItemSet(i: Item): set<char>
    requires WellFormedItem(i)
  {
    match i
    case One(u) => UnitSet(u)
    case Range(low, high) => set c: char | InRange(Literal(low).value, c, Literal(high).value)
  }

  function ItemsSet(items: seq<Item>): set<char>
    requires WellFormedItems(items)
  {
    if items == [] then {} else ItemSet(items[0]) + ItemsSet(items[1..])
  }

  function BaseSet(b: Base): set<char>
    requires WellFormedBase(b)
  {
    match b
    case Single(u) => UnitSet(u)
    case Class(items) => ItemsSet(items)
  }

  function CountValue(digits: string): nat
    requires IsCount(digits)
  {
    var units := (digits[|digits| - 1] as int) - ('0' as int);
    if |digits| == 1 then units else 10 * ((digits[0] as int) - ('0' as int)) + units
  }

  function Minimum(q: Quantifier): nat
    requires WellFormedQuantifier(q)
  {
    match q
    case Once => 1
    case Optional => 0
    case Exactly(n) => CountValue(n)
    case Between(n, _) => CountValue(n)
  }

  function Maximum(q: Quantifier): nat
    requires WellFormedQuantifier(q)
  {
    match q
    case Once => 1
    case Optional => 1
    case Exactly(n) => CountValue(n)
    case Between(_, m) => CountValue(m)
  }

  function TermAtom(t: Term): Atom
    requires WellFormedTerm(t)
  {
    Atom(BaseSet(t.base), Minimum(t.quantifier), Maximum(t.quantifier))
  }

  function Denote(terms: seq<Term>): seq<Atom>
    requires WellFormedTerms(terms)
  {
    if terms == [] then [] else [TermAtom(terms[0])] + Denote(terms[1..])
  }

  // Total number of character positions an atom list can consume.
  function States(atoms: seq<Atom>): nat {
    if atoms == [] then 0 else atoms[0].maximum + States(atoms[1..])
  }

  // ---------- which trees are supported ----------

  predicate WellFormedUnit(u: Unit) {
    (u.Plain? ==> IsPlain(u.c)) && (u.Escaped? ==> IsEscapable(u.c))
  }

  predicate WellFormedItem(i: Item) {
    match i
    case One(u) => WellFormedUnit(u)
    case Range(low, high) =>
      WellFormedUnit(low) && WellFormedUnit(high)
      && Literal(low).Some? && Literal(high).Some? && Literal(low).value <= Literal(high).value
  }

  predicate WellFormedItems(items: seq<Item>) {
    forall k :: 0 <= k < |items| ==> WellFormedItem(items[k])
  }

  predicate StartsWithDash(i: Item) {
    match i
    case One(u) => u == Plain('-')
    case Range(low, _) => low == Plain('-')
  }

  // A bare dash after a single unit reads as a range, unless it closes the class.
  predicate DashesAreUnambiguous(items: seq<Item>) {
    |items| < 2
    || ((items[0].One? && StartsWithDash(items[1]) ==> items[1..] == [One(Plain('-'))])
        && DashesAreUnambiguous(items[1..]))
  }

  predicate WellFormedBase(b: Base) {
    match b
    case Single(u) => WellFormedUnit(u)
    case Class(items) =>
      items != [] && WellFormedItems(items) && DashesAreUnambiguous(items)
  }

  predicate IsCount(digits: string) {
    1 <= |digits| <= 2 && forall k :: 0 <= k < |digits| ==> IsDigit(digits[k])
  }

  predicate WellFormedQuantifier(q: Quantifier) {
    match q
    case Once => true
    case Optional => true
    case Exactly(n) => IsCount(n) && 1 <= CountValue(n) <= MAX_REPEAT
    case Between(n, m) =>
      IsCount(n) && IsCount(m) && CountValue(n) <= CountValue(m) && 1 <= CountValue(m) <= MAX_REPEAT
  }

  predicate WellFormedTerm(t: Term) {
    WellFormedBase(t.base) && WellFormedQuantifier(t.quantifier)
  }

  predicate WellFormedTerms(terms: seq<Term>) {
    forall k :: 0 <= k < |terms| ==> WellFormedTerm(terms[k])
  }

  predicate WellFormed(p: Pattern) {
    p.terms != [] && WellFormedTerms(p.terms)
    && States(Denote(p.terms)) <= MAX_STATES && |Print(p)| <= MAX_CHARS
  }

  // ---------- how a tree is spelled ----------

  function PrintUnit(u: Unit): string {
    match u
    case Plain(c) => [c]
    case Escaped(c) => ['\\', c]
    case AnyDigit => ['\\', 'd']
    case AnyWord => ['\\', 'w']
    case AnySpace => ['\\', 's']
  }

  function PrintItem(i: Item): string {
    match i
    case One(u) => PrintUnit(u)
    case Range(low, high) => PrintUnit(low) + ['-'] + PrintUnit(high)
  }

  function PrintItems(items: seq<Item>): string {
    if items == [] then [] else PrintItem(items[0]) + PrintItems(items[1..])
  }

  function PrintBase(b: Base): string {
    match b
    case Single(u) => PrintUnit(u)
    case Class(items) => ['['] + PrintItems(items) + [']']
  }

  function PrintQuantifier(q: Quantifier): string {
    match q
    case Once => []
    case Optional => ['?']
    case Exactly(n) => ['{'] + n + ['}']
    case Between(n, m) => ['{'] + n + [','] + m + ['}']
  }

  function PrintTerm(t: Term): string { PrintBase(t.base) + PrintQuantifier(t.quantifier) }

  function PrintTerms(terms: seq<Term>): string {
    if terms == [] then [] else PrintTerm(terms[0]) + PrintTerms(terms[1..])
  }

  function Print(p: Pattern): string {
    (if p.leading then ['^'] else []) + PrintTerms(p.terms) + (if p.trailing then ['$'] else [])
  }

  /** The named classes and the characters that may stand for themselves, by their ASCII codes. */
  lemma ClassesByCode(c: char)
    ensures var code := c as int;
      && (c in UnitSet(AnyDigit) <==> 48 <= code <= 57)
      && (c in UnitSet(AnyWord) <==> 48 <= code <= 57 || 65 <= code <= 90 || code == 95 || 97 <= code <= 122)
      && (c in UnitSet(AnySpace) <==> 9 <= code <= 13 || code == 32)
      && (IsPlain(c) <==> 48 <= code <= 57 || 65 <= code <= 90 || 97 <= code <= 122 || code in {32, 37, 44, 45, 46, 47, 58, 64, 95})
      && (IsEscapable(c) <==> 40 <= code <= 43 || 91 <= code <= 94 || 123 <= code <= 125 || code in {36, 45, 46, 63})
  {
  }

  /** A count is its decimal value. */
  lemma CountsAreDecimal(tens: char, units: char)
    requires IsDigit(tens) && IsDigit(units)
    ensures CountValue([units]) == units as int - 48 && CountValue([tens, units]) == 10 * (tens as int - 48) + (units as int - 48)
  {
  }
}
