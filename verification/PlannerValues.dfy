/** What a coerced answer is, said of the raw value and the control alone. */
module PlannerValues {
  import opened Wrappers
  import PatternMatcher
  import opened Planner

  // ---------- one option ----------

  // The option is enabled and its value or its caption normalizes to the text.
  predicate Named(t: Texts, options: seq<Choice>, i: nat, text: string)
    requires i < |options|
  {
    !options[i].disabled && (t.norm(options[i].value) == t.norm(text) || t.norm(options[i].caption) == t.norm(text))
  }

  // The text names this value and no other.
  ghost predicate NamesOnly(t: Texts, options: seq<Choice>, text: string, value: string) {
    && (exists i :: 0 <= i < |options| && Named(t, options, i, text) && options[i].value == value)
    && forall i :: 0 <= i < |options| && Named(t, options, i, text) ==> options[i].value == value
  }

  lemma MatchesAreNamed(t: Texts, options: seq<Choice>, text: string, value: string)
    ensures value in Matches(t, options, text) <==> exists i :: 0 <= i < |options| && Named(t, options, i, text) && options[i].value == value
  {
  }

  /** A text picks an option exactly when all the enabled options it names have one value, and then picks that value. */
  lemma OnePickedExactly(t: Texts, options: seq<Choice>, text: string, value: string)
    ensures OneMatch(t, options, text) == Some(value) <==> NamesOnly(t, options, text, value)
  {
    var matches := Matches(t, options, text);
    if OneMatch(t, options, text) == Some(value) {
      TheOnly(matches);
      MatchesAreNamed(t, options, text, value);
      forall i | 0 <= i < |options| && Named(t, options, i, text) ensures options[i].value == value {
        MatchesAreNamed(t, options, text, options[i].value);
      }
    }
    if NamesOnly(t, options, text, value) {
      forall v ensures v in matches <==> v == value { MatchesAreNamed(t, options, text, v); }
      assert matches == {value};
    }
  }

  // ---------- many options ----------

  ghost predicate NamesEach(t: Texts, options: seq<Choice>, texts: seq<string>, values: seq<string>) {
    |values| == |texts| && forall i :: 0 <= i < |texts| ==> NamesOnly(t, options, texts[i], values[i])
  }

  lemma {:induction false} EachPickedExactly(t: Texts, options: seq<Choice>, texts: seq<string>, values: seq<string>)
    ensures Selected(t, options, texts) == Some(values) <==> NamesEach(t, options, texts, values)
    decreases |texts|
  {
    hide OneMatch, NamesOnly;
    if texts == [] {
      assert |values| == 0 <==> values == [];
    } else {
      var n := |texts| - 1;
      var before, one := Selected(t, options, texts[..n]), OneMatch(t, options, texts[n]);
      if before.Some? && one.Some? {
        EachPickedExactly(t, options, texts[..n], before.value);
        OnePickedExactly(t, options, texts[n], one.value);
      }
      if NamesEach(t, options, texts, values) {
        assert NamesEach(t, options, texts[..n], values[..n]);
        EachPickedExactly(t, options, texts[..n], values[..n]);
        OnePickedExactly(t, options, texts[n], values[n]);
        assert values == values[..n] + [values[n]];
      }
    }
  }

  // ---------- whatever the control ----------

  const YES: set<string> := {"yes", "true", "1", "checked", "agree", "accepted"}
  const NO: set<string> := {"no", "false", "0", "unchecked", "disagree", "declined"}

  // A boolean means itself and a text what it affirms or denies.
  predicate FlagMeans(t: Texts, raw: Raw, a: Answer) {
    if raw.RawBool? then a == BoolAnswer(raw.b)
    else
      var said := t.fold(t.strip(t.render(raw)));
      (said in YES && a == BoolAnswer(true)) || (said in NO && a == BoolAnswer(false))
  }

  // A number keeps its value, and is whole exactly when it is one.
  predicate NumberMeans(n: Numeric, a: Answer) {
    match n
    case NotFinite => a.NotFiniteAnswer?
    case Finite(x) => if x == x.Floor as real then a.WholeAnswer? && a.n as real == x else a.DecimalAnswer? && a.x == x
  }

  // The answer is what the raw value says to a control of this kind.
  ghost predicate Means(t: Texts, f: Field, raw: Raw, a: Answer) {
    match f.kind
    case Number =>
      (raw.RawNumber? && NumberMeans(raw.n, a)) || (raw.RawText? && t.number(raw.s).Some? && NumberMeans(t.number(raw.s).value, a))
    case CheckBox => FlagMeans(t, raw, a)
    case Consent => FlagMeans(t, raw, a)
    case Attestation => FlagMeans(t, raw, a)
    case Select => a.TextAnswer? && NamesOnly(t, f.options, t.render(raw), a.s)
    case Radio => a.TextAnswer? && NamesOnly(t, f.options, t.render(raw), a.s)
    case MultiSelect =>
      a.ManyAnswer? && a.values != [] && NamesEach(t, f.options, if raw.RawList? then raw.items else t.split(t.render(raw)), a.values)
      && forall i, j :: 0 <= i < j < |a.values| ==> a.values[i] != a.values[j]
    case UnknownType => false
    case _ => a.TextAnswer? && a.s != "" && a.s == t.strip(t.render(raw))
  }

  /** A value is coerced to an answer if and only if the answer is what the value says to that control; anything else gives none. */
  lemma CoercedExactly(t: Texts, f: Field, raw: Raw, a: Answer)
    ensures Coerce(t, f, Some(raw)) == Some(a) <==> Means(t, f, raw, a)
    ensures Coerce(t, f, None).None?
  {
    FlagCoercedExactly(t, raw, a);
    OneCoercedExactly(t, f, raw, a);
    if f.kind == Number { NumberCoercedExactly(t, f, raw, a); }
    if f.kind == MultiSelect { ManyCoercedExactly(t, f, raw, a); }
    hide CoerceFlag, FlagMeans, CoerceOne, OneMatch, NamesOnly, Whole, NumberMeans, Selected, NamesEach, NoDuplicates;
  }

  lemma FlagCoercedExactly(t: Texts, raw: Raw, a: Answer)
    ensures CoerceFlag(t, raw) == Some(a) <==> FlagMeans(t, raw, a)
  {
  }

  lemma WholeExactly(n: Numeric, a: Answer)
    ensures Whole(n) == a <==> NumberMeans(n, a)
  {
  }

  lemma NumberCoercedExactly(t: Texts, f: Field, raw: Raw, a: Answer)
    requires f.kind == Number
    ensures Coerce(t, f, Some(raw)) == Some(a) <==>
            (raw.RawNumber? && NumberMeans(raw.n, a)) || (raw.RawText? && t.number(raw.s).Some? && NumberMeans(t.number(raw.s).value, a))
  {
    if raw.RawNumber? { WholeExactly(raw.n, a); }
    if raw.RawText? && t.number(raw.s).Some? { WholeExactly(t.number(raw.s).value, a); }
    hide Whole, NumberMeans;
  }

  lemma ManyCoercedExactly(t: Texts, f: Field, raw: Raw, a: Answer)
    requires f.kind == MultiSelect
    ensures Coerce(t, f, Some(raw)) == Some(a) <==>
            a.ManyAnswer? && a.values != [] && NamesEach(t, f.options, if raw.RawList? then raw.items else t.split(t.render(raw)), a.values)
            && forall i, j :: 0 <= i < j < |a.values| ==> a.values[i] != a.values[j]
  {
    if a.ManyAnswer? { EachPickedExactly(t, f.options, if raw.RawList? then raw.items else t.split(t.render(raw)), a.values); }
    hide Selected, NamesEach;
  }

  lemma OneCoercedExactly(t: Texts, f: Field, raw: Raw, a: Answer)
    ensures CoerceOne(t, f, raw) == Some(a) <==> a.TextAnswer? && NamesOnly(t, f.options, t.render(raw), a.s)
  {
    if a.TextAnswer? { OnePickedExactly(t, f.options, t.render(raw), a.s); }
    hide OneMatch, NamesOnly;
  }

  // ---------- where an answer comes from ----------

  // The control may be answered without an operator looking at it.
  predicate Answerable(f: Field) { f.compatible && f.kind != FileControl && (f.reviewOnly ==> f.scopedSemantics) }

  predicate HasKey(f: Field) { f.canonical != "" || f.reviewedKey != "" }

  // The source knows this answer for the field and may give it.
  ghost predicate Says(t: Texts, f: Field, e: Evidence, p: Provenance, a: Answer) {
    match p
    case VerifiedAttachment => f.kind == FileControl && f.reviewedAttachment && e.attachmentMatches && a == TextAnswer("verified_attachment")
    case DeterministicIdentity => Answerable(f) && e.identity.Some? && Means(t, f, e.identity.value, a)
    case UserConfirmed => Answerable(f) && HasKey(f) && e.confirmed.Some? && Means(t, f, e.confirmed.value, a)
    case OperatorApproved => Answerable(f) && f.named && e.approved.Some? && Means(t, f, e.approved.value, a)
    case CvEvidence => Answerable(f) && !f.reviewOnly && HasKey(f) && e.cvFact.Some? && Means(t, f, e.cvFact.value, a)
    case LocalLlm => Answerable(f) && !f.reviewOnly && e.reply.supported && e.reply.raw.Some? && Means(t, f, e.reply.raw.value, a)
    case Abstained => false
  }

  // What an answer of this source cites.
  function Cites(f: Field, e: Evidence, p: Provenance): seq<string> {
    match p
    case VerifiedAttachment => ["form-plan:verified-attachment"]
    case DeterministicIdentity => ["profile:identity:" + f.canonical]
    case UserConfirmed => ["profile:user_confirmed:" + if f.canonical != "" then f.canonical else f.reviewedKey]
    case OperatorApproved => [e.approvedRef]
    case CvEvidence => [e.cvRef]
    case LocalLlm => e.reply.refs
    case Abstained => []
  }

  lemma RawMeans(t: Texts, f: Field, raw: Option<Raw>, a: Answer)
    ensures Coerce(t, f, raw) == Some(a) <==> raw.Some? && Means(t, f, raw.value, a)
  {
    if raw.Some? { CoercedExactly(t, f, raw.value, a); } else { CoercedExactly(t, f, RawBool(true), a); }
    hide Coerce, Means;
  }

  lemma OfferedExactly(t: Texts, f: Field, e: Evidence, p: Provenance, a: Answer)
    ensures Offer(t, f, e, p) == Some(Decision(f.id, Resolved, p, Some(a), Cites(f, e, p), None)) <==> Says(t, f, e, p, a)
    ensures Offer(t, f, e, p).Some? ==>
              var d := Offer(t, f, e, p).value; d.answer.Some? && d == Decision(f.id, Resolved, p, d.answer, Cites(f, e, p), None)
  {
    RawMeans(t, f, e.identity, a);
    RawMeans(t, f, e.confirmed, a);
    RawMeans(t, f, e.approved, a);
    RawMeans(t, f, e.cvFact, a);
    RawMeans(t, f, e.reply.raw, a);
    RawMeans(t, f, None, a);
    hide Coerce, Means;
  }

  // No source before this one has an answer, the model aside.
  ghost predicate NoneBefore(t: Texts, f: Field, e: Evidence, p: Provenance) {
    forall q: Provenance, a: Answer :: Rank(q) < Rank(p) && q != LocalLlm ==> !Says(t, f, e, q, a)
  }

  /** In any plan of the planner, an answered field has what the first source that has an answer says, with that source's citation. An open
      field has no source with an answer but, at most, a model without an identity or with another one than the plan's. */
  lemma AnswersComeFromTheFirstSource(t: Texts, fields: seq<Field>, evidence: seq<Evidence>, plan: Plan, i: nat)
    requires Sound(t, fields, evidence, plan) && i < |fields|
    ensures var f, e, d := fields[i], evidence[i], plan.decisions[i];
      && d.fieldId == f.id && NoneBefore(t, f, e, d.provenance)
      && (d.disposition == Resolved ==> d.answer.Some? && Says(t, f, e, d.provenance, d.answer.value) && d.refs == Cites(f, e, d.provenance))
      && (d.disposition != Resolved ==> d.provenance == Abstained && d.answer.None?)
      && (d.disposition != Resolved && e.reply.identity.Some? && (exists a :: Says(t, f, e, LocalLlm, a)) ==>
            plan.audit.Some? && plan.audit != e.reply.identity)
  {
    assert FieldSound(t, fields[i], evidence[i], plan.decisions[i], plan.audit);
    hide Sound;
    FieldComesFromFirst(t, fields[i], evidence[i], plan.decisions[i], plan.audit);
    hide FieldSound, Says, NoneBefore;
  }

  lemma FieldComesFromFirst(t: Texts, f: Field, e: Evidence, d: Decision, audit: Option<Audit>)
    requires FieldSound(t, f, e, d, audit)
    ensures d.fieldId == f.id && NoneBefore(t, f, e, d.provenance)
    ensures d.disposition == Resolved ==> d.answer.Some? && Says(t, f, e, d.provenance, d.answer.value) && d.refs == Cites(f, e, d.provenance)
    ensures d.disposition != Resolved ==> d.provenance == Abstained && d.answer.None?
    ensures d.disposition != Resolved && e.reply.identity.Some? && (exists a :: Says(t, f, e, LocalLlm, a)) ==>
              audit.Some? && audit != e.reply.identity
  {
    hide Says, Offer, AnswersOptions, WhyUnanswered;
    if d.disposition == Resolved { OfferedExactly(t, f, e, d.provenance, d.answer.value); }
    forall q: Provenance, a: Answer | Rank(q) < Rank(d.provenance) && q != LocalLlm ensures !Says(t, f, e, q, a) {
      OfferedExactly(t, f, e, q, a);
    }
    if a :| Says(t, f, e, LocalLlm, a) { OfferedExactly(t, f, e, LocalLlm, a); }
  }

  // ---------- validation ----------

  // The plan lives at most half an hour, fits its size, and its disclosures are distinct, consistent and acknowledged where they ask for it.
  ghost predicate InOrder(fields: seq<Field>, frame: Frame) {
    var ds := frame.disclosures;
    && frame.createdAt < frame.expiresAt && frame.expiresAt - frame.createdAt <= 30 * 60 && frame.fits
    && (forall i, j :: 0 <= i < |ds| && 0 <= j < |ds| && i != j ==> ds[i].id != ds[j].id && ds[i].position != ds[j].position)
    && (forall i, j :: 0 <= i < |ds| && 0 <= j < |ds| && ds[i].kind == PrivacyPolicy ==> ds[j].kind != NoPrivacyPolicyNotice)
    && forall i :: 0 <= i < |ds| && ds[i].acknowledgement.Some? ==>
         exists k :: 0 <= k < |fields| && fields[k].id == ds[i].acknowledgement.value && fields[k].kind in {Consent, Attestation}
  }

  // The control would take the answer: a finite number between its bounds, or a text of the right format, length and pattern.
  ghost predicate Takes(t: Texts, f: Field, a: Answer) {
    var c := f.constraints;
    match a
    case WholeAnswer(n) => (c.minValue.Some? ==> n as real >= c.minValue.value) && (c.maxValue.Some? ==> n as real <= c.maxValue.value)
    case DecimalAnswer(x) => (c.minValue.Some? ==> x >= c.minValue.value) && (c.maxValue.Some? ==> x <= c.maxValue.value)
    case NotFiniteAnswer => false
    case TextAnswer(s) =>
      f.kind in {Text, TextArea, Date, Email, Phone, Url, FileControl} ==>
        && |s| <= 2000 && t.formatted(f.kind, s)
        && (c.minLength.Some? ==> |s| >= c.minLength.value) && (c.maxLength.Some? ==> |s| <= c.maxLength.value)
        && (c.pattern.Some? ==> PatternMatcher.PatternAccepts(c.pattern.value, s))
    case _ => true
  }

  // What an answered field may hold: no identity or attachment where an operator has to look, no fact from another key there, the
  // attachment only under a compatible name, and otherwise a value the control takes.
  ghost predicate MayHold(t: Texts, f: Field, d: Decision) {
    d.answer.Some?
    && (if d.provenance == VerifiedAttachment then f.compatible && !f.reviewOnly else Takes(t, f, d.answer.value))
    && (f.reviewOnly ==> d.provenance != DeterministicIdentity)
    && (f.reviewOnly && d.provenance == UserConfirmed ==> (if f.canonical != "" then f.canonical else f.reviewedKey) == f.sensitiveKey)
  }

  lemma FrameExactly(fields: seq<Field>, frame: Frame)
    ensures FrameOk(fields, frame) <==> InOrder(fields, frame)
  {
  }

  lemma HoldsExactly(t: Texts, f: Field, d: Decision)
    requires d.disposition == Resolved
    ensures Acceptable(t, f, d) <==> MayHold(t, f, d)
  {
  }

  /** Validation accepts what the planner planned if and only if the frame is in order, field identifiers differ, the model identity is a
      qualified one, and every answered field may hold its answer. */
  lemma ValidatedExactly(t: Texts, fields: seq<Field>, evidence: seq<Evidence>, plan: Plan, frame: Frame, qualified: Audit -> bool)
    requires Sound(t, fields, evidence, plan) && forall i :: 0 <= i < |evidence| ==> evidence[i].attachmentMatches == frame.attached
    ensures PassesValidation(t, fields, plan, frame, qualified) <==>
            && InOrder(fields, frame) && (plan.audit.Some? ==> qualified(plan.audit.value))
            && (forall i, j :: 0 <= i < |fields| && 0 <= j < |fields| && fields[i].id == fields[j].id ==> i == j)
            && forall i :: 0 <= i < |fields| && plan.decisions[i].disposition == Resolved ==> MayHold(t, fields[i], plan.decisions[i])
  {
    ValidationPassesExactly(t, fields, evidence, plan, frame, qualified);
    FrameExactly(fields, frame);
    forall i | 0 <= i < |fields| && plan.decisions[i].disposition == Resolved
      ensures Acceptable(t, fields[i], plan.decisions[i]) <==> MayHold(t, fields[i], plan.decisions[i])
    {
      HoldsExactly(t, fields[i], plan.decisions[i]);
    }
    forall i | 0 <= i < |fields| && plan.decisions[i].disposition != Resolved ensures Acceptable(t, fields[i], plan.decisions[i]) {
    }
    hide PassesValidation, FrameOk, InOrder, Acceptable, MayHold, FieldSound, Blocks;
  }
}
