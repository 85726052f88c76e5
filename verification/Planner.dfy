/** The answer planner: one decision per observed field by a fixed order of provenance, with a single model identity per plan.
    Text normalization, sensitivity and label rules are supplied as functions or flags. */
module Planner {
  import opened Wrappers
  import PatternMatcher

  type Reason = string

  datatype FieldType =
    | Text | TextArea | Email | Phone | Url | Number | Date | Select | MultiSelect | Radio | CheckBox
    | FileControl | Consent | Attestation | UnknownType

  datatype Choice = Choice(value: string, caption: string, disabled: bool)

  // What the browser observed about acceptable values.
  datatype Constraints = Constraints(
    minLength: Option<nat>, maxLength: Option<nat>, minValue: Option<real>, maxValue: Option<real>, pattern: Option<string>)

  // An observed field with the verdicts of the field rules on it. The canonical name gives two keys, one for looking up
  // facts and one for sensitive evidence; each is empty when there is none.
  datatype Field = Field(
    id: string, named: bool, canonical: string, sensitiveKey: string, reviewedKey: string, kind: FieldType, required: bool,
    options: seq<Choice>, constraints: Constraints, reviewOnly: bool, scopedSemantics: bool, compatible: bool, reviewedName: bool,
    reviewedAttachment: bool)

  datatype Numeric = Finite(x: real) | NotFinite

  datatype Raw = RawBool(b: bool) | RawNumber(n: Numeric) | RawText(s: string) | RawList(items: seq<string>)

  datatype Answer =
    | BoolAnswer(b: bool) | WholeAnswer(n: int) | DecimalAnswer(x: real) | NotFiniteAnswer | TextAnswer(s: string)
    | ManyAnswer(values: seq<string>)

  datatype Provenance =
    | VerifiedAttachment | DeterministicIdentity | UserConfirmed | OperatorApproved | CvEvidence | LocalLlm | Abstained

  datatype Disposition = Resolved | OperatorRequired | AbstainedFrom

  datatype Decision = Decision(
    fieldId: string, disposition: Disposition, provenance: Provenance, answer: Option<Answer>, refs: seq<string>, reason: Option<Reason>)

  datatype Audit = Audit(provider: string, model: string, digest: string)

  // What the text helpers do: normalize, strip, fold case, render, split at commas, read a number, and judge the format of
  // a date, an address, a phone number or a link.
  datatype Texts = Texts(
    norm: string -> string, strip: string -> string, fold: string -> string, render: Raw -> string,
    split: string -> seq<string>, number: string -> Option<Numeric>, formatted: (FieldType, string) -> bool)

  // The model's reply for one field: a proposed value with the evidence it cites, whether that evidence supports it, the
  // identity that produced it, and the reason it gave when it proposed nothing.
  datatype Reply = Reply(raw: Option<Raw>, refs: seq<string>, supported: bool, identity: Option<Audit>, reason: Option<Reason>)

  // Everything the resolvers know about one field; values that failed their safety test are absent.
  datatype Evidence = Evidence(
    attachmentMatches: bool, identity: Option<Raw>, confirmed: Option<Raw>, approved: Option<Raw>, approvedRef: string,
    cvFact: Option<Raw>, cvRef: string, reply: Reply)

  const REQUIRED_UNKNOWN: Reason := "REQUIRED_FIELD_UNKNOWN"

  // ---------- coercion ----------

  function Matches(t: Texts, options: seq<Choice>, text: string): set<string> {
    set i | 0 <= i < |options| && !options[i].disabled && t.norm(text) in {t.norm(options[i].value), t.norm(options[i].caption)}
      :: options[i].value
  }

  // The one enabled option a text names, if it names exactly one.
  function OneMatch(t: Texts, options: seq<Choice>, text: string): (r: Option<string>)
    ensures r.Some? ==> r.value in Matches(t, options, text)
  {
    var matches := Matches(t, options, text);
    if |matches| == 1 then
      TheOnly(matches);
      var v :| v in matches;
      Some(v)
    else None
  }

  lemma TheOnly(s: set<string>)
    requires |s| == 1
    ensures forall x, y :: x in s && y in s ==> x == y
  {
    var x :| x in s;
    assert |s - {x}| == 0;
    assert s == {x};
  }

  function Selected(t: Texts, options: seq<Choice>, values: seq<string>): Option<seq<string>> {
    if values == [] then Some([])
    else
      var before := Selected(t, options, values[..|values| - 1]);
      var one := OneMatch(t, options, values[|values| - 1]);
      if before.None? || one.None? then None else Some(before.value + [one.value])
  }

  predicate NoDuplicates(s: seq<string>) { forall i, j :: 0 <= i < j < |s| ==> s[i] != s[j] }

  function NonEmptyText(t: Texts, raw: Raw): Option<Answer> {
    var s := t.strip(t.render(raw));
    if s == "" then None else Some(TextAnswer(s))
  }

  function Whole(n: Numeric): Answer {
    if n.NotFinite? then NotFiniteAnswer
    else if n.x.Floor as real == n.x then WholeAnswer(n.x.Floor)
    else DecimalAnswer(n.x)
  }

  function Coerce(t: Texts, f: Field, raw: Option<Raw>): Option<Answer> {
    if raw.None? then None
    else
      match f.kind
      case Number =>
        (match raw.value
         case RawNumber(n) => Some(Whole(n))
         case RawText(s) => if t.number(s).Some? then Some(Whole(t.number(s).value)) else None
         case _ => None)
      case CheckBox => CoerceFlag(t, raw.value)
      case Consent => CoerceFlag(t, raw.value)
      case Attestation => CoerceFlag(t, raw.value)
      case Select => CoerceOne(t, f, raw.value)
      case Radio => CoerceOne(t, f, raw.value)
      case MultiSelect =>
        var values := if raw.value.RawList? then raw.value.items else t.split(t.render(raw.value));
        var selected := Selected(t, f.options, values);
        if selected.Some? && selected.value != [] && NoDuplicates(selected.value) then Some(ManyAnswer(selected.value)) else None
      case UnknownType => None
      case _ => NonEmptyText(t, raw.value)
  }

  function CoerceFlag(t: Texts, raw: Raw): Option<Answer> {
    if raw.RawBool? then Some(BoolAnswer(raw.b))
    else
      var s := t.fold(t.strip(t.render(raw)));
      if s in {"yes", "true", "1", "checked", "agree", "accepted"} then Some(BoolAnswer(true))
      else if s in {"no", "false", "0", "unchecked", "disagree", "declined"} then Some(BoolAnswer(false))
      else None
  }

  function CoerceOne(t: Texts, f: Field, raw: Raw): Option<Answer> {
    var one := OneMatch(t, f.options, t.render(raw));
    if one.Some? then Some(TextAnswer(one.value)) else None
  }

  predicate EnabledValue(f: Field, v: string) { exists i :: 0 <= i < |f.options| && !f.options[i].disabled && f.options[i].value == v }

  // What plan validation demands of an answer to a control with options.
  predicate AnswersOptions(f: Field, a: Answer) {
    && (f.kind in {Select, Radio} ==> a.TextAnswer? && EnabledValue(f, a.s))
    && (f.kind == MultiSelect ==> a.ManyAnswer? && forall i :: 0 <= i < |a.values| ==> EnabledValue(f, a.values[i]))
  }

  lemma {:induction false} SelectedAreEnabled(t: Texts, f: Field, values: seq<string>)
    ensures var s := Selected(t, f.options, values);
      s.Some? ==> |s.value| == |values| && forall i :: 0 <= i < |s.value| ==> EnabledValue(f, s.value[i])
    decreases |values|
  {
    if values != [] {
      SelectedAreEnabled(t, f, values[..|values| - 1]);
      MatchIsEnabled(t, f, values[|values| - 1]);
      hide OneMatch, EnabledValue;
    }
  }

  lemma MatchIsEnabled(t: Texts, f: Field, text: string)
    ensures var one := OneMatch(t, f.options, text); one.Some? ==> EnabledValue(f, one.value)
  {
  }

  /** Coerced answers name only enabled options. */
  lemma CoercedAnswersAreEnabled(t: Texts, f: Field, raw: Option<Raw>)
    ensures var a := Coerce(t, f, raw); a.Some? ==> AnswersOptions(f, a.value)
  {
    if raw.Some? && f.kind in {Select, Radio} {
      MatchIsEnabled(t, f, t.render(raw.value));
    } else if raw.Some? && f.kind == MultiSelect {
      SelectedAreEnabled(t, f, if raw.value.RawList? then raw.value.items else t.split(t.render(raw.value)));
    }
    hide OneMatch, Selected, EnabledValue;
  }

  // ---------- resolution ----------

  function Resolve(t: Texts, f: Field, raw: Option<Raw>, p: Provenance, refs: seq<string>): Option<Decision> {
    var a := Coerce(t, f, raw);
    if a.Some? then Some(Decision(f.id, Resolved, p, a, refs, None)) else None
  }

  const ATTACHMENT_SENTINEL := "verified_attachment"
  const ATTACHMENT_REF := "form-plan:verified-attachment"
  const EXPLICIT_PREFIX := "operator_confirmation:"

  function ConfirmedRef(key: string): string { "profile:user_confirmed:" + key }

  function EvidenceKey(f: Field): string { if f.canonical != "" then f.canonical else f.reviewedKey }

  predicate AutomaticAllowed(f: Field) { f.compatible && !(f.reviewOnly && !f.scopedSemantics) && f.kind != FileControl }

  // A file control whose name or label asks for the reviewed CV.
  predicate IsReviewedAttachment(f: Field) { f.kind == FileControl && f.reviewedAttachment }

  // One source after another, each only when none before it answered.
  function Attached(f: Field, e: Evidence): Option<Decision> {
    if IsReviewedAttachment(f) && e.attachmentMatches
    then Some(Decision(f.id, Resolved, VerifiedAttachment, Some(TextAnswer(ATTACHMENT_SENTINEL)), [ATTACHMENT_REF], None)) else None
  }

  function FromIdentity(t: Texts, f: Field, e: Evidence): Option<Decision> {
    Resolve(t, f, if AutomaticAllowed(f) then e.identity else None, DeterministicIdentity, ["profile:identity:" + f.canonical])
  }

  function FromConfirmed(t: Texts, f: Field, e: Evidence): Option<Decision> {
    if EvidenceKey(f) != "" && AutomaticAllowed(f) then Resolve(t, f, e.confirmed, UserConfirmed, [ConfirmedRef(EvidenceKey(f))]) else None
  }

  function FromOperator(t: Texts, f: Field, e: Evidence): Option<Decision> {
    if f.named && AutomaticAllowed(f) then Resolve(t, f, e.approved, OperatorApproved, [e.approvedRef]) else None
  }

  function FromCv(t: Texts, f: Field, e: Evidence): Option<Decision> {
    if EvidenceKey(f) != "" && AutomaticAllowed(f) && !f.reviewOnly then Resolve(t, f, e.cvFact, CvEvidence, [e.cvRef]) else None
  }

  function FromModel(t: Texts, f: Field, e: Evidence): Option<Decision> {
    if e.reply.supported then Resolve(t, f, e.reply.raw, LocalLlm, e.reply.refs) else None
  }

  function Or(x: Option<Decision>, y: Option<Decision>): Option<Decision> { if x.Some? then x else y }

  // Every source but the model.
  function FromRecords(t: Texts, f: Field, e: Evidence): Option<Decision> {
    Or(Attached(f, e), Or(FromIdentity(t, f, e), Or(FromConfirmed(t, f, e), Or(FromOperator(t, f, e), FromCv(t, f, e)))))
  }

  function Abstain(f: Field, reason: Reason): Decision {
    Decision(f.id, if f.required || f.reviewOnly then OperatorRequired else AbstainedFrom, Abstained, None, [], Some(reason))
  }

  predicate MayAskModel(f: Field) { AutomaticAllowed(f) && !f.reviewOnly }

  function UnaskedReason(f: Field): Option<Reason> {
    if IsReviewedAttachment(f) then Some("ATTACHMENT_UNVERIFIED")
    else if f.canonical != "" && !f.compatible && !f.reviewedName then Some("UNSUPPORTED_CLAIM")
    else None
  }

  // ---------- the plan ----------

  datatype Plan = Plan(decisions: seq<Decision>, blockers: set<Reason>, audit: Option<Audit>)

  // The answer kept for a field, if any, and the reason recorded when there is none.
  function Kept(t: Texts, f: Field, e: Evidence, audit: Option<Audit>): (Option<Decision>, Option<Reason>) {
    var records := FromRecords(t, f, e);
    if records.Some? || !MayAskModel(f) then (records, UnaskedReason(f))
    else
      var proposed := FromModel(t, f, e);
      if proposed.None? then (None, e.reply.reason)
      else if e.reply.identity.None? then (None, Some("LLM_MODEL_MISSING"))
      else if audit.Some? && audit != e.reply.identity then (None, Some("LLM_UNAVAILABLE"))
      else (proposed, None)
  }

  function ModelBlockers(t: Texts, f: Field, e: Evidence, audit: Option<Audit>): set<Reason> {
    if FromRecords(t, f, e).Some? || !MayAskModel(f) || FromModel(t, f, e).None? then {}
    else if e.reply.identity.None? then {"LLM_MODEL_MISSING"}
    else if audit.Some? && audit != e.reply.identity then {"LLM_UNAVAILABLE"}
    else {}
  }

  function DecisionFor(t: Texts, f: Field, e: Evidence, audit: Option<Audit>): Decision {
    var (kept, reason) := Kept(t, f, e, audit);
    if kept.Some? then kept.value else Abstain(f, if reason.Some? then reason.value else REQUIRED_UNKNOWN)
  }

  function FieldBlockers(f: Field, d: Decision): set<Reason> {
    if d.disposition == Resolved || !f.required then {}
    else {REQUIRED_UNKNOWN} + if d.reason.Some? then {d.reason.value} else {}
  }

  function Extend(t: Texts, plan: Plan, f: Field, e: Evidence): Plan {
    var d := DecisionFor(t, f, e, plan.audit);
    Plan(plan.decisions + [d], plan.blockers + ModelBlockers(t, f, e, plan.audit) + FieldBlockers(f, d),
         if d.provenance == LocalLlm && plan.audit.None? then e.reply.identity else plan.audit)
  }

  method PlanFields(t: Texts, fields: seq<Field>, evidence: seq<Evidence>, bounded: bool) returns (r: Result<Plan, Reason>)
    requires |evidence| == |fields|
    ensures r.Err? <==> !bounded
    ensures r.Err? ==> r.error == "FORM_CHANGED"
    ensures r.Ok? ==> Sound(t, fields, evidence, r.value)
  {
    if !bounded { return Err("FORM_CHANGED"); }
    hide Extend, Sound, Blocks, FieldSound, Unanswered;
    var plan := Plan([], {}, None);
    EmptyIsSound(t);
    for n := 0 to |fields|
      invariant Sound(t, fields[..n], evidence[..n], plan)
    {
      ExtendIsSound(t, fields[..n], evidence[..n], plan, fields[n], evidence[n]);
      plan := PlanOne(t, fields[n], evidence[n], plan);
      assert fields[..n + 1] == fields[..n] + [fields[n]] && evidence[..n + 1] == evidence[..n] + [evidence[n]];
    }
    assert fields[..|fields|] == fields && evidence[..|fields|] == evidence;
    r := Ok(plan);
  }

  // The body of the planning loop.
  method PlanOne(t: Texts, f: Field, e: Evidence, plan: Plan) returns (plan': Plan)
    ensures plan' == Extend(t, plan, f, e)
  {
    hide Coerce, Resolve, FromRecords, FromModel, MayAskModel, UnaskedReason, Abstain;
    SourcesNameThemselves(t, f, e);
    AbstainingResolvesNothing(f);
    var blockers, audit := plan.blockers, plan.audit;
    var decision := FromRecords(t, f, e);
    var reason := UnaskedReason(f);
    if decision.None? && MayAskModel(f) {
      decision := FromModel(t, f, e);
      reason := if decision.Some? then None else e.reply.reason;
      if decision.Some? {
        if e.reply.identity.None? {
          decision := None;
          reason := Some("LLM_MODEL_MISSING");
          blockers := blockers + {"LLM_MODEL_MISSING"};
        } else if audit.None? {
          audit := e.reply.identity;
        } else if audit != e.reply.identity {
          decision := None;
          reason := Some("LLM_UNAVAILABLE");
          blockers := blockers + {"LLM_UNAVAILABLE"};
        }
      }
    }
    assert blockers == plan.blockers + ModelBlockers(t, f, e, plan.audit);
    assert decision == Kept(t, f, e, plan.audit).0 && (decision.None? ==> reason == Kept(t, f, e, plan.audit).1);
    var final := if decision.Some? then decision.value else Abstain(f, if reason.Some? then reason.value else REQUIRED_UNKNOWN);
    assert final == DecisionFor(t, f, e, plan.audit);
    assert audit == if final.provenance == LocalLlm && plan.audit.None? then e.reply.identity else plan.audit;
    hide Kept, ModelBlockers, DecisionFor;
    if final.disposition != Resolved && f.required {
      blockers := blockers + {REQUIRED_UNKNOWN};
      if final.reason.Some? { blockers := blockers + {final.reason.value}; }
    }
    plan' := Plan(plan.decisions + [final], blockers, audit);
  }

  lemma AbstainingResolvesNothing(f: Field)
    ensures forall reason :: Abstain(f, reason).provenance == Abstained && Abstain(f, reason).disposition != Resolved
  {
  }

  // ---------- what a plan promises ----------

  // What each source offers for a field.
  function Offer(t: Texts, f: Field, e: Evidence, p: Provenance): Option<Decision> {
    match p
    case VerifiedAttachment => Attached(f, e)
    case DeterministicIdentity => FromIdentity(t, f, e)
    case UserConfirmed => FromConfirmed(t, f, e)
    case OperatorApproved => FromOperator(t, f, e)
    case CvEvidence => FromCv(t, f, e)
    case LocalLlm => if MayAskModel(f) then FromModel(t, f, e) else None
    case Abstained => None
  }

  function Rank(p: Provenance): nat {
    match p
    case VerifiedAttachment => 0
    case DeterministicIdentity => 1
    case UserConfirmed => 2
    case OperatorApproved => 3
    case CvEvidence => 4
    case LocalLlm => 5
    case Abstained => 6
  }

  // The answer comes from the first source that has one.
  ghost predicate FirstOffer(t: Texts, f: Field, e: Evidence, d: Decision) {
    && (d.disposition == Resolved ==> Offer(t, f, e, d.provenance) == Some(d))
    && forall q: Provenance :: Rank(q) < Rank(d.provenance) && q != LocalLlm ==> Offer(t, f, e, q).None?
  }

  ghost predicate FieldSound(t: Texts, f: Field, e: Evidence, d: Decision, audit: Option<Audit>) {
    && d.fieldId == f.id && (d.disposition == Resolved <==> d.answer.Some?) && (d.disposition == Resolved <==> d.provenance != Abstained)
    && FirstOffer(t, f, e, d)
    && (d.disposition == Resolved && d.provenance != VerifiedAttachment ==> f.compatible && f.kind != FileControl && AnswersOptions(f, d.answer.value))
    && (f.reviewOnly ==> d.provenance != CvEvidence && d.provenance != LocalLlm)
    && (d.provenance == LocalLlm ==> audit.Some? && e.reply.identity == audit)
    && (d.disposition != Resolved && (f.required || f.reviewOnly) ==> d.disposition == OperatorRequired)
    && (d.disposition != Resolved ==> d.reason == Some(WhyUnanswered(f, e, Offer(t, f, e, LocalLlm).Some?)))
    && (d.disposition != Resolved && Offer(t, f, e, LocalLlm).Some? && e.reply.identity.Some? ==> audit.Some? && audit != e.reply.identity)
  }

  // Why a field stays open, given whether the model had an answer to it.
  function WhyUnanswered(f: Field, e: Evidence, answered: bool): Reason {
    if answered then if e.reply.identity.None? then "LLM_MODEL_MISSING" else "LLM_UNAVAILABLE"
    else if f.compatible && f.kind != FileControl && !f.reviewOnly then if e.reply.reason.Some? then e.reply.reason.value else REQUIRED_UNKNOWN
    else if f.kind == FileControl && f.reviewedAttachment then "ATTACHMENT_UNVERIFIED"
    else if f.canonical != "" && !f.compatible && !f.reviewedName then "UNSUPPORTED_CLAIM"
    else REQUIRED_UNKNOWN
  }

  // An open field blocks when it is required, and a model's answer that could not be kept always does.
  predicate Blocks(t: Texts, f: Field, e: Evidence, d: Decision, code: Reason) {
    d.disposition != Resolved
    && ((f.required && code == REQUIRED_UNKNOWN) || ((f.required || Offer(t, f, e, LocalLlm).Some?) && d.reason == Some(code)))
  }

  predicate Unanswered(f: Field, d: Decision) { f.required && d.disposition != Resolved }

  ghost predicate Sound(t: Texts, fields: seq<Field>, evidence: seq<Evidence>, plan: Plan) {
    && |plan.decisions| == |fields| == |evidence|
    && (forall i :: 0 <= i < |fields| ==> FieldSound(t, fields[i], evidence[i], plan.decisions[i], plan.audit))
    && (plan.audit.Some? <==> exists i :: 0 <= i < |fields| && plan.decisions[i].provenance == LocalLlm)
    && (REQUIRED_UNKNOWN in plan.blockers <==> exists i :: 0 <= i < |fields| && Unanswered(fields[i], plan.decisions[i]))
    && (forall i :: 0 <= i < |fields| && Unanswered(fields[i], plan.decisions[i]) && plan.decisions[i].reason.Some? ==>
          plan.decisions[i].reason.value in plan.blockers)
    && forall code :: code in plan.blockers <==>
         exists i :: 0 <= i < |fields| && Blocks(t, fields[i], evidence[i], plan.decisions[i], code)
  }

  lemma EmptyIsSound(t: Texts)
    ensures Sound(t, [], [], Plan([], {}, None))
  {
  }

  lemma SourcesNameThemselves(t: Texts, f: Field, e: Evidence)
    ensures FromRecords(t, f, e).Some? ==> FromRecords(t, f, e).value.provenance != LocalLlm && FromRecords(t, f, e).value.disposition == Resolved
    ensures FromModel(t, f, e).Some? ==> FromModel(t, f, e).value.provenance == LocalLlm && FromModel(t, f, e).value.disposition == Resolved
  {
    hide Coerce;
  }

  // Each offer is an answer of its own kind, to a field that source may answer.
  ghost predicate OfferOk(f: Field, p: Provenance, d: Decision) {
    && d.fieldId == f.id && d.disposition == Resolved && d.provenance == p && d.answer.Some?
    && (p != VerifiedAttachment ==> f.compatible && f.kind != FileControl && AnswersOptions(f, d.answer.value))
    && (f.reviewOnly ==> p != CvEvidence && p != LocalLlm)
  }

  lemma OffersAreOk(t: Texts, f: Field, e: Evidence, p: Provenance)
    ensures Offer(t, f, e, p).Some? ==> OfferOk(f, p, Offer(t, f, e, p).value)
  {
    CoercedAnswersAreEnabled(t, f, e.identity);
    CoercedAnswersAreEnabled(t, f, e.confirmed);
    CoercedAnswersAreEnabled(t, f, e.approved);
    CoercedAnswersAreEnabled(t, f, e.cvFact);
    CoercedAnswersAreEnabled(t, f, e.reply.raw);
    NothingCoercesToNothing(t, f);
    hide Coerce, AnswersOptions;
  }

  lemma NothingCoercesToNothing(t: Texts, f: Field)
    ensures Coerce(t, f, None).None?
  {
  }

  lemma DecisionIsSound(t: Texts, f: Field, e: Evidence, audit: Option<Audit>)
    ensures var d := DecisionFor(t, f, e, audit);
      FieldSound(t, f, e, d, if d.provenance == LocalLlm && audit.None? then e.reply.identity else audit)
  {
    var d := DecisionFor(t, f, e, audit);
    OffersAreOk(t, f, e, VerifiedAttachment);
    OffersAreOk(t, f, e, DeterministicIdentity);
    OffersAreOk(t, f, e, UserConfirmed);
    OffersAreOk(t, f, e, OperatorApproved);
    OffersAreOk(t, f, e, CvEvidence);
    OffersAreOk(t, f, e, LocalLlm);
    OpenReason(t, f, e, audit);
    hide WhyUnanswered;
    hide Attached, FromIdentity, FromConfirmed, FromOperator, FromCv, FromModel, MayAskModel, UnaskedReason, AnswersOptions;
  }

  lemma OpenReason(t: Texts, f: Field, e: Evidence, audit: Option<Audit>)
    ensures var d := DecisionFor(t, f, e, audit);
      d.disposition != Resolved ==> d.reason == Some(WhyUnanswered(f, e, Offer(t, f, e, LocalLlm).Some?))
  {
    SourcesNameThemselves(t, f, e);
    hide FromRecords, FromModel;
  }

  lemma ExtendIsSound(t: Texts, fields: seq<Field>, evidence: seq<Evidence>, plan: Plan, f: Field, e: Evidence)
    requires Sound(t, fields, evidence, plan)
    ensures Sound(t, fields + [f], evidence + [e], Extend(t, plan, f, e))
  {
    hide FieldSound, DecisionFor, ModelBlockers, Unanswered;
    FieldsStaySound(t, fields, evidence, plan, f, e);
    BlockersStayExact(t, fields, plan, f, e);
    AuditStaysExact(t, fields, evidence, plan, f, e);
    var plan', fields', evidence' := Extend(t, plan, f, e), fields + [f], evidence + [e];
    forall code
      ensures code in plan'.blockers <==> exists i :: 0 <= i < |fields'| && Blocks(t, fields'[i], evidence'[i], plan'.decisions[i], code)
    {
      BlockersStayWhy(t, fields, evidence, plan, f, e, code);
    }
    hide Extend, Blocks;
  }

  lemma BlockersStayWhy(t: Texts, fields: seq<Field>, evidence: seq<Evidence>, plan: Plan, f: Field, e: Evidence, code: Reason)
    requires |plan.decisions| == |fields| == |evidence|
    requires code in plan.blockers <==> exists i :: 0 <= i < |fields| && Blocks(t, fields[i], evidence[i], plan.decisions[i], code)
    ensures var plan', fields', evidence' := Extend(t, plan, f, e), fields + [f], evidence + [e];
      code in plan'.blockers <==> exists i :: 0 <= i < |fields'| && Blocks(t, fields'[i], evidence'[i], plan'.decisions[i], code)
  {
    var plan', fields', evidence', n := Extend(t, plan, f, e), fields + [f], evidence + [e], |fields|;
    NewBlockers(t, plan, f, e, code);
    hide DecisionFor, ModelBlockers, FieldBlockers, Blocks;
    assert fields'[n] == f && evidence'[n] == e && plan'.decisions[n] == DecisionFor(t, f, e, plan.audit);
    if i :| 0 <= i < n && Blocks(t, fields[i], evidence[i], plan.decisions[i], code) {
      assert Blocks(t, fields'[i], evidence'[i], plan'.decisions[i], code);
    }
  }

  lemma NewBlockers(t: Texts, plan: Plan, f: Field, e: Evidence, code: Reason)
    ensures code in ModelBlockers(t, f, e, plan.audit) + FieldBlockers(f, DecisionFor(t, f, e, plan.audit)) <==>
            Blocks(t, f, e, DecisionFor(t, f, e, plan.audit), code)
  {
    SourcesNameThemselves(t, f, e);
    hide FromRecords, FromModel, UnaskedReason;
  }

  lemma FieldsStaySound(t: Texts, fields: seq<Field>, evidence: seq<Evidence>, plan: Plan, f: Field, e: Evidence)
    requires |plan.decisions| == |fields| == |evidence|
    requires forall i :: 0 <= i < |fields| ==> FieldSound(t, fields[i], evidence[i], plan.decisions[i], plan.audit)
    ensures var plan' := Extend(t, plan, f, e);
      forall i :: 0 <= i < |fields| + 1 ==> FieldSound(t, (fields + [f])[i], (evidence + [e])[i], plan'.decisions[i], plan'.audit)
  {
    hide FieldSound, DecisionFor;
    var plan' := Extend(t, plan, f, e);
    DecisionIsSound(t, f, e, plan.audit);
    forall i | 0 <= i < |fields| + 1 ensures FieldSound(t, (fields + [f])[i], (evidence + [e])[i], plan'.decisions[i], plan'.audit) {
      if i < |fields| { AuditStays(t, fields[i], evidence[i], plan.decisions[i], plan.audit, plan'.audit); }
    }
  }

  lemma AuditStaysExact(t: Texts, fields: seq<Field>, evidence: seq<Evidence>, plan: Plan, f: Field, e: Evidence)
    requires |plan.decisions| == |fields|
    requires plan.audit.Some? <==> exists i :: 0 <= i < |fields| && plan.decisions[i].provenance == LocalLlm
    ensures var plan' := Extend(t, plan, f, e);
      plan'.audit.Some? <==> exists i :: 0 <= i < |fields| + 1 && plan'.decisions[i].provenance == LocalLlm
  {
    var d := DecisionFor(t, f, e, plan.audit);
    var plan' := Extend(t, plan, f, e);
    DecisionIsSound(t, f, e, plan.audit);
    assert d.provenance == LocalLlm ==> plan'.audit.Some?;
    hide DecisionFor, FieldSound;
    assert plan'.decisions[|fields|] == d;
    if i :| 0 <= i < |fields| && plan.decisions[i].provenance == LocalLlm { assert plan'.decisions[i] == plan.decisions[i]; }
  }

  lemma BlockersStayExact(t: Texts, fields: seq<Field>, plan: Plan, f: Field, e: Evidence)
    requires |plan.decisions| == |fields|
    requires REQUIRED_UNKNOWN in plan.blockers <==> exists i :: 0 <= i < |fields| && Unanswered(fields[i], plan.decisions[i])
    requires forall i :: 0 <= i < |fields| && Unanswered(fields[i], plan.decisions[i]) && plan.decisions[i].reason.Some? ==>
                           plan.decisions[i].reason.value in plan.blockers
    ensures var plan', fields' := Extend(t, plan, f, e), fields + [f];
      && (REQUIRED_UNKNOWN in plan'.blockers <==> exists i :: 0 <= i < |fields'| && Unanswered(fields'[i], plan'.decisions[i]))
      && (forall i :: 0 <= i < |fields'| && Unanswered(fields'[i], plan'.decisions[i]) && plan'.decisions[i].reason.Some? ==>
            plan'.decisions[i].reason.value in plan'.blockers)
  {
    var plan', fields' := Extend(t, plan, f, e), fields + [f];
    var n := |fields|;
    assert ModelBlockers(t, f, e, plan.audit) <= {"LLM_MODEL_MISSING", "LLM_UNAVAILABLE"};
    hide DecisionFor, ModelBlockers;
    assert fields'[n] == f && plan'.decisions[n] == DecisionFor(t, f, e, plan.audit);
    if i :| 0 <= i < n && Unanswered(fields[i], plan.decisions[i]) { assert Unanswered(fields'[i], plan'.decisions[i]); }
  }

  lemma AuditStays(t: Texts, f: Field, e: Evidence, d: Decision, audit: Option<Audit>, audit': Option<Audit>)
    requires FieldSound(t, f, e, d, audit) && (audit.Some? ==> audit' == audit)
    ensures FieldSound(t, f, e, d, audit')
  {
    hide FirstOffer, AnswersOptions;
  }

  // ---------- plan validation ----------

  const MAX_TEXT := 2000

  predicate DistinctIds(fields: seq<Field>) { forall i, j :: 0 <= i < j < |fields| ==> fields[i].id != fields[j].id }

  predicate IsTextKind(k: FieldType) { k in {Text, TextArea, Date, Email, Phone, Url, FileControl} }

  // The value has the type of its control.
  predicate TypeFits(k: FieldType, a: Answer) {
    match k
    case CheckBox => a.BoolAnswer?
    case Consent => a.BoolAnswer?
    case Attestation => a.BoolAnswer?
    case Number => a.WholeAnswer? || a.DecimalAnswer? || a.NotFiniteAnswer?
    case MultiSelect => a.ManyAnswer?
    case UnknownType => false
    case _ => a.TextAnswer?
  }

  predicate InBounds(c: Constraints, x: real) {
    (c.minValue.Some? ==> c.minValue.value <= x) && (c.maxValue.Some? ==> x <= c.maxValue.value)
  }

  // The value is one the observed control would take: a finite number inside its bounds, or a text of the right format,
  // length and pattern.
  ghost predicate MeetsConstraints(t: Texts, f: Field, a: Answer) {
    match a
    case WholeAnswer(n) => InBounds(f.constraints, n as real)
    case DecimalAnswer(x) => InBounds(f.constraints, x)
    case NotFiniteAnswer => false
    case TextAnswer(s) =>
      IsTextKind(f.kind) ==>
        && |s| <= MAX_TEXT && t.formatted(f.kind, s)
        && (f.constraints.minLength.Some? ==> f.constraints.minLength.value <= |s|)
        && (f.constraints.maxLength.Some? ==> |s| <= f.constraints.maxLength.value)
        && (f.constraints.pattern.Some? ==> PatternMatcher.PatternAccepts(f.constraints.pattern.value, s))
    case _ => true
  }

  predicate StartsWith(s: string, prefix: string) { |prefix| <= |s| && s[..|prefix|] == prefix }

  predicate ExplicitlyConfirmed(d: Decision) { d.refs != [] && forall i :: 0 <= i < |d.refs| ==> StartsWith(d.refs[i], EXPLICIT_PREFIX) }

  // Everything plan validation demands of one resolved answer. `attached` says that the plan carries the verified attachment
  // of exactly the selected CV.
  ghost predicate ResolvedFits(t: Texts, f: Field, d: Decision, attached: bool)
    requires d.answer.Some?
  {
    var byAttachment := d.provenance == VerifiedAttachment;
    && (byAttachment ==> IsReviewedAttachment(f) && d.answer.value == TextAnswer(ATTACHMENT_SENTINEL) && d.refs == [ATTACHMENT_REF] && attached)
    && (!byAttachment ==> f.kind != FileControl)
    && (f.compatible || (d.provenance == UserConfirmed && ExplicitlyConfirmed(d)))
    && (f.reviewOnly ==> SensitiveFits(f, d))
    && (!byAttachment ==> TypeFits(f.kind, d.answer.value) && MeetsConstraints(t, f, d.answer.value))
    && AnswersOptions(f, d.answer.value)
  }

  // What it demands besides on a field that needs an operator's review.
  predicate SensitiveFits(f: Field, d: Decision) {
    && d.provenance in {UserConfirmed, OperatorApproved} && d.refs != []
    && (d.provenance == OperatorApproved ==> f.scopedSemantics)
    && (d.provenance == UserConfirmed && !ExplicitlyConfirmed(d) ==>
          f.scopedSemantics && f.sensitiveKey != "" && forall i :: 0 <= i < |d.refs| ==> d.refs[i] == ConfirmedRef(f.sensitiveKey))
  }

  ghost predicate DecisionFits(t: Texts, f: Field, d: Decision, attached: bool) {
    d.disposition == Resolved ==> d.answer.Some? && ResolvedFits(t, f, d, attached)
  }

  datatype DisclosureKind = PrivacyPolicy | NoPrivacyPolicyNotice | OtherDisclosure

  datatype Disclosure = Disclosure(id: string, position: nat, kind: DisclosureKind, acknowledgement: Option<string>)

  // What a plan carries besides its answers: its lifetime, whether it fits the size limit, the CV attachment, and disclosures.
  datatype Frame = Frame(createdAt: nat, expiresAt: nat, fits: bool, attached: bool, disclosures: seq<Disclosure>)

  const MAX_LIFETIME := 1800

  // A disclosure that asks to be acknowledged names a consent or attestation control of the form.
  predicate Acknowledged(fields: seq<Field>, d: Disclosure) {
    d.acknowledgement.Some? ==> exists k :: 0 <= k < |fields| && fields[k].id == d.acknowledgement.value && fields[k].kind in {Consent, Attestation}
  }

  predicate FrameOk(fields: seq<Field>, f: Frame) {
    && f.createdAt < f.expiresAt <= f.createdAt + MAX_LIFETIME && f.fits
    && (forall i, j :: 0 <= i < j < |f.disclosures| ==>
          f.disclosures[i].id != f.disclosures[j].id && f.disclosures[i].position != f.disclosures[j].position)
    && !((exists i :: 0 <= i < |f.disclosures| && f.disclosures[i].kind == PrivacyPolicy)
         && exists i :: 0 <= i < |f.disclosures| && f.disclosures[i].kind == NoPrivacyPolicyNotice)
    && (forall i :: 0 <= i < |f.disclosures| ==> Acknowledged(fields, f.disclosures[i]))
  }

  // Answers belong to different observed fields.
  predicate AnswersDiffer(ds: seq<Decision>) { forall i, j :: 0 <= i < j < |ds| ==> ds[i].fieldId != ds[j].fieldId }

  predicate Observed(fields: seq<Field>, id: string) { exists k :: 0 <= k < |fields| && fields[k].id == id }

  predicate AnswersObserved(fields: seq<Field>, ds: seq<Decision>) { forall i :: 0 <= i < |ds| ==> Observed(fields, ds[i].fieldId) }

  // Every answer fits the field it names.
  ghost predicate AnswersFit(t: Texts, fields: seq<Field>, ds: seq<Decision>, attached: bool) {
    forall i, k :: 0 <= i < |ds| && 0 <= k < |fields| && fields[k].id == ds[i].fieldId ==> DecisionFits(t, fields[k], ds[i], attached)
  }

  // A model identity is recorded exactly when a model answered, and it is a qualified one.
  ghost predicate AuditFits(plan: Plan, qualified: Audit -> bool) {
    && ((exists i :: 0 <= i < |plan.decisions| && plan.decisions[i].provenance == LocalLlm) <==> plan.audit.Some?)
    && (plan.audit.Some? ==> qualified(plan.audit.value))
  }

  ghost predicate RequiredReported(fields: seq<Field>, plan: Plan) {
    (exists k :: 0 <= k < |fields| && fields[k].required && !AnsweredById(plan.decisions, fields[k].id)) ==> REQUIRED_UNKNOWN in plan.blockers
  }

  // Plan validation, with fields and answers looked up by field identifier.
  ghost predicate PassesValidation(t: Texts, fields: seq<Field>, plan: Plan, frame: Frame, qualified: Audit -> bool) {
    && FrameOk(fields, frame) && DistinctIds(fields) && AnswersDiffer(plan.decisions) && AnswersObserved(fields, plan.decisions)
    && AnswersFit(t, fields, plan.decisions, frame.attached) && AuditFits(plan, qualified) && RequiredReported(fields, plan)
  }

  ghost predicate AnsweredById(decisions: seq<Decision>, id: string) {
    exists i :: 0 <= i < |decisions| && decisions[i].fieldId == id && decisions[i].disposition == Resolved
  }

  // What the planner does not see to itself: answers from identity or from the attachment on review-only fields, confirmed
  // facts there under another key than the sensitive one, an attachment under an incompatible name, and values the control
  // would not take.
  ghost predicate Acceptable(t: Texts, f: Field, d: Decision) {
    d.disposition == Resolved ==>
      && d.answer.Some?
      && (f.reviewOnly ==> d.provenance != DeterministicIdentity && d.provenance != VerifiedAttachment
                           && (d.provenance == UserConfirmed ==> EvidenceKey(f) == f.sensitiveKey))
      && (d.provenance == VerifiedAttachment ==> f.compatible)
      && (d.provenance != VerifiedAttachment ==> MeetsConstraints(t, f, d.answer.value))
  }

  lemma CoercedAnswersAreTyped(t: Texts, f: Field, raw: Option<Raw>)
    requires f.kind != FileControl
    ensures var a := Coerce(t, f, raw); a.Some? ==> TypeFits(f.kind, a.value)
  {
  }

  lemma OffersAreTyped(t: Texts, f: Field, e: Evidence, p: Provenance)
    requires p != VerifiedAttachment && Offer(t, f, e, p).Some? && f.kind != FileControl
    ensures var d := Offer(t, f, e, p).value; d.answer.Some? && TypeFits(f.kind, d.answer.value)
  {
    CoercedAnswersAreTyped(t, f, e.identity);
    CoercedAnswersAreTyped(t, f, e.confirmed);
    CoercedAnswersAreTyped(t, f, e.approved);
    CoercedAnswersAreTyped(t, f, e.cvFact);
    CoercedAnswersAreTyped(t, f, e.reply.raw);
    NothingCoercesToNothing(t, f);
    hide Coerce, TypeFits;
  }

  lemma SensitiveOffers(t: Texts, f: Field, e: Evidence, d: Decision)
    requires f.reviewOnly && d.disposition == Resolved && d.provenance != Abstained && Offer(t, f, e, d.provenance) == Some(d)
    requires d.provenance != CvEvidence && d.provenance != LocalLlm
    ensures SensitiveFits(f, d) <==> d.provenance != DeterministicIdentity && d.provenance != VerifiedAttachment
                                     && (d.provenance == UserConfirmed ==> EvidenceKey(f) == f.sensitiveKey)
  {
    hide Coerce;
    if d.provenance == UserConfirmed {
      assert d.refs == [ConfirmedRef(EvidenceKey(f))] && f.scopedSemantics && EvidenceKey(f) != "";
      ConfirmedRefsDiffer(EvidenceKey(f), f.sensitiveKey);
      assert d.refs[0][0] == 'p';
      assert !StartsWith(d.refs[0], EXPLICIT_PREFIX);
    }
  }

  lemma ConfirmedRefsDiffer(x: string, y: string)
    ensures ConfirmedRef(x) == ConfirmedRef(y) <==> x == y
  {
    assert ConfirmedRef(x)[|"profile:user_confirmed:"|..] == x && ConfirmedRef(y)[|"profile:user_confirmed:"|..] == y;
  }

  lemma SoundDecisionFits(t: Texts, f: Field, e: Evidence, d: Decision, audit: Option<Audit>)
    requires FieldSound(t, f, e, d, audit)
    ensures DecisionFits(t, f, d, e.attachmentMatches) <==> Acceptable(t, f, d)
  {
    if d.disposition == Resolved {
      if f.reviewOnly { SensitiveOffers(t, f, e, d); }
      if d.provenance != VerifiedAttachment { OffersAreTyped(t, f, e, d.provenance); }
      hide SensitiveFits, MeetsConstraints, Coerce, TypeFits, AutomaticAllowed, ExplicitlyConfirmed;
    }
  }

  /** Whatever the resolvers answered, plan validation accepts the planner's answers if and only if the plan's frame is in order, field
      identifiers differ, the model identity is a qualified one, and every resolved answer is acceptable. Its other clauses never
      reject. */
  lemma ValidationPassesExactly(
    t: Texts, fields: seq<Field>, evidence: seq<Evidence>, plan: Plan, frame: Frame, qualified: Audit -> bool)
    requires Sound(t, fields, evidence, plan) && forall i :: 0 <= i < |evidence| ==> evidence[i].attachmentMatches == frame.attached
    ensures PassesValidation(t, fields, plan, frame, qualified) <==>
            && FrameOk(fields, frame) && DistinctIds(fields) && (plan.audit.Some? ==> qualified(plan.audit.value))
            && forall i :: 0 <= i < |fields| ==> Acceptable(t, fields[i], plan.decisions[i])
  {
    var ds := plan.decisions;
    forall i | 0 <= i < |ds|
      ensures ds[i].fieldId == fields[i].id && (DecisionFits(t, fields[i], ds[i], frame.attached) <==> Acceptable(t, fields[i], ds[i]))
    {
      assert FieldSound(t, fields[i], evidence[i], ds[i], plan.audit);
      SoundDecisionFits(t, fields[i], evidence[i], ds[i], plan.audit);
    }
    hide FieldSound, DecisionFits, Acceptable, FrameOk, PassesValidation;
    ValidationByField(t, fields, plan, frame, qualified);
  }

  // Validation of aligned decisions, field by field.
  lemma ValidationByField(t: Texts, fields: seq<Field>, plan: Plan, frame: Frame, qualified: Audit -> bool)
    requires |plan.decisions| == |fields| && forall i :: 0 <= i < |fields| ==> plan.decisions[i].fieldId == fields[i].id
    requires REQUIRED_UNKNOWN in plan.blockers <==> exists i :: 0 <= i < |fields| && Unanswered(fields[i], plan.decisions[i])
    requires plan.audit.Some? <==> exists i :: 0 <= i < |fields| && plan.decisions[i].provenance == LocalLlm
    ensures PassesValidation(t, fields, plan, frame, qualified) <==>
            && FrameOk(fields, frame) && DistinctIds(fields) && (plan.audit.Some? ==> qualified(plan.audit.value))
            && forall i :: 0 <= i < |fields| ==> DecisionFits(t, fields[i], plan.decisions[i], frame.attached)
  {
    assert AuditFits(plan, qualified) <==> (plan.audit.Some? ==> qualified(plan.audit.value));
    if DistinctIds(fields) {
      AnswersAlign(t, fields, plan, frame.attached);
      RequiredAreReported(fields, plan);
    }
    hide FrameOk, DistinctIds, AnswersDiffer, AnswersObserved, AnswersFit, AuditFits, RequiredReported, DecisionFits;
  }

  // With distinct identifiers each decision is found by its own field and no other.
  lemma AnswersAlign(t: Texts, fields: seq<Field>, plan: Plan, attached: bool)
    requires |plan.decisions| == |fields| && DistinctIds(fields)
    requires forall i :: 0 <= i < |fields| ==> plan.decisions[i].fieldId == fields[i].id
    ensures AnswersDiffer(plan.decisions) && AnswersObserved(fields, plan.decisions)
    ensures AnswersFit(t, fields, plan.decisions, attached) <==>
            forall i :: 0 <= i < |fields| ==> DecisionFits(t, fields[i], plan.decisions[i], attached)
  {
    hide DecisionFits;
    var ds := plan.decisions;
    forall i | 0 <= i < |ds| ensures Observed(fields, ds[i].fieldId) { assert fields[i].id == ds[i].fieldId; }
    if AnswersFit(t, fields, ds, attached) {
      forall i | 0 <= i < |fields| ensures DecisionFits(t, fields[i], ds[i], attached) { assert fields[i].id == ds[i].fieldId; }
    }
    if forall i :: 0 <= i < |fields| ==> DecisionFits(t, fields[i], ds[i], attached) {
      forall i, k | 0 <= i < |ds| && 0 <= k < |fields| && fields[k].id == ds[i].fieldId ensures DecisionFits(t, fields[k], ds[i], attached) {
        assert fields[i].id == fields[k].id;
        assert i == k;
      }
    }
  }

  lemma RequiredAreReported(fields: seq<Field>, plan: Plan)
    requires |plan.decisions| == |fields| && forall i :: 0 <= i < |fields| ==> plan.decisions[i].fieldId == fields[i].id
    requires REQUIRED_UNKNOWN in plan.blockers <==> exists i :: 0 <= i < |fields| && Unanswered(fields[i], plan.decisions[i])
    ensures RequiredReported(fields, plan)
  {
    if k :| 0 <= k < |fields| && fields[k].required && !AnsweredById(plan.decisions, fields[k].id) {
      assert plan.decisions[k].fieldId == fields[k].id;
      assert Unanswered(fields[k], plan.decisions[k]);
    }
  }

  // ---------- inputs that validation rejects ----------

  function PlanOf(t: Texts, f: Field, e: Evidence): Plan { Extend(t, Plan([], {}, None), f, e) }

  lemma PlanOfIsSound(t: Texts, f: Field, e: Evidence)
    ensures Sound(t, [f], [e], PlanOf(t, f, e)) && PlanOf(t, f, e).decisions == [DecisionFor(t, f, e, None)]
  {
    EmptyIsSound(t);
    ExtendIsSound(t, [], [], Plan([], {}, None), f, e);
    assert [] + [f] == [f] && [] + [e] == [e];
  }

  // One unacceptable answer is enough, whatever else the plan carries.
  lemma UnacceptableIsRejected(t: Texts, f: Field, e: Evidence, frame: Frame, qualified: Audit -> bool)
    requires frame.attached == e.attachmentMatches && !Acceptable(t, f, DecisionFor(t, f, e, None))
    ensures Sound(t, [f], [e], PlanOf(t, f, e)) && !PassesValidation(t, [f], PlanOf(t, f, e), frame, qualified)
  {
    hide Acceptable, PassesValidation, Sound, FrameOk, DecisionFor;
    PlanOfIsSound(t, f, e);
    assert !Acceptable(t, [f][0], PlanOf(t, f, e).decisions[0]);
    hide PlanOf;
    ValidationPassesExactly(t, [f], [e], PlanOf(t, f, e), frame, qualified);
  }

  const NO_REPLY := Reply(None, [], false, None, None)
  const NO_CONSTRAINTS := Constraints(None, None, None, None, None)

  const YEARS := Field("years", true, "years", "years", "", Number, true, [], NO_CONSTRAINTS.(minValue := Some(5.0)), false, false, true, true, false)
  const THREE := Evidence(false, None, Some(RawText("3")), None, "", None, "", NO_REPLY)

  /** A number field with minimum five and a confirmed fact of three. */
  lemma NumberBelowMinimumIsRejected(t: Texts, frame: Frame, qualified: Audit -> bool)
    requires t.number("3") == Some(Finite(3.0)) && !frame.attached
    ensures var plan := PlanOf(t, YEARS, THREE);
      && |plan.decisions| == 1 && plan.decisions[0].answer == Some(WholeAnswer(3)) && Sound(t, [YEARS], [THREE], plan)
      && !PassesValidation(t, [YEARS], plan, frame, qualified)
  {
    assert DecisionFor(t, YEARS, THREE, None).answer == Some(WholeAnswer(3));
    assert !Acceptable(t, YEARS, DecisionFor(t, YEARS, THREE, None));
    PlanOfIsSound(t, YEARS, THREE);
    hide DecisionFor, PlanOf, PassesValidation, Sound;
    UnacceptableIsRejected(t, YEARS, THREE, frame, qualified);
  }

  lemma IdentityComesFirst(t: Texts, f: Field, e: Evidence)
    requires AutomaticAllowed(f) && Coerce(t, f, e.identity).Some?
    ensures var d := DecisionFor(t, f, e, None); d.provenance == DeterministicIdentity && d.disposition == Resolved && d.answer == Coerce(t, f, e.identity)
  {
    hide Coerce;
  }

  /** An identity value on a review-only field whose scope is known. */
  lemma IdentityOnReviewOnlyIsRejected(t: Texts, f: Field, e: Evidence, frame: Frame, qualified: Audit -> bool)
    requires f.reviewOnly && f.scopedSemantics && f.compatible && f.kind != FileControl && frame.attached == e.attachmentMatches
    requires Coerce(t, f, e.identity).Some?
    ensures Sound(t, [f], [e], PlanOf(t, f, e)) && !PassesValidation(t, [f], PlanOf(t, f, e), frame, qualified)
  {
    IdentityComesFirst(t, f, e);
    hide Coerce, DecisionFor, PlanOf, PassesValidation, Sound;
    UnacceptableIsRejected(t, f, e, frame, qualified);
  }

  const NAMED_CONSENT :=
    Field("consent", true, "last_name", "last_name", "", Consent, true, [], NO_CONSTRAINTS, true, true, true, true, false)
  const FAMILY_NAME := Evidence(false, Some(RawText("No")), None, None, "", None, "", NO_REPLY)

  /** The family name "No" on a consent control that is named after it: the name is planned as a refusal and then rejected. */
  lemma FamilyNameOnConsentIsRejected(t: Texts, frame: Frame, qualified: Audit -> bool)
    requires t.fold(t.strip(t.render(RawText("No")))) == "no" && !frame.attached
    ensures var plan := PlanOf(t, NAMED_CONSENT, FAMILY_NAME);
      && |plan.decisions| == 1 && plan.decisions[0].provenance == DeterministicIdentity && plan.decisions[0].answer == Some(BoolAnswer(false))
      && !PassesValidation(t, [NAMED_CONSENT], plan, frame, qualified)
  {
    FamilyNameReadsAsNo(t);
    hide Coerce;
    PlanOfIsSound(t, NAMED_CONSENT, FAMILY_NAME);
    IdentityComesFirst(t, NAMED_CONSENT, FAMILY_NAME);
    hide PlanOf, DecisionFor, PassesValidation, Sound;
    IdentityOnReviewOnlyIsRejected(t, NAMED_CONSENT, FAMILY_NAME, frame, qualified);
  }

  lemma FamilyNameReadsAsNo(t: Texts)
    requires t.fold(t.strip(t.render(RawText("No")))) == "no"
    ensures Coerce(t, NAMED_CONSENT, FAMILY_NAME.identity) == Some(BoolAnswer(false))
  {
  }

  /** A confirmed fact found through the label of a consent control that has no canonical name. */
  lemma UnnamedConsentIsRejected(t: Texts, f: Field, e: Evidence, frame: Frame, qualified: Audit -> bool)
    requires f.reviewOnly && f.scopedSemantics && f.compatible && f.kind == Consent && frame.attached == e.attachmentMatches
    requires f.canonical == f.sensitiveKey == "" && f.reviewedKey != "" && e.identity == None && Coerce(t, f, e.confirmed).Some?
    ensures Sound(t, [f], [e], PlanOf(t, f, e)) && !PassesValidation(t, [f], PlanOf(t, f, e), frame, qualified)
  {
    NothingCoercesToNothing(t, f);
    hide Coerce;
    assert DecisionFor(t, f, e, None).provenance == UserConfirmed;
    assert !Acceptable(t, f, DecisionFor(t, f, e, None));
    hide DecisionFor, PlanOf, PassesValidation, Sound;
    UnacceptableIsRejected(t, f, e, frame, qualified);
  }

  // ---------- facts of the selected CV ----------

  // One recorded fact, and whether its key and text passed the safety rules.
  datatype Fact = Fact(key: string, value: string, admissible: bool)

  predicate Claims(facts: seq<Fact>, key: string, value: string) {
    exists i :: 0 <= i < |facts| && facts[i].admissible && facts[i].key == key && facts[i].value == value
  }

  predicate Conflicts(facts: seq<Fact>, key: string) {
    exists i, j :: 0 <= i < j < |facts| && facts[i].admissible && facts[j].admissible
                   && facts[i].key == facts[j].key == key && facts[i].value != facts[j].value
  }

  method SelectedCvFacts(facts: seq<Fact>) returns (merged: map<string, string>)
    ensures forall key :: key in merged ==> Claims(facts, key, merged[key]) && !Conflicts(facts, key)
    ensures forall key, value :: Claims(facts, key, value) && !Conflicts(facts, key) ==> key in merged && merged[key] == value
  {
    merged := map[];
    var conflicted: set<string> := {};
    for n := 0 to |facts|
      invariant FirstClaims(facts[..n], merged) && conflicted == Conflicted(facts[..n])
    {
      var fact := facts[n];
      assert facts[..n + 1] == facts[..n] + [fact];
      OneMoreFact(facts[..n], fact, merged);
      if fact.admissible {
        if fact.key in merged && merged[fact.key] != fact.value {
          conflicted := conflicted + {fact.key};
        } else {
          merged := merged[fact.key := fact.value];
        }
      }
    }
    assert facts[..|facts|] == facts;
    Settled(facts, merged);
    merged := merged - conflicted;
  }

  ghost function Conflicted(facts: seq<Fact>): set<string> { set i | 0 <= i < |facts| && Conflicts(facts, facts[i].key) :: facts[i].key }

  // Each key is mapped to some admissible value recorded for it.
  ghost predicate FirstClaims(facts: seq<Fact>, merged: map<string, string>) {
    && (forall key :: key in merged ==> Claims(facts, key, merged[key]))
    && (forall i :: 0 <= i < |facts| && facts[i].admissible ==> facts[i].key in merged)
    && (forall i :: 0 <= i < |facts| && facts[i].admissible && facts[i].value != merged[facts[i].key] ==> Conflicts(facts, facts[i].key))
  }

  lemma ConflictWith(facts: seq<Fact>, fact: Fact, key: string)
    ensures Conflicts(facts + [fact], key) <==>
            Conflicts(facts, key) || (fact.admissible && fact.key == key && exists v :: v != fact.value && Claims(facts, key, v))
  {
    var more := facts + [fact];
    if Conflicts(facts, key) {
      var i, j :| 0 <= i < j < |facts| && facts[i].admissible && facts[j].admissible
                  && facts[i].key == facts[j].key == key && facts[i].value != facts[j].value;
      assert more[i] == facts[i] && more[j] == facts[j];
    }
    if fact.admissible && fact.key == key && exists v :: v != fact.value && Claims(facts, key, v) {
      var v :| v != fact.value && Claims(facts, key, v);
      var i :| 0 <= i < |facts| && facts[i].admissible && facts[i].key == key && facts[i].value == v;
      assert more[i] == facts[i] && more[|facts|] == fact;
    }
    if Conflicts(more, key) {
      var i, j :| 0 <= i < j < |more| && more[i].admissible && more[j].admissible
                  && more[i].key == more[j].key == key && more[i].value != more[j].value;
      assert more[i] == facts[i];
      if j < |facts| {
        assert more[j] == facts[j];
      } else {
        assert Claims(facts, key, more[i].value);
      }
    }
  }

  lemma ClaimWith(facts: seq<Fact>, fact: Fact, key: string, value: string)
    ensures Claims(facts + [fact], key, value) <==> Claims(facts, key, value) || fact == Fact(key, value, true)
  {
    var more := facts + [fact];
    assert more[|facts|] == fact;
    assert forall i :: 0 <= i < |facts| ==> more[i] == facts[i];
  }

  lemma ConflictedIff(facts: seq<Fact>)
    ensures forall key :: key in Conflicted(facts) <==> Conflicts(facts, key)
  {
    forall key | Conflicts(facts, key) ensures key in Conflicted(facts) {
      var i, j :| 0 <= i < j < |facts| && facts[i].admissible && facts[j].admissible
                  && facts[i].key == facts[j].key == key && facts[i].value != facts[j].value;
      assert Conflicts(facts, facts[i].key);
    }
  }

  // A second value for a key conflicts exactly when the merged value is another or the key conflicted already.
  lemma NewConflict(facts: seq<Fact>, fact: Fact, merged: map<string, string>, key: string)
    requires FirstClaims(facts, merged)
    ensures Conflicts(facts + [fact], key) <==>
            Conflicts(facts, key) || (fact.admissible && fact.key == key && key in merged && merged[key] != fact.value)
  {
    ConflictWith(facts, fact, key);
    if fact.admissible && fact.key == key {
      if v :| v != fact.value && Claims(facts, key, v) {
        var i :| 0 <= i < |facts| && facts[i].admissible && facts[i].key == key && facts[i].value == v;
        assert facts[i].key in merged;
      }
      if key in merged && merged[key] != fact.value { assert Claims(facts, key, merged[key]); }
    }
    hide Conflicts, Claims;
  }

  lemma OneMoreFact(facts: seq<Fact>, fact: Fact, merged: map<string, string>)
    requires FirstClaims(facts, merged)
    ensures var clash := fact.admissible && fact.key in merged && merged[fact.key] != fact.value;
      && FirstClaims(facts + [fact], if fact.admissible && !clash then merged[fact.key := fact.value] else merged)
      && Conflicted(facts + [fact]) == Conflicted(facts) + if clash then {fact.key} else {}
  {
    hide Conflicts, Claims, Conflicted;
    forall key ensures key in Conflicted(facts + [fact]) <==>
                       key in Conflicted(facts) || (fact.admissible && fact.key == key && key in merged && merged[key] != fact.value)
    {
      NewConflict(facts, fact, merged, key);
      ConflictedIff(facts);
      ConflictedIff(facts + [fact]);
    }
    MergedOne(facts, fact, merged);
    hide FirstClaims;
  }

  lemma MergedOne(facts: seq<Fact>, fact: Fact, merged: map<string, string>)
    requires FirstClaims(facts, merged)
    ensures var clash := fact.admissible && fact.key in merged && merged[fact.key] != fact.value;
      FirstClaims(facts + [fact], if fact.admissible && !clash then merged[fact.key := fact.value] else merged)
  {
    hide Conflicts, Claims;
    var more := facts + [fact];
    var clash := fact.admissible && fact.key in merged && merged[fact.key] != fact.value;
    var merged' := if fact.admissible && !clash then merged[fact.key := fact.value] else merged;
    forall key | key in merged' ensures Claims(more, key, merged'[key]) { ClaimWith(facts, fact, key, merged'[key]); }
    forall i | 0 <= i < |more| && more[i].admissible
      ensures more[i].key in merged' && (more[i].value != merged'[more[i].key] ==> Conflicts(more, more[i].key))
    {
      NewConflict(facts, fact, merged, more[i].key);
      if i < |facts| { assert more[i] == facts[i] && facts[i].key in merged; }
    }
  }

  lemma Settled(facts: seq<Fact>, merged: map<string, string>)
    requires FirstClaims(facts, merged)
    ensures forall key :: key in Conflicted(facts) <==> Conflicts(facts, key)
    ensures forall key, value :: Claims(facts, key, value) && !Conflicts(facts, key) ==> key in merged && merged[key] == value
  {
    ConflictedIff(facts);
    forall key, value | Claims(facts, key, value) && !Conflicts(facts, key) ensures key in merged && merged[key] == value {
      var i :| 0 <= i < |facts| && facts[i].admissible && facts[i].key == key && facts[i].value == value;
      assert facts[i].key in merged;
    }
  }
}
