/** Employer verification twice over: the in-process predicate and the query used for counting. */
module EmployerTruth {
  import opened Wrappers
  import opened Records

  // ---------- text ----------

  // Characters removed by stripping in process; the database trims spaces only.
  predicate IsWhitespace(c: char) {
    c == ' ' || '\U{0009}' <= c <= '\U{000D}' || '\U{001C}' <= c <= '\U{001F}'
    || c == '\U{0085}' || c == '\U{00A0}' || c == '\U{1680}' || '\U{2000}' <= c <= '\U{200A}'
    || c == '\U{2028}' || c == '\U{2029}' || c == '\U{202F}' || c == '\U{205F}' || c == '\U{3000}'
  }

  predicate IsSpaceOnly(c: char) { c == ' ' }

  function Trim(s: string, removed: char -> bool): string {
    if s == [] then []
    else if removed(s[0]) then Trim(s[1..], removed)
    else if removed(s[|s| - 1]) then Trim(s[..|s| - 1], removed)
    else s
  }

  lemma {:induction false} TrimKeepsSomething(s: string, removed: char -> bool)
    ensures Trim(s, removed) != [] <==> exists k :: 0 <= k < |s| && !removed(s[k])
    decreases |s|
  {
    if s != [] {
      if removed(s[0]) {
        TrimKeepsSomething(s[1..], removed);
        if k :| 0 <= k < |s| && !removed(s[k]) { assert s[1..][k - 1] == s[k]; }
      } else if removed(s[|s| - 1]) {
        TrimKeepsSomething(s[..|s| - 1], removed);
        assert !removed(s[..|s| - 1][0]);
      }
    }
  }

  predicate Nonblank(s: Option<string>) { s.Some? && Trim(s.value, IsWhitespace) != [] }

  predicate IsHex(c: char) { '0' <= c <= '9' || 'a' <= c <= 'f' }

  predicate IsSha256(s: string) { |s| == 64 && forall k :: 0 <= k < |s| ==> IsHex(s[k]) }

  // A text the two kinds of trimming disagree about: blank in process, not blank to the database.
  predicate OnlyExoticBlank(s: Option<string>) {
    s.Some? && Trim(s.value, IsWhitespace) == [] && Trim(s.value, IsSpaceOnly) != []
  }

  predicate IsVerifiedReason(r: Option<string>) {
    r in {Some("EMPLOYER_VERIFIED"), Some("ATS_CONFIRMATION_VERIFIED"), Some("PROVIDER_RECEIPT_VERIFIED")}
  }

  predicate IsEvidenceType(k: string) {
    k in {"employer_application_id", "api_receipt", "candidate_portal_record", "visible_post_click_confirmation"}
  }

  // ---------- the in-process predicate ----------

  predicate EvidenceSupports(row: EvidenceRow, id: AttemptId, a: Attempt)
    requires a.submittedAt.Some? && a.finalActionAt.Some?
  {
    && row.attempt == id
    && Some(row.kind) == a.verificationKind
    && Some(row.digest) == a.evidenceDigest
    && Some(row.fingerprint) == a.binding.fingerprint
    && Some(row.cvHash) == a.binding.attachedCvHash
    && a.finalActionAt.value <= row.observedAt <= a.submittedAt.value + 5
  }

  predicate AttemptFacts(a: Attempt) {
    && a.stage == Finished
    && a.outcome == Some(ConfirmedSubmitted)
    && a.status == StatusSuccess
    && a.submittedAt.Some? && a.finalActionAt.Some?
    && a.submittedAt.value >= a.finalActionAt.value
    && a.binding.attachmentVerified
    && a.binding.planId.Some?
    && Nonblank(a.binding.adapterName)
    && Nonblank(a.binding.adapterVersion)
    && Nonblank(a.binding.selectorVersion)
    && a.binding.profileVersion.Some? && a.binding.profileVersion.value >= 1
    && Nonblank(a.binding.runnerRelease) && |a.binding.runnerRelease.value| <= 64
    && IsVerifiedReason(a.reason)
    && a.verificationKind.Some? && IsEvidenceType(a.verificationKind.value)
    && a.evidenceDigest.Some? && IsSha256(a.evidenceDigest.value)
    && a.binding.fingerprint.Some? && IsSha256(a.binding.fingerprint.value)
    && Nonblank(a.binding.requestedCvId)
    && a.binding.requestedCvId == a.binding.attachedCvId
    && a.binding.requestedCvHash.Some? && IsSha256(a.binding.requestedCvHash.value)
    && a.binding.requestedCvHash == a.binding.attachedCvHash
  }

  predicate IsEmployerVerified(id: AttemptId, a: Attempt, evidence: set<EvidenceRow>) {
    AttemptFacts(a) && exists row :: row in evidence && EvidenceSupports(row, id, a)
  }

  // ---------- the query, in three-valued logic ----------

  datatype Truth = True | False | Null

  function Truly(b: bool): Truth { if b then True else False }

  function Equal<T(==)>(x: Option<T>, y: Option<T>): Truth {
    if x.None? || y.None? then Null else Truly(x.value == y.value)
  }

  function AtMost(x: Option<int>, y: Option<int>): Truth {
    if x.None? || y.None? then Null else Truly(x.value <= y.value)
  }

  function Shift(x: Option<int>, by': int): Option<int> {
    if x.None? then None else Some(x.value + by')
  }

  function Length(s: Option<string>): Option<int> {
    if s.None? then None else Some(|s.value|)
  }

  function TrimmedLength(s: Option<string>): Option<int> {
    if s.None? then None else Some(|Trim(s.value, IsSpaceOnly)|)
  }

  function In(s: Option<string>, values: set<string>): Truth {
    if s.None? then Null else Truly(s.value in values)
  }

  // The filter conditions over one joined pair of rows, grouped as the query lists them.
  function BindingConditions(id: AttemptId, a: Attempt, row: EvidenceRow): seq<Truth> {
    [ Truly(row.attempt == id),
      Equal(Some(row.kind), a.verificationKind),
      Equal(Some(row.digest), a.evidenceDigest),
      Equal(Some(row.fingerprint), a.binding.fingerprint),
      Equal(Some(row.cvHash), a.binding.attachedCvHash) ]
  }

  function ProgressConditions(a: Attempt, row: EvidenceRow): seq<Truth> {
    [ Truly(a.stage == Finished),
      Equal(a.outcome, Some(ConfirmedSubmitted)),
      Truly(a.status == StatusSuccess),
      Truly(a.submittedAt.Some?),
      Truly(a.finalActionAt.Some?),
      AtMost(a.finalActionAt, a.submittedAt),
      AtMost(a.finalActionAt, Some(row.observedAt)),
      AtMost(Some(row.observedAt), Shift(a.submittedAt, 5)),
      Truly(a.binding.attachmentVerified),
      Truly(a.binding.planId.Some?) ]
  }

  function TextConditions(a: Attempt): seq<Truth> {
    [ Truly(a.binding.adapterName.Some?),
      AtMost(Some(1), TrimmedLength(a.binding.adapterName)),
      Truly(a.binding.adapterVersion.Some?),
      AtMost(Some(1), TrimmedLength(a.binding.adapterVersion)),
      Truly(a.binding.selectorVersion.Some?),
      AtMost(Some(1), TrimmedLength(a.binding.selectorVersion)),
      Truly(a.binding.profileVersion.Some?),
      AtMost(Some(1), a.binding.profileVersion),
      Truly(a.binding.runnerRelease.Some?),
      AtMost(Some(1), TrimmedLength(a.binding.runnerRelease)),
      AtMost(Length(a.binding.runnerRelease), Some(64)) ]
  }

  function DigestConditions(a: Attempt): seq<Truth> {
    [ In(a.reason, {"EMPLOYER_VERIFIED", "ATS_CONFIRMATION_VERIFIED", "PROVIDER_RECEIPT_VERIFIED"}),
      In(a.verificationKind, {"employer_application_id", "api_receipt", "candidate_portal_record", "visible_post_click_confirmation"}),
      Truly(a.evidenceDigest.Some?),
      Equal(Length(a.evidenceDigest), Some(64)),
      Truly(a.binding.fingerprint.Some?),
      Equal(Length(a.binding.fingerprint), Some(64)),
      Truly(a.binding.requestedCvId.Some?),
      AtMost(Some(1), TrimmedLength(a.binding.requestedCvId)),
      Equal(a.binding.requestedCvId, a.binding.attachedCvId),
      Truly(a.binding.requestedCvHash.Some?),
      Equal(Length(a.binding.requestedCvHash), Some(64)),
      Truly(a.binding.attachedCvHash.Some?),
      Equal(Length(a.binding.attachedCvHash), Some(64)),
      Equal(a.binding.requestedCvHash, a.binding.attachedCvHash) ]
  }

  function SqlConditions(id: AttemptId, a: Attempt, row: EvidenceRow): seq<Truth> {
    BindingConditions(id, a, row) + ProgressConditions(a, row) + TextConditions(a) + DigestConditions(a)
  }

  // A row passes the filter only when every condition is true, not merely unknown.
  predicate Passes(conditions: seq<Truth>) {
    forall k :: 0 <= k < |conditions| ==> conditions[k] == True
  }

  predicate SqlVerified(id: AttemptId, a: Attempt, evidence: set<EvidenceRow>) {
    exists row :: row in evidence && Passes(SqlConditions(id, a, row))
  }

  // ---------- the table constraints the query leans on ----------

  predicate EvidenceChecks(row: EvidenceRow) {
    IsEvidenceType(row.kind) && IsSha256(row.digest) && IsSha256(row.fingerprint) && IsSha256(row.cvHash)
  }

  // ---------- equivalence ----------

  predicate HasExoticBlank(a: Attempt) {
    OnlyExoticBlank(a.binding.adapterName) || OnlyExoticBlank(a.binding.adapterVersion)
    || OnlyExoticBlank(a.binding.selectorVersion) || OnlyExoticBlank(a.binding.runnerRelease)
    || OnlyExoticBlank(a.binding.requestedCvId)
  }

  lemma {:induction false} StrippedIsTrimmed(s: string)
    ensures Trim(s, IsWhitespace) != [] ==> Trim(s, IsSpaceOnly) != []
  {
    TrimKeepsSomething(s, IsWhitespace);
    TrimKeepsSomething(s, IsSpaceOnly);
  }

  lemma TextAgrees(s: Option<string>)
    ensures Nonblank(s) <==> s.Some? && AtMost(Some(1), TrimmedLength(s)) == True && !OnlyExoticBlank(s)
  {
    if s.Some? { StrippedIsTrimmed(s.value); }
  }

  lemma {:induction false} PassesAppend(c: seq<Truth>, d: seq<Truth>)
    ensures Passes(c + d) <==> Passes(c) && Passes(d)
  {
    if Passes(c + d) {
      forall k | 0 <= k < |d| ensures d[k] == True { assert (c + d)[|c| + k] == True; }
      forall k | 0 <= k < |c| ensures c[k] == True { assert (c + d)[k] == True; }
    }
  }

  lemma {:induction false} BindingAgrees(id: AttemptId, a: Attempt, row: EvidenceRow)
    ensures Passes(BindingConditions(id, a, row)) <==>
      row.attempt == id && Some(row.kind) == a.verificationKind && Some(row.digest) == a.evidenceDigest
      && Some(row.fingerprint) == a.binding.fingerprint && Some(row.cvHash) == a.binding.attachedCvHash
  {
    var c := BindingConditions(id, a, row);
    if Passes(c) { assert c[0] == c[1] == c[2] == c[3] == c[4] == True; }
  }

  lemma {:induction false} ProgressAgrees(a: Attempt, row: EvidenceRow)
    ensures Passes(ProgressConditions(a, row)) <==>
      a.stage == Finished && a.outcome == Some(ConfirmedSubmitted) && a.status == StatusSuccess
      && a.submittedAt.Some? && a.finalActionAt.Some? && a.submittedAt.value >= a.finalActionAt.value
      && a.finalActionAt.value <= row.observedAt <= a.submittedAt.value + 5
      && a.binding.attachmentVerified && a.binding.planId.Some?
  {
    var c := ProgressConditions(a, row);
    if Passes(c) { assert c[0] == c[1] == c[2] == c[3] == c[4] == c[5] == c[6] == c[7] == c[8] == c[9] == True; }
  }

  lemma {:induction false} TextsAgree(a: Attempt)
    requires !HasExoticBlank(a)
    ensures Passes(TextConditions(a)) <==>
      Nonblank(a.binding.adapterName) && Nonblank(a.binding.adapterVersion) && Nonblank(a.binding.selectorVersion)
      && a.binding.profileVersion.Some? && a.binding.profileVersion.value >= 1
      && Nonblank(a.binding.runnerRelease) && |a.binding.runnerRelease.value| <= 64
  {
    hide Nonblank, TrimmedLength, OnlyExoticBlank;
    TextAgrees(a.binding.adapterName);
    TextAgrees(a.binding.adapterVersion);
    TextAgrees(a.binding.selectorVersion);
    TextAgrees(a.binding.runnerRelease);
    var c := TextConditions(a);
    if Passes(c) { assert c[0] == c[1] == c[2] == c[3] == c[4] == c[5] == c[6] == c[7] == c[8] == c[9] == c[10] == True; }
  }

  lemma {:induction false} DigestsAgree(a: Attempt)
    requires !HasExoticBlank(a)
    requires a.evidenceDigest.Some? ==> IsSha256(a.evidenceDigest.value)
    requires a.binding.fingerprint.Some? ==> IsSha256(a.binding.fingerprint.value)
    requires a.binding.attachedCvHash.Some? ==> IsSha256(a.binding.attachedCvHash.value)
    ensures Passes(DigestConditions(a)) <==>
      IsVerifiedReason(a.reason) && a.verificationKind.Some? && IsEvidenceType(a.verificationKind.value)
      && a.evidenceDigest.Some? && IsSha256(a.evidenceDigest.value)
      && a.binding.fingerprint.Some? && IsSha256(a.binding.fingerprint.value)
      && Nonblank(a.binding.requestedCvId) && a.binding.requestedCvId == a.binding.attachedCvId
      && a.binding.requestedCvHash.Some? && IsSha256(a.binding.requestedCvHash.value)
      && a.binding.requestedCvHash == a.binding.attachedCvHash
  {
    hide Nonblank, TrimmedLength, OnlyExoticBlank;
    TextAgrees(a.binding.requestedCvId);
    var c := DigestConditions(a);
    if Passes(c) {
      assert c[0] == c[1] == c[2] == c[3] == c[4] == c[5] == c[6] == True;
      assert c[7] == c[8] == c[9] == c[10] == c[11] == c[12] == c[13] == True;
    }
  }

  // In-process verification rules out a text the database would misjudge.
  lemma FactsAreNotExotic(a: Attempt)
    requires AttemptFacts(a)
    ensures !HasExoticBlank(a)
  {
    hide Trim;
  }

  lemma {:induction false} PairAgrees(id: AttemptId, a: Attempt, row: EvidenceRow)
    requires EvidenceChecks(row)
    ensures AttemptFacts(a) && EvidenceSupports(row, id, a)
       <==> Passes(SqlConditions(id, a, row)) && !HasExoticBlank(a)
  {
    hide Passes, BindingConditions, ProgressConditions, TextConditions, DigestConditions, HasExoticBlank, Nonblank;
    var b, p, t, d := BindingConditions(id, a, row), ProgressConditions(a, row), TextConditions(a), DigestConditions(a);
    PassesAppend(b, p);
    PassesAppend(b + p, t);
    PassesAppend(b + p + t, d);
    BindingAgrees(id, a, row);
    ProgressAgrees(a, row);
    if AttemptFacts(a) { FactsAreNotExotic(a); }
    if !HasExoticBlank(a) {
      TextsAgree(a);
      if Passes(b) { DigestsAgree(a); }
    }
  }

  /** Over evidence rows that meet their table constraints, the predicate holds exactly when the query does and no
      identifying text is blank in a way the database cannot see; the two disagree exactly when the query accepts
      such a text. */
  lemma QueryMatchesPredicate(id: AttemptId, a: Attempt, evidence: set<EvidenceRow>)
    requires forall row :: row in evidence ==> EvidenceChecks(row)
    ensures IsEmployerVerified(id, a, evidence) <==> SqlVerified(id, a, evidence) && !HasExoticBlank(a)
    ensures (IsEmployerVerified(id, a, evidence) <==> SqlVerified(id, a, evidence)) <==> !(SqlVerified(id, a, evidence) && HasExoticBlank(a))
  {
    forall row | row in evidence
      ensures AttemptFacts(a) && EvidenceSupports(row, id, a) <==> Passes(SqlConditions(id, a, row)) && !HasExoticBlank(a)
    {
      PairAgrees(id, a, row);
    }
  }

  // ---------- where they part ----------

  const DIGEST := seq(64, _ => 'a')

  const TABBED := Attempt(
    Binding("k", "greenhouse", 1, Some("p"), Some(DIGEST), Some("\t"), Some("1"), Some("1"), Some("cv"), Some(DIGEST),
            Some("cv"), Some(DIGEST), true, Some(1), Some("r"), ExplicitOperator, None, None, None, None),
    StatusSuccess, Finished, Some(ConfirmedSubmitted), Some("EMPLOYER_VERIFIED"),
    Some(1), Some(2), Some(2), Some("api_receipt"), Some(DIGEST))

  const RECEIPT := EvidenceRow(AttemptId(1, 1), "api_receipt", DIGEST, DIGEST, DIGEST, 2)

  /** An adapter name holding one tab is counted by the query and refused in process. */
  lemma TabbedNameIsMiscounted()
    ensures EvidenceChecks(RECEIPT)
    ensures SqlVerified(AttemptId(1, 1), TABBED, {RECEIPT}) && !IsEmployerVerified(AttemptId(1, 1), TABBED, {RECEIPT})
  {
    hide Passes, BindingConditions, ProgressConditions, TextConditions, DigestConditions;
    var id := AttemptId(1, 1);
    TrimKeepsSomething("\t", IsWhitespace);
    PassesAppend(BindingConditions(id, TABBED, RECEIPT), ProgressConditions(TABBED, RECEIPT));
    PassesAppend(BindingConditions(id, TABBED, RECEIPT) + ProgressConditions(TABBED, RECEIPT), TextConditions(TABBED));
    PassesAppend(BindingConditions(id, TABBED, RECEIPT) + ProgressConditions(TABBED, RECEIPT) + TextConditions(TABBED),
                 DigestConditions(TABBED));
    BindingAgrees(id, TABBED, RECEIPT);
    ProgressAgrees(TABBED, RECEIPT);
    TabbedTexts();
    TabbedDigests();
    assert Passes(SqlConditions(id, TABBED, RECEIPT));
  }

  lemma TabbedTexts()
    ensures Passes(TextConditions(TABBED))
  {
    TrimKeepsSomething("\t", IsSpaceOnly);
    TrimKeepsSomething("1", IsSpaceOnly);
    TrimKeepsSomething("r", IsSpaceOnly);
    assert "\t"[0] != ' ' && "1"[0] != ' ' && "r"[0] != ' ';
  }

  lemma TabbedDigests()
    ensures Passes(DigestConditions(TABBED))
  {
    TrimKeepsSomething("cv", IsSpaceOnly);
    assert "cv"[0] != ' ';
  }

  // ---------- counting applications ----------

  // The highest-numbered attempt of its application.
  ghost predicate IsLatest(attempts: map<AttemptId, Attempt>, id: AttemptId) {
    id in attempts && forall other :: other in attempts && other.app == id.app ==> other.number <= id.number
  }

  ghost function LatestVerifiedQuery(attempts: map<AttemptId, Attempt>, evidence: set<EvidenceRow>): set<AttemptId> {
    set id | id in attempts && IsLatest(attempts, id) && SqlVerified(id, attempts[id], evidence)
  }

  // Applications whose highest-numbered attempt is employer-verified.
  ghost function VerifiedApplications(attempts: map<AttemptId, Attempt>, evidence: set<EvidenceRow>): set<Id> {
    set id | id in attempts && IsLatest(attempts, id) && IsEmployerVerified(id, attempts[id], evidence) :: id.app
  }

  lemma {:induction false} DistinctApplicationsCount(ids: set<AttemptId>)
    requires forall x, y :: x in ids && y in ids && x.app == y.app ==> x == y
    ensures |set id | id in ids :: id.app| == |ids|
    decreases |ids|
  {
    var apps := set id | id in ids :: id.app;
    if ids == {} {
      assert apps == {};
    } else {
      var x :| x in ids;
      var others := ids - {x};
      DistinctApplicationsCount(others);
      assert apps == (set id | id in others :: id.app) + {x.app};
    }
  }

  // Latest attempts the query accepts although an identifying text of theirs is blank in a way the database cannot see.
  ghost function InvisiblyVerified(attempts: map<AttemptId, Attempt>, evidence: set<EvidenceRow>): set<AttemptId> {
    set id | id in attempts && IsLatest(attempts, id) && SqlVerified(id, attempts[id], evidence) && HasExoticBlank(attempts[id])
  }

  /** The count shown to the operator exceeds the number of applications whose latest attempt is verified by exactly the latest
      attempts with such a text; without any, it is that number. */
  lemma LatestVerifiedCount(attempts: map<AttemptId, Attempt>, evidence: set<EvidenceRow>)
    requires forall row :: row in evidence ==> EvidenceChecks(row)
    ensures |LatestVerifiedQuery(attempts, evidence)| == |VerifiedApplications(attempts, evidence)| + |InvisiblyVerified(attempts, evidence)|
  {
    hide SqlVerified, IsEmployerVerified, HasExoticBlank, EvidenceChecks;
    var found, invisible := LatestVerifiedQuery(attempts, evidence), InvisiblyVerified(attempts, evidence);
    var verified := found - invisible;
    forall id | id in attempts
      ensures IsEmployerVerified(id, attempts[id], evidence) <==> SqlVerified(id, attempts[id], evidence) && !HasExoticBlank(attempts[id])
    {
      QueryMatchesPredicate(id, attempts[id], evidence);
    }
    assert VerifiedApplications(attempts, evidence) == set id | id in verified :: id.app;
    DistinctApplicationsCount(verified);
    assert found == verified + invisible;
  }

  /** The characters stripping removes, and the digits of a digest, by code point. */
  lemma TextByCode(c: char)
    ensures var code := c as int;
      && (IsWhitespace(c) <==>
            9 <= code <= 13 || 28 <= code <= 32 || 8192 <= code <= 8202
            || code in {133, 160, 5760, 8232, 8233, 8239, 8287, 12288})
      && (IsSpaceOnly(c) <==> code == 32) && (IsHex(c) <==> 48 <= code <= 57 || 97 <= code <= 102)
  {
  }
}
