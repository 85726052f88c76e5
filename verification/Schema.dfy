/** The constraints the database enforces on attempts and commands, as the table definitions state them. */
module Schema {
  import opened Wrappers
  import opened Records
  import opened EmployerTruth

  // ---------- attempts ----------

  // The columns that name the authority behind an attempt agree with its kind.
  predicate AuthorityCheck(b: Binding) {
    var decided := b.decisionId.Some? && b.decisionDigest.Some?;
    var undecided := b.decisionId.None? && b.decisionDigest.None?;
    var canaried := b.canaryId.Some? && b.canaryDigest.Some?;
    var uncanaried := b.canaryId.None? && b.canaryDigest.None?;
    match b.authority
    case QualifiedAutopilot => decided && uncanaried
    case QualificationCanary => undecided && canaried
    case _ => undecided && uncanaried
  }

  predicate SuccessCheck(a: Attempt) {
    a.status == StatusSuccess ==> a.stage == Finished && a.outcome in {Some(ConfirmedSubmitted), Some(LegacyUnverified)}
  }

  predicate SubmittedCheck(a: Attempt) {
    a.submittedAt.Some? ==> a.stage == Finished && a.outcome == Some(ConfirmedSubmitted) && a.status == StatusSuccess
  }

  // Some text is left once the database has trimmed spaces.
  predicate Visible(s: Option<string>) { s.Some? && Trim(s.value, IsSpaceOnly) != [] }

  predicate Digest(s: Option<string>) { s.Some? && IsSha256(s.value) }

  predicate BindingEvidenceCheck(b: Binding) {
    && b.planId.Some? && Visible(b.adapterName) && Visible(b.adapterVersion) && Visible(b.selectorVersion)
    && b.profileVersion.Some? && b.profileVersion.value > 0
    && Visible(b.runnerRelease) && |b.runnerRelease.value| <= 64
    && Visible(b.requestedCvId) && Visible(b.attachedCvId) && b.requestedCvId == b.attachedCvId
    && b.requestedCvHash.Some? && b.attachmentVerified && b.requestedCvHash == b.attachedCvHash
    && Digest(b.attachedCvHash) && Digest(b.fingerprint)
  }

  // A confirmed attempt carries complete evidence columns.
  predicate ConfirmedCheck(a: Attempt) {
    a.outcome == Some(ConfirmedSubmitted) ==>
      && a.status == StatusSuccess && a.submittedAt.Some? && a.finalActionAt.Some? && a.finalActionAt.value <= a.submittedAt.value
      && BindingEvidenceCheck(a.binding)
      && a.verificationKind.Some? && IsEvidenceType(a.verificationKind.value) && Digest(a.evidenceDigest)
  }

  predicate RowChecks(a: Attempt) { AuthorityCheck(a.binding) && SuccessCheck(a) && SubmittedCheck(a) && ConfirmedCheck(a) }

  // ---------- keys into other tables ----------

  // A composite key counts only when every one of its columns is set.
  predicate EvidenceKey(evidence: set<EvidenceRow>, id: AttemptId, a: Attempt) {
    a.evidenceDigest.Some? && a.verificationKind.Some? && a.binding.fingerprint.Some? && a.binding.attachedCvHash.Some? ==>
      exists row :: row in evidence && Proves(row, id, a)
  }

  predicate Proves(row: EvidenceRow, id: AttemptId, a: Attempt) {
    row.attempt == id && Some(row.digest) == a.evidenceDigest && Some(row.kind) == a.verificationKind
    && Some(row.fingerprint) == a.binding.fingerprint && Some(row.cvHash) == a.binding.attachedCvHash
  }

  predicate DecisionKey(decisions: map<Id, PolicyDecision>, b: Binding) {
    b.decisionId.Some? && b.decisionDigest.Some? ==>
      b.decisionId.value in decisions && decisions[b.decisionId.value].digest == b.decisionDigest.value
  }

  predicate CanaryKey(canaries: map<Id, Canary>, b: Binding) {
    b.canaryId.Some? && b.canaryDigest.Some? ==>
      b.canaryId.value in canaries && canaries[b.canaryId.value].digest == b.canaryDigest.value
  }

  // ---------- commands ----------

  predicate CommandCheck(c: Command) {
    match c.state
    case CommandPending => c.lease.None? && c.completedAt.None?
    case CommandClaimed => c.lease.Some? && c.completedAt.None?
    case _ => c.completedAt.Some? && c.lease.None?
  }

  // ---------- the miscounted row ----------

  /** The row with the one-tab adapter name is one the database can hold. */
  lemma TabbedRowIsHeld()
    ensures RowChecks(TABBED) && EvidenceChecks(RECEIPT) && EvidenceKey({RECEIPT}, AttemptId(1, 1), TABBED)
  {
    hide Trim;
    VisibleText("\t");
    VisibleText("1");
    VisibleText("r");
    VisibleText("cv");
    assert Proves(RECEIPT, AttemptId(1, 1), TABBED);
  }

  lemma VisibleText(s: string)
    requires s != [] && s[0] != ' '
    ensures Visible(Some(s))
  {
    TrimKeepsSomething(s, IsSpaceOnly);
  }
}
