/** Table rows shared by the submission protocol, the restore quarantine and employer truth.
    Times are natural numbers; digests are opaque text; a nullable column is an Option. */
module Records {
  import opened Wrappers

  type Id = nat
  type Time = nat
  type Reason = string

  datatype Stage = Queued | Inspecting | Preparing | Ready | Committing | Verifying | Finished

  datatype Outcome =
    | ConfirmedSubmitted | AlreadyApplied | NeedsReview | Unknown
    | FailedBeforeCommit | DraftOnly | OperatorConfirmed | LegacyUnverified

  datatype SubmissionStatus = StatusPending | StatusRunning | StatusSuccess | StatusFailed | StatusDraftOnly | StatusUnknown

  datatype JobStatus =
    | JobExtracted | JobScored | JobSkipped | JobDraft | JobApproved | JobSubmitted | JobFailed | JobNeedsReview

  datatype AuthorityKind = ExplicitOperator | ControlPlane | QualifiedAutopilot | QualificationCanary | Legacy

  datatype Job = Job(status: JobStatus, terminalSkipAt: Option<Time>)

  datatype Application = Application(
    jobId: Id, status: JobStatus, revision: int, preparedRevision: Option<int>,
    approvedAt: Option<Time>, approvalSource: Option<string>, needsReviewReason: Option<Reason>,
    selectedCvId: Option<string>, selectedCvHash: Option<string>, profileVersion: Option<int>)

  // One attempt of one application. Attempts carry the pair (application, attempt number) as their
  // identity, which the table keeps unique.
  datatype AttemptId = AttemptId(app: Id, number: nat)

  // The columns fixed when the attempt is admitted.
  datatype Binding = Binding(
    key: string, submitterName: string, revision: int, planId: Option<string>, fingerprint: Option<string>,
    adapterName: Option<string>, adapterVersion: Option<string>, selectorVersion: Option<string>,
    requestedCvId: Option<string>, requestedCvHash: Option<string>,
    attachedCvId: Option<string>, attachedCvHash: Option<string>, attachmentVerified: bool,
    profileVersion: Option<int>, runnerRelease: Option<string>,
    authority: AuthorityKind, decisionId: Option<Id>, decisionDigest: Option<string>,
    canaryId: Option<Id>, canaryDigest: Option<CanaryContent>)

  datatype Attempt = Attempt(
    binding: Binding, status: SubmissionStatus, stage: Stage, outcome: Option<Outcome>, reason: Option<Reason>,
    finalActionAt: Option<Time>, finishedAt: Option<Time>, submittedAt: Option<Time>,
    verificationKind: Option<string>, evidenceDigest: Option<string>)

  datatype EvidenceRow = EvidenceRow(
    attempt: AttemptId, kind: string, digest: string, fingerprint: string, cvHash: string, observedAt: Time)

  // Plans are identified by their public identifier, which the table keeps unique.
  datatype FormPlan = FormPlan(
    applicationId: Id, revision: int, adapterName: string, adapterVersion: string, selectorVersion: string,
    fingerprint: string, selectedCvId: string, selectedCvHash: string,
    attachedCvId: Option<string>, attachedCvHash: Option<string>, attachmentVerified: bool,
    profileVersion: Option<int>, sessionVerifiedAt: Option<Time>, createdAt: Time, expiresAt: Time,
    blockers: seq<Reason>, invalidatedAt: Option<Time>, invalidationReason: Option<Reason>)

  // Permits are identified by their attempt: at most one each.
  datatype Permit = Permit(
    jobUrlHash: string, revision: int, adapterName: string, adapterVersion: string, selectorVersion: string,
    fingerprint: string, cvHash: string, authority: AuthorityKind, decisionDigest: Option<string>,
    canaryDigest: Option<CanaryContent>, issuedAt: Time, expiresAt: Time, consumedAt: Option<Time>)

  datatype CommandState = CommandPending | CommandClaimed | CommandCompleted | CommandCancelled

  datatype Lease = Lease(at: Time, owner: string, token: string)

  // Commands are identified by their idempotency key, which the table keeps unique.
  datatype Command = Command(
    id: Id, attempt: AttemptId, state: CommandState, lease: Option<Lease>,
    completedAt: Option<Time>, lastError: Option<Reason>)

  datatype PolicyDecision = PolicyDecision(
    applicationId: Id, revision: int, planId: string, digest: string, expiresAt: Option<Time>)

  // Everything a canary authorization digest covers; the content stands for its collision-free digest.
  datatype CanaryContent = CanaryContent(
    nonce: string, applicationId: Id, revision: int, planId: string, dryRunId: Id,
    adapterName: string, adapterVersion: string, selectorVersion: string, contractVersion: string,
    fingerprint: string, contractDigest: string, selectedCvHash: string, urlHash: string, release: string,
    issuedAt: Time, expiresAt: Time)

  datatype Canary = Canary(
    content: CanaryContent, digest: CanaryContent, consumedAt: Option<Time>, revokedAt: Option<Time>)

  datatype Tier = DryRunQualified | LiveCanaryQualified

  datatype Qualification = Qualification(
    tier: Tier, adapterName: string, adapterVersion: string, selectorVersion: string, contractVersion: string,
    fingerprint: string, contractDigest: string, fixtureDigest: string, applicationId: Id, revision: int,
    planId: string, attempt: Option<AttemptId>, urlHash: string, evidenceDigest: string, release: string,
    qualifiedAt: Time, invalidatedAt: Option<Time>)

  predicate IsPreCommit(s: Stage) { s.Queued? || s.Inspecting? || s.Preparing? || s.Ready? }

  predicate IsPostCommit(s: Stage) { s.Committing? || s.Verifying? }

  // Outcomes that close an application to every further attempt.
  predicate IsImmutable(o: Option<Outcome>) {
    o in {Some(ConfirmedSubmitted), Some(AlreadyApplied), Some(Unknown), Some(OperatorConfirmed), Some(LegacyUnverified)}
  }
}
