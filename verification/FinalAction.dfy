/** The prepared final action: the handle a browser preflight leaves behind, and what binds it to its plan and permit. */
module FinalAction {
  import opened Wrappers
  import opened Records

  const ACTION_SECONDS: nat := 300
  const PLAN_SECONDS: nat := 1800

  datatype PreparedAction = PreparedAction(
    attempt: AttemptId, adapterName: string, adapterVersion: string, selectorVersion: string, fingerprint: string,
    attachedCvHash: string, preparedAt: Time, expiresAt: Time)

  predicate ValidAction(a: PreparedAction) { a.preparedAt < a.expiresAt <= a.preparedAt + ACTION_SECONDS }

  predicate ValidPlanLifetime(p: FormPlan) { p.createdAt < p.expiresAt <= p.createdAt + PLAN_SECONDS }

  predicate ReadyForPermit(p: FormPlan) {
    && p.blockers == [] && p.attachmentVerified && p.attachedCvId == Some(p.selectedCvId) && p.attachedCvHash == Some(p.selectedCvHash)
    && p.sessionVerifiedAt.Some? && p.createdAt <= p.sessionVerifiedAt.value <= p.expiresAt
  }

  predicate PermitBinds(t: Permit, p: FormPlan) {
    && ReadyForPermit(p) && t.revision == p.revision && t.adapterName == p.adapterName && t.adapterVersion == p.adapterVersion
    && t.selectorVersion == p.selectorVersion && t.fingerprint == p.fingerprint && t.cvHash == p.selectedCvHash
    && t.expiresAt <= p.expiresAt
  }

  predicate ActionBinds(a: PreparedAction, p: FormPlan, id: AttemptId, t: Permit, at: Time) {
    && at < a.expiresAt && a.attempt == id
    && a.adapterName == p.adapterName == t.adapterName && a.adapterVersion == p.adapterVersion == t.adapterVersion
    && a.selectorVersion == p.selectorVersion == t.selectorVersion && a.fingerprint == p.fingerprint == t.fingerprint
    && Some(a.attachedCvHash) == p.attachedCvHash && a.attachedCvHash == t.cvHash
    && a.preparedAt <= at && a.expiresAt <= t.expiresAt && PermitBinds(t, p)
  }
}
