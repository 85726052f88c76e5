/** One-use live qualification authority: dry-run records, canary authorizations minted from them, and the
    live records an employer-confirmed canary earns. */
module CanaryChain {
  import opened Wrappers
  import opened Records
  import opened ReviewGrants
  import opened Database

  const TWO_PHASE := "two-phase-v2"
  const CANARY_TTL := 300

  datatype Descriptor = Descriptor(
    platform: string, adapterVersion: string, selectorVersion: string, contractVersion: Option<string>,
    browser: bool, live: bool, formScope: set<string>)

  // What the adapter registry, the committed fixtures, the URL normalizer and the plan contract say about one job
  // URL and one plan.
  datatype Site = Site(
    descriptor: Option<Descriptor>, fixture: Option<string>, urlHash: Option<string>, contractDigest: Option<string>,
    readable: bool)

  predicate DescriptorMatchesPlan(d: Descriptor, plan: FormPlan) {
    d.platform == plan.adapterName && d.adapterVersion == plan.adapterVersion && d.selectorVersion == plan.selectorVersion
    && d.contractVersion == Some(TWO_PHASE) && d.browser
  }

  // A dry-run record that the current adapter, fixture, release, application and plan still back.
  predicate IsDryRun(
    q: Qualification, d: Descriptor, fixture: string, release: string, appId: Id, app: Application, planId: string, plan: FormPlan)
  {
    q.adapterName == d.platform && q.adapterVersion == d.adapterVersion && q.selectorVersion == d.selectorVersion
    && Some(q.contractVersion) == d.contractVersion && q.fixtureDigest == fixture && q.release == release
    && q.invalidatedAt.None? && q.tier == DryRunQualified
    && q.applicationId == appId && q.revision == app.revision && q.planId == planId && q.fingerprint == plan.fingerprint
  }

  predicate HasDryRun(
    db: Db, d: Descriptor, fixture: string, release: string, appId: Id, app: Application, planId: string, plan: FormPlan)
  {
    exists i :: i in db.qualifications && IsDryRun(db.qualifications[i], d, fixture, release, appId, app, planId, plan)
  }

  function RecordDryRun(
    db: Db, id: Id, appId: Id, app: Application, planId: string, plan: FormPlan, site: Site, release: string,
    evidence: string, now: Time): (r: Result<Db, Reason>)
    ensures r.Ok? ==> r.value == db.(qualifications := r.value.qualifications)
  {
    if site.descriptor.None? || !DescriptorMatchesPlan(site.descriptor.value, plan) then Err("ADAPTER_VERSION_CHANGED")
    else if site.fixture.None? then Err("FIXTURE_EVIDENCE_CHANGED")
    else if !site.readable || site.urlHash.None? || site.contractDigest.None? then Err("FORM_PLAN_BLOCKED")
    else if plan.applicationId != appId || app.revision != plan.revision || plan.invalidatedAt.Some? || !ReadyForPermitAt(plan, now)
    then Err("FORM_PLAN_BLOCKED")
    else if !(1 <= |release| <= 64) then Err("BUILD_MISMATCH")
    else
      var d := site.descriptor.value;
      if HasDryRun(db, d, site.fixture.value, release, appId, app, planId, plan) then Ok(db)
      else
        Ok(db.(qualifications := db.qualifications[id := Qualification(
          DryRunQualified, d.platform, d.adapterVersion, d.selectorVersion, TWO_PHASE, plan.fingerprint,
          site.contractDigest.value, site.fixture.value, appId, app.revision, planId, None, site.urlHash.value,
          evidence, release, now, None)]))
  }

  predicate IsActive(c: Canary, now: Time) {
    c.consumedAt.None? && c.revokedAt.None? && c.content.expiresAt > now
  }

  predicate HasActive(db: Db, appId: Id, now: Time) {
    exists i :: i in db.canaries && db.canaries[i].content.applicationId == appId && IsActive(db.canaries[i], now)
  }

  // The dry-run row is the one the query finds; it must also agree on the form contract and the job URL.
  function Mint(
    db: Db, id: Id, dryRunId: Option<Id>, nonce: string, appId: Id, app: Application, planId: string, plan: FormPlan,
    site: Site, release: string, now: Time): (r: Result<Db, Reason>)
    ensures r.Ok? ==> r.value == db.(canaries := r.value.canaries)
  {
    if site.descriptor.None? || !DescriptorMatchesPlan(site.descriptor.value, plan) then Err("ADAPTER_VERSION_CHANGED")
    else if site.fixture.None? || !site.readable || site.urlHash.None? || site.contractDigest.None? then Err("FORM_PLAN_BLOCKED")
    else if plan.applicationId != appId || app.revision != plan.revision || plan.invalidatedAt.Some?
            || !ReadyForPermitAt(plan, now) || app.selectedCvHash != Some(plan.selectedCvHash)
    then Err("FORM_PLAN_BLOCKED")
    else
      var d := site.descriptor.value;
      if dryRunId.None? || !QualifiesMint(db, dryRunId.value, d, appId, app, planId, plan, site, release)
      then Err("REAL_URL_DRY_RUN_REQUIRED")
      else if !(1 <= |release| <= 64) then Err("BUILD_MISMATCH")
      else if HasActive(db, appId, now) then Err("CANARY_AUTHORIZATION_ACTIVE")
      else
        var expires := if plan.expiresAt < now + CANARY_TTL then plan.expiresAt else now + CANARY_TTL;
        if expires <= now then Err("CANARY_AUTHORIZATION_EXPIRED")
        else
          var content := CanaryContent(
            nonce, appId, app.revision, planId, dryRunId.value, d.platform, d.adapterVersion, d.selectorVersion, TWO_PHASE,
            plan.fingerprint, site.contractDigest.value, plan.selectedCvHash, site.urlHash.value, release, now, expires);
          Ok(db.(canaries := db.canaries[id := Canary(content, content, None, None)]))
  }

  predicate QualifiesMint(
    db: Db, dryRunId: Id, d: Descriptor, appId: Id, app: Application, planId: string, plan: FormPlan, site: Site, release: string)
    requires site.fixture.Some?
  {
    dryRunId in db.qualifications
    && IsDryRun(db.qualifications[dryRunId], d, site.fixture.value, release, appId, app, planId, plan)
    && Some(db.qualifications[dryRunId].contractDigest) == site.contractDigest
    && Some(db.qualifications[dryRunId].urlHash) == site.urlHash
  }

  predicate ContentMatches(
    c: CanaryContent, appId: Id, app: Application, planId: string, plan: FormPlan, d: Descriptor, site: Site, release: string)
  {
    c.applicationId == appId && c.revision == app.revision && c.revision == plan.revision && c.planId == planId
    && c.adapterName == d.platform && c.adapterName == plan.adapterName
    && c.adapterVersion == d.adapterVersion && c.adapterVersion == plan.adapterVersion
    && c.selectorVersion == d.selectorVersion && c.selectorVersion == plan.selectorVersion
    && Some(c.contractVersion) == d.contractVersion && c.fingerprint == plan.fingerprint
    && Some(c.contractDigest) == site.contractDigest && c.selectedCvHash == plan.selectedCvHash
    && Some(c.selectedCvHash) == app.selectedCvHash && Some(c.urlHash) == site.urlHash && c.release == release
  }

  function Validate(
    db: Db, id: Id, digest: CanaryContent, consumed: bool, appId: Id, app: Application, planId: string, plan: FormPlan,
    site: Site, release: string, now: Time): Option<Reason>
  {
    if id !in db.canaries || db.canaries[id].digest != digest then Some("CANARY_AUTHORIZATION_REQUIRED")
    else
      var row := db.canaries[id];
      if row.content != row.digest then Some("CANARY_AUTHORIZATION_CHANGED")
      else if now < row.content.issuedAt then Some("CANARY_AUTHORIZATION_NOT_YET_VALID")
      else if row.revokedAt.Some? || row.content.expiresAt <= now then Some("CANARY_AUTHORIZATION_EXPIRED")
      else if row.consumedAt.Some? != consumed then
        Some(if row.consumedAt.Some? then "CANARY_AUTHORIZATION_REPLAYED" else "CANARY_NOT_CONSUMED")
      else if site.descriptor.None? || !DescriptorMatchesPlan(site.descriptor.value, plan) then Some("ADAPTER_VERSION_CHANGED")
      else if site.fixture.None? || site.urlHash.None? || site.contractDigest.None? then Some("FORM_PLAN_BLOCKED")
      else if !ContentMatches(row.content, appId, app, planId, plan, site.descriptor.value, site, release)
      then Some("CANARY_AUTHORIZATION_CHANGED")
      else if row.content.dryRunId !in db.qualifications then Some("REAL_URL_DRY_RUN_REQUIRED")
      else
        var dry := db.qualifications[row.content.dryRunId];
        if dry.invalidatedAt.Some? || dry.tier != DryRunQualified || Some(dry.fixtureDigest) != site.fixture
           || dry.planId != planId || Some(dry.contractDigest) != site.contractDigest
        then Some("REAL_URL_DRY_RUN_REQUIRED")
        else None
  }

  predicate HasLiveEvidence(db: Db, id: AttemptId, a: Attempt, plan: FormPlan, evidence: string) {
    exists row :: row in db.evidence && row.attempt == id && row.digest == evidence && Some(row.kind) == a.verificationKind
      && row.fingerprint == plan.fingerprint && Some(row.cvHash) == plan.attachedCvHash
  }

  predicate IsConfirmedCanary(a: Attempt, evidence: string, now: Time) {
    && a.stage == Finished && a.outcome == Some(ConfirmedSubmitted) && a.status == StatusSuccess
    && a.submittedAt.Some? && a.finalActionAt.Some?
    && a.verificationKind in {Some("employer_application_id"), Some("api_receipt"), Some("candidate_portal_record"),
                              Some("visible_post_click_confirmation")}
    && a.evidenceDigest == Some(evidence)
    && a.finalActionAt.value <= a.submittedAt.value <= now
  }

  // Some row already qualifies the attempt.
  predicate AlreadyQualified(db: Db, id: AttemptId) {
    exists i :: i in db.qualifications && db.qualifications[i].attempt == Some(id)
  }

  function ConfirmLive(
    db: Db, newId: Id, id: AttemptId, app: Application, planId: string, plan: FormPlan, evidence: string, site: Site,
    release: string, now: Time): (r: Result<Db, Reason>)
    requires id in db.attempts
    ensures r.Ok? ==> r.value == db.(qualifications := r.value.qualifications)
  {
    var a := db.attempts[id];
    if !IsConfirmedCanary(a, evidence, now) || !HasLiveEvidence(db, id, a, plan, evidence) then Err("EMPLOYER_EVIDENCE_REQUIRED")
    else if a.binding.authority != QualificationCanary || a.binding.canaryId.None? || a.binding.canaryDigest.None?
            || Validate(db, a.binding.canaryId.value, a.binding.canaryDigest.value, true, id.app, app, planId, plan, site, release, now).Some?
    then Err("CANARY_AUTHORIZATION_CHANGED")
    else if AlreadyQualified(db, id) then Ok(db)
    else
      var d, content := site.descriptor.value, db.canaries[a.binding.canaryId.value].content;
      Ok(db.(qualifications := db.qualifications[newId := Qualification(
        LiveCanaryQualified, d.platform, d.adapterVersion, d.selectorVersion, TWO_PHASE, plan.fingerprint,
        site.contractDigest.value, site.fixture.value, id.app, a.binding.revision, planId, Some(id), content.urlHash,
        evidence, release, now, None)]))
  }
}
