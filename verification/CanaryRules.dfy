/** Exactly when a canary authorization is minted, stands and earns a live record, said column by column. */
module CanaryRules {
  import opened Wrappers
  import opened Records
  import opened Database
  import opened CanaryChain
  import ReviewGrants

  // ---------- standing authorizations ----------

  predicate ContentNamesAdapter(content: CanaryContent, d: Descriptor, p: FormPlan) {
    && d.browser && d.contractVersion == Some("two-phase-v2") == Some(content.contractVersion)
    && d.platform == p.adapterName == content.adapterName && d.adapterVersion == p.adapterVersion == content.adapterVersion
    && d.selectorVersion == p.selectorVersion == content.selectorVersion
  }

  // What the authorization covers is exactly the action at hand.
  predicate ContentStands(content: CanaryContent, appId: Id, app: Application, planId: string, p: FormPlan, site: Site, release: string) {
    && site.descriptor.Some? && site.fixture.Some? && site.urlHash == Some(content.urlHash) && site.contractDigest == Some(content.contractDigest)
    && content.applicationId == appId && content.planId == planId && content.release == release
    && content.revision == app.revision == p.revision && content.fingerprint == p.fingerprint
    && content.selectedCvHash == p.selectedCvHash && app.selectedCvHash == Some(content.selectedCvHash)
    && ContentNamesAdapter(content, site.descriptor.value, p)
  }

  // The dry run it was minted from is still good for this fixture, plan and form contract.
  predicate DryRunStands(db: Db, content: CanaryContent, planId: string, site: Site) {
    && content.dryRunId in db.qualifications
    && var dry := db.qualifications[content.dryRunId];
       && dry.invalidatedAt.None? && dry.tier == DryRunQualified && site.fixture == Some(dry.fixtureDigest) && dry.planId == planId
       && dry.contractDigest == content.contractDigest
  }

  // The authorization is untampered, current, unrevoked, spent or not as asked, and its content and dry run stand.
  predicate CanaryHolds(
    db: Db, i: Id, digest: CanaryContent, spent: bool, appId: Id, app: Application, planId: string, p: FormPlan, site: Site,
    release: string, now: Time)
  {
    && i in db.canaries
    && var c := db.canaries[i];
       && c.digest == digest == c.content && c.revokedAt.None? && c.content.issuedAt <= now < c.content.expiresAt
       && (c.consumedAt.Some? <==> spent)
       && ContentStands(c.content, appId, app, planId, p, site, release) && DryRunStands(db, c.content, planId, site)
  }

  /** An authorization validates exactly when it is untampered, current and about this very action, and its dry run stands. */
  lemma ValidatesExactlyWhenItHolds(
    db: Db, i: Id, digest: CanaryContent, spent: bool, appId: Id, app: Application, planId: string, p: FormPlan, site: Site,
    release: string, now: Time)
    ensures Validate(db, i, digest, spent, appId, app, planId, p, site, release, now).None?
       <==> CanaryHolds(db, i, digest, spent, appId, app, planId, p, site, release, now)
  {
  }

  // ---------- dry runs and minting ----------

  // The adapter acts in the browser under the two-phase contract, in the plan's versions, and the page, its URL and its fixture are known.
  predicate SiteReady(site: Site, p: FormPlan) {
    && site.descriptor.Some? && site.fixture.Some? && site.readable && site.urlHash.Some? && site.contractDigest.Some?
    && var d := site.descriptor.value;
       d.browser && d.contractVersion == Some("two-phase-v2") && d.platform == p.adapterName && d.adapterVersion == p.adapterVersion
       && d.selectorVersion == p.selectorVersion
  }

  // The plan is this application's at its revision, live, unblocked, with its CV attached, and inside its time.
  predicate PlanReady(appId: Id, app: Application, p: FormPlan, now: Time) {
    && p.applicationId == appId && p.revision == app.revision && p.invalidatedAt.None? && p.blockers == []
    && p.attachmentVerified && p.attachedCvId == Some(p.selectedCvId) && p.attachedCvHash == Some(p.selectedCvHash)
    && p.createdAt <= now < p.expiresAt && p.sessionVerifiedAt.Some? && p.createdAt <= p.sessionVerifiedAt.value <= now
  }

  // The record is a good dry run of this adapter, fixture, release, application revision, plan and form.
  predicate IsGoodDryRun(q: Qualification, site: Site, release: string, appId: Id, app: Application, planId: string, p: FormPlan) {
    && q.tier == DryRunQualified && q.invalidatedAt.None? && site.fixture == Some(q.fixtureDigest) && q.release == release
    && q.applicationId == appId && q.revision == app.revision && q.planId == planId && q.fingerprint == p.fingerprint
    && q.adapterName == p.adapterName && q.adapterVersion == p.adapterVersion && q.selectorVersion == p.selectorVersion
    && q.contractVersion == "two-phase-v2"
  }

  ghost predicate Unspent(db: Db, appId: Id, now: Time) {
    exists i :: i in db.canaries && db.canaries[i].content.applicationId == appId && db.canaries[i].consumedAt.None?
                && db.canaries[i].revokedAt.None? && now < db.canaries[i].content.expiresAt
  }

  ghost predicate MayMint(
    db: Db, dryRunId: Option<Id>, appId: Id, app: Application, planId: string, p: FormPlan, site: Site, release: string, now: Time)
  {
    && SiteReady(site, p) && PlanReady(appId, app, p, now) && app.selectedCvHash == Some(p.selectedCvHash) && 1 <= |release| <= 64
    && !Unspent(db, appId, now)
    && dryRunId.Some? && dryRunId.value in db.qualifications
    && var dry := db.qualifications[dryRunId.value];
       && IsGoodDryRun(dry, site, release, appId, app, planId, p)
       && site.contractDigest == Some(dry.contractDigest) && site.urlHash == Some(dry.urlHash)
  }

  // The new authorization stands, unspent, for five minutes or until its plan ends.
  predicate MintedCanary(
    c: Canary, dryRunId: Id, nonce: string, appId: Id, app: Application, planId: string, p: FormPlan, site: Site, release: string, now: Time)
  {
    && c.digest == c.content && c.consumedAt.None? && c.revokedAt.None? && c.content.nonce == nonce && c.content.dryRunId == dryRunId
    && c.content.issuedAt == now && c.content.expiresAt == (if p.expiresAt < now + 300 then p.expiresAt else now + 300)
    && ContentStands(c.content, appId, app, planId, p, site, release)
  }

  lemma DryRunExactly(q: Qualification, site: Site, release: string, appId: Id, app: Application, planId: string, p: FormPlan)
    requires SiteReady(site, p)
    ensures IsDryRun(q, site.descriptor.value, site.fixture.value, release, appId, app, planId, p)
       <==> IsGoodDryRun(q, site, release, appId, app, planId, p)
  {
  }

  /** A canary is minted exactly from a good dry run of the same page and form, for a plan that is ready, when no other one of the
      application is unspent; the authorization then stands until it is spent or ends. */
  lemma MintsExactlyFromGoodDryRun(
    db: Db, newId: Id, dryRunId: Option<Id>, nonce: string, appId: Id, app: Application, planId: string, p: FormPlan, site: Site,
    release: string, now: Time)
    ensures var r := Mint(db, newId, dryRunId, nonce, appId, app, planId, p, site, release, now);
      && (r.Ok? <==> MayMint(db, dryRunId, appId, app, planId, p, site, release, now))
      && (r.Ok? ==>
            var db' := r.value;
            newId in db'.canaries && db' == db.(canaries := db.canaries[newId := db'.canaries[newId]])
            && MintedCanary(db'.canaries[newId], dryRunId.value, nonce, appId, app, planId, p, site, release, now)
            && CanaryHolds(db', newId, db'.canaries[newId].content, false, appId, app, planId, p, site, release, now))
  {
    assert HasActive(db, appId, now) <==> Unspent(db, appId, now);
    if SiteReady(site, p) && dryRunId.Some? && dryRunId.value in db.qualifications {
      DryRunExactly(db.qualifications[dryRunId.value], site, release, appId, app, planId, p);
    }
    hide HasActive, Unspent, IsDryRun, IsGoodDryRun;
  }

  // The new record is a good dry run of the page it was made on.
  predicate DryRunWritten(
    q: Qualification, site: Site, release: string, appId: Id, app: Application, planId: string, p: FormPlan, trace: string, now: Time)
  {
    && IsGoodDryRun(q, site, release, appId, app, planId, p) && q.attempt.None? && q.evidenceDigest == trace && q.qualifiedAt == now
    && site.contractDigest == Some(q.contractDigest) && site.urlHash == Some(q.urlHash)
  }

  /** A dry run is recorded exactly when the page and the plan are ready. It adds one good record, or none when a good one is there. */
  lemma DryRunRecordedExactly(
    db: Db, newId: Id, appId: Id, app: Application, planId: string, p: FormPlan, site: Site, release: string, trace: string, now: Time)
    ensures var r := RecordDryRun(db, newId, appId, app, planId, p, site, release, trace, now);
      && (r.Ok? <==> SiteReady(site, p) && PlanReady(appId, app, p, now) && 1 <= |release| <= 64)
      && (r.Ok? ==>
            && (HasGoodDryRun(db, site, release, appId, app, planId, p) ==> r.value == db)
            && (!HasGoodDryRun(db, site, release, appId, app, planId, p) ==>
                  newId in r.value.qualifications
                  && r.value == db.(qualifications := db.qualifications[newId := r.value.qualifications[newId]])
                  && DryRunWritten(r.value.qualifications[newId], site, release, appId, app, planId, p, trace, now)))
  {
    if SiteReady(site, p) { GoodDryRunsExactly(db, site, release, appId, app, planId, p); }
    hide HasDryRun, HasGoodDryRun;
  }

  ghost predicate HasGoodDryRun(db: Db, site: Site, release: string, appId: Id, app: Application, planId: string, p: FormPlan) {
    exists i :: i in db.qualifications && IsGoodDryRun(db.qualifications[i], site, release, appId, app, planId, p)
  }

  lemma GoodDryRunsExactly(db: Db, site: Site, release: string, appId: Id, app: Application, planId: string, p: FormPlan)
    requires SiteReady(site, p)
    ensures HasDryRun(db, site.descriptor.value, site.fixture.value, release, appId, app, planId, p)
       <==> HasGoodDryRun(db, site, release, appId, app, planId, p)
  {
    forall i | i in db.qualifications
      ensures IsDryRun(db.qualifications[i], site.descriptor.value, site.fixture.value, release, appId, app, planId, p)
         <==> IsGoodDryRun(db.qualifications[i], site, release, appId, app, planId, p)
    {
      DryRunExactly(db.qualifications[i], site, release, appId, app, planId, p);
    }
    hide IsDryRun, IsGoodDryRun;
  }

  // ---------- live records ----------

  // The attempt ended confirmed by the employer with this evidence, which is about the plan's form and CV.
  ghost predicate EmployerConfirmed(db: Db, id: AttemptId, p: FormPlan, evidence: string, now: Time)
    requires id in db.attempts
  {
    var a := db.attempts[id];
    && a.stage == Finished && a.outcome == Some(ConfirmedSubmitted) && a.status == StatusSuccess
    && a.submittedAt.Some? && a.finalActionAt.Some? && a.finalActionAt.value <= a.submittedAt.value <= now
    && a.verificationKind.Some?
    && a.verificationKind.value in {"employer_application_id", "api_receipt", "candidate_portal_record", "visible_post_click_confirmation"}
    && a.evidenceDigest == Some(evidence)
    && exists row :: row in db.evidence && row.attempt == id && row.digest == evidence && row.kind == a.verificationKind.value
                     && row.fingerprint == p.fingerprint && Some(row.cvHash) == p.attachedCvHash
  }

  // The attempt was a canary whose authorization is spent and still holds otherwise.
  ghost predicate WasCanary(
    db: Db, id: AttemptId, app: Application, planId: string, p: FormPlan, site: Site, release: string, now: Time)
    requires id in db.attempts
  {
    var b := db.attempts[id].binding;
    b.authority == QualificationCanary && b.canaryId.Some? && b.canaryDigest.Some?
    && CanaryHolds(db, b.canaryId.value, b.canaryDigest.value, true, id.app, app, planId, p, site, release, now)
  }

  predicate LiveWritten(
    q: Qualification, id: AttemptId, revision: int, planId: string, p: FormPlan, site: Site, release: string, evidence: string, now: Time)
  {
    && q.tier == LiveCanaryQualified && q.attempt == Some(id) && q.invalidatedAt.None? && q.evidenceDigest == evidence && q.qualifiedAt == now
    && q.adapterName == p.adapterName && q.adapterVersion == p.adapterVersion && q.selectorVersion == p.selectorVersion
    && q.contractVersion == "two-phase-v2" && q.fingerprint == p.fingerprint && site.contractDigest == Some(q.contractDigest)
    && site.fixture == Some(q.fixtureDigest) && site.urlHash == Some(q.urlHash)
    && q.applicationId == id.app && q.revision == revision && q.planId == planId && q.release == release
  }

  /** A canary attempt earns a live record exactly when the employer confirmed it and its spent authorization still holds otherwise. It
      earns one, and asking again adds none. */
  lemma EarnsExactlyWhenConfirmed(
    db: Db, newId: Id, id: AttemptId, app: Application, planId: string, p: FormPlan, evidence: string, site: Site, release: string, now: Time)
    requires id in db.attempts
    ensures var r := ConfirmLive(db, newId, id, app, planId, p, evidence, site, release, now);
      && (r.Ok? <==> EmployerConfirmed(db, id, p, evidence, now) && WasCanary(db, id, app, planId, p, site, release, now))
      && (r.Ok? ==>
            && (AlreadyQualified(db, id) ==> r.value == db)
            && (!AlreadyQualified(db, id) ==>
                  newId in r.value.qualifications
                  && r.value == db.(qualifications := db.qualifications[newId := r.value.qualifications[newId]])
                  && LiveWritten(r.value.qualifications[newId], id, db.attempts[id].binding.revision, planId, p, site, release, evidence, now)))
  {
    ConfirmedExactly(db, id, p, evidence, now);
    CanaryExactly(db, id, app, planId, p, site, release, now);
    hide EmployerConfirmed, IsConfirmedCanary, HasLiveEvidence, AlreadyQualified;
    if EmployerConfirmed(db, id, p, evidence, now) && WasCanary(db, id, app, planId, p, site, release, now) && !AlreadyQualified(db, id) {
      HeldNames(db, id, app, planId, p, site, release, now);
    }
    hide Validate, WasCanary;
  }

  lemma CanaryExactly(db: Db, id: AttemptId, app: Application, planId: string, p: FormPlan, site: Site, release: string, now: Time)
    requires id in db.attempts
    ensures var b := db.attempts[id].binding;
      WasCanary(db, id, app, planId, p, site, release, now) <==>
        b.authority == QualificationCanary && b.canaryId.Some? && b.canaryDigest.Some?
        && Validate(db, b.canaryId.value, b.canaryDigest.value, true, id.app, app, planId, p, site, release, now).None?
  {
    var b := db.attempts[id].binding;
    if b.canaryId.Some? && b.canaryDigest.Some? {
      ValidatesExactlyWhenItHolds(db, b.canaryId.value, b.canaryDigest.value, true, id.app, app, planId, p, site, release, now);
    }
    hide Validate, CanaryHolds;
  }

  // A canary that held names its page and its plan's adapter.
  lemma HeldNames(db: Db, id: AttemptId, app: Application, planId: string, p: FormPlan, site: Site, release: string, now: Time)
    requires id in db.attempts && WasCanary(db, id, app, planId, p, site, release, now)
    ensures var b := db.attempts[id].binding;
      && b.canaryId.Some? && b.canaryId.value in db.canaries && SiteNames(site, p)
      && site.urlHash == Some(db.canaries[b.canaryId.value].content.urlHash)
  {
  }

  predicate SiteNames(site: Site, p: FormPlan) {
    && site.descriptor.Some? && site.fixture.Some? && site.contractDigest.Some? && site.descriptor.value.platform == p.adapterName
    && site.descriptor.value.adapterVersion == p.adapterVersion && site.descriptor.value.selectorVersion == p.selectorVersion
  }

  lemma ConfirmedExactly(db: Db, id: AttemptId, p: FormPlan, evidence: string, now: Time)
    requires id in db.attempts
    ensures IsConfirmedCanary(db.attempts[id], evidence, now) && HasLiveEvidence(db, id, db.attempts[id], p, evidence)
       <==> EmployerConfirmed(db, id, p, evidence, now)
  {
  }
}
