/** The review-grant outbox: two lease-based delivery machines, one for projecting a grant and one for
    its revocation tombstone, share each grant row. */
module ReviewGrants {
  import opened Wrappers
  import opened Records
  import EmployerTruth

  const CLAIM_TTL := 30
  const MAX_TTL := 300
  const RETRY_DELAY := 10
  const SWEEP_LIMIT := 25

  datatype ProjectionState = ProjectionPending | ProjectionClaimed | Projected
  datatype RevocationState = NoRevocation | RevocationPending | RevocationClaimed | RevocationDelivered | RevocationExpired

  datatype GrantBinding = GrantBinding(
    ref: string, remoteRef: string, planId: string, revision: int, urlHash: string, fingerprint: string, cvHash: string,
    adapterName: string, adapterVersion: string, selectorVersion: string, release: string)

  datatype Grant = Grant(
    applicationId: Id, binding: GrantBinding, issuedAt: Time, expiresAt: Time,
    revokedAt: Option<Time>, consumedAt: Option<Time>, consumedCommand: Option<string>,
    projection: ProjectionState, projectionAvailableAt: Time,
    projectionClaimedAt: Option<Time>, projectionClaimedBy: Option<string>, projectionToken: Option<string>,
    projectionAttempts: nat, projectedAt: Option<Time>, projectionError: Option<Reason>,
    revocation: RevocationState, revocationAvailableAt: Option<Time>,
    revocationClaimedAt: Option<Time>, revocationClaimedBy: Option<string>, revocationToken: Option<string>,
    revocationAttempts: nat, revocationSentAt: Option<Time>, revocationError: Option<Reason>)

  // ---------- the table constraints ----------

  predicate ProjectionChecks(g: Grant) {
    match g.projection
    case ProjectionPending =>
      g.projectionClaimedAt.None? && g.projectionClaimedBy.None? && g.projectionToken.None? && g.projectedAt.None?
    case ProjectionClaimed =>
      g.projectionClaimedAt.Some? && g.projectionClaimedBy.Some? && g.projectionToken.Some? && g.projectedAt.None?
    case Projected =>
      g.projectionClaimedAt.None? && g.projectionClaimedBy.None? && g.projectionToken.None? && g.projectedAt.Some?
  }

  predicate RevocationChecks(g: Grant) {
    && (g.revocation == NoRevocation <==> g.revocationAvailableAt.None?)
    && (g.revocation == RevocationClaimed <==> g.revocationClaimedAt.Some?)
    && (g.revocation == RevocationClaimed <==> g.revocationClaimedBy.Some?)
    && (g.revocation == RevocationClaimed <==> g.revocationToken.Some?)
    && (g.revocation == RevocationDelivered <==> g.revocationSentAt.Some?)
  }

  // The length of a text once the database has trimmed its spaces.
  function TrimmedLength(s: string): nat { |EmployerTruth.Trim(s, EmployerTruth.IsSpaceOnly)| }

  // What the row says about the reviewed action: bounded texts, a positive revision and well-formed digests.
  predicate BindingChecks(b: GrantBinding) {
    && 32 <= |b.ref| <= 64 && b.revision > 0
    && 1 <= TrimmedLength(b.adapterName) <= 64 && 1 <= TrimmedLength(b.adapterVersion) <= 32
    && 1 <= TrimmedLength(b.selectorVersion) <= 64 && 1 <= TrimmedLength(b.release) <= 64
    && EmployerTruth.IsSha256(b.urlHash) && EmployerTruth.IsSha256(b.fingerprint) && EmployerTruth.IsSha256(b.cvHash)
  }

  predicate ConsumptionChecks(g: Grant) {
    && (g.consumedAt.Some? <==> g.consumedCommand.Some?)
    && (g.consumedCommand.Some? ==> 1 <= TrimmedLength(g.consumedCommand.value) <= 64)
  }

  predicate Checks(g: Grant) {
    && g.expiresAt > g.issuedAt && BindingChecks(g.binding) && ConsumptionChecks(g)
    && ProjectionChecks(g) && RevocationChecks(g)
  }

  // ---------- single-row updates ----------

  predicate Live(g: Grant) { g.consumedAt.None? && g.revokedAt.None? }

  function Revoke(g: Grant, now: Time): Grant {
    g.(revokedAt := Some(now), revocationAvailableAt := Some(now),
       revocation := if g.expiresAt > now then RevocationPending else RevocationExpired)
  }

  function Consume(g: Grant, command: string, now: Time): Grant {
    g.(consumedAt := Some(now), consumedCommand := Some(command))
  }

  predicate ProjectionStale(g: Grant, now: Time) {
    g.projection == ProjectionClaimed && g.projectionClaimedAt.Some?
    && g.projectionClaimedAt.value + CLAIM_TTL < now && g.projectedAt.None?
  }

  function ReclaimProjection(g: Grant, now: Time): Grant {
    g.(projection := ProjectionPending, projectionClaimedAt := None, projectionClaimedBy := None, projectionToken := None,
       projectionAvailableAt := now, projectionError := Some("PROJECTION_CLAIM_STALE"))
  }

  predicate ProjectionDue(g: Grant, now: Time) {
    g.projection == ProjectionPending && g.projectionAvailableAt <= now && g.expiresAt > now && Live(g)
  }

  function ClaimProjection(g: Grant, runner: string, token: string, now: Time): Grant {
    g.(projection := ProjectionClaimed, projectionClaimedAt := Some(now), projectionClaimedBy := Some(runner),
       projectionToken := Some(token), projectionAttempts := g.projectionAttempts + 1)
  }

  predicate HoldsProjection(g: Grant, token: string) {
    g.projection == ProjectionClaimed && g.projectionToken == Some(token)
  }

  function MarkProjected(g: Grant, now: Time): Grant {
    g.(projection := Projected, projectedAt := Some(now), projectionClaimedAt := None, projectionClaimedBy := None,
       projectionToken := None, projectionError := None)
  }

  function ReleaseProjection(g: Grant, reason: Reason, now: Time): Grant {
    g.(projection := ProjectionPending, projectionAvailableAt := now + RETRY_DELAY, projectionClaimedAt := None,
       projectionClaimedBy := None, projectionToken := None, projectionError := Some(reason))
  }

  // A tombstone that still has to reach the hosted side.
  predicate TombstoneOwed(g: Grant, now: Time) {
    g.revocation in {RevocationPending, RevocationClaimed} && g.expiresAt > now
  }

  predicate RevocationStale(g: Grant, now: Time) {
    g.revocation == RevocationClaimed && g.revocationClaimedAt.Some?
    && g.revocationClaimedAt.value + CLAIM_TTL < now && g.revocationSentAt.None?
  }

  function ReclaimRevocation(g: Grant, now: Time): Grant {
    g.(revocation := RevocationPending, revocationClaimedAt := None, revocationClaimedBy := None, revocationToken := None,
       revocationAvailableAt := Some(now), revocationError := Some("REVOCATION_CLAIM_STALE"))
  }

  predicate RevocationLapsed(g: Grant, now: Time) { g.revocation == RevocationPending && g.expiresAt <= now }

  function ExpireRevocation(g: Grant): Grant {
    g.(revocation := RevocationExpired, revocationError := Some("REVIEW_GRANT_EXPIRED"))
  }

  predicate RevocationDue(g: Grant, now: Time) {
    g.revocation == RevocationPending && g.revocationAvailableAt.Some? && g.revocationAvailableAt.value <= now
    && g.expiresAt > now && g.revokedAt.Some? && g.consumedAt.None?
  }

  function ClaimRevocation(g: Grant, runner: string, token: string, now: Time): Grant {
    g.(revocation := RevocationClaimed, revocationClaimedAt := Some(now), revocationClaimedBy := Some(runner),
       revocationToken := Some(token), revocationAttempts := g.revocationAttempts + 1)
  }

  predicate HoldsRevocation(g: Grant, token: string) {
    g.revocation == RevocationClaimed && g.revocationToken == Some(token)
  }

  function MarkDelivered(g: Grant, now: Time): Grant {
    g.(revocation := RevocationDelivered, revocationSentAt := Some(now), revocationClaimedAt := None,
       revocationClaimedBy := None, revocationToken := None, revocationError := None)
  }

  function ReleaseRevocation(g: Grant, reason: Reason, now: Time): Grant {
    g.(revocation := if g.expiresAt <= now then RevocationExpired else RevocationPending,
       revocationAvailableAt := Some(now + RETRY_DELAY), revocationClaimedAt := None, revocationClaimedBy := None,
       revocationToken := None, revocationError := Some(reason))
  }

  // The restore quarantine revokes what is live and makes every undelivered tombstone deliverable again.
  function Rearm(g: Grant, now: Time): Grant {
    if g.consumedAt.Some? || g.revocation == RevocationDelivered then g
    else
      var state := if g.expiresAt <= now then RevocationExpired else RevocationPending;
      var available := if g.revocationAvailableAt.Some? then g.revocationAvailableAt else Some(now);
      if g.revocation != state || g.revocationAvailableAt != available || g.revocationClaimedAt.Some?
         || g.revocationClaimedBy.Some? || g.revocationToken.Some? || g.revocationSentAt.Some?
      then g.(revocation := state, revocationAvailableAt := available, revocationClaimedAt := None,
              revocationClaimedBy := None, revocationToken := None, revocationSentAt := None,
              revocationError := Some("RESTORE_QUARANTINE"))
      else g
  }

  function QuarantineGrant(g: Grant, now: Time): Grant {
    if g.consumedAt.Some? then g
    else Rearm(if g.revokedAt.None? then g.(revokedAt := Some(now)) else g, now)
  }

  // ---------- admission of a grant ----------

  predicate PreparationIsCurrent(a: Application) {
    a.approvedAt.Some? && a.preparedRevision.Some? && a.preparedRevision.value == Revision(a)
  }

  // Legacy rows may carry a revision below one.
  function Revision(a: Application): int { if a.revision < 1 then 1 else a.revision }

  predicate ReadyForPermitAt(p: FormPlan, now: Time) {
    && p.blockers == [] && p.attachmentVerified
    && p.attachedCvId == Some(p.selectedCvId) && p.attachedCvHash == Some(p.selectedCvHash)
    && p.sessionVerifiedAt.Some? && p.createdAt <= p.sessionVerifiedAt.value <= p.expiresAt
    && p.createdAt <= now < p.expiresAt && p.sessionVerifiedAt.value <= now
  }

  function CurrentPlan(appId: Id, plan: Option<FormPlan>, contract: Option<Reason>, now: Time): Result<FormPlan, Reason> {
    if plan.None? || plan.value.applicationId != appId then Err("FORM_PLAN_NOT_FOUND")
    else if plan.value.invalidatedAt.Some? then Err("FORM_CHANGED")
    else if contract.Some? then Err(contract.value)
    else if now >= plan.value.expiresAt then Err("FORM_PLAN_EXPIRED")
    else if !ReadyForPermitAt(plan.value, now) then
      Err(if !plan.value.attachmentVerified then "ATTACHMENT_UNVERIFIED" else "FORM_PLAN_BLOCKED")
    else Ok(plan.value)
  }

  // What the surroundings contribute to minting: rows of other tables, the plan contract's own verdict,
  // the hashed job URL and fresh opaque references.
  datatype MintRequest = MintRequest(
    appId: Id, application: Option<Application>, planId: string, plan: Option<FormPlan>, contract: Option<Reason>,
    urlHash: Option<string>, ref: string, remoteRef: string, release: string, ttl: int)

  // The database refuses a row that breaks its constraints, and the transaction with it.
  const ROW_REFUSED: Reason := "INTEGRITY_ERROR"

  // A command reference or a runner name as the service bounds it.
  function Stripped(s: string): string { EmployerTruth.Trim(s, EmployerTruth.IsWhitespace) }

  lemma StrippedIsTrimmed(s: string)
    ensures TrimmedLength(Stripped(s)) == |Stripped(s)|
  {
    StrippedEnds(s);
  }

  lemma {:induction false} StrippedEnds(s: string)
    ensures var r := Stripped(s); r != [] ==> !EmployerTruth.IsWhitespace(r[0]) && !EmployerTruth.IsWhitespace(r[|r| - 1])
    decreases |s|
  {
    if s != [] {
      if EmployerTruth.IsWhitespace(s[0]) {
        StrippedEnds(s[1..]);
      } else if EmployerTruth.IsWhitespace(s[|s| - 1]) {
        StrippedEnds(s[..|s| - 1]);
      }
    }
  }

  function Mint(m: MintRequest, now: Time): (r: Result<Grant, Reason>)
    ensures r.Ok? ==> Live(r.value) && Checks(r.value) && r.value.applicationId == m.appId
    ensures r.Ok? ==> r.value.issuedAt == now && r.value.expiresAt <= now + MAX_TTL
    ensures r.Ok? ==> r.value.projectionToken.None? && r.value.revocation == NoRevocation
  {
    if !(1 <= m.ttl <= MAX_TTL) then Err("REVIEW_GRANT_TTL_INVALID")
    else if !(1 <= |m.release| <= 64) then Err("RUNTIME_NOT_READY")
    else if m.application.None? then Err("APPLICATION_NOT_FOUND")
    else
      var a := m.application.value;
      if a.status != JobDraft || !PreparationIsCurrent(a) then Err("APPLICATION_REVIEW_REQUIRED")
      else
        match CurrentPlan(m.appId, m.plan, m.contract, now)
        case Err(reason) => Err(reason)
        case Ok(plan) =>
          if plan.revision != a.revision || Some(plan.selectedCvId) != a.selectedCvId
             || Some(plan.selectedCvHash) != a.selectedCvHash || plan.profileVersion != a.profileVersion
             || plan.attachedCvHash in {None, Some("")} || !plan.attachmentVerified
          then Err("FORM_CHANGED")
          else if plan.attachedCvId != Some(plan.selectedCvId) || plan.attachedCvHash != Some(plan.selectedCvHash)
          then Err("ATTACHMENT_UNVERIFIED")
          else if m.urlHash.None? then Err("JOB_URL_INVALID")
          else
            var expires := if plan.expiresAt < now + m.ttl then plan.expiresAt else now + m.ttl;
            var binding := GrantBinding(
              m.ref, m.remoteRef, m.planId, a.revision, m.urlHash.value, plan.fingerprint, plan.attachedCvHash.value,
              plan.adapterName, plan.adapterVersion, plan.selectorVersion, m.release);
            if !BindingChecks(binding) then Err(ROW_REFUSED)
            else
              Ok(Grant(
                   m.appId, binding, now, expires, None, None, None,
                   ProjectionPending, now, None, None, None, 0, None, None,
                   NoRevocation, None, None, None, None, 0, None, None))
  }

  // Revalidation of every private binding; the first failing check names the refusal.
  function Validate(g: Grant, remoteRef: string, release: string, m: MintRequest, now: Time): Option<Reason> {
    if m.application.None? then Some("APPLICATION_NOT_FOUND")
    else if g.applicationId != m.appId then Some("REVIEW_GRANT_NOT_FOUND")
    else if g.revokedAt.Some? then Some("REVIEW_GRANT_REVOKED")
    else if g.consumedAt.Some? then Some("REVIEW_GRANT_REPLAYED")
    else if g.expiresAt <= now then Some("REVIEW_GRANT_EXPIRED")
    else if g.binding.remoteRef != remoteRef then Some("REMOTE_APPLICATION_CHANGED")
    else if g.binding.release != release then Some("BUILD_MISMATCH")
    else
      var a := m.application.value;
      if a.status != JobDraft || !PreparationIsCurrent(a) then Some("APPLICATION_REVIEW_REQUIRED")
      else
        match CurrentPlan(m.appId, m.plan, m.contract, now)
        case Err(reason) => Some(reason)
        case Ok(plan) =>
          if m.urlHash.None? then Some("JOB_URL_INVALID")
          else if g.binding.revision != a.revision || g.binding.revision != plan.revision then Some("APPLICATION_REVISION_CHANGED")
          else if Some(g.binding.urlHash) != m.urlHash then Some("JOB_URL_CHANGED")
          else if g.binding.fingerprint != plan.fingerprint then Some("FORM_CHANGED")
          else if Some(g.binding.cvHash) != a.selectedCvHash || g.binding.cvHash != plan.selectedCvHash then Some("CV_SELECTION_CHANGED")
          else if Some(g.binding.cvHash) != plan.attachedCvHash then Some("ATTACHMENT_CHANGED")
          else if g.binding.adapterName != plan.adapterName || g.binding.adapterVersion != plan.adapterVersion then Some("ADAPTER_VERSION_CHANGED")
          else if g.binding.selectorVersion != plan.selectorVersion then Some("SELECTOR_DRIFT")
          else if !plan.attachmentVerified || plan.attachedCvId != Some(plan.selectedCvId) then Some("ATTACHMENT_UNVERIFIED")
          else None
  }

  /** A grant minted from the current rows is accepted until it expires, as long as those rows stand. */
  lemma MintedGrantValidates(m: MintRequest, minted: Time, now: Time)
    requires Mint(m, minted).Ok? && minted <= now < Mint(m, minted).value.expiresAt
    ensures Validate(Mint(m, minted).value, m.remoteRef, m.release, m, now) == None
  {
  }

  // ---------- the machine ----------

  // The grant table, the last time any step saw, and every claim token ever handed out.
  datatype Outbox = Outbox(grants: map<Id, Grant>, clock: Time, tokens: set<string>)

  datatype Event =
    | Minted(id: Id, request: MintRequest)
    | Consumed(id: Id, request: MintRequest, remoteRef: string, release: string, command: string)
    | ProjectionClaim(runner: string, token: string, swept: set<Id>)
    | ProjectionMark(id: Id, token: string)
    | ProjectionRelease(id: Id, token: string, reason: Reason)
    | RevocationClaim(runner: string, token: string, swept: set<Id>, lapsed: set<Id>)
    | RevocationMark(id: Id, token: string)
    | RevocationRelease(id: Id, token: string, reason: Reason)
    | Quarantined

  // What a step may rely on: time does not run backwards, new rows and tokens are fresh, and a sweep
  // touches at most the limit of rows that its query selects.
  ghost predicate Enabled(o: Outbox, e: Event, now: Time) {
    o.clock <= now
    && match e
       case Minted(id, _) => id !in o.grants
       case ProjectionClaim(_, token, swept) =>
         && token !in o.tokens && |swept| <= SWEEP_LIMIT
         && forall i :: i in swept ==> i in o.grants && ProjectionStale(o.grants[i], now)
       case RevocationClaim(_, token, swept, lapsed) =>
         && token !in o.tokens && |swept| <= SWEEP_LIMIT && |lapsed| <= SWEEP_LIMIT
         && (forall i :: i in swept ==> i in o.grants && RevocationStale(o.grants[i], now))
         && var reclaimed := SweepRevocations(o.grants, swept, now);
            forall i :: i in lapsed ==> i in reclaimed && RevocationLapsed(reclaimed[i], now)
       case _ => true
  }

  ghost function Supersede(grants: map<Id, Grant>, app: Id, now: Time): map<Id, Grant> {
    map i | i in grants :: if grants[i].applicationId == app && Live(grants[i]) then Revoke(grants[i], now) else grants[i]
  }

  ghost function SweepProjections(grants: map<Id, Grant>, swept: set<Id>, now: Time): map<Id, Grant> {
    map i | i in grants :: if i in swept then ReclaimProjection(grants[i], now) else grants[i]
  }

  ghost function SweepRevocations(grants: map<Id, Grant>, swept: set<Id>, now: Time): map<Id, Grant> {
    map i | i in grants :: if i in swept then ReclaimRevocation(grants[i], now) else grants[i]
  }

  ghost function ExpireLapsed(grants: map<Id, Grant>, lapsed: set<Id>): map<Id, Grant> {
    map i | i in grants :: if i in lapsed then ExpireRevocation(grants[i]) else grants[i]
  }

  function QuarantineGrants(grants: map<Id, Grant>, now: Time): map<Id, Grant> {
    map i | i in grants :: QuarantineGrant(grants[i], now)
  }

  // The due row with the earliest availability, ties broken by identifier.
  ghost predicate FirstProjection(grants: map<Id, Grant>, i: Id, now: Time) {
    && i in grants && ProjectionDue(grants[i], now)
    && forall j :: j in grants && ProjectionDue(grants[j], now) ==>
         grants[i].projectionAvailableAt < grants[j].projectionAvailableAt
         || (grants[i].projectionAvailableAt == grants[j].projectionAvailableAt && i <= j)
  }

  ghost predicate FirstRevocation(grants: map<Id, Grant>, i: Id, now: Time) {
    && i in grants && RevocationDue(grants[i], now)
    && forall j :: j in grants && RevocationDue(grants[j], now) ==>
         grants[i].revocationAvailableAt.value < grants[j].revocationAvailableAt.value
         || (grants[i].revocationAvailableAt.value == grants[j].revocationAvailableAt.value && i <= j)
  }

  // The table after a projection claim, and the row claimed if any.
  predicate ValidRunner(runner: string) { 1 <= |Stripped(runner)| <= 64 }

  ghost predicate ProjectionClaimed'(
    before: map<Id, Grant>, after: map<Id, Grant>, runner: string, token: string, swept: set<Id>, now: Time, claimed: Option<Id>)
  {
    if !ValidRunner(runner) || exists i :: i in before && TombstoneOwed(before[i], now) then
      after == before && claimed.None?
    else
      var ready := SweepProjections(before, swept, now);
      match claimed
      case None => after == ready && forall i :: i in ready ==> !ProjectionDue(ready[i], now)
      case Some(i) => FirstProjection(ready, i, now) && after == ready[i := ClaimProjection(ready[i], Stripped(runner), token, now)]
  }

  ghost predicate RevocationClaimed'(
    before: map<Id, Grant>, after: map<Id, Grant>, runner: string, token: string, swept: set<Id>, lapsed: set<Id>, now: Time,
    claimed: Option<Id>)
  {
    var ready := ExpireLapsed(SweepRevocations(before, swept, now), lapsed);
    if !ValidRunner(runner) then after == before && claimed.None?
    else
    match claimed
    case None => after == ready && forall i :: i in ready ==> !RevocationDue(ready[i], now)
    case Some(i) => FirstRevocation(ready, i, now) && after == ready[i := ClaimRevocation(ready[i], Stripped(runner), token, now)]
  }

  // One committed transaction. Refused operations leave the table as it was.
  ghost predicate Step(o: Outbox, e: Event, now: Time, o': Outbox, claimed: Option<Id>) {
    && Enabled(o, e, now) && o'.clock == now
    && (e.ProjectionClaim? || e.RevocationClaim? || claimed.None?)
    && o'.tokens == (if claimed.Some? then o.tokens + {e.token} else o.tokens)
    && match e
       case Minted(id, request) =>
         o'.grants == (match Mint(request, now)
                       case Err(_) => o.grants
                       case Ok(g) => Supersede(o.grants, request.appId, now)[id := g])
       case Consumed(id, request, remoteRef, release, command) =>
         o'.grants == (if id in o.grants && Validate(o.grants[id], remoteRef, release, request, now).None?
                          && 16 <= |Stripped(command)| <= 64
                       then o.grants[id := Consume(o.grants[id], Stripped(command), now)] else o.grants)
       case ProjectionClaim(runner, token, swept) =>
         ProjectionClaimed'(o.grants, o'.grants, runner, token, swept, now, claimed)
       case ProjectionMark(id, token) =>
         o'.grants == (if id in o.grants && HoldsProjection(o.grants[id], token)
                       then o.grants[id := MarkProjected(o.grants[id], now)] else o.grants)
       case ProjectionRelease(id, token, reason) =>
         o'.grants == (if id in o.grants && HoldsProjection(o.grants[id], token)
                       then o.grants[id := ReleaseProjection(o.grants[id], reason, now)] else o.grants)
       case RevocationClaim(runner, token, swept, lapsed) =>
         RevocationClaimed'(o.grants, o'.grants, runner, token, swept, lapsed, now, claimed)
       case RevocationMark(id, token) =>
         o'.grants == (if id in o.grants && HoldsRevocation(o.grants[id], token)
                       then o.grants[id := MarkDelivered(o.grants[id], now)] else o.grants)
       case RevocationRelease(id, token, reason) =>
         o'.grants == (if id in o.grants && HoldsRevocation(o.grants[id], token)
                       then o.grants[id := ReleaseRevocation(o.grants[id], reason, now)] else o.grants)
       case Quarantined => o'.grants == QuarantineGrants(o.grants, now)
  }

  // ---------- what every step keeps ----------

  ghost predicate RowOk(g: Grant, clock: Time) {
    && Checks(g)
    && !(g.revokedAt.Some? && g.consumedAt.Some?)
    && (g.revokedAt.Some? <==> g.revocation != NoRevocation)
    && (g.revocation == RevocationExpired ==> g.expiresAt <= clock)
  }

  ghost predicate OneLive(grants: map<Id, Grant>) {
    forall i, j ::
      i in grants && j in grants && Live(grants[i]) && Live(grants[j]) && grants[i].applicationId == grants[j].applicationId
      ==> i == j
  }

  predicate RowHolds(g: Grant, token: string) {
    g.projectionToken == Some(token) || g.revocationToken == Some(token)
  }

  ghost predicate Holds(grants: map<Id, Grant>, token: string) {
    exists i :: i in grants && RowHolds(grants[i], token)
  }

  ghost predicate Consistent(o: Outbox) {
    && (forall i :: i in o.grants ==> RowOk(o.grants[i], o.clock))
    && OneLive(o.grants)
    && forall token :: Holds(o.grants, token) ==> token in o.tokens
  }

  // A grant that was spent stays spent by the same command at the same time.
  predicate KeepsConsumption(g: Grant, g': Grant) {
    g.consumedAt.Some? ==> g'.consumedAt == g.consumedAt && g'.consumedCommand == g.consumedCommand
  }

  // Row by row: every step maps each old row to a row that is still well-formed, revives nothing that was
  // consumed or revoked, and carries no token except its old ones or the one just handed out.
  ghost predicate RowStep(g: Grant, g': Grant, now: Time, fresh': Option<string>) {
    && RowOk(g', now)
    && g'.applicationId == g.applicationId && g'.expiresAt == g.expiresAt
    && (Live(g') ==> Live(g)) && KeepsConsumption(g, g')
    && (g'.projectionToken in {None, g.projectionToken} || g'.projectionToken == fresh')
    && (g'.revocationToken in {None, g.revocationToken} || g'.revocationToken == fresh')
  }

  lemma RowUpdates(g: Grant, clock: Time, now: Time)
    requires RowOk(g, clock) && clock <= now
    ensures RowStep(g, g, now, None)
    ensures Live(g) ==> RowStep(g, Revoke(g, now), now, None) && !Live(Revoke(g, now))
    ensures ProjectionStale(g, now) ==> RowStep(g, ReclaimProjection(g, now), now, None)
    ensures RevocationStale(g, now) ==> RowStep(g, ReclaimRevocation(g, now), now, None)
    ensures RevocationLapsed(g, now) ==> RowStep(g, ExpireRevocation(g), now, None)
    ensures RowStep(g, QuarantineGrant(g, now), now, None)
  {
    hide BindingChecks, ConsumptionChecks;
    assert Revoke(g, now).binding == g.binding && ReclaimProjection(g, now).binding == g.binding && QuarantineGrant(g, now).binding == g.binding;
    SameConsumption(g, Revoke(g, now));
    SameConsumption(g, ReclaimProjection(g, now));
    SameConsumption(g, ReclaimRevocation(g, now));
    SameConsumption(g, ExpireRevocation(g));
    SameConsumption(g, QuarantineGrant(g, now));
  }

  lemma SameConsumption(g: Grant, g': Grant)
    requires g'.consumedAt == g.consumedAt && g'.consumedCommand == g.consumedCommand
    ensures ConsumptionChecks(g') == ConsumptionChecks(g)
  {
    hide TrimmedLength;
  }

  lemma RowClaims(g: Grant, now: Time, runner: string, token: string, reason: Reason)
    requires RowOk(g, now)
    ensures ProjectionDue(g, now) ==> RowStep(g, ClaimProjection(g, runner, token, now), now, Some(token))
    ensures RevocationDue(g, now) ==> RowStep(g, ClaimRevocation(g, runner, token, now), now, Some(token))
    ensures HoldsProjection(g, token) ==> RowStep(g, MarkProjected(g, now), now, None)
    ensures HoldsProjection(g, token) ==> RowStep(g, ReleaseProjection(g, reason, now), now, None)
    ensures HoldsRevocation(g, token) ==> RowStep(g, MarkDelivered(g, now), now, None)
    ensures HoldsRevocation(g, token) ==> RowStep(g, ReleaseRevocation(g, reason, now), now, None)
  {
    hide BindingChecks, TrimmedLength;
  }

  lemma RowConsumed(g: Grant, request: MintRequest, remoteRef: string, release: string, command: string, now: Time)
    requires RowOk(g, now) && Validate(g, remoteRef, release, request, now).None?
    requires 16 <= |Stripped(command)| <= 64
    ensures RowStep(g, Consume(g, Stripped(command), now), now, None) && !Live(Consume(g, Stripped(command), now))
  {
    StrippedIsTrimmed(command);
    hide BindingChecks, TrimmedLength, Stripped;
  }

  // A whole-table step given row by row.
  ghost predicate TableStep(before: map<Id, Grant>, after: map<Id, Grant>, now: Time, fresh': Option<string>) {
    before.Keys == after.Keys && forall i :: i in before ==> RowStep(before[i], after[i], now, fresh')
  }

  lemma TableStepsCompose(a: map<Id, Grant>, b: map<Id, Grant>, c: map<Id, Grant>, now: Time, fresh': Option<string>)
    requires TableStep(a, b, now, None) && TableStep(b, c, now, fresh')
    ensures TableStep(a, c, now, fresh')
  {
  }

  lemma UnchangedTable(grants: map<Id, Grant>, clock: Time, now: Time)
    requires clock <= now && forall i :: i in grants ==> RowOk(grants[i], clock)
    ensures TableStep(grants, grants, now, None)
  {
    forall i | i in grants ensures RowStep(grants[i], grants[i], now, None) { RowUpdates(grants[i], clock, now); }
  }

  lemma OneRowChanged(grants: map<Id, Grant>, i: Id, g: Grant, now: Time, fresh': Option<string>)
    requires forall j :: j in grants ==> RowOk(grants[j], now)
    requires i in grants && RowStep(grants[i], g, now, fresh')
    ensures TableStep(grants, grants[i := g], now, fresh')
  {
    UnchangedTable(grants, now, now);
  }

  lemma SweptProjections(grants: map<Id, Grant>, swept: set<Id>, clock: Time, now: Time)
    requires clock <= now && forall i :: i in grants ==> RowOk(grants[i], clock)
    requires forall i :: i in swept ==> i in grants && ProjectionStale(grants[i], now)
    ensures TableStep(grants, SweepProjections(grants, swept, now), now, None)
  {
    forall i | i in grants { RowUpdates(grants[i], clock, now); }
  }

  lemma SweptRevocations(grants: map<Id, Grant>, swept: set<Id>, lapsed: set<Id>, clock: Time, now: Time)
    requires clock <= now && forall i :: i in grants ==> RowOk(grants[i], clock)
    requires forall i :: i in swept ==> i in grants && RevocationStale(grants[i], now)
    requires var reclaimed := SweepRevocations(grants, swept, now);
      forall i :: i in lapsed ==> i in reclaimed && RevocationLapsed(reclaimed[i], now)
    ensures TableStep(grants, ExpireLapsed(SweepRevocations(grants, swept, now), lapsed), now, None)
  {
    hide RowStep, RowOk;
    var reclaimed := SweepRevocations(grants, swept, now);
    forall i | i in grants { RowUpdates(grants[i], clock, now); }
    assert TableStep(grants, reclaimed, now, None);
    TableRows(grants, reclaimed, now);
    forall i | i in reclaimed { RowUpdates(reclaimed[i], now, now); }
    TableStepsCompose(grants, reclaimed, ExpireLapsed(reclaimed, lapsed), now, None);
  }

  // Every step but minting changes the table row by row.
  lemma StepIsRowWise(o: Outbox, e: Event, now: Time, o': Outbox, claimed: Option<Id>)
    requires Consistent(o) && Step(o, e, now, o', claimed) && !e.Minted?
    ensures TableStep(o.grants, o'.grants, now, if claimed.Some? then Some(e.token) else None)
  {
    hide Validate, RowStep, RowOk, Mint, OneLive, Holds, Stripped;
    UnchangedTable(o.grants, o.clock, now);
    assert forall i :: i in o.grants ==> RowOk(o.grants[i], now) by { LaterRows(o.grants, o.clock, now); }
    match e
    case Consumed(id, request, remoteRef, release, command) =>
      if o'.grants != o.grants {
        RowConsumed(o.grants[id], request, remoteRef, release, command, now);
        OneRowChanged(o.grants, id, Consume(o.grants[id], Stripped(command), now), now, None);
      }
    case ProjectionClaim(runner, token, swept) =>
      var ready := SweepProjections(o.grants, swept, now);
      SweptProjections(o.grants, swept, o.clock, now);
      if claimed.Some? {
        TableRows(o.grants, ready, now);
        RowClaims(ready[claimed.value], now, Stripped(runner), token, "");
        OneRowChanged(ready, claimed.value, ClaimProjection(ready[claimed.value], Stripped(runner), token, now), now, Some(token));
        TableStepsCompose(o.grants, ready, o'.grants, now, Some(token));
      }
    case ProjectionMark(id, token) =>
      if o'.grants != o.grants {
        RowClaims(o.grants[id], now, "", token, "");
        OneRowChanged(o.grants, id, MarkProjected(o.grants[id], now), now, None);
      }
    case ProjectionRelease(id, token, reason) =>
      if o'.grants != o.grants {
        RowClaims(o.grants[id], now, "", token, reason);
        OneRowChanged(o.grants, id, ReleaseProjection(o.grants[id], reason, now), now, None);
      }
    case RevocationClaim(runner, token, swept, lapsed) =>
      var ready := ExpireLapsed(SweepRevocations(o.grants, swept, now), lapsed);
      SweptRevocations(o.grants, swept, lapsed, o.clock, now);
      if claimed.Some? {
        TableRows(o.grants, ready, now);
        RowClaims(ready[claimed.value], now, Stripped(runner), token, "");
        OneRowChanged(ready, claimed.value, ClaimRevocation(ready[claimed.value], Stripped(runner), token, now), now, Some(token));
        TableStepsCompose(o.grants, ready, o'.grants, now, Some(token));
      }
    case RevocationMark(id, token) =>
      if o'.grants != o.grants {
        RowClaims(o.grants[id], now, "", token, "");
        OneRowChanged(o.grants, id, MarkDelivered(o.grants[id], now), now, None);
      }
    case RevocationRelease(id, token, reason) =>
      if o'.grants != o.grants {
        RowClaims(o.grants[id], now, "", token, reason);
        OneRowChanged(o.grants, id, ReleaseRevocation(o.grants[id], reason, now), now, None);
      }
    case Quarantined =>
      forall i | i in o.grants ensures RowStep(o.grants[i], o'.grants[i], now, None) { RowUpdates(o.grants[i], o.clock, now); }
  }

  lemma LaterRows(grants: map<Id, Grant>, clock: Time, now: Time)
    requires clock <= now && forall i :: i in grants ==> RowOk(grants[i], clock)
    ensures forall i :: i in grants ==> RowOk(grants[i], now)
  {
  }

  lemma TableRows(a: map<Id, Grant>, b: map<Id, Grant>, now: Time)
    requires TableStep(a, b, now, None)
    ensures forall i :: i in b ==> RowOk(b[i], now)
  {
  }

  lemma TableStepTokens(before: map<Id, Grant>, after: map<Id, Grant>, now: Time, fresh': Option<string>, token: string)
    requires TableStep(before, after, now, fresh') && Some(token) != fresh'
    ensures Holds(after, token) ==> Holds(before, token)
  {
    hide RowOk, Live;
    if i :| i in after && RowHolds(after[i], token) {
      assert RowStep(before[i], after[i], now, fresh');
      assert RowHolds(before[i], token);
    }
  }

  lemma TableStepLive(before: map<Id, Grant>, after: map<Id, Grant>, now: Time, fresh': Option<string>)
    requires TableStep(before, after, now, fresh') && OneLive(before)
    ensures OneLive(after)
  {
    hide RowOk;
    forall i, j | i in after && j in after && Live(after[i]) && Live(after[j]) && after[i].applicationId == after[j].applicationId
      ensures i == j
    {
      assert RowStep(before[i], after[i], now, fresh') && RowStep(before[j], after[j], now, fresh');
    }
  }

  lemma TableStepKeepsOk(o: Outbox, o': Outbox, now: Time, fresh': Option<string>)
    requires Consistent(o) && TableStep(o.grants, o'.grants, now, fresh') && o'.clock == now
    requires o'.tokens == o.tokens + (if fresh'.Some? then {fresh'.value} else {})
    ensures Consistent(o')
  {
    hide Live;
    TableStepLive(o.grants, o'.grants, now, fresh');
    forall token | Holds(o'.grants, token) ensures token in o'.tokens {
      if Some(token) != fresh' { TableStepTokens(o.grants, o'.grants, now, fresh', token); }
    }
  }

  lemma Superseded(grants: map<Id, Grant>, app: Id, clock: Time, now: Time)
    requires clock <= now && forall i :: i in grants ==> RowOk(grants[i], clock)
    ensures var after := Supersede(grants, app, now);
      TableStep(grants, after, now, None) && forall i :: i in after && after[i].applicationId == app ==> !Live(after[i])
  {
    forall i | i in grants { RowUpdates(grants[i], clock, now); }
  }

  lemma MintKeepsOk(o: Outbox, id: Id, request: MintRequest, now: Time, o': Outbox)
    requires Consistent(o) && Step(o, Minted(id, request), now, o', None)
    ensures Consistent(o')
    ensures forall token :: Holds(o'.grants, token) ==> Holds(o.grants, token)
  {
    hide Mint, RowStep, BindingChecks, ConsumptionChecks, ProjectionChecks;
    if Mint(request, now).Err? {
      UnchangedTable(o.grants, o.clock, now);
      TableStepKeepsOk(o, o', now, None);
    } else {
      var g := Mint(request, now).value;
      var after := Supersede(o.grants, request.appId, now);
      Superseded(o.grants, request.appId, o.clock, now);
      TableStepKeepsOk(o, Outbox(after, now, o.tokens), now, None);
      forall token | Holds(o'.grants, token) ensures Holds(o.grants, token) {
        var i :| i in o'.grants && RowHolds(o'.grants[i], token);
        assert i != id && i in after && RowHolds(after[i], token);
        TableStepTokens(o.grants, after, now, None, token);
      }
      assert OneLive(after[id := g]);
      assert RowOk(g, now);
    }
  }

  lemma StepKeepsOk(o: Outbox, e: Event, now: Time, o': Outbox, claimed: Option<Id>)
    requires Consistent(o) && Step(o, e, now, o', claimed)
    ensures Consistent(o')
  {
    if e.Minted? {
      MintKeepsOk(o, e.id, e.request, now, o');
    } else {
      StepIsRowWise(o, e, now, o', claimed);
      TableStepKeepsOk(o, o', now, if claimed.Some? then Some(e.token) else None);
    }
  }

  // ---------- runs ----------

  datatype Moment = Moment(event: Event, now: Time, claimed: Option<Id>)

  ghost predicate IsRun(states: seq<Outbox>, moments: seq<Moment>) {
    |states| == |moments| + 1
    && forall k :: 0 <= k < |moments| ==>
         Step(states[k], moments[k].event, moments[k].now, states[k + 1], moments[k].claimed)
  }

  lemma {:induction false} RunKeepsOk(states: seq<Outbox>, moments: seq<Moment>, k: nat)
    requires IsRun(states, moments) && Consistent(states[0]) && k < |states|
    ensures Consistent(states[k])
  {
    hide Step, Consistent;
    if k > 0 {
      RunKeepsOk(states, moments, k - 1);
      StepKeepsOk(states[k - 1], moments[k - 1].event, moments[k - 1].now, states[k], moments[k - 1].claimed);
    }
  }

  /** Whenever any run hands out a projection claim, every other grant of that application has been
      consumed, has its tombstone delivered, or has expired. */
  lemma ProjectionWaitsForTombstones(states: seq<Outbox>, moments: seq<Moment>, k: nat)
    requires IsRun(states, moments) && Consistent(states[0]) && k < |moments|
    requires moments[k].event.ProjectionClaim? && moments[k].claimed.Some?
    ensures var grants, claimed := states[k].grants, moments[k].claimed.value;
      && claimed in grants
      && forall other ::
           other in grants && other != claimed && grants[other].applicationId == grants[claimed].applicationId ==>
             grants[other].consumedAt.Some? || grants[other].revocation == RevocationDelivered
             || grants[other].expiresAt <= moments[k].now
  {
    hide Consistent;
    RunKeepsOk(states, moments, k);
    var e := moments[k].event;
    ClaimWaits(states[k], e.runner, e.token, e.swept, moments[k].now, states[k + 1], moments[k].claimed.value);
  }

  lemma ClaimWaits(o: Outbox, runner: string, token: string, swept: set<Id>, now: Time, o': Outbox, i: Id)
    requires Consistent(o) && Step(o, ProjectionClaim(runner, token, swept), now, o', Some(i))
    ensures i in o.grants
    ensures forall other ::
      other in o.grants && other != i && o.grants[other].applicationId == o.grants[i].applicationId ==>
        o.grants[other].consumedAt.Some? || o.grants[other].revocation == RevocationDelivered || o.grants[other].expiresAt <= now
  {
    hide BindingChecks, ConsumptionChecks, Stripped;
    var ready := SweepProjections(o.grants, swept, now);
    assert FirstProjection(ready, i, now);
    assert Live(o.grants[i]);
    forall other | other in o.grants && other != i && o.grants[other].applicationId == o.grants[i].applicationId
      ensures o.grants[other].consumedAt.Some? || o.grants[other].revocation == RevocationDelivered || o.grants[other].expiresAt <= now
    {
      assert RowOk(o.grants[other], o.clock) && !TombstoneOwed(o.grants[other], now);
    }
  }

  // A token that no row holds any more is never held again.
  lemma LostTokenStaysLost(o: Outbox, e: Event, now: Time, o': Outbox, claimed: Option<Id>, token: string)
    requires Consistent(o) && Step(o, e, now, o', claimed)
    requires token in o.tokens && !Holds(o.grants, token)
    ensures token in o'.tokens && !Holds(o'.grants, token)
  {
    hide Mint, RowStep, Validate, Holds;
    if e.Minted? {
      MintKeepsOk(o, e.id, e.request, now, o');
    } else {
      StepIsRowWise(o, e, now, o', claimed);
      TableStepTokens(o.grants, o'.grants, now, if claimed.Some? then Some(e.token) else None, token);
    }
  }

  // Finishing or returning a delivery with a token no row holds changes nothing.
  lemma LostTokenChangesNothing(o: Outbox, e: Event, now: Time, o': Outbox, claimed: Option<Id>, token: string)
    requires Step(o, e, now, o', claimed) && UsesToken(e, token) && !Holds(o.grants, token)
    ensures o'.grants == o.grants
  {
    if e.id in o.grants { assert !RowHolds(o.grants[e.id], token); }
  }

  /** Once a lease is reclaimed its token has no power in any later state: marking and releasing with it,
      on either machine and for any grant, change nothing. */
  lemma {:induction false} StaleTokensArePowerless(states: seq<Outbox>, moments: seq<Moment>, i: nat, j: nat, token: string)
    requires IsRun(states, moments) && Consistent(states[0]) && i <= j < |states|
    requires token in states[i].tokens && !Holds(states[i].grants, token)
    ensures token in states[j].tokens && !Holds(states[j].grants, token)
    ensures j < |moments| && UsesToken(moments[j].event, token) ==> states[j + 1].grants == states[j].grants
    decreases j
  {
    hide Step, Consistent, Holds, UsesToken;
    RunKeepsOk(states, moments, j);
    if i < j {
      RunKeepsOk(states, moments, j - 1);
      StaleTokensArePowerless(states, moments, i, j - 1, token);
      LostTokenStaysLost(states[j - 1], moments[j - 1].event, moments[j - 1].now, states[j], moments[j - 1].claimed, token);
    }
    if j < |moments| && UsesToken(moments[j].event, token) {
      LostTokenChangesNothing(states[j], moments[j].event, moments[j].now, states[j + 1], moments[j].claimed, token);
    }
  }

  // An attempt to finish or return a delivery with the given token.
  predicate UsesToken(e: Event, token: string) {
    (e.ProjectionMark? || e.ProjectionRelease? || e.RevocationMark? || e.RevocationRelease?) && e.token == token
  }
}
