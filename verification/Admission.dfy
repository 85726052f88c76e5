/** Admission of a final-submit command: idempotent replay, eligibility, plan and authority checks, and the attempt,
    permit and command rows written together. */
module Admission {
  import opened Wrappers
  import opened Records
  import opened ReviewGrants
  import opened Database
  import CanaryChain

  datatype Request = Request(
    appId: Id, key: string, revision: int, planId: string, authorityExpiresAt: Option<Time>, authority: AuthorityKind,
    decisionId: Option<Id>, canaryId: Option<Id>)

  // What the process, the adapter registry, the browser profile and the signing layer contribute. Each optional
  // reason is the refusal that layer would raise.
  datatype Surroundings = Surroundings(
    clientRelease: Option<Reason>, material: Option<Reason>, profile: Option<Reason>, runtime: Result<string, Reason>,
    model: Option<Reason>, decision: Option<Reason>, site: CanaryChain.Site, descriptor: Option<CanaryChain.Descriptor>,
    sessionReady: bool, urlHash: Option<string>, permitTtl: int)

  datatype Created = Created(attempt: AttemptId, command: Id, replayed: bool)

  // ---------- replay ----------

  // The stored attempt is bound to exactly what the request asks for.
  predicate SameBindings(db: Db, id: AttemptId, r: Request) {
    id in db.attempts
    && var b := db.attempts[id].binding;
       && id.app == r.appId && b.revision == r.revision
       && b.planId == Some(r.planId) && r.planId in db.plans
       && b.authority == r.authority && b.decisionId == r.decisionId && b.canaryId == r.canaryId
  }

  function FindReplay(db: Db, r: Request): Result<Option<Created>, Reason> {
    if r.key !in db.commands then Ok(None)
    else
      var c := db.commands[r.key];
      if !SameBindings(db, c.attempt, r) then Err("IDEMPOTENCY_KEY_CONFLICT")
      else Ok(Some(Created(c.attempt, c.id, true)))
  }

  // ---------- read-only checks ----------

  function Ineligible(db: Db, app: Application, r: Request): Option<Reason> {
    if r.revision != app.revision then Some("APPLICATION_REVISION_CHANGED")
    else if app.status != JobDraft then Some("APPLICATION_NOT_ELIGIBLE")
    else if !PreparationIsCurrent(app) then Some("APPLICATION_REVIEW_REQUIRED")
    else if HasImmutableAttempt(db, r.appId) then Some("APPLICATION_NOT_ELIGIBLE")
    else
      var last := AttemptId(r.appId, LastNumber(db.attempts, r.appId));
      if last in db.attempts && db.attempts[last].stage == Finished
         && db.attempts[last].outcome !in {Some(FailedBeforeCommit), Some(DraftOnly)}
      then Some("APPLICATION_NOT_ELIGIBLE")
      else if last in db.attempts && db.attempts[last].stage == Finished && app.approvalSource != Some("retry_prepare")
      then Some("RETRY_PREPARATION_REQUIRED")
      else if HasUnfinishedAttempt(db, r.appId) then Some("SUBMISSION_ALREADY_ACTIVE")
      else None
  }

  predicate Blank(s: Option<string>) { s in {None, Some("")} }

  function InvalidPlan(app: Application, plan: Option<FormPlan>, r: Request, s: Surroundings, now: Time): Option<Reason> {
    if plan.None? || plan.value.applicationId != r.appId then Some("FORM_PLAN_NOT_FOUND")
    else
      var p := plan.value;
      if p.invalidatedAt.Some? then Some("FORM_CHANGED")
      else if p.profileVersion.None? || p.profileVersion.value < 1 then Some("PROFILE_VERSION_CHANGED")
      else if p.sessionVerifiedAt.None? then Some("SESSION_EXPIRED")
      else if Blank(p.attachedCvId) || Blank(p.attachedCvHash) || !p.attachmentVerified then Some("ATTACHMENT_UNVERIFIED")
      else if s.material.Some? then s.material
      else if Blank(app.selectedCvHash) || app.selectedCvHash != Some(p.selectedCvHash) then Some("ATTACHMENT_CHANGED")
      else if r.authorityExpiresAt.Some? && r.authorityExpiresAt.value <= now then Some("COMMAND_EXPIRED")
      else if now >= p.expiresAt then Some("FORM_PLAN_EXPIRED")
      else if p.createdAt > now then Some("FORM_PLAN_BLOCKED")
      else if p.sessionVerifiedAt.value > now then Some("SESSION_EXPIRED")
      else if p.revision != r.revision || p.revision != app.revision then Some("APPLICATION_REVISION_CHANGED")
      else if app.selectedCvId != Some(p.selectedCvId) then Some("CV_SELECTION_CHANGED")
      else if app.profileVersion != p.profileVersion then Some("PROFILE_VERSION_CHANGED")
      else if p.blockers != [] then Some("FORM_PLAN_BLOCKED")
      else if !(p.createdAt <= p.sessionVerifiedAt.value <= p.expiresAt) then Some("SESSION_EXPIRED")
      else if !ReadyForPermitAt(p, now) then Some("ATTACHMENT_UNVERIFIED")
      else None
  }

  function Earlier(x: Option<Time>, y: Option<Time>): Option<Time> {
    if x.None? then y else if y.None? then x else if x.value < y.value then x else y
  }

  // The authority rows behind the request and the deadline they impose.
  datatype Authority = Authority(decision: Option<PolicyDecision>, canary: Option<Canary>, notAfter: Option<Time>)

  function ResolveAuthority(db: Db, app: Application, plan: FormPlan, r: Request, s: Surroundings, release: string, now: Time)
    : Result<Authority, Reason>
  {
    if r.authority == Legacy then Err("SUBMISSION_AUTHORITY_INVALID")
    else if r.authority == QualificationCanary then
      if r.decisionId.Some? || r.canaryId.None? then Err("SUBMISSION_AUTHORITY_INVALID")
      else if r.canaryId.value !in db.canaries then Err("CANARY_AUTHORIZATION_REQUIRED")
      else
        var c := db.canaries[r.canaryId.value];
        var refusal := CanaryChain.Validate(db, r.canaryId.value, c.digest, false, r.appId, app, r.planId, plan, s.site, release, now);
        if refusal.Some? then Err(refusal.value)
        else Ok(Authority(None, Some(c), Earlier(Some(c.content.expiresAt), r.authorityExpiresAt)))
    else if r.canaryId.Some? then Err("SUBMISSION_AUTHORITY_INVALID")
    else if r.authority != QualifiedAutopilot then
      if r.decisionId.Some? then Err("SUBMISSION_AUTHORITY_INVALID") else Ok(Authority(None, None, r.authorityExpiresAt))
    else if r.decisionId.None? then Err("AUTOMATION_DECISION_REQUIRED")
    else if r.decisionId.value !in db.decisions then Err("AUTOMATION_DECISION_REQUIRED")
    else if s.decision.Some? then Err(s.decision.value)
    else
      var d := db.decisions[r.decisionId.value];
      if d.applicationId != r.appId || d.revision != app.revision || d.planId != r.planId then Err("AUTOMATION_DECISION_BINDING_MISMATCH")
      else if d.expiresAt.None? then Err("AUTOMATION_AUTHORITY_EXPIRED")
      else Ok(Authority(Some(d), None, Earlier(d.expiresAt, r.authorityExpiresAt)))
  }

  function InvalidAdapter(d: Option<CanaryChain.Descriptor>, p: FormPlan): Option<Reason> {
    if d.None? then Some("ADAPTER_NOT_QUALIFIED")
    else if d.value.platform != p.adapterName || d.value.adapterVersion != p.adapterVersion
            || d.value.selectorVersion != p.selectorVersion then Some("ADAPTER_VERSION_CHANGED")
    else if !(d.value.live && d.value.contractVersion == Some(CanaryChain.TWO_PHASE) && d.value.formScope != {})
    then Some("ADAPTER_NOT_QUALIFIED")
    else if p.fingerprint == "" || p.fingerprint !in d.value.formScope then Some("FORM_CHANGED")
    else None
  }

  // ---------- the permit ----------

  function PermitExpiry(p: FormPlan, ttl: int, now: Time, notAfter: Option<Time>): int {
    var byTtl := now + (if ttl < 1 then 1 else ttl);
    var expires := if p.expiresAt < byTtl then p.expiresAt else byTtl;
    if notAfter.Some? && notAfter.value < expires then notAfter.value else expires
  }

  function OrEmpty(s: Option<string>): string { if s.Some? then s.value else "" }

  function IssuePermit(b: Binding, p: FormPlan, urlHash: string, ttl: int, now: Time, notAfter: Option<Time>)
    : (r: Result<Permit, Reason>)
    ensures r.Ok? ==> r.value.consumedAt.None? && now < r.value.expiresAt == PermitExpiry(p, ttl, now, notAfter)
  {
    if !p.attachmentVerified || Blank(p.attachedCvHash) then Err("ATTACHMENT_UNVERIFIED")
    else
      var expires := PermitExpiry(p, ttl, now, notAfter);
      if expires <= now then Err("SUBMIT_PERMIT_EXPIRED")
      else Ok(Permit(
        urlHash, b.revision, if Blank(b.adapterName) then b.submitterName else b.adapterName.value, OrEmpty(b.adapterVersion),
        OrEmpty(b.selectorVersion), OrEmpty(b.fingerprint), OrEmpty(b.attachedCvHash), b.authority, b.decisionDigest,
        b.canaryDigest, now, expires, None))
  }

  // Absent and empty text compare equal, as the binding comparison renders them.
  predicate SameText(x: string, y: Option<string>) { x == OrEmpty(y) }

  function InvalidPermit(permit: Option<Permit>, b: Binding, p: FormPlan, urlHash: string, now: Time): Option<Reason> {
    if permit.None? then Some("SUBMIT_PERMIT_REQUIRED")
    else
      var t := permit.value;
      if t.consumedAt.Some? then Some("SUBMIT_PERMIT_REPLAYED")
      else if t.expiresAt <= now then Some("SUBMIT_PERMIT_EXPIRED")
      else if t.jobUrlHash != urlHash then Some("JOB_URL_CHANGED")
      else if t.revision != b.revision || t.revision != p.revision then Some("APPLICATION_REVISION_CHANGED")
      else if !SameText(t.adapterName, b.adapterName) || t.adapterName != p.adapterName
              || !SameText(t.adapterVersion, b.adapterVersion) || t.adapterVersion != p.adapterVersion
      then Some("ADAPTER_VERSION_CHANGED")
      else if !SameText(t.selectorVersion, b.selectorVersion) || t.selectorVersion != p.selectorVersion then Some("SELECTOR_DRIFT")
      else if !SameText(t.fingerprint, b.fingerprint) || t.fingerprint != p.fingerprint then Some("FORM_CHANGED")
      else if !SameText(t.cvHash, b.attachedCvHash) || !SameText(t.cvHash, p.attachedCvHash) then Some("ATTACHMENT_CHANGED")
      else if t.authority != b.authority then Some("SUBMISSION_AUTHORITY_CHANGED")
      else if OrEmpty(t.decisionDigest) != OrEmpty(b.decisionDigest) then Some("AUTOMATION_POLICY_CHANGED")
      else if t.canaryDigest != b.canaryDigest then Some("CANARY_AUTHORIZATION_CHANGED")
      else if !b.attachmentVerified || !p.attachmentVerified then Some("ATTACHMENT_UNVERIFIED")
      else None
  }

  // ---------- one admission ----------

  function NewBinding(r: Request, p: FormPlan, d: CanaryChain.Descriptor, auth: Authority, release: string): Binding {
    Binding(
      r.key, d.platform, r.revision, Some(r.planId), Some(p.fingerprint), Some(d.platform), Some(d.adapterVersion),
      Some(d.selectorVersion), Some(p.selectedCvId), Some(p.selectedCvHash), p.attachedCvId, p.attachedCvHash,
      p.attachmentVerified, p.profileVersion, Some(release), r.authority,
      if auth.decision.Some? then r.decisionId else None,
      if auth.decision.Some? then Some(auth.decision.value.digest) else None,
      if auth.canary.Some? then r.canaryId else None,
      if auth.canary.Some? then Some(auth.canary.value.digest) else None)
  }

  // Everything the new rows are built from, once every check has passed.
  datatype Grounds = Grounds(plan: FormPlan, binding: Binding, permit: Permit, consumesCanary: bool)

  function Grounded(db: Db, r: Request, s: Surroundings, now: Time): (g: Result<Grounds, Reason>)
    ensures g.Ok? && g.value.consumesCanary ==> r.canaryId.Some? && r.canaryId.value in db.canaries
  {
    if r.appId !in db.applications then Err("APPLICATION_NOT_FOUND")
    else
      var app := db.applications[r.appId];
      var refusal := Ineligible(db, app, r);
      if refusal.Some? then Err(refusal.value)
      else
        var plan := if r.planId in db.plans then Some(db.plans[r.planId]) else None;
        var planRefusal := InvalidPlan(app, plan, r, s, now);
        if planRefusal.Some? then Err(planRefusal.value)
        else if s.profile.Some? then Err(s.profile.value)
        else if s.runtime.Err? then Err(s.runtime.error)
        else if s.model.Some? then Err(s.model.value)
        else
          match ResolveAuthority(db, app, plan.value, r, s, s.runtime.value, now)
          case Err(reason) => Err(reason)
          case Ok(auth) =>
            var adapterRefusal := InvalidAdapter(s.descriptor, plan.value);
            if adapterRefusal.Some? then Err(adapterRefusal.value)
            else if !s.sessionReady then Err("SESSION_EXPIRED")
            else if s.urlHash.None? then Err("JOB_URL_INVALID")
            else
              var b := NewBinding(r, plan.value, s.descriptor.value, auth, s.runtime.value);
              match IssuePermit(b, plan.value, s.urlHash.value, s.permitTtl, now, auth.notAfter)
              case Err(reason) => Err(reason)
              case Ok(permit) => Ok(Grounds(plan.value, b, permit, auth.canary.Some?))
  }

  function NewAttempt(b: Binding): Attempt {
    Attempt(b, StatusPending, Queued, None, None, None, None, None, None, None)
  }

  function Insert(db: Db, r: Request, g: Grounds, now: Time): (Db, Created)
    requires g.consumesCanary ==> r.canaryId.Some? && r.canaryId.value in db.canaries
  {
    var id := AttemptId(r.appId, LastNumber(db.attempts, r.appId) + 1);
    var command := |db.commands| + 1;
    (db.(attempts := db.attempts[id := NewAttempt(g.binding)],
         permits := db.permits[id := g.permit],
         commands := db.commands[r.key := Command(command, id, CommandPending, None, None, None)],
         canaries := if g.consumesCanary then db.canaries[r.canaryId.value := db.canaries[r.canaryId.value].(consumedAt := Some(now))]
                     else db.canaries),
     Created(id, command, false))
  }

  function CreateOne(db: Db, r: Request, s: Surroundings, now: Time): Result<(Db, Created), Reason> {
    if s.clientRelease.Some? then Err(s.clientRelease.value)
    else
      match FindReplay(db, r)
      case Err(reason) => Err(reason)
      case Ok(Some(created)) => Ok((db, created))
      case Ok(None) =>
        match Grounded(db, r, s, now)
        case Err(reason) => Err(reason)
        case Ok(g) => Ok(Insert(db, r, g, now))
  }

  // ---------- batches ----------

  // One request with what its surroundings say.
  datatype Item = Item(request: Request, surroundings: Surroundings)

  function CreateAll(db: Db, items: seq<Item>, now: Time): Result<(Db, seq<Created>), Reason>
    decreases |items|
  {
    if items == [] then Ok((db, []))
    else
      match CreateOne(db, items[0].request, items[0].surroundings, now)
      case Err(reason) => Err(reason)
      case Ok((db', created)) =>
        match CreateAll(db', items[1..], now)
        case Err(reason) => Err(reason)
        case Ok((db'', others)) => Ok((db'', [created] + others))
  }

  predicate DistinctApplications(items: seq<Item>) {
    forall i, j :: 0 <= i < j < |items| ==> items[i].request.appId != items[j].request.appId
  }

  predicate DistinctKeys(items: seq<Item>) {
    forall i, j :: 0 <= i < j < |items| ==> items[i].request.key != items[j].request.key
  }

  // Whether the process may admit at all, and the clock read again just before committing.
  datatype Process = Process(operatorAuth: bool, serialized: bool, wallClock: Time)

  function BatchRefusal(items: seq<Item>, p: Process): Option<Reason> {
    if items == [] then Some("EMPTY_SUBMISSION_BATCH")
    else if |items| > 50 then Some("SUBMISSION_BATCH_TOO_LARGE")
    else if !DistinctApplications(items) then Some("DUPLICATE_APPLICATION_IN_BATCH")
    else if !DistinctKeys(items) then Some("DUPLICATE_IDEMPOTENCY_KEY_IN_BATCH")
    else if !p.operatorAuth then Some("OPERATOR_AUTH_REQUIRED")
    else if !p.serialized then Some("DATABASE_SERIALIZATION_REQUIRED")
    else None
  }

  predicate AnyDeadlinePassed(items: seq<Item>, wallClock: Time) {
    exists i :: 0 <= i < |items| && items[i].request.authorityExpiresAt.Some?
                && items[i].request.authorityExpiresAt.value <= wallClock
  }

  // Requests are admitted in application order, which keeps row locks in one order.
  function InsertInOrder(item: Item, items: seq<Item>): seq<Item> {
    if items == [] || item.request.appId <= items[0].request.appId then [item] + items
    else [items[0]] + InsertInOrder(item, items[1..])
  }

  function InApplicationOrder(items: seq<Item>): seq<Item> {
    if items == [] then [] else InsertInOrder(items[0], InApplicationOrder(items[1..]))
  }

  // The batch in application order, committed whole or not at all.
  function CreateBatch(db: Db, items: seq<Item>, p: Process, now: Time): Result<(Db, seq<Created>), Reason> {
    var refusal := BatchRefusal(items, p);
    if refusal.Some? then Err(refusal.value)
    else
      match CreateAll(db, InApplicationOrder(items), now)
      case Err(reason) => Err(reason)
      case Ok(done) => if AnyDeadlinePassed(items, p.wallClock) then Err("COMMAND_EXPIRED") else Ok(done)
  }

  lemma ValidPlanExists(app: Application, plan: Option<FormPlan>, r: Request, s: Surroundings, now: Time)
    ensures InvalidPlan(app, plan, r, s, now).None? ==> plan.Some?
  {
  }

  lemma ValidAdapterExists(d: Option<CanaryChain.Descriptor>, p: FormPlan)
    ensures InvalidAdapter(d, p).None? ==> d.Some?
  {
  }

  // ---------- losing a race ----------

  // Another transaction commits first, and a unique constraint stops this one at the given request. The rollback leaves what
  // the other transaction committed.
  datatype Race = Race(at: nat, committed: Db)

  // A row this request would insert repeats a unique column of a row the winner committed: the idempotency key, the attempt
  // number, the one unfinished attempt of the application, or the canary authorization.
  predicate InsertClashes(db: Db, committed: Db, r: Request) {
    && r.key !in db.commands
    && (r.key in committed.commands || AttemptId(r.appId, LastNumber(db.attempts, r.appId) + 1) in committed.attempts
        || HasUnfinishedAttempt(committed, r.appId)
        || (r.canaryId.Some? && exists id :: id in committed.attempts && committed.attempts[id].binding.canaryId == r.canaryId))
  }

  // The race stops a request of the batch, and if the requests before it go through it really clashes.
  predicate RaceClashes(db: Db, items: seq<Item>, race: Race, now: Time) {
    var ordered := InApplicationOrder(items);
    race.at < |ordered|
    && match CreateAll(db, ordered[..race.at], now)
       case Err(_) => true
       case Ok((reached, _)) => InsertClashes(reached, race.committed, ordered[race.at].request)
  }

  // A lone request that the winner already admitted is answered with the winner's attempt.
  function AfterRace(committed: Db, items: seq<Item>): Result<seq<Created>, Reason> {
    if |items| != 1 then Err("SUBMISSION_ALREADY_ACTIVE")
    else
      match FindReplay(committed, items[0].request)
      case Err(reason) => Err(reason)
      case Ok(Some(created)) => Ok([created])
      case Ok(None) => Err("SUBMISSION_ALREADY_ACTIVE")
  }

  // The state and the answer of a batch, whoever else is admitting.
  function CreateRacing(db: Db, items: seq<Item>, p: Process, race: Option<Race>, now: Time): (Db, Result<seq<Created>, Reason>)
    requires race.Some? ==> RaceClashes(db, items, race.value, now)
  {
    var refusal := BatchRefusal(items, p);
    if refusal.Some? then (db, Err(refusal.value))
    else
      var ordered := InApplicationOrder(items);
      match CreateAll(db, ordered[..if race.Some? then race.value.at + 1 else |ordered|], now)
      case Err(reason) => (db, Err(reason))
      case Ok((db', created)) =>
        if race.Some? then (race.value.committed, AfterRace(race.value.committed, items))
        else if AnyDeadlinePassed(items, p.wallClock) then (db, Err("COMMAND_EXPIRED"))
        else (db', Ok(created))
  }

  /** Without a race, a batch is committed whole or leaves the database as it was. */
  lemma RacelessBatch(db: Db, items: seq<Item>, p: Process, now: Time)
    ensures CreateRacing(db, items, p, None, now) ==
            match CreateBatch(db, items, p, now)
            case Err(reason) => (db, Err(reason))
            case Ok((db', created)) => (db', Ok(created))
  {
    assert InApplicationOrder(items)[..|InApplicationOrder(items)|] == InApplicationOrder(items);
  }

  /** A permit issued with an attempt validates for it at every time before its expiry, under the same URL only. */
  lemma IssuedPermitValidates(
    r: Request, p: FormPlan, d: CanaryChain.Descriptor, auth: Authority, release: string, urlHash: string, ttl: int, issued: Time,
    seenHash: string, at: Time)
    requires InvalidAdapter(Some(d), p).None? && p.revision == r.revision
    requires IssuePermit(NewBinding(r, p, d, auth, release), p, urlHash, ttl, issued, auth.notAfter).Ok?
    ensures var b := NewBinding(r, p, d, auth, release);
      var permit := IssuePermit(b, p, urlHash, ttl, issued, auth.notAfter).value;
      InvalidPermit(Some(permit), b, p, seenHash, at) ==
        if permit.expiresAt <= at then Some("SUBMIT_PERMIT_EXPIRED")
        else if seenHash != urlHash then Some("JOB_URL_CHANGED")
        else None
  {
  }
}
