/** Safety of the submission protocol over whole runs. */
module ProtocolRuns {
  import opened Wrappers
  import opened Records
  import opened Database
  import opened Admission
  import opened Mutations
  import opened Protocol
  import opened ProtocolSteps
  import opened ProtocolChecks
  import EmployerTruth

  // Any number of committed transactions, in the order they committed.
  ghost predicate IsRun(states: seq<Db>, events: seq<Event>, times: seq<Time>) {
    |states| == |events| + 1 && |times| == |events|
    && forall k :: 0 <= k < |events| ==> states[k + 1] == Step(states[k], events[k], times[k])
  }

  lemma {:induction false} RunKeepsInv(states: seq<Db>, events: seq<Event>, times: seq<Time>, k: nat)
    requires IsRun(states, events, times) && Inv(states[0]) && k < |states|
    ensures Inv(states[k])
  {
    hide Step, Inv;
    if k > 0 {
      RunKeepsInv(states, events, times, k - 1);
      StepKeeps(states[k - 1], events[k - 1], times[k - 1]);
    }
  }

  lemma {:induction false} RunExtends(states: seq<Db>, events: seq<Event>, times: seq<Time>, i: nat, j: nat)
    requires IsRun(states, events, times) && Inv(states[0]) && i <= j < |states|
    ensures Extends(states[i], states[j])
    decreases j
  {
    hide Step, Inv, Extends;
    RunKeepsInv(states, events, times, j);
    if i == j {
      InvIsCore(states[j]);
      CoreHasAttempts(states[j]);
      TablesExtendThemselves(states[j]);
    } else {
      RunKeepsInv(states, events, times, j - 1);
      RunExtends(states, events, times, i, j - 1);
      StepKeeps(states[j - 1], events[j - 1], times[j - 1]);
      ExtendsIsTransitive(states[i], states[j - 1], states[j]);
    }
  }

  lemma CrossedPersists(states: seq<Db>, events: seq<Event>, times: seq<Time>, i: nat, j: nat, id: AttemptId)
    requires IsRun(states, events, times) && Inv(states[0]) && i <= j < |states|
    requires id in states[i].attempts && Crossed(states[i].attempts[id])
    ensures id in states[j].attempts && Crossed(states[j].attempts[id])
  {
    hide Step, Inv, IsRun, PlansExtend, PermitsExtend, CommandsExtend;
    RunExtends(states, events, times, i, j);
    assert RowEvolves(states[i].attempts[id], states[j].attempts[id]);
  }

  // A database in which nothing has been inspected, admitted or qualified yet, whatever applications and jobs it holds.
  ghost predicate Unused(db: Db) {
    && db.plans == map[] && db.attempts == map[] && db.permits == map[] && db.commands == map[] && db.canaries == map[]
    && db.qualifications == map[] && db.evidence == {}
    && forall i :: i in db.applications ==> db.applications[i].revision >= 1 && db.applications[i].preparedRevision.None?
  }

  /** Runs may start from any such database. */
  lemma UnusedIsOk(db: Db)
    requires Unused(db)
    ensures Inv(db)
  {
  }

  /** Whatever attempts of an application are committing, at whatever moments of a run, they are one attempt. */
  lemma AtMostOneCommit(states: seq<Db>, events: seq<Event>, times: seq<Time>, i: nat, j: nat, x: AttemptId, y: AttemptId)
    requires IsRun(states, events, times) && Inv(states[0]) && i < |states| && j < |states|
    requires x in states[i].attempts && states[i].attempts[x].stage == Committing
    requires y in states[j].attempts && states[j].attempts[y].stage == Committing
    requires x.app == y.app
    ensures x == y
  {
    hide Step, IsRun, LinksOk, RevisionsOk;
    var last := if i < j then j else i;
    CrossedPersists(states, events, times, i, last, x);
    CrossedPersists(states, events, times, j, last, y);
    RunKeepsInv(states, events, times, last);
  }

  // The step takes this attempt across the irreversible boundary.
  predicate Commits(db: Db, e: Event, now: Time, id: AttemptId) {
    e.Commit? && BoundaryVerdict(db, e.boundary, now) == Cleared && e.boundary.key in db.commands && db.commands[e.boundary.key].attempt == id
  }

  /** No run submits an application twice: once one of its attempts has crossed the boundary, no later step takes any attempt of
      it across again, not even the same one. */
  lemma CommitsOnce(states: seq<Db>, events: seq<Event>, times: seq<Time>, i: nat, j: nat, x: AttemptId, y: AttemptId)
    requires IsRun(states, events, times) && Inv(states[0]) && i < j < |events| && x.app == y.app
    requires Commits(states[i], events[i], times[i], x)
    ensures !Commits(states[j], events[j], times[j], y)
  {
    hide Step, Commits, Inv, Crossed;
    CommittingCrosses(states[i], events[i], times[i], x);
    assert states[i + 1] == Step(states[i], events[i], times[i]);
    CrossedPersists(states, events, times, i + 1, j, x);
    RunKeepsInv(states, events, times, j);
    hide IsRun;
    CrossedBlocks(states[j], events[j], times[j], x, y);
  }

  lemma CrossedBlocks(db: Db, e: Event, now: Time, x: AttemptId, y: AttemptId)
    requires Inv(db) && x in db.attempts && Crossed(db.attempts[x]) && x.app == y.app
    ensures !Commits(db, e, now, y)
  {
    InvIsCore(db);
    CoreHasAttempts(db);
    hide Inv, CoreOk, AttemptsOk, Commits, Crossed;
    if y in db.attempts { CrossedLeavesNoneReady(db, x, y); }
    if Commits(db, e, now, y) { CommitFindsReady(db, e, now, y); }
  }

  lemma CrossedLeavesNoneReady(db: Db, x: AttemptId, y: AttemptId)
    requires AttemptsOk(db) && x in db.attempts && Crossed(db.attempts[x]) && y in db.attempts && x.app == y.app
    ensures db.attempts[y].stage != Ready
  {
    assert AttemptOk(db.attempts, y);
    hide IsLastNumber;
  }

  lemma CommittingCrosses(db: Db, e: Event, now: Time, id: AttemptId)
    requires Commits(db, e, now, id)
    ensures id in Step(db, e, now).attempts && Crossed(Step(db, e, now).attempts[id])
  {
    ClearedIsReady(db, e.boundary, now);
    hide BoundaryVerdict;
  }

  lemma CommitFindsReady(db: Db, e: Event, now: Time, id: AttemptId)
    requires Commits(db, e, now, id)
    ensures id in db.attempts && db.attempts[id].stage == Ready
  {
    ClearedIsReady(db, e.boundary, now);
    hide BoundaryVerdict;
  }

  /** A committed attempt can only end unknown or confirmed, and from then on the application admits nothing new:
      only a replay of an earlier request is answered. */
  lemma CommitClosesApplication(
    states: seq<Db>, events: seq<Event>, times: seq<Time>, i: nat, j: nat, id: AttemptId, r: Request, s: Surroundings, now: Time)
    requires IsRun(states, events, times) && Inv(states[0]) && i <= j < |states|
    requires id in states[i].attempts && states[i].attempts[id].stage == Committing && r.appId == id.app
    ensures id in states[j].attempts
    ensures states[j].attempts[id].stage == Finished ==> states[j].attempts[id].outcome in {Some(Unknown), Some(ConfirmedSubmitted)}
    ensures CreateOne(states[j], r, s, now).Ok? ==>
      r.key in states[j].commands && CreateOne(states[j], r, s, now).value.0 == states[j]
  {
    hide Step, IsRun, Inv, Grounded;
    CrossedPersists(states, events, times, i, j, id);
    var db := states[j];
    if Grounded(db, r, s, now).Ok? {
      GroundsAreSound(db, r, s, now);
      NotBusy(db, r.appId, id);
    }
  }

  // ---------- idempotent admission ----------

  lemma BindingsPersist(a: Db, b: Db, id: AttemptId, r: Request)
    requires Extends(a, b) && id in a.attempts && (a.attempts[id].binding.planId.Some? ==> a.attempts[id].binding.planId.value in a.plans)
    ensures SameBindings(b, id, r) <==> SameBindings(a, id, r)
  {
    hide SamePlan;
    assert RowEvolves(a.attempts[id], b.attempts[id]);
  }

  // An admitted request is on record under its key.
  lemma AdmittedIsOnRecord(db: Db, r: Request, s: Surroundings, now: Time)
    requires CreateOne(db, r, s, now).Ok?
    ensures var (db', created) := CreateOne(db, r, s, now).value;
      r.key in db'.commands && db'.commands[r.key].attempt == created.attempt && db'.commands[r.key].id == created.command
      && SameBindings(db', created.attempt, r)
  {
    hide Grounded;
    if FindReplay(db, r) == Ok(None) { GroundsAreSound(db, r, s, now); }
  }

  /** A repeated request is answered with the original attempt and command in every later state, and changes nothing;
      the same key with any other binding is refused. */
  lemma ReplayForever(
    states: seq<Db>, events: seq<Event>, times: seq<Time>, j: nat, before: Db, r: Request, s: Surroundings, at: Time,
    r': Request, s': Surroundings, now: Time)
    requires Inv(before) && CreateOne(before, r, s, at).Ok? && states != [] && states[0] == CreateOne(before, r, s, at).value.0
    requires IsRun(states, events, times) && j < |states|
    requires r'.key == r.key && s'.clientRelease.None?
    ensures var created := CreateOne(before, r, s, at).value.1;
      CreateOne(states[j], r', s', now) ==
        if r'.appId == r.appId && r'.revision == r.revision && r'.planId == r.planId && r'.authority == r.authority
           && r'.decisionId == r.decisionId && r'.canaryId == r.canaryId
        then Ok((states[j], created.(replayed := true))) else Err("IDEMPOTENCY_KEY_CONFLICT")
  {
    hide Step, Inv, IsRun, RowEvolves, SamePlan, SamePermit, Grounded;
    var created := CreateOne(before, r, s, at).value.1;
    AdmittedIsOnRecord(before, r, s, at);
    AdmissionKeeps(before, r, s, at);
    RunExtends(states, events, times, 0, j);
    BindingsPersist(states[0], states[j], created.attempt, r);
    BindingsPersist(states[0], states[j], created.attempt, r');
    assert SameCommand(states[0].commands[r.key], states[j].commands[r.key]);
  }

  // ---------- permits ----------

  lemma BackedPermitVerdict(t: Permit, b: Binding, p: FormPlan, now: Time)
    requires PermitBacks(t, b, p)
    ensures InvalidPermit(Some(t), b, p, t.jobUrlHash, now)
      == if t.consumedAt.Some? then Some("SUBMIT_PERMIT_REPLAYED")
         else if t.expiresAt <= now then Some("SUBMIT_PERMIT_EXPIRED") else None
  {
  }

  /** In every later state a permit is accepted exactly while it is unspent and unexpired; its expiry never moves
      later and a spent permit stays spent. */
  lemma PermitHoldsUntilSpent(states: seq<Db>, events: seq<Event>, times: seq<Time>, i: nat, j: nat, id: AttemptId, now: Time)
    requires IsRun(states, events, times) && Inv(states[0]) && i <= j < |states| && id in states[i].permits
    ensures id in states[j].permits && id in states[j].attempts
    ensures var t, t', b := states[i].permits[id], states[j].permits[id], states[j].attempts[id].binding;
      && t'.jobUrlHash == t.jobUrlHash && t'.expiresAt <= t.expiresAt && (t.consumedAt.Some? ==> t'.consumedAt == t.consumedAt)
      && b.planId.Some? && b.planId.value in states[j].plans
      && InvalidPermit(Some(t'), b, states[j].plans[b.planId.value], t.jobUrlHash, now)
         == if t'.consumedAt.Some? then Some("SUBMIT_PERMIT_REPLAYED")
            else if t'.expiresAt <= now then Some("SUBMIT_PERMIT_EXPIRED") else None
  {
    hide Step, IsRun, AttemptsOk, RevisionsOk, PermitBacks, InvalidPermit, AttemptsExtend, PlansExtend, CommandsExtend, PlanBacks;
    RunExtends(states, events, times, i, j);
    RunKeepsInv(states, events, times, j);
    assert SamePermit(states[i].permits[id], states[j].permits[id]);
    assert LinkOk(states[j], id);
    var b := states[j].attempts[id].binding;
    BackedPermitVerdict(states[j].permits[id], b, states[j].plans[b.planId.value], now);
  }

  // ---------- numbering and revisions ----------

  lemma {:induction false} NoGapBelow(db: Db, app: Id, n: nat, k: nat)
    requires AttemptsOk(db) && AttemptId(app, n) in db.attempts && 1 <= k <= n
    ensures AttemptId(app, k) in db.attempts
    decreases n - k
  {
    hide OneBusy, IsLastNumber;
    assert AttemptOk(db.attempts, AttemptId(app, n));
    if k < n { NoGapBelow(db, app, n, k + 1); assert AttemptOk(db.attempts, AttemptId(app, k + 1)); }
  }

  /** In every state of every run the attempt numbers of an application are exactly one up to its last. */
  lemma NumbersAreGapless(states: seq<Db>, events: seq<Event>, times: seq<Time>, i: nat, app: Id, k: nat)
    requires IsRun(states, events, times) && Inv(states[0]) && i < |states|
    ensures AttemptId(app, k) in states[i].attempts <==> 1 <= k <= LastNumber(states[i].attempts, app)
  {
    hide Step, IsRun, LinksOk, RevisionsOk, OneBusy;
    RunKeepsInv(states, events, times, i);
    var db := states[i];
    var n := LastNumber(db.attempts, app);
    assert IsLastNumber(db.attempts, app, n);
    if AttemptId(app, k) in db.attempts { assert AttemptOk(db.attempts, AttemptId(app, k)); }
    if 1 <= k <= n { NoGapBelow(db, app, n, k); }
  }

  /** In every state of every run: at most one live plan per application, preparation is absent or for the current
      revision, and whatever is unfinished carries the current revision. */
  lemma RevisionsStayCurrent(states: seq<Db>, events: seq<Event>, times: seq<Time>, i: nat)
    requires IsRun(states, events, times) && Inv(states[0]) && i < |states|
    ensures var db := states[i];
      && (forall p, q ::
            p in db.plans && q in db.plans && db.plans[p].invalidatedAt.None? && db.plans[q].invalidatedAt.None?
            && db.plans[p].applicationId == db.plans[q].applicationId
            ==> p == q)
      && (forall a :: a in db.applications ==> db.applications[a].preparedRevision in {None, Some(db.applications[a].revision)})
      && (forall id :: id in db.attempts && db.attempts[id].stage != Finished ==>
            id.app in db.applications && db.attempts[id].binding.revision == db.applications[id.app].revision)
  {
    hide Step, IsRun, LinksOk, AttemptsOk;
    RunKeepsInv(states, events, times, i);
  }

  // ---------- what the tables promise the counting query ----------

  /** In every state of every run the schema constraints hold, so the counting query and the in-process predicate agree on every
      attempt except one the query accepts with a text only the database takes for visible. */
  lemma CountedInEveryRun(states: seq<Db>, events: seq<Event>, times: seq<Time>, i: nat, id: AttemptId)
    requires IsRun(states, events, times) && Inv(states[0]) && i < |states| && id in states[i].attempts
    ensures ChecksOk(states[i])
    ensures var a, evidence := states[i].attempts[id], states[i].evidence;
      (EmployerTruth.IsEmployerVerified(id, a, evidence) <==> EmployerTruth.SqlVerified(id, a, evidence)) <==>
        !(EmployerTruth.SqlVerified(id, a, evidence) && EmployerTruth.HasExoticBlank(a))
  {
    RunKeepsInv(states, events, times, i);
    InvIsCore(states[i]);
    hide Step, IsRun, CoreOk, EmployerTruth.IsEmployerVerified, EmployerTruth.SqlVerified, EmployerTruth.HasExoticBlank;
    EmployerTruth.QueryMatchesPredicate(id, states[i].attempts[id], states[i].evidence);
  }
}
