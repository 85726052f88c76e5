/** The submission services as they run on the database: rows change one statement at a time inside a transaction,
    which the batch entry point commits or rolls back. */
module SubmissionStore {
  import opened Wrappers
  import opened Records
  import opened Lifecycle
  import opened ReviewGrants
  import opened Database
  import opened Admission
  import opened Mutations
  import opened TablePasses

  class Store {
    var db: Db

    constructor (initial: Db)
      ensures db == initial
    {
      db := initial;
    }

    // ---------- plans and revisions ----------

    method InvalidateFormPlans(app: Id, reason: Reason, now: Time) returns (count: nat)
      modifies this
      ensures db == old(db).(plans := InvalidatePlans(old(db).plans, app, reason, now))
      ensures count == |LivePlansOf(old(db).plans, app)|
    {
      ghost var before := db;
      ghost var target, hits := InvalidatePlans(db.plans, app, reason, now), LivePlansOf(db.plans, app);
      PlanHits(db.plans, app, reason, now);
      hide Rewriting, Tally, InvalidatePlans, LivePlansOf;
      RewritingStarts(before.plans, target);
      TallyStarts(hits, before.plans.Keys);
      count := 0;
      var todo := db.plans.Keys;
      while todo != {}
        invariant Rewriting(before.plans, target, todo, db.plans) && Tally(hits, todo, count)
        invariant db == before.(plans := db.plans)
        decreases |todo|
      {
        var i :| i in todo;
        Rewritten(before.plans, target, todo, db.plans, i);
        Tallied(hits, todo, count, i);
        PlanHit(before.plans, app, i, reason, now);
        var row := db.plans[i];
        if row.applicationId == app && row.invalidatedAt.None? {
          db := db.(plans := db.plans[i := row.(invalidatedAt := Some(now), invalidationReason := Some(reason))]);
          count := count + 1;
        }
        todo := todo - {i};
      }
      RewritingEnds(before.plans, target, db.plans);
      TallyEnds(hits, count);
    }

    method BumpApplicationRevision(appId: Id, reason: Reason, now: Time)
      requires appId in db.applications
      modifies this
      ensures db == BumpRevision(old(db), appId, reason, now)
    {
      hide InvalidatePlans, LivePlansOf;
      var row := db.applications[appId];
      db := db.(applications := db.applications[appId := row.(revision := Revision(row) + 1, preparedRevision := None,
                                                             approvedAt := None, approvalSource := None)]);
      var _ := InvalidateFormPlans(appId, reason, now);
    }

    // ---------- preparation and commit ----------

    method MarkApplicationPrepared(appId: Id, source: string, allowed: set<JobStatus>, now: Time) returns (refusal: Option<Reason>)
      modifies this
      ensures match Prepare(old(db), appId, source, allowed, now)
              case Err(e) => refusal == Some(e) && db == old(db)
              case Ok(db') => refusal == None && db == db'
    {
      hide LockRefusal, PreparationIsCurrent;
      refusal := LockRefusal(db, appId, PrepareIntent, None);
      LockFindsApplication(db, appId, PrepareIntent);
      if refusal.Some? { return; }
      var row := db.applications[appId];
      if row.status !in allowed { return Some("APPLICATION_NOT_REVIEWABLE"); }
      if PreparationIsCurrent(row) { return; }
      row := row.(status := JobDraft, approvedAt := Some(now), approvalSource := Some(source));
      row := row.(revision := Revision(row));
      row := row.(preparedRevision := Some(row.revision));
      db := db.(applications := db.applications[appId := row]);
      db := db.(jobs := SetJobStatus(db.jobs, row.jobId, JobDraft));
    }

    // A claimed command crosses the irreversible boundary, or its attempt is closed before it, or the claim is found lost.
    method EnterCommitBoundary(v: Boundary, now: Time) returns (verdict: Verdict)
      modifies this
      ensures verdict == BoundaryVerdict(old(db), v, now) && db == EnterBoundary(old(db), v, now)
    {
      hide AtBoundary, BoundaryRefusal, BoundaryReason, FinishAttempt, RecordCommit;
      if !HoldsClaim(db, v.key, v.token) { return Superseded; }
      var id := db.commands[v.key].attempt;
      if !v.before.sourceCurrent {
        CloseBeforeCommit(id, "BUILD_MISMATCH", v.checkedAt);
        return Rejected("BUILD_MISMATCH", v.checkedAt);
      }
      if !AtBoundary(db, id) { return Superseded; }
      var refusal := BoundaryRefusal(db, id, v, v.before, v.checkedAt);
      if refusal.Some? {
        CloseBeforeCommit(id, BoundaryReason(refusal.value), v.checkedAt);
        return Rejected(BoundaryReason(refusal.value), v.checkedAt);
      }
      if v.governorDenies {
        CloseBeforeCommit(id, "GOVERNOR_DENIED", v.checkedAt);
        return Rejected("GOVERNOR_DENIED", v.checkedAt);
      }
      if !v.after.sourceCurrent {
        CloseBeforeCommit(id, "BUILD_MISMATCH", now);
        return Rejected("BUILD_MISMATCH", now);
      }
      refusal := BoundaryRefusal(db, id, v, v.after, now);
      if refusal.Some? {
        CloseBeforeCommit(id, BoundaryReason(refusal.value), now);
        return Rejected(BoundaryReason(refusal.value), now);
      }
      PermittedAtBoundary(db, id);
      CommitRows(id, v.key, now);
      verdict := Cleared;
    }

    method CloseBeforeCommit(id: AttemptId, reason: Reason, now: Time)
      modifies this
      ensures db == FinishAttempt(old(db), id, FailedBeforeCommit, reason, None, now)
    {
      db := FinishAttempt(db, id, FailedBeforeCommit, reason, None, now);
    }

    method CommitRows(id: AttemptId, key: string, now: Time)
      requires id in db.attempts && id in db.permits && key in db.commands && db.commands[key].lease.Some?
      modifies this
      ensures db == RecordCommit(old(db), id, key, now)
    {
      db := db.(attempts := db.attempts[id := db.attempts[id].(stage := Committing, status := StatusRunning, finalActionAt := Some(now))]);
      db := db.(permits := db.permits[id := db.permits[id].(consumedAt := Some(now))]);
      var lease := db.commands[key].lease.value.(at := now);
      db := db.(commands := db.commands[key := db.commands[key].(lease := Some(lease))]);
    }

    // ---------- skipping ----------

    method SkipApplication(appId: Id, reason: Reason, now: Time) returns (refusal: Option<Reason>)
      modifies this
      ensures match Skip(old(db), appId, reason, now)
              case Err(e) => refusal == Some(e) && db == old(db)
              case Ok(db') => refusal == None && db == db'
    {
      hide LockRefusal, BumpRevision, CancelActive;
      refusal := LockRefusal(db, appId, TerminalIntent, None);
      LockFindsApplication(db, appId, TerminalIntent);
      if refusal.Some? { return; }
      var jobId := db.applications[appId].jobId;
      var job := JobOf(db, db.applications[appId]);
      var skipped := db.applications[appId].status == JobSkipped && (job.None? || job.value.status == JobSkipped);
      var latest := LatestAttempt(db, appId);
      var cancelled := latest.Some? && db.attempts[latest.value].stage != Finished;
      ghost var before := db;
      if cancelled {
        CancellingIsSeen(db, latest.value, reason, now);
        db := CancelActive(db, latest.value, reason, now);
      }
      assert db == CancelOpen(before, appId, reason, now);
      if skipped && !cancelled {
        if job.Some? && job.value.terminalSkipAt.None? {
          db := db.(jobs := MarkJobSkipped(db.jobs, jobId, now));
        }
        return;
      }
      BumpedApplication(db, appId, reason, now);
      BumpApplicationRevision(appId, reason, now);
      db := db.(applications := db.applications[appId := db.applications[appId].(status := JobSkipped)]);
      db := db.(jobs := MarkJobSkipped(db.jobs, jobId, now));
    }

    // ---------- inspected plans ----------

    method PersistInspectedFormPlan(appId: Id, o: Observation, now: Time) returns (refusal: Option<Reason>)
      modifies this
      ensures match PersistPlan(old(db), appId, o, now)
              case Err(e) => refusal == Some(e) && db == old(db)
              case Ok(db') => refusal == None && db == db'
    {
      hide LockRefusal, InvalidatePlans, LivePlansOf;
      refusal := LockRefusal(db, appId, ContentIntent, None);
      LockFindsApplication(db, appId, ContentIntent);
      if refusal.Some? { return; }
      var app := db.applications[appId];
      refusal := ObservationRefusal(db, app, appId, o, now);
      if refusal.Some? || o.planId in db.plans { return; }
      db := db.(applications := db.applications[appId := Unprepare(app)]);
      var _ := InvalidateFormPlans(appId, "FORM_REINSPECTED", now);
      db := db.(plans := db.plans[o.planId := o.plan.(invalidatedAt := None, invalidationReason := None)]);
    }

    // ---------- admission ----------

    // A refusal can come after the attempt row and the canary consumption were already written.
    method CreateOneCommand(r: Request, s: Surroundings, now: Time) returns (result: Result<Created, Reason>)
      modifies this
      ensures match CreateOne(old(db), r, s, now)
              case Err(e) => result == Err(e)
              case Ok((db', created)) => result == Ok(created) && db == db'
    {
      hide FindReplay, Ineligible, InvalidPlan, ResolveAuthority, InvalidAdapter, IssuePermit, NewBinding;
      if s.clientRelease.Some? { return Err(s.clientRelease.value); }
      var replay := FindReplay(db, r);
      if replay.Err? { return Err(replay.error); }
      if replay.value.Some? { return Ok(replay.value.value); }
      if r.appId !in db.applications { return Err("APPLICATION_NOT_FOUND"); }
      var app := db.applications[r.appId];
      var refusal := Ineligible(db, app, r);
      if refusal.Some? { return Err(refusal.value); }
      var plan := if r.planId in db.plans then Some(db.plans[r.planId]) else None;
      refusal := InvalidPlan(app, plan, r, s, now);
      ValidPlanExists(app, plan, r, s, now);
      if refusal.Some? { return Err(refusal.value); }
      if s.profile.Some? { return Err(s.profile.value); }
      if s.runtime.Err? { return Err(s.runtime.error); }
      if s.model.Some? { return Err(s.model.value); }
      var authority := ResolveAuthority(db, app, plan.value, r, s, s.runtime.value, now);
      if authority.Err? { return Err(authority.error); }
      CanaryWhenResolved(db, app, plan.value, r, s, s.runtime.value, now);
      refusal := InvalidAdapter(s.descriptor, plan.value);
      ValidAdapterExists(s.descriptor, plan.value);
      if refusal.Some? { return Err(refusal.value); }
      if !s.sessionReady { return Err("SESSION_EXPIRED"); }
      result := WriteRows(r, s, plan.value, authority.value, now);
    }

    method WriteRows(r: Request, s: Surroundings, plan: FormPlan, authority: Authority, now: Time) returns (result: Result<Created, Reason>)
      requires s.runtime.Ok? && s.descriptor.Some?
      requires authority.canary.Some? ==> r.canaryId.Some? && r.canaryId.value in db.canaries
      modifies this
      ensures s.urlHash.None? ==> result == Err("JOB_URL_INVALID")
      ensures s.urlHash.Some? ==>
        var b := NewBinding(r, plan, s.descriptor.value, authority, s.runtime.value);
        match IssuePermit(b, plan, s.urlHash.value, s.permitTtl, now, authority.notAfter)
        case Err(e) => result == Err(e)
        case Ok(permit) =>
          var (db', created) := Insert(old(db), r, Grounds(plan, b, permit, authority.canary.Some?), now);
          result == Ok(created) && db == db'
    {
      hide IssuePermit, NewBinding, LastNumber, NewAttempt;
      var b := NewBinding(r, plan, s.descriptor.value, authority, s.runtime.value);
      var id := AttemptId(r.appId, LastNumber(db.attempts, r.appId) + 1);
      db := db.(attempts := db.attempts[id := NewAttempt(b)]);
      if authority.canary.Some? {
        var canary := db.canaries[r.canaryId.value];
        db := db.(canaries := db.canaries[r.canaryId.value := canary.(consumedAt := Some(now))]);
      }
      ghost var canaries := db.canaries;
      assert db == old(db).(attempts := old(db).attempts[id := NewAttempt(b)], canaries := canaries);
      if s.urlHash.None? { return Err("JOB_URL_INVALID"); }
      var permit := IssuePermit(b, plan, s.urlHash.value, s.permitTtl, now, authority.notAfter);
      if permit.Err? { return Err(permit.error); }
      db := db.(permits := db.permits[id := permit.value]);
      var command := |db.commands| + 1;
      db := db.(commands := db.commands[r.key := Command(command, id, CommandPending, None, None, None)]);
      result := Ok(Created(id, command, false));
    }

    // All the requests in one transaction: any refusal puts every table back, and losing a race leaves the winner's tables.
    method CreateSubmissionCommands(items: seq<Item>, p: Process, race: Option<Race>, now: Time) returns (result: Result<seq<Created>, Reason>)
      requires race.Some? ==> RaceClashes(db, items, race.value, now)
      modifies this
      ensures (db, result) == CreateRacing(old(db), items, p, race, now)
    {
      hide CreateOne, BatchRefusal, AfterRace, InsertClashes;
      var refusal := BatchRefusal(items, p);
      if refusal.Some? { return Err(refusal.value); }
      var snapshot := db;
      var ordered := InApplicationOrder(items);
      var stop := if race.Some? then race.value.at + 1 else |ordered|;
      var created: seq<Created> := [];
      var n := 0;
      assert ordered[0..stop] == ordered[..stop];
      PrefixedByNothing(CreateAll(db, ordered[..stop], now));
      while n < stop
        invariant 0 <= n <= stop <= |ordered|
        invariant CreateAll(snapshot, ordered[..stop], now) == Prefixed(created, CreateAll(db, ordered[n..stop], now))
      {
        var one := CreateOneCommand(ordered[n].request, ordered[n].surroundings, now);
        if one.Err? {
          db := snapshot;
          return Err(one.error);
        }
        assert ordered[n..stop][1..] == ordered[n + 1..stop];
        PrefixedOnce(created, one.value, CreateAll(db, ordered[n + 1..stop], now));
        created := created + [one.value];
        n := n + 1;
      }
      assert ordered[n..stop] == [] && created + [] == created;
      if race.Some? {
        db := race.value.committed;
        return AfterRace(db, items);
      }
      if AnyDeadlinePassed(items, p.wallClock) {
        db := snapshot;
        return Err("COMMAND_EXPIRED");
      }
      result := Ok(created);
    }
  }

  ghost function LivePlansOf(plans: map<string, FormPlan>, app: Id): set<string> {
    set i | i in plans && plans[i].applicationId == app && plans[i].invalidatedAt.None?
  }

  lemma PlanHits(plans: map<string, FormPlan>, app: Id, reason: Reason, now: Time)
    ensures LivePlansOf(plans, app) <= plans.Keys && InvalidatePlans(plans, app, reason, now).Keys == plans.Keys
  {
  }

  lemma PlanHit(plans: map<string, FormPlan>, app: Id, i: string, reason: Reason, now: Time)
    requires i in plans
    ensures i in LivePlansOf(plans, app) <==> plans[i].applicationId == app && plans[i].invalidatedAt.None?
    ensures InvalidatePlans(plans, app, reason, now)[i] ==
            if plans[i].applicationId == app && plans[i].invalidatedAt.None?
            then plans[i].(invalidatedAt := Some(now), invalidationReason := Some(reason)) else plans[i]
  {
  }

  // The first results come from requests already admitted.
  ghost function Prefixed(created: seq<Created>, rest: Result<(Db, seq<Created>), Reason>): Result<(Db, seq<Created>), Reason> {
    if rest.Err? then rest else Ok((rest.value.0, created + rest.value.1))
  }

  lemma PrefixedByNothing(rest: Result<(Db, seq<Created>), Reason>)
    ensures Prefixed([], rest) == rest
  {
    if rest.Ok? {
      assert [] + rest.value.1 == rest.value.1;
    }
  }

  lemma PrefixedOnce(created: seq<Created>, one: Created, rest: Result<(Db, seq<Created>), Reason>)
    ensures Prefixed(created, Prefixed([one], rest)) == Prefixed(created + [one], rest)
  {
    if rest.Ok? {
      assert created + ([one] + rest.value.1) == created + [one] + rest.value.1;
    }
  }

  lemma CancellingIsSeen(db: Db, id: AttemptId, reason: Reason, now: Time)
    requires id in db.attempts && db.attempts[id].stage != Finished
    ensures CancelActive(db, id, reason, now) != db
  {
    assert CancelActive(db, id, reason, now).attempts[id].stage == Finished;
  }

  lemma BumpedApplication(db: Db, appId: Id, reason: Reason, now: Time)
    requires appId in db.applications
    ensures BumpRevision(db, appId, reason, now).applications.Keys == db.applications.Keys
  {
  }

  lemma PermittedAtBoundary(db: Db, id: AttemptId)
    requires id in db.attempts && id.app in db.applications && AtBoundary(db, id)
    ensures id in db.permits
  {
  }

  lemma CanaryWhenResolved(db: Db, app: Application, plan: FormPlan, r: Request, s: Surroundings, release: string, now: Time)
    ensures var authority := ResolveAuthority(db, app, plan, r, s, release, now);
      authority.Ok? && authority.value.canary.Some? ==> r.canaryId.Some? && r.canaryId.value in db.canaries
  {
  }

  // ---------- the admission order ----------

  ghost predicate InOrder(items: seq<Item>) {
    forall i, j :: 0 <= i < j < |items| ==> items[i].request.appId <= items[j].request.appId
  }

  lemma {:induction false} InsertedOnce(item: Item, items: seq<Item>)
    ensures multiset(InsertInOrder(item, items)) == multiset(items) + multiset{item}
    decreases |items|
  {
    if !(items == [] || item.request.appId <= items[0].request.appId) {
      InsertedOnce(item, items[1..]);
      assert items == [items[0]] + items[1..];
    }
  }

  lemma {:induction false} InsertedInOrder(item: Item, items: seq<Item>)
    requires InOrder(items)
    ensures InOrder(InsertInOrder(item, items))
    decreases |items|
  {
    if !(items == [] || item.request.appId <= items[0].request.appId) {
      var rest := InsertInOrder(item, items[1..]);
      InsertedInOrder(item, items[1..]);
      InsertedOnce(item, items[1..]);
      forall j | 0 <= j < |rest| ensures items[0].request.appId <= rest[j].request.appId {
        InsertedFrom(item, items[1..], rest, j);
      }
      assert InsertInOrder(item, items) == [items[0]] + rest;
      hide InsertInOrder;
    }
  }

  lemma InsertedFrom(item: Item, items: seq<Item>, inserted: seq<Item>, j: nat)
    requires multiset(inserted) == multiset(items) + multiset{item} && j < |inserted|
    ensures inserted[j] == item || inserted[j] in items
  {
    assert inserted[j] in multiset(inserted);
  }

  /** Row locks are taken in application order, whatever order the requests came in. */
  lemma {:induction false} AdmittedInApplicationOrder(items: seq<Item>)
    ensures InOrder(InApplicationOrder(items)) && multiset(InApplicationOrder(items)) == multiset(items)
    decreases |items|
  {
    if items != [] {
      AdmittedInApplicationOrder(items[1..]);
      InsertedInOrder(items[0], InApplicationOrder(items[1..]));
      InsertedOnce(items[0], InApplicationOrder(items[1..]));
      assert items == [items[0]] + items[1..];
    }
  }

  // ---------- repeating a batch ----------

  // The request was admitted before, with the same bindings.
  predicate OnRecord(db: Db, item: Item) {
    item.surroundings.clientRelease.None? && FindReplay(db, item.request).Ok? && FindReplay(db, item.request).value.Some?
  }

  function Originals(db: Db, items: seq<Item>): seq<Created>
    requires forall i :: 0 <= i < |items| ==> OnRecord(db, items[i])
  {
    if items == [] then []
    else
      assert OnRecord(db, items[0]);
      [FindReplay(db, items[0].request).value.value] + Originals(db, items[1..])
  }

  lemma {:induction false} AllReplayed(db: Db, items: seq<Item>, now: Time)
    requires forall i :: 0 <= i < |items| ==> OnRecord(db, items[i])
    ensures CreateAll(db, items, now) == Ok((db, Originals(db, items)))
    decreases |items|
  {
    hide FindReplay;
    if items != [] {
      assert OnRecord(db, items[0]);
      AllReplayed(db, items[1..], now);
    }
  }

  lemma OrderedFromItems(items: seq<Item>, i: nat)
    requires i < |InApplicationOrder(items)|
    ensures InApplicationOrder(items)[i] in items
  {
    AdmittedInApplicationOrder(items);
    assert InApplicationOrder(items)[i] in multiset(InApplicationOrder(items));
  }

  /** A batch sent again is answered with the original attempts and changes nothing, exactly until one of its authority
      deadlines has passed: then even the repeat is refused. */
  lemma RepeatedBatch(db: Db, items: seq<Item>, p: Process, now: Time)
    requires BatchRefusal(items, p).None? && forall i :: 0 <= i < |items| ==> OnRecord(db, items[i])
    ensures forall i :: 0 <= i < |InApplicationOrder(items)| ==> OnRecord(db, InApplicationOrder(items)[i])
    ensures CreateBatch(db, items, p, now) ==
            if AnyDeadlinePassed(items, p.wallClock) then Err("COMMAND_EXPIRED")
            else Ok((db, Originals(db, InApplicationOrder(items))))
  {
    hide OnRecord, InApplicationOrder;
    forall i | 0 <= i < |InApplicationOrder(items)| ensures OnRecord(db, InApplicationOrder(items)[i]) {
      OrderedFromItems(items, i);
    }
    AllReplayed(db, InApplicationOrder(items), now);
  }

  /** Two copies of one request race: whoever loses really clashes, is answered with the winner's attempt and changes nothing. */
  lemma RaceLoserGetsOriginal(db: Db, r: Request, s: Surroundings, p: Process, now: Time, p': Process, later: Time, committed: Db)
    requires r.key !in db.commands
    requires CreateBatch(db, [Item(r, s)], p, now).Ok? && CreateBatch(db, [Item(r, s)], p', later).Ok?
    requires committed == CreateBatch(db, [Item(r, s)], p, now).value.0
    ensures RaceClashes(db, [Item(r, s)], Race(0, committed), later)
    ensures var won := CreateBatch(db, [Item(r, s)], p, now).value.1[0];
      CreateRacing(db, [Item(r, s)], p', Some(Race(0, committed)), later) == (committed, Ok([won.(replayed := true)]))
  {
    var items := [Item(r, s)];
    hide CreateOne, FindReplay;
    LoneRequest(db, r, s, p, now);
    LoneRequest(db, r, s, p', later);
    LoneOrder(Item(r, s));
    AdmittedIsFound(db, r, s, now);
    KeyIsTaken(committed, r);
    assert InApplicationOrder(items)[..0] == [] && InApplicationOrder(items)[..1] == items;
    assert CreateAll(db, [], later) == Ok((db, []));
    hide InApplicationOrder, BatchRefusal, CreateBatch, CreateAll;
    assert RaceClashes(db, items, Race(0, committed), later);
    assert AfterRace(committed, items) == Ok([CreateOne(db, r, s, now).value.1.(replayed := true)]);
  }

  lemma KeyIsTaken(db: Db, r: Request)
    requires FindReplay(db, r).Ok? && FindReplay(db, r).value.Some?
    ensures r.key in db.commands
  {
  }

  /** A batch that meets a race ends in its own starting state or in the winner's, so a race adds no state to any run. */
  lemma RacesAddNoState(db: Db, items: seq<Item>, p: Process, race: Race, now: Time)
    requires RaceClashes(db, items, race, now)
    ensures CreateRacing(db, items, p, Some(race), now).0 == db || CreateRacing(db, items, p, Some(race), now).0 == race.committed
  {
    hide RaceClashes;
  }

  lemma LoneOrder(item: Item)
    ensures InApplicationOrder([item]) == [item]
  {
    assert InApplicationOrder([item][1..]) == [];
  }

  lemma LoneRequest(db: Db, r: Request, s: Surroundings, p: Process, now: Time)
    requires CreateBatch(db, [Item(r, s)], p, now).Ok?
    ensures CreateOne(db, r, s, now).Ok? && CreateAll(db, [Item(r, s)], now).Ok?
    ensures CreateBatch(db, [Item(r, s)], p, now).value == (CreateOne(db, r, s, now).value.0, [CreateOne(db, r, s, now).value.1])
    ensures BatchRefusal([Item(r, s)], p).None?
  {
    hide CreateOne, BatchRefusal;
    var items := [Item(r, s)];
    LoneOrder(items[0]);
    LoneCreate(db, r, s, now);
    hide InApplicationOrder, CreateAll;
  }

  lemma LoneCreate(db: Db, r: Request, s: Surroundings, now: Time)
    ensures CreateAll(db, [Item(r, s)], now) ==
            match CreateOne(db, r, s, now)
            case Err(reason) => Err(reason)
            case Ok((db', created)) => Ok((db', [created]))
  {
    hide CreateOne;
    assert [Item(r, s)][1..] == [];
    var one := CreateOne(db, r, s, now);
    if one.Ok? {
      assert CreateAll(one.value.0, [], now) == Ok((one.value.0, []));
      assert [one.value.1] + [] == [one.value.1];
    }
  }

  lemma AdmittedIsFound(db: Db, r: Request, s: Surroundings, now: Time)
    requires CreateOne(db, r, s, now).Ok?
    ensures var (db', created) := CreateOne(db, r, s, now).value; FindReplay(db', r) == Ok(Some(created.(replayed := true)))
  {
    AdmittedIsRecorded(db, r, s, now);
    hide Grounded, SameBindings;
  }

  /** Any single request admitted with a deadline is refused when it is sent again after that deadline, although it is on
      record. */
  lemma LateRepeatIsRefused(db: Db, r: Request, s: Surroundings, p: Process, now: Time, p': Process, later: Time)
    requires CreateBatch(db, [Item(r, s)], p, now).Ok? && p'.operatorAuth && p'.serialized
    requires r.authorityExpiresAt.Some? && r.authorityExpiresAt.value <= p'.wallClock
    ensures var db' := CreateBatch(db, [Item(r, s)], p, now).value.0;
      OnRecord(db', Item(r, s)) && CreateBatch(db', [Item(r, s)], p', later) == Err("COMMAND_EXPIRED")
  {
    var items := [Item(r, s)];
    hide CreateOne;
    LoneRequest(db, r, s, p, now);
    AdmittedIsRecorded(db, r, s, now);
    RepeatedBatch(CreateOne(db, r, s, now).value.0, items, p', later);
    assert AnyDeadlinePassed(items, p'.wallClock) by { assert items[0].request.authorityExpiresAt.value <= p'.wallClock; }
  }

  lemma AdmittedIsRecorded(db: Db, r: Request, s: Surroundings, now: Time)
    requires CreateOne(db, r, s, now).Ok?
    ensures OnRecord(CreateOne(db, r, s, now).value.0, Item(r, s))
  {
    hide Ineligible, InvalidPlan, ResolveAuthority, InvalidAdapter, IssuePermit;
    if FindReplay(db, r) == Ok(None) {
      assert Grounded(db, r, s, now).Ok?;
      GroundsName(db, r, s, now);
      hide Grounded;
    }
  }

  lemma GroundsName(db: Db, r: Request, s: Surroundings, now: Time)
    requires Grounded(db, r, s, now).Ok?
    ensures var g := Grounded(db, r, s, now).value;
      && g.binding.revision == r.revision && g.binding.planId == Some(r.planId) && r.planId in db.plans && g.binding.authority == r.authority
      && g.binding.decisionId == r.decisionId && g.binding.canaryId == r.canaryId
  {
    hide Ineligible, InvalidAdapter, IssuePermit;
  }

  const RECORDED_PLAN := FormPlan(1, 1, "", "", "", "", "", "", None, None, false, None, None, 0, 9, [], None, None)
  const RECORDED_BINDING := Binding("key", "", 1, Some("plan"), None, None, None, None, None, None, None, None, false, None, None,
                                    ExplicitOperator, None, None, None, None)
  const RECORDED_COMMAND := Command(1, AttemptId(1, 1), CommandPending, None, None, None)
  const RECORDED := Db(map[], map[], map["plan" := RECORDED_PLAN], map[AttemptId(1, 1) := NewAttempt(RECORDED_BINDING)], map[],
                       map["key" := RECORDED_COMMAND], {}, map[], map[], map[], map[], map[], map[])

  /** A recorded request whose deadline was five, sent again at five. */
  lemma RepeatAtDeadlineIsRefused(s: Surroundings)
    requires s.clientRelease.None?
    ensures var items := [Item(Request(1, "key", 1, "plan", Some(5), ExplicitOperator, None, None), s)];
      OnRecord(RECORDED, items[0]) && CreateBatch(RECORDED, items, Process(true, true, 5), 5) == Err("COMMAND_EXPIRED")
  {
    var items := [Item(Request(1, "key", 1, "plan", Some(5), ExplicitOperator, None, None), s)];
    assert OnRecord(RECORDED, items[0]);
    assert items[0].request.authorityExpiresAt.Some? && AnyDeadlinePassed(items, 5);
    RepeatedBatch(RECORDED, items, Process(true, true, 5), 5);
  }
}
