/** What stands behind an irreversible step, over whole runs: an admission of that very attempt that met every rule at the time. */
module ReviewedRuns {
  import opened Wrappers
  import opened Records
  import opened Database
  import opened Admission
  import opened Mutations
  import opened Protocol
  import opened ProtocolChecks
  import opened ProtocolRuns
  import opened AdmissionRules
  import CommitRules
  import AutopilotCommits

  // The step admits a batch whose request number m, when its turn comes, is admissible and gets this attempt.
  ghost predicate Admits(db: Db, e: Event, now: Time, m: nat, id: AttemptId) {
    e.Admit? && AdmitsAt(db, InApplicationOrder(e.items), now, m, id)
  }

  ghost predicate AdmitsAt(db: Db, items: seq<Item>, now: Time, m: nat, id: AttemptId) {
    && m < |items| && CreateAll(db, items[..m], now).Ok?
    && var reached := CreateAll(db, items[..m], now).value.0;
       var r, s := items[m].request, items[m].surroundings;
       && s.clientRelease.None? && Admissible(reached, r, s, now) && r.appId == id.app
       && CreateOne(reached, r, s, now).Ok? && CreateOne(reached, r, s, now).value.1.attempt == id
       && id !in reached.attempts
  }

  lemma OneAdmits(db: Db, item: Item, now: Time, id: AttemptId)
    requires CreateOne(db, item.request, item.surroundings, now).Ok?
    requires id !in db.attempts && id in CreateOne(db, item.request, item.surroundings, now).value.0.attempts
    ensures item.surroundings.clientRelease.None? && Admissible(db, item.request, item.surroundings, now)
    ensures item.request.appId == id.app && CreateOne(db, item.request, item.surroundings, now).value.1.attempt == id
  {
    AdmittedExactlyWhenAdmissible(db, item.request, item.surroundings, now);
    hide Admissible, BindingWritten, PermitWritten, CreateOne;
    if CreateOne(db, item.request, item.surroundings, now).value.1.replayed {
      AutopilotCommits.ReplayIsSame(db, item.request, item.surroundings, now);
    }
  }

  lemma {:induction false} BatchAdmits(db: Db, items: seq<Item>, now: Time, id: AttemptId) returns (m: nat)
    requires CreateAll(db, items, now).Ok? && id !in db.attempts && id in CreateAll(db, items, now).value.0.attempts
    ensures AdmitsAt(db, items, now, m, id)
    decreases |items|
  {
    hide CreateOne, Admissible;
    var db' := CreateOne(db, items[0].request, items[0].surroundings, now).value.0;
    if id in db'.attempts {
      OneAdmits(db, items[0], now, id);
      m := 0;
      assert items[..0] == [];
    } else {
      var n := BatchAdmits(db', items[1..], now, id);
      m := n + 1;
      assert items[..m][1..] == items[1..][..n] && items[m] == items[1..][n];
    }
  }

  lemma StepAdmits(db: Db, e: Event, now: Time, id: AttemptId) returns (m: nat)
    requires id !in db.attempts && id in Step(db, e, now).attempts
    ensures Admits(db, e, now, m, id)
  {
    hide CreateAll, InApplicationOrder, BatchRefusal, RecordStep, AdmitsAt;
    if e.Admit? {
      m := BatchAdmits(db, InApplicationOrder(e.items), now, id);
    } else {
      hide Step;
      AutopilotCommits.OnlyAdmissionAddsAttempts(db, e, now);
    }
  }

  /** Every attempt in any state of any run was admitted by an earlier step of it, when its request met every rule of admission. */
  lemma {:induction false} EveryAttemptWasAdmissible(states: seq<Db>, events: seq<Event>, times: seq<Time>, j: nat, id: AttemptId)
    returns (i: nat, m: nat)
    requires IsRun(states, events, times) && states[0].attempts == map[] && j < |states| && id in states[j].attempts
    ensures i < j && Admits(states[i], events[i], times[i], m, id)
    decreases j
  {
    hide Step, Admits;
    if id in states[j - 1].attempts {
      i, m := EveryAttemptWasAdmissible(states, events, times, j - 1, id);
    } else {
      i := j - 1;
      m := StepAdmits(states[i], events[i], times[i], id);
    }
  }

  /** No run takes an attempt across the irreversible boundary unless it was admitted before under every rule of admission and its
      worker now meets every guard of the boundary, the governor's included. */
  lemma EveryCommitWasReviewed(states: seq<Db>, events: seq<Event>, times: seq<Time>, j: nat, id: AttemptId) returns (i: nat, m: nat)
    requires IsRun(states, events, times) && states[0].attempts == map[] && j < |events|
    requires id in states[j].attempts && states[j].attempts[id].stage != Committing
    requires id in states[j + 1].attempts && states[j + 1].attempts[id].stage == Committing
    ensures events[j].Commit? && CommitRules.MayCommit(states[j], id, events[j].boundary, times[j])
    ensures i < j && Admits(states[i], events[i], times[i], m, id)
  {
    hide Step, Admits, CommitRules.MayCommit, CommitRules.CommittedRows;
    CommitRules.CommitsExactlyWhenGuarded(states[j], events[j], times[j], id);
    i, m := EveryAttemptWasAdmissible(states, events, times, j, id);
  }
}
