/** The private tables as one value, with the queries the services run against them. */
module Database {
  import opened Wrappers
  import opened Records
  import opened ReviewGrants

  // A locally signed policy revision; at most one row occupies the active slot.
  datatype Policy = Policy(active: bool, revokedAt: Option<Time>, revokedBy: Option<string>, revocationReason: Option<Reason>)

  datatype InspectionState = InspectionQueued | InspectionRunning | InspectionFinished

  datatype Inspection = Inspection(
    applicationId: Id, state: InspectionState, reason: Option<Reason>, claimedAt: Option<Time>,
    leaseExpiresAt: Option<Time>, token: Option<string>, finishedAt: Option<Time>)

  datatype Db = Db(
    applications: map<Id, Application>, jobs: map<Id, Job>, plans: map<string, FormPlan>,
    attempts: map<AttemptId, Attempt>, permits: map<AttemptId, Permit>, commands: map<string, Command>,
    evidence: set<EvidenceRow>, decisions: map<Id, PolicyDecision>, canaries: map<Id, Canary>,
    qualifications: map<Id, Qualification>, grants: map<Id, Grant>, policies: map<Id, Policy>,
    inspections: map<Id, Inspection>)

  // No attempt is added or removed, and the qualification tables are as they were.
  ghost predicate Framed(db: Db, db': Db) {
    (forall id :: id in db'.attempts <==> id in db.attempts) && db'.canaries == db.canaries && db'.qualifications == db.qualifications
  }

  // Some attempt of the application ended in a way that can never be retried.
  predicate HasImmutableAttempt(db: Db, app: Id) {
    exists id :: id in db.attempts && id.app == app && IsImmutable(db.attempts[id].outcome)
  }

  predicate HasUnfinishedAttempt(db: Db, app: Id) {
    exists id :: id in db.attempts && id.app == app && db.attempts[id].stage != Finished
  }

  // The highest attempt number of the application, zero when it has none.
  ghost predicate IsLastNumber(attempts: map<AttemptId, Attempt>, app: Id, n: nat) {
    && (n == 0 || AttemptId(app, n) in attempts)
    && forall id :: id in attempts && id.app == app ==> id.number <= n
  }

  function LastNumber(attempts: map<AttemptId, Attempt>, app: Id): (n: nat)
    ensures IsLastNumber(attempts, app, n)
  {
    var numbers := set id | id in attempts && id.app == app :: id.number;
    assert forall id :: id in attempts && id.app == app ==> id.number in numbers;
    Largest(numbers)
  }

  function Largest(s: set<nat>): (n: nat)
    ensures n == 0 || n in s
    ensures forall x :: x in s ==> x <= n
  {
    if s == {} then 0
    else
      LargestExists(s);
      var m :| m in s && forall x :: x in s ==> x <= m;
      m
  }

  lemma LargestExists(s: set<nat>)
    requires s != {}
    ensures exists m :: m in s && forall x :: x in s ==> x <= m
  {
    var m := FindLargest(s);
  }

  lemma {:induction false} FindLargest(s: set<nat>) returns (m: nat)
    requires s != {}
    ensures m in s && forall x :: x in s ==> x <= m
    decreases |s|
  {
    var a :| a in s;
    var others := s - {a};
    if others == {} {
      assert s == {a};
      m := a;
    } else {
      var b := FindLargest(others);
      m := if a < b then b else a;
      assert s == others + {a};
    }
  }
}
