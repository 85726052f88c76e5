/** Fail-closed attempt-stage transitions and the legacy status projection. */
module Lifecycle {
  import opened Wrappers
  import opened Records

  function AllowedNext(s: Stage): set<Stage> {
    match s
    case Queued => {Inspecting, Finished}
    case Inspecting => {Preparing, Ready, Finished}
    case Preparing => {Ready, Finished}
    case Ready => {Committing, Finished}
    case Committing => {Verifying, Finished}
    case Verifying => {Finished}
    case Finished => {}
  }

  function AllowedTerminal(s: Stage): set<Outcome> {
    match s
    case Queued => {NeedsReview, FailedBeforeCommit, DraftOnly}
    case Inspecting => {AlreadyApplied, NeedsReview, FailedBeforeCommit, DraftOnly}
    case Preparing => {AlreadyApplied, NeedsReview, FailedBeforeCommit, DraftOnly}
    case Ready => {AlreadyApplied, NeedsReview, FailedBeforeCommit, DraftOnly}
    case Committing => {Unknown}
    case Verifying => {ConfirmedSubmitted, Unknown}
    case Finished => {}
  }

  predicate CanTransition(current: Stage, target: Stage, outcome: Option<Outcome>) {
    && target in AllowedNext(current)
    && if target == Finished then outcome.Some? && outcome.value in AllowedTerminal(current) else outcome.None?
  }

  function ProjectLegacyStatus(s: Stage, outcome: Option<Outcome>): Result<SubmissionStatus, Reason> {
    if s == Finished then
      match outcome
      case None => Err("finished attempts require a terminal outcome")
      case Some(ConfirmedSubmitted) => Ok(StatusSuccess)
      case Some(AlreadyApplied) => Ok(StatusFailed)
      case Some(NeedsReview) => Ok(StatusFailed)
      case Some(Unknown) => Ok(StatusUnknown)
      case Some(FailedBeforeCommit) => Ok(StatusFailed)
      case Some(DraftOnly) => Ok(StatusDraftOnly)
      case Some(OperatorConfirmed) => Ok(StatusUnknown)
      case Some(LegacyUnverified) => Ok(StatusUnknown)
    else if outcome.Some? then Err("non-finished attempts cannot have a terminal outcome")
    else if IsPreCommit(s) then Ok(StatusPending)
    else Ok(StatusRunning)
  }

  // ---------- whole paths through the tables ----------

  // A path of stages, each step allowed; only the last may be finished, with the given outcome.
  ghost predicate IsPath(path: seq<Stage>, outcome: Option<Outcome>) {
    |path| > 0
    && (forall i :: 0 <= i < |path| - 2 ==> CanTransition(path[i], path[i + 1], None))
    && (|path| >= 2 ==> CanTransition(path[|path| - 2], path[|path| - 1], outcome))
  }

  // How far along an attempt is; every allowed step goes strictly forward.
  function Progress(s: Stage): nat {
    match s
    case Queued => 0 case Inspecting => 1 case Preparing => 2 case Ready => 3
    case Committing => 4 case Verifying => 5 case Finished => 6
  }

  lemma {:induction false} PathsGoForward(path: seq<Stage>, outcome: Option<Outcome>, i: nat, j: nat)
    requires IsPath(path, outcome) && i < j < |path|
    ensures Progress(path[i]) < Progress(path[j])
    decreases j - i
  {
    if i + 1 < j { PathsGoForward(path, outcome, i + 1, j); }
    assert CanTransition(path[i], path[i + 1], None) || CanTransition(path[i], path[i + 1], outcome);
  }

  /** A path that ever committed can only finish unknown or confirmed, and only from the two stages
      behind the boundary; a path that never committed cannot finish with either. */
  lemma {:induction false} CommitDecidesOutcome(path: seq<Stage>, outcome: Option<Outcome>)
    requires IsPath(path, outcome) && |path| >= 2 && path[0] == Queued && path[|path| - 1] == Finished
    ensures outcome.Some?
    ensures Committing in path <==> outcome.value in {Unknown, ConfirmedSubmitted}
  {
    var last := |path| - 2;
    if c :| 0 <= c < |path| && path[c] == Committing {
      if c < last { PathsGoForward(path, outcome, c, last); }
      assert Progress(path[last]) >= 4;
    }
    if outcome.value in {Unknown, ConfirmedSubmitted} && path[last] == Verifying {
      assert last > 0 && CanTransition(path[last - 1], Verifying, None);
    }
  }

  /** Only an employer-confirmed finished attempt is ever shown green. */
  lemma OnlyConfirmedIsGreen(s: Stage, outcome: Option<Outcome>)
    ensures ProjectLegacyStatus(s, outcome) == Ok(StatusSuccess) <==> s == Finished && outcome == Some(ConfirmedSubmitted)
  {
  }

  /** An unfinished attempt has no outcome and is reported pending before the boundary, running behind it. */
  lemma UnfinishedProjection(s: Stage, outcome: Option<Outcome>)
    requires s != Finished
    ensures outcome.Some? ==> ProjectLegacyStatus(s, outcome).Err?
    ensures outcome.None? ==> ProjectLegacyStatus(s, outcome) == Ok(if s in {Committing, Verifying} then StatusRunning else StatusPending)
  {
  }
}
