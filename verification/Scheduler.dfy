/** The archive scan scheduler: closure state changed by start, stop, run-now, timer firings and the steps of a scanning pass,
    which the other calls may interleave with at every await. */
module Scheduler {
  import opened Wrappers

  // Milliseconds and counts already clamped to be non-negative.
  datatype Config = Config(enabled: bool, delay: nat, attempts: nat, interval: nat)

  // A pass awaits the group listing and then one group after another.
  datatype Pass =
    | Listing
    | Scanning(left: nat, groups: nat, messages: nat, paginated: bool, error: Option<string>)

  datatype Diagnostics = Diagnostics(groups: nat, messages: nat, paginated: Option<bool>, error: Option<string>)

  // `timer` is the handle the closure keeps; `pending` holds the timers the host will still fire, whether or not a handle
  // to them is left. `passes` holds the passes begun and not finished; `begun` counts all that ever began.
  datatype State = State(
    active: bool, running: bool, timer: Option<nat>, pending: set<nat>, nextTimer: nat, remaining: nat, passes: seq<Pass>, begun: nat,
    last: Diagnostics)

  datatype Scan = Scan(messages: int, paginationLost: bool, error: Option<string>)

  datatype Event =
    | Start
    | Stop
    | RunNow
    | TimerFires(timer: nat)
    | Listed(i: nat, groups: Result<nat, string>)   // the watched groups, or why listing them failed
    | Scanned(i: nat, scan: Scan)

  // ---------- the closure functions ----------

  function ScheduleNext(c: Config, s: State): State {
    if !s.active || s.timer.Some? then s
    else
      var next := if s.remaining > 0 then c.delay else c.interval;
      if next == 0 then s.(active := false)
      else s.(timer := Some(s.nextTimer), pending := s.pending + {s.nextTimer}, nextTimer := s.nextTimer + 1)
  }

  function RunPass(s: State): State {
    if !s.active || s.running then s
    else
      s.(running := true, remaining := if s.remaining > 0 then s.remaining - 1 else 0, passes := s.passes + [Listing], begun := s.begun + 1)
  }

  function Finish(c: Config, s: State, i: nat, d: Diagnostics): State
    requires i < |s.passes|
  {
    ScheduleNext(c, s.(running := false, passes := s.passes[..i] + s.passes[i + 1..], last := d))
  }

  function Report(p: Pass): Diagnostics
    requires p.Scanning?
  {
    Diagnostics(p.groups, p.messages, Some(p.paginated), p.error)
  }

  // The loop head: stop when every group is done or the scheduler was stopped meanwhile.
  function Continue(c: Config, s: State, i: nat, p: Pass): State
    requires i < |s.passes| && p.Scanning?
  {
    if p.left == 0 || !s.active then Finish(c, s, i, Report(p)) else s.(passes := s.passes[i := p])
  }

  function AfterScan(p: Pass, scan: Scan): Pass
    requires p.Scanning? && p.left > 0
  {
    Scanning(p.left - 1, p.groups, p.messages + (if scan.messages > 0 then scan.messages else 0),
             p.paginated && !scan.paginationLost, if scan.error.Some? then scan.error else p.error)
  }

  predicate Enabled(s: State, e: Event) {
    match e
    case TimerFires(timer) => timer in s.pending
    case Listed(i, _) => i < |s.passes| && s.passes[i].Listing?
    case Scanned(i, _) => i < |s.passes| && s.passes[i].Scanning? && s.passes[i].left > 0
    case _ => true
  }

  function Apply(c: Config, s: State, e: Event): State
    requires Enabled(s, e)
  {
    match e
    case Start => if !c.enabled || s.active then s else ScheduleNext(c, s.(active := true, remaining := c.attempts))
    case Stop => s.(active := false, timer := None, pending := if s.timer.Some? then s.pending - {s.timer.value} else s.pending)
    case RunNow => if !c.enabled then s else RunPass(s.(active := true))
    case TimerFires(timer) => RunPass(s.(timer := None, pending := s.pending - {timer}))
    case Listed(i, groups) =>
      if groups.Err? then Finish(c, s, i, Diagnostics(0, 0, Some(true), Some(groups.error)))
      else Continue(c, s, i, Scanning(groups.value, groups.value, 0, true, None))
    case Scanned(i, scan) => Continue(c, s, i, AfterScan(s.passes[i], scan))
  }

  function Fresh(c: Config): State { State(false, false, None, {}, 0, c.attempts, [], 0, Diagnostics(0, 0, None, None)) }

  // ---------- the scheduler itself ----------

  class ArchiveScanScheduler {
    const config: Config
    var active: bool
    var running: bool
    var timer: Option<nat>
    var pending: set<nat>
    var nextTimer: nat
    var remaining: nat
    var passes: seq<Pass>
    var begun: nat
    var last: Diagnostics

    function Now(): State
      reads this
    {
      State(active, running, timer, pending, nextTimer, remaining, passes, begun, last)
    }

    constructor (config: Config)
      ensures this.config == config && Now() == Fresh(config)
    {
      this.config := config;
      active, running, timer, pending, nextTimer, remaining := false, false, None, {}, 0, config.attempts;
      passes, begun, last := [], 0, Diagnostics(0, 0, None, None);
    }

    method ScheduleAnother()
      modifies this
      ensures Now() == ScheduleNext(config, old(Now()))
    {
      if !active || timer.Some? { return; }
      var next := if remaining > 0 then config.delay else config.interval;
      if next == 0 {
        active := false;
        return;
      }
      timer, pending, nextTimer := Some(nextTimer), pending + {nextTimer}, nextTimer + 1;
    }

    method BeginPass()
      modifies this
      ensures Now() == RunPass(old(Now()))
    {
      if !active || running { return; }
      running := true;
      if remaining > 0 { remaining := remaining - 1; }
      passes, begun := passes + [Listing], begun + 1;
    }

    method EndPass(i: nat, d: Diagnostics)
      requires i < |passes|
      modifies this
      ensures Now() == Finish(config, old(Now()), i, d)
    {
      running := false;
      passes, last := passes[..i] + passes[i + 1..], d;
      ScheduleAnother();
    }

    method Handle(e: Event)
      requires Enabled(Now(), e)
      modifies this
      ensures Now() == Apply(config, old(Now()), e)
    {
      match e
      case Start =>
        if config.enabled && !active {
          active, remaining := true, config.attempts;
          ScheduleAnother();
        }
      case Stop =>
        active := false;
        if timer.Some? {
          pending := pending - {timer.value};
          timer := None;
        }
      case RunNow =>
        if config.enabled {
          active := true;
          BeginPass();
        }
      case TimerFires(fired) =>
        pending := pending - {fired};
        timer := None;
        BeginPass();
      case Listed(i, groups) =>
        if groups.Err? {
          EndPass(i, Diagnostics(0, 0, Some(true), Some(groups.error)));
        } else {
          LoopHead(i, Scanning(groups.value, groups.value, 0, true, None));
        }
      case Scanned(i, scan) =>
        LoopHead(i, AfterScan(passes[i], scan));
    }

    method LoopHead(i: nat, p: Pass)
      requires i < |passes| && p.Scanning?
      modifies this
      ensures Now() == Continue(config, old(Now()), i, p)
    {
      if p.left == 0 || !active {
        EndPass(i, Report(p));
      } else {
        passes := passes[i := p];
      }
    }
  }

  // ---------- every run ----------

  function Run(c: Config, s: State, events: seq<Event>): State
    decreases |events|
  {
    if events == [] then s else Run(c, if Enabled(s, events[0]) then Apply(c, s, events[0]) else s, events[1..])
  }

  ghost predicate Inv(s: State) {
    && |s.passes| <= 1 && (s.running <==> |s.passes| == 1)
    && s.pending == (if s.timer.Some? then {s.timer.value} else {})
    && (s.timer.Some? ==> s.active) && (s.active ==> s.timer.Some? || s.running)
    && forall i :: 0 <= i < |s.passes| && s.passes[i].Scanning? ==> s.passes[i].left > 0
  }

  lemma FinishKeeps(c: Config, s: State, i: nat, d: Diagnostics)
    requires Inv(s) && i < |s.passes|
    ensures Inv(Finish(c, s, i, d))
  {
    assert s.passes[..i] + s.passes[i + 1..] == [];
  }

  lemma ContinueKeeps(c: Config, s: State, i: nat, p: Pass)
    requires Inv(s) && i < |s.passes| && p.Scanning?
    ensures Inv(Continue(c, s, i, p))
  {
    if p.left == 0 || !s.active { FinishKeeps(c, s, i, Report(p)); }
    hide Finish;
  }

  lemma StepKeeps(c: Config, s: State, e: Event)
    requires Inv(s) && Enabled(s, e)
    ensures Inv(Apply(c, s, e))
  {
    hide Finish, Continue;
    match e
    case Listed(i, groups) =>
      if groups.Err? {
        FinishKeeps(c, s, i, Diagnostics(0, 0, Some(true), Some(groups.error)));
      } else {
        ContinueKeeps(c, s, i, Scanning(groups.value, groups.value, 0, true, None));
      }
    case Scanned(i, scan) => ContinueKeeps(c, s, i, AfterScan(s.passes[i], scan));
    case _ =>
  }

  /** In every run at most one pass is under way, the host has no timer pending but the one the handle names, a pending timer
      means the scheduler is active, and between events an active scheduler is waiting for a timer or for a pass. */
  lemma RunsStayOrderly(c: Config, events: seq<Event>)
    ensures var s := Run(c, Fresh(c), events);
      && |s.passes| <= 1 && (s.running <==> |s.passes| == 1) && |s.pending| == (if s.timer.Some? then 1 else 0)
      && (s.pending != {} ==> s.active) && (s.active ==> s.pending != {} || s.running)
  {
    FreshIsOrderly(c);
    RunKeeps(c, Fresh(c), events);
    hide Run;
  }

  lemma FreshIsOrderly(c: Config)
    ensures Inv(Fresh(c)) && Quiet(Fresh(c))
  {
  }

  lemma {:induction false} RunKeeps(c: Config, s: State, events: seq<Event>)
    requires Inv(s)
    ensures Inv(Run(c, s, events))
    decreases |events|
  {
    if events != [] {
      if Enabled(s, events[0]) { StepKeeps(c, s, events[0]); }
      RunKeeps(c, if Enabled(s, events[0]) then Apply(c, s, events[0]) else s, events[1..]);
    }
  }

  // ---------- an uninterrupted start ----------

  predicate Internal(e: Event) { e.TimerFires? || e.Listed? || e.Scanned? }

  predicate Uninterrupted(events: seq<Event>) { forall i :: 0 <= i < |events| ==> Internal(events[i]) }

  // No timer is pending and no pass is under way.
  predicate Quiet(s: State) { s.pending == {} && !s.running }

  // Passes begun and attempts left always add up; a quiet scheduler has used them all and is no longer active.
  ghost predicate Budgeted(c: Config, s: State, from: nat) {
    && Inv(s) && s.begun + s.remaining == from + c.attempts && (s.timer.Some? ==> !s.running && s.remaining > 0)
    && (Quiet(s) ==> !s.active && s.remaining == 0) && (s.running ==> s.active)
  }

  lemma StartIsBudgeted(c: Config, s: State)
    requires Inv(s) && Quiet(s) && c.enabled && c.interval == 0 && c.delay > 0
    ensures Budgeted(c, Apply(c, s, Start), s.begun)
  {
  }

  lemma InternalStepIsBudgeted(c: Config, s: State, e: Event, from: nat)
    requires Budgeted(c, s, from) && c.interval == 0 && c.delay > 0 && Internal(e) && Enabled(s, e)
    ensures Budgeted(c, Apply(c, s, e), from)
  {
  }

  lemma {:induction false} RunIsBudgeted(c: Config, s: State, events: seq<Event>, from: nat)
    requires Budgeted(c, s, from) && c.interval == 0 && c.delay > 0 && Uninterrupted(events)
    ensures Budgeted(c, Run(c, s, events), from)
    decreases |events|
  {
    if events != [] {
      hide Budgeted, Apply;
      var s' := if Enabled(s, events[0]) then Apply(c, s, events[0]) else s;
      if Enabled(s, events[0]) { InternalStepIsBudgeted(c, s, events[0], from); }
      RunIsBudgeted(c, s', events[1..], from);
    }
  }

  // What is left to happen, most significant first: attempts, then how far the pass is, then groups.
  function Work(s: State): (nat, nat, nat) {
    (s.remaining,
     if s.passes == [] then 0 else if s.passes[0].Listing? then 2 else 1,
     if s.passes != [] && s.passes[0].Scanning? then s.passes[0].left else 0)
  }

  predicate Below(x: (nat, nat, nat), y: (nat, nat, nat)) {
    x.0 < y.0 || (x.0 == y.0 && (x.1 < y.1 || (x.1 == y.1 && x.2 < y.2)))
  }

  lemma InternalStepDoesWork(c: Config, s: State, e: Event, from: nat)
    requires Budgeted(c, s, from) && Internal(e) && Enabled(s, e)
    ensures Below(Work(Apply(c, s, e)), Work(s))
  {
  }

  // The event that comes next when nobody interferes, with passes that find nothing.
  function Next(s: State): Event {
    if s.timer.Some? then TimerFires(s.timer.value)
    else if s.passes != [] && s.passes[0].Scanning? then Scanned(0, Scan(0, false, None))
    else Listed(0, Ok(0))
  }

  lemma {:induction false} BecomesQuiet(c: Config, s: State, from: nat) returns (events: seq<Event>)
    requires Budgeted(c, s, from) && c.interval == 0 && c.delay > 0
    ensures Uninterrupted(events) && Quiet(Run(c, s, events))
    decreases Work(s).0, Work(s).1, Work(s).2
  {
    if Quiet(s) {
      events := [];
    } else {
      var e := Next(s);
      assert Internal(e) && Enabled(s, e);
      InternalStepIsBudgeted(c, s, e, from);
      InternalStepDoesWork(c, s, e, from);
      var s' := Apply(c, s, e);
      var rest := BecomesQuiet(c, s', from);
      events := [e] + rest;
      assert events[1..] == rest;
    }
  }

  /** With no interval and a positive delay, a start that nobody interrupts makes exactly the configured number of passes: never
      more, and exactly that many once it is quiet, when it is no longer active. Every step uses up work, so it does become
      quiet, and it can from any point. */
  lemma ExactlyTheConfiguredPasses(c: Config, s: State, events: seq<Event>) returns (more: seq<Event>)
    requires c.enabled && c.interval == 0 && c.delay > 0 && Inv(s) && Quiet(s) && Uninterrupted(events)
    ensures var s' := Run(c, Apply(c, s, Start), events);
      && s'.begun <= s.begun + c.attempts
      && (Quiet(s') ==> s'.begun == s.begun + c.attempts && !s'.active)
      && (forall e :: Internal(e) && Enabled(s', e) ==> Below(Work(Apply(c, s', e)), Work(s')))
      && Uninterrupted(more) && Quiet(Run(c, s', more))
  {
    StartIsBudgeted(c, s);
    RunIsBudgeted(c, Apply(c, s, Start), events, s.begun);
    var s' := Run(c, Apply(c, s, Start), events);
    forall e | Internal(e) && Enabled(s', e) ensures Below(Work(Apply(c, s', e)), Work(s')) { InternalStepDoesWork(c, s', e, s.begun); }
    more := BecomesQuiet(c, s', s.begun);
    hide Run, Apply, Work, Below, Enabled;
  }

  // ---------- what a pass reports ----------

  function Sum(scans: seq<Scan>): nat {
    if scans == [] then 0
    else Sum(scans[..|scans| - 1]) + if scans[|scans| - 1].messages > 0 then scans[|scans| - 1].messages else 0
  }

  // One group after another, the scheduler staying active.
  function ScanAll(p: Pass, scans: seq<Scan>): Pass
    requires p.Scanning? && p.left >= |scans|
    ensures ScanAll(p, scans).Scanning? && ScanAll(p, scans).left == p.left - |scans|
  {
    if scans == [] then p else AfterScan(ScanAll(p, scans[..|scans| - 1]), scans[|scans| - 1])
  }

  /** A pass that scans its groups adds up their messages, notices any lost pagination and keeps an error if any scan had one. */
  lemma {:induction false} PassAddsUp(groups: nat, scans: seq<Scan>)
    requires |scans| <= groups
    ensures var d := Report(ScanAll(Scanning(groups, groups, 0, true, None), scans));
      && d.groups == groups && d.messages == Sum(scans)
      && (d.paginated == Some(false) <==> exists i :: 0 <= i < |scans| && scans[i].paginationLost)
      && (d.error.Some? <==> exists i :: 0 <= i < |scans| && scans[i].error.Some?)
    decreases |scans|
  {
    if scans != [] {
      var init := scans[..|scans| - 1];
      PassAddsUp(groups, init);
      assert forall i :: 0 <= i < |init| ==> scans[i] == init[i];
      assert forall i :: 0 <= i < |scans| ==> i == |scans| - 1 || scans[i] == init[i];
    }
  }

  // ---------- what calls may not do ----------

  /** A scheduler that is not enabled never begins a pass or waits for one, whatever it is asked. */
  lemma {:induction false} DisabledStaysIdle(c: Config, s: State, events: seq<Event>)
    requires !c.enabled && Inv(s) && Quiet(s) && !s.active
    ensures var s' := Run(c, s, events); s'.begun == s.begun && Quiet(s') && !s'.active
    decreases |events|
  {
    if events != [] {
      var s1 := if Enabled(s, events[0]) then Apply(c, s, events[0]) else s;
      if Enabled(s, events[0]) { StepKeeps(c, s, events[0]); }
      DisabledStaysIdle(c, s1, events[1..]);
    }
  }

  /** Starting again while active, and asking for a pass during one, change nothing that is under way. */
  lemma RepeatedCallsAreHarmless(c: Config, s: State)
    ensures s.active ==> Apply(c, s, Start) == s
    ensures s.running ==> Apply(c, s, RunNow) == (if c.enabled then s.(active := true) else s)
  {
  }

  /** A pass that ends, because its groups are done or the scheduler was stopped meanwhile, leaves a timer exactly when the scheduler is
      active and the wait that applies, between attempts or between rounds, is not zero; with a zero wait the scheduler goes inactive. */
  lemma EndedPassSchedules(c: Config, s: State, i: nat, scan: Scan)
    requires Inv(s) && Enabled(s, Scanned(i, scan)) && (s.passes[i].left == 1 || !s.active) && s.timer.None?
    ensures var s' := Apply(c, s, Scanned(i, scan));
      && s'.passes == [] && !s'.running
      && (s'.timer.Some? <==> s.active && (if s.remaining > 0 then c.delay else c.interval) != 0) && (s'.active <==> s'.timer.Some?)
  {
  }
}
