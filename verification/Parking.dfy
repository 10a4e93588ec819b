/**
 The park protocol of `run_main` against any number of foreign threads.

 Scheduling from another thread takes two steps, a push and a notification, and so does
 `stop()`; the loop's emptiness checks and its park are separate steps too, so every
 interleaving of them is a run of this machine.  A call is known by a number; it is
 `open` between its two steps.
 */
module Parking {
  import opened Options

  datatype Point =
    | Idle                 // run_forever not entered
    | Snapshot             // top of the loop
    | Popping(left: nat)   // ready phase of the batch
    | DrainingIo           // I/O phase of the batch
    | CheckStop | CheckReady | CheckIo | CheckTimers
    | Yielding
    | ToPark               // about to await the wake-up
    | Parked
    | Stopped              // the loop is left, cleanup still to come

  datatype State = State(
    point: Point,
    ready: seq<nat>, io: seq<nat>,
    taken: seq<nat>,       // ready entries popped so far, in order
    served: seq<nat>,      // completions popped so far, in order
    stop: bool, permit: bool,
    open: set<nat>,        // calls that have pushed and not yet notified
    stopping: set<nat>,    // stop() calls of this run that have set the flag and not yet notified
    stopDone: bool,        // a stop() call of this run has finished
    next: nat)

  datatype Action =
    | PushReady | PushIo | SetStop | Notify(id: nat)   // foreign threads and watcher tasks
    | CallSoon                                         // plain call_soon from a running callback
    | RunForever | TakeSnapshot | Pop | PopIo | TestStop | TestReady | TestIo | TestTimers(due: bool)
    | Yield | Park(deadlinePassed: bool) | Timeout | Cleanup

  predicate Enabled(s: State, a: Action) {
    match a
    case PushReady => true
    case PushIo => true
    case SetStop => true
    case Notify(id) => id in s.open || id in s.stopping
    case CallSoon => s.point.Popping? || s.point.DrainingIo?
    case RunForever => s.point.Idle?
    case TakeSnapshot => s.point.Snapshot?
    case Pop => s.point.Popping?
    case PopIo => s.point.DrainingIo?
    case TestStop => s.point.CheckStop?
    case TestReady => s.point.CheckReady?
    case TestIo => s.point.CheckIo?
    case TestTimers(_) => s.point.CheckTimers?
    case Yield => s.point.Yielding?
    case Park(_) => s.point.ToPark?
    case Timeout => s.point.Parked?
    case Cleanup => s.point.Stopped?
  }

  predicate Running(s: State) {
    !s.point.Idle? && !s.point.Stopped?
  }

  /** `notify_one`: wake the parked loop, or store the one permit. */
  function Notified(s: State): State {
    if s.point.Parked? then s.(point := Snapshot) else s.(permit := true)
  }

  function Apply(s: State, a: Action): State
    requires Enabled(s, a)
  {
    match a
    case PushReady => s.(ready := s.ready + [s.next], open := s.open + {s.next}, next := s.next + 1)
    case PushIo => s.(io := s.io + [s.next], open := s.open + {s.next}, next := s.next + 1)
    case SetStop =>
      if Running(s) then s.(stop := true, stopping := s.stopping + {s.next}, next := s.next + 1)
      else s.(stop := true, open := s.open + {s.next}, next := s.next + 1)
    case Notify(id) =>
      Notified(s.(open := s.open - {id}, stopping := s.stopping - {id}, stopDone := s.stopDone || id in s.stopping))
    case CallSoon => s.(ready := s.ready + [s.next], next := s.next + 1)
    case RunForever => s.(point := Snapshot, stop := false)
    case TakeSnapshot => s.(point := Popping(|s.ready|))
    case Pop =>
      if s.point.left == 0 || s.ready == [] then s.(point := DrainingIo)
      else s.(point := Popping(s.point.left - 1), ready := s.ready[1..], taken := s.taken + [s.ready[0]])
    case PopIo =>
      if s.io == [] then s.(point := CheckStop) else s.(io := s.io[1..], served := s.served + [s.io[0]])
    case TestStop => s.(point := if s.stop then Stopped else CheckReady)
    case TestReady => s.(point := if s.ready != [] then Yielding else CheckIo)
    case TestIo => s.(point := if s.io != [] then Yielding else CheckTimers)
    case TestTimers(due) => s.(point := if due then Yielding else ToPark)
    case Yield => s.(point := Snapshot)
    case Park(deadlinePassed) =>
      if deadlinePassed then s.(point := Snapshot)
      else if s.permit then s.(point := Snapshot, permit := false)
      else s.(point := Parked)
    case Timeout => s.(point := Snapshot)
    case Cleanup => s.(point := Idle, stop := false, open := s.open + s.stopping, stopping := {}, stopDone := false)
  }

  function Initial(): State {
    State(Idle, [], [], [], [], false, false, {}, {}, false, 0)
  }

  function Exec(s: State, run: seq<Action>): Option<State>
    decreases |run|
  {
    if run == [] then Some(s)
    else if Enabled(s, run[0]) then Exec(Apply(s, run[0]), run[1..])
    else None
  }

  // ---------------------------------------------------------------------------
  // invariant
  // ---------------------------------------------------------------------------

  /** Every entry belongs to a call that has not notified yet. */
  predicate AllOpen(q: seq<nat>, open: set<nat>) {
    forall k :: 0 <= k < |q| ==> q[k] in open
  }

  predicate PastStop(p: Point) {
    p.CheckReady? || PastReady(p)
  }

  predicate PastReady(p: Point) {
    p.CheckIo? || PastIo(p)
  }

  predicate PastIo(p: Point) {
    p.CheckTimers? || p.ToPark? || p.Parked?
  }

  predicate Inv(s: State) {
    && (s.stopDone || s.stopping != {} ==> s.stop && !s.point.Idle?)
    && (PastStop(s.point) && !s.permit ==> !s.stopDone)
    && (PastReady(s.point) && !s.permit ==> AllOpen(s.ready, s.open))
    && (PastIo(s.point) && !s.permit ==> AllOpen(s.io, s.open))
    && (s.point.Parked? ==> !s.permit)
  }

  /** A step of a foreign thread. */
  predicate Foreign(a: Action) {
    a.PushReady? || a.PushIo? || a.SetStop? || a.Notify?
  }

  lemma ForeignStepKeeps(s: State, a: Action)
    requires Inv(s) && Enabled(s, a) && Foreign(a)
    ensures Inv(Apply(s, a))
  {
  }

  lemma LoopStepKeeps(s: State, a: Action)
    requires Inv(s) && Enabled(s, a) && !Foreign(a)
    ensures Inv(Apply(s, a))
  {
  }

  lemma StepKeeps(s: State, a: Action)
    requires Inv(s) && Enabled(s, a)
    ensures Inv(Apply(s, a))
  {
    if Foreign(a) {
      ForeignStepKeeps(s, a);
    } else {
      LoopStepKeeps(s, a);
    }
  }

  lemma {:induction false} RunKeeps(s: State, run: seq<Action>)
    requires Inv(s) && Exec(s, run).Some?
    ensures Inv(Exec(s, run).value)
    decreases |run|
  {
    if run != [] {
      StepKeeps(s, run[0]);
      RunKeeps(Apply(s, run[0]), run[1..]);
    }
  }

  // ---------------------------------------------------------------------------
  // results, over every run
  // ---------------------------------------------------------------------------

  /**
   No lost wake-up: while the loop is parked, every queued entry belongs to a call whose notification
   is still to come, and no stop() of this run has finished.
   */
  lemma NoLostWakeup(run: seq<Action>)
    requires Exec(Initial(), run).Some? && Exec(Initial(), run).value.point.Parked?
    ensures var s := Exec(Initial(), run).value;
            && !s.permit
            && AllOpen(s.ready, s.open) && AllOpen(s.io, s.open)
            && !s.stopDone
  {
    RunKeeps(Initial(), run);
  }

  /** And that notification ends the park: the next snapshot covers everything queued. */
  lemma NotificationEndsPark(run: seq<Action>, id: nat)
    requires Exec(Initial(), run).Some?
    requires var s := Exec(Initial(), run).value; s.point.Parked? && Enabled(s, Notify(id))
    ensures var s := Exec(Initial(), run).value;
            var woken := Exec(s, [Notify(id), TakeSnapshot]);
            && woken.Some? && woken.value.point == Popping(|s.ready|) && woken.value.ready == s.ready
  {
    var s := Exec(Initial(), run).value;
    assert [Notify(id), TakeSnapshot][1..] == [TakeSnapshot] && [TakeSnapshot][1..] == [];
    assert Exec(Apply(s, Notify(id)), [TakeSnapshot]) == Some(Apply(Apply(s, Notify(id)), TakeSnapshot));
  }

  /** The entries a run queues, in order: `ready` tells which queue. */
  function Queued(s: State, run: seq<Action>, ready: bool): seq<nat>
    requires Exec(s, run).Some?
    decreases |run|
  {
    if run == [] then []
    else (if (if ready then run[0].PushReady? || run[0].CallSoon? else run[0].PushIo?) then [s.next] else [])
         + Queued(Apply(s, run[0]), run[1..], ready)
  }

  /** No entry is dropped, repeated or overtaken: what was taken and what is queued is what was queued ever, in order. */
  lemma {:induction false} EntriesConserved(s: State, run: seq<Action>)
    requires Exec(s, run).Some?
    ensures var u := Exec(s, run).value;
            && u.taken + u.ready == s.taken + s.ready + Queued(s, run, true)
            && u.served + u.io == s.served + s.io + Queued(s, run, false)
    decreases |run|
  {
    if run != [] {
      var a, u := run[0], Apply(s, run[0]);
      EntriesConserved(u, run[1..]);
      StepConserves(s, a);
      Regroup(s.taken + s.ready, if a.PushReady? || a.CallSoon? then [s.next] else [], Queued(u, run[1..], true));
      Regroup(s.served + s.io, if a.PushIo? then [s.next] else [], Queued(u, run[1..], false));
    }
  }

  lemma Regroup(a: seq<nat>, b: seq<nat>, c: seq<nat>)
    ensures (a + b) + c == a + (b + c)
  {
  }

  lemma StepConserves(s: State, a: Action)
    requires Enabled(s, a)
    ensures var u := Apply(s, a);
            && u.taken + u.ready == s.taken + s.ready + (if a.PushReady? || a.CallSoon? then [s.next] else [])
            && u.served + u.io == s.served + s.io + (if a.PushIo? then [s.next] else [])
  {
    if a.Pop? && s.ready != [] {
      assert s.ready == [s.ready[0]] + s.ready[1..];
      Regroup(s.taken, [s.ready[0]], s.ready[1..]);
    } else if a.PopIo? && s.io != [] {
      assert s.io == [s.io[0]] + s.io[1..];
      Regroup(s.served, [s.io[0]], s.io[1..]);
    }
  }

  /** A batch takes the entries of its snapshot, unless fewer are there, and then all completions before it looks for a stop. */
  lemma BatchTakesSnapshot(s: State, a: Action)
    requires Enabled(s, a)
    ensures var u := Apply(s, a);
            && (a.TakeSnapshot? ==> u.point == Popping(|s.ready|))
            && (s.point.Popping? && a.Pop? ==>
                  if 0 < s.point.left && s.ready != [] then u.point == Popping(s.point.left - 1) && |u.taken| == |s.taken| + 1
                  else u.point == DrainingIo)
            && (u.point.CheckStop? && !s.point.CheckStop? ==> u.io == [])
  {
  }

  lemma ExecCons(s: State, a: Action, rest: seq<Action>)
    requires Enabled(s, a)
    ensures Exec(s, [a] + rest) == Exec(Apply(s, a), rest)
  {
    var run := [a] + rest;
    assert run[0] == a && run[1..] == rest;
  }

  /** The steps of an iteration that finds nothing to do, up to the look at the timers. */
  function IdleIteration(): seq<Action> {
    [TakeSnapshot] + ([Pop] + ([PopIo] + ([TestStop] + ([TestReady] + ([TestIo] + [])))))
  }

  lemma IdleReachesTimers(s: State)
    requires s.point.Snapshot? && s.ready == [] && s.io == [] && !s.stop
    ensures Exec(s, IdleIteration()) == Some(s.(point := CheckTimers))
  {
    var s1 := s.(point := Popping(0));
    var s2, s3 := s.(point := DrainingIo), s.(point := CheckStop);
    var s4, s5 := s.(point := CheckReady), s.(point := CheckIo);
    ExecCons(s, TakeSnapshot, [Pop] + ([PopIo] + ([TestStop] + ([TestReady] + ([TestIo] + [])))));
    ExecCons(s1, Pop, [PopIo] + ([TestStop] + ([TestReady] + ([TestIo] + []))));
    ExecCons(s2, PopIo, [TestStop] + ([TestReady] + ([TestIo] + [])));
    ExecCons(s3, TestStop, [TestReady] + ([TestIo] + []));
    ExecCons(s4, TestReady, [TestIo] + []);
    ExecCons(s5, TestIo, []);
  }

  /**
   An idle loop sleeps: with nothing queued, no stop requested, no timer due and no wake-up stored, the
   iteration ends parked.  A due timer or a stored wake-up keeps it awake instead.
   */
  lemma IdleLoopParks(s: State, due: bool)
    requires s.point.Snapshot? && s.ready == [] && s.io == [] && !s.stop
    ensures var u := Exec(s, IdleIteration());
            && u.Some? && Enabled(u.value, TestTimers(due))
            && var v := Apply(u.value, TestTimers(due));
            && (due ==> Enabled(v, Yield) && Apply(v, Yield) == s)
            && (!due ==>
                  && Enabled(v, Park(false))
                  && Apply(v, Park(false)) == if s.permit then s.(permit := false) else s.(point := Parked))
  {
    IdleReachesTimers(s);
  }

  /** Whatever is queued when the loop looks keeps it from parking. */
  lemma WorkKeepsAwake(s: State)
    requires (s.point.CheckReady? && s.ready != []) || (s.point.CheckIo? && s.io != [])
    ensures var a := if s.point.CheckReady? then TestReady else TestIo;
            && Enabled(s, a) && Enabled(Apply(s, a), Yield)
            && Apply(Apply(s, a), Yield) == s.(point := Snapshot)
  {
  }

  /** A deadline that passes wakes the parked loop, and a run that was stopped can be followed by another. */
  lemma SleepAndRunEnd(s: State, a: Action)
    requires Enabled(s, a)
    ensures a.Timeout? ==> Apply(s, a) == s.(point := Snapshot)
    ensures a.Cleanup? ==>
              var u := Apply(s, a);
              Enabled(u, RunForever) && !u.stop && !u.stopDone && u.stopping == {} && u.ready == s.ready && u.io == s.io
  {
  }

  /** A stop() of a running loop stays requested until the run is over. */
  lemma StopStays(s: State, a: Action)
    requires Enabled(s, a)
    ensures a.SetStop? ==> Apply(s, a).stop
    ensures s.stop && !a.Cleanup? && !a.RunForever? ==> Apply(s, a).stop
    ensures !s.stop && !a.SetStop? ==> !Apply(s, a).stop
  {
  }

  /** A stop() seen at the end of a batch ends the run, and only that does. */
  lemma StopEndsIff(s: State, a: Action)
    requires Inv(s) && Enabled(s, a) && !s.point.Stopped?
    ensures Apply(s, a).point.Stopped? <==> a.TestStop? && s.stop
  {
  }

  /** A stop() issued before run_forever leaves no trace but a spare permit: the flag is reset on entry. */
  lemma EarlyStopIsDiscarded(run: seq<Action>)
    requires Exec(Initial(), run).Some? && Enabled(Exec(Initial(), run).value, RunForever)
    ensures var s := Apply(Exec(Initial(), run).value, RunForever); !s.stop && !s.stopDone && s.stopping == {}
  {
    RunKeeps(Initial(), run);
  }
}
