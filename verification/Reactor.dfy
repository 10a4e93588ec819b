/**
 Callback-mode watchers: level-triggered readiness on top of edge-triggered flags.

 Any number of descriptors, registrations and watcher tasks share one completion queue.
 A step of a task runs from one await to the next; the window between the poll that finds
 nothing and the clearing of the flag is a step of its own, in which only the kernel can
 act (`busy`).  Callbacks may issue any registry request, including against themselves.
 */
module Reactor {
  import opened Options
  import opened Watchers

  /**
   Fresh     spawned, priming poll still to come
   Parked    awaiting readiness
   Waiting   completion pushed, awaiting the rendezvous
   Clearing  the poll after the callback found nothing; the flag is not yet cleared
   Finished  returned or aborted
   */
  datatype Point = Fresh | Parked | Waiting | Clearing | Finished

  /**
   guard        tick of the readiness guard held, if any
   edge         an edge is queued in the driver
   flag, tick   Tokio's readiness flag and the number of events delivered, of either direction
   permit       the rendezvous holds a permit
   lastGuard    tick of the latest guard taken
   */
  datatype Task = Task(
    point: Point, guard: Option<nat>, edge: bool, flag: bool, tick: nat, permit: bool,
    lastGuard: nat)

  datatype State = State(
    reg: Registry,
    tasks: seq<Task>,                 // one per slot
    ready: set<(int, Direction)>,     // directions the kernel would report ready now
    io: seq<nat>,                     // queued completions, by slot
    running: Option<nat>,             // the slot whose callback is executing
    busy: Option<nat>,                // the task between its poll and its clear
    calls: seq<nat>)                  // callbacks invoked so far, by slot

  datatype Action =
    | LevelUp(fd: int, dir: Direction) | LevelDown(fd: int, dir: Direction)
    | SpareEdge(i: nat) | Driver(i: nat) | OtherEvent(i: nat)
    | First(i: nat, failOpen: bool) | Ready(i: nat) | Resume(i: nat, failOpen: bool) | Clear(i: nat) | Abort(i: nat)
    | PopIo | CallDone
    | Request(op: Op)

  predicate Level(s: State, i: nat)
    requires i < |s.reg.slots|
  {
    (s.reg.slots[i].fd, s.reg.slots[i].dir) in s.ready
  }

  predicate Runs(s: State, i: nat) {
    s.busy.None? && i < |s.tasks| && |s.tasks| == |s.reg.slots|
  }

  // ---------------------------------------------------------------------------
  // steps
  // ---------------------------------------------------------------------------

  predicate Enabled(s: State, a: Action) {
    match a
    case LevelUp(fd, d) => |s.tasks| == |s.reg.slots|
    case LevelDown(fd, d) => true
    case SpareEdge(i) => i < |s.tasks|
    case Driver(i) => Runs(s, i) && s.tasks[i].edge
    case OtherEvent(i) => Runs(s, i)
    case First(i, _) => Runs(s, i) && s.tasks[i].point.Fresh?
    case Ready(i) => Runs(s, i) && s.tasks[i].point.Parked? && s.tasks[i].flag
    case Resume(i, _) => Runs(s, i) && s.tasks[i].point.Waiting? && s.tasks[i].permit
    case Clear(i) => s.busy == Some(i) && i < |s.tasks|
    case Abort(i) => Runs(s, i) && s.reg.slots[i].dead
    case PopIo =>
      s.busy.None? && s.running.None? && s.io != [] && s.io[0] < |s.tasks| && |s.tasks| == |s.reg.slots|
    case CallDone => s.running.Some? && s.running.value < |s.tasks|
    case Request(op) => s.busy.None?
  }

  function SetTask(s: State, i: nat, t: Task): State
    requires i < |s.tasks|
  {
    s.(tasks := s.tasks[i := t])
  }

  /** Push a completion and wait for the rendezvous, unless the callback is gone. */
  function Fire(s: State, i: nat, t: Task): State
    requires i < |s.tasks| && i < |s.reg.slots|
  {
    if s.reg.slots[i].cb then SetTask(s, i, t.(point := Waiting)).(io := s.io + [i])
    else SetTask(s, i, t.(point := Finished))
  }

  /** `clear_ready` with the guard held, or the `try_io` clear without one. */
  function Cleared(t: Task): Task {
    t.(point := Parked, guard := None, flag := t.flag && t.guard.Some? && t.guard.value != t.tick)
  }

  function Raised(s: State, fd: int, d: Direction): (r: seq<Task>)
    requires |s.tasks| == |s.reg.slots|
    ensures |r| == |s.tasks|
    ensures forall i :: 0 <= i < |r| ==>
              r[i] == s.tasks[i].(edge := s.tasks[i].edge || (s.reg.slots[i].fd == fd && s.reg.slots[i].dir == d))
  {
    seq(|s.tasks|, i requires 0 <= i < |s.tasks| =>
      s.tasks[i].(edge := s.tasks[i].edge || (s.reg.slots[i].fd == fd && s.reg.slots[i].dir == d)))
  }

  function Spawned(drain: bool): Task {
    Task(if drain then Finished else Fresh, None, false, false, 0, false, 0)
  }

  function Apply(s: State, a: Action): State
    requires Enabled(s, a)
  {
    match a
    case LevelUp(fd, d) =>
      if (fd, d) in s.ready then s else s.(ready := s.ready + {(fd, d)}, tasks := Raised(s, fd, d))
    case LevelDown(fd, d) => s.(ready := s.ready - {(fd, d)})
    case SpareEdge(i) => SetTask(s, i, s.tasks[i].(edge := true))
    case Driver(i) => SetTask(s, i, s.tasks[i].(edge := false, flag := true, tick := s.tasks[i].tick + 1))
    case OtherEvent(i) => SetTask(s, i, s.tasks[i].(tick := s.tasks[i].tick + 1))
    case First(i, failOpen) =>
      if Level(s, i) || failOpen then Fire(s, i, s.tasks[i])
      else SetTask(s, i, s.tasks[i].(point := Parked))
    case Ready(i) =>
      var t := s.tasks[i];
      Fire(s, i, t.(guard := Some(t.tick), lastGuard := t.tick))
    case Resume(i, failOpen) =>
      var t := s.tasks[i].(permit := false);
      if !s.reg.slots[i].cb then SetTask(s, i, t.(point := Finished))
      else if Level(s, i) || failOpen then Fire(s, i, t)
      else SetTask(s, i, t.(point := Clearing)).(busy := Some(i))
    case Clear(i) => SetTask(s, i, Cleared(s.tasks[i])).(busy := None)
    case Abort(i) => SetTask(s, i, s.tasks[i].(point := Finished))
    case PopIo =>
      var i := s.io[0];
      if s.reg.slots[i].cb then s.(io := s.io[1..], running := Some(i), calls := s.calls + [i])
      else SetTask(s, i, s.tasks[i].(permit := true)).(io := s.io[1..])
    case CallDone =>
      var i := s.running.value;
      SetTask(s, i, s.tasks[i].(permit := true)).(running := None)
    case Request(op) =>
      var reg := Do(s.reg, op);
      s.(reg := reg, tasks := if |reg.slots| == |s.reg.slots| then s.tasks else s.tasks + [Spawned(op.AddOp? && op.drain)])
  }

  function Initial(): State {
    State(Empty(), [], {}, [], None, None, [])
  }

  function Exec(s: State, run: seq<Action>): Option<State>
    decreases |run|
  {
    if run == [] then Some(s)
    else if Enabled(s, run[0]) then Exec(Apply(s, run[0]), run[1..])
    else None
  }

  // ---------------------------------------------------------------------------
  // invariant
  // ---------------------------------------------------------------------------

  /** What the waiting task is owed: queued completions, the running callback, a stored permit. */
  function Owed(s: State, i: nat): nat
    requires i < |s.tasks|
  {
    multiset(s.io)[i] + (if s.running == Some(i) then 1 else 0) + (if s.tasks[i].permit then 1 else 0)
  }

  /** Readiness bookkeeping of one task. */
  predicate FlagOk(t: Task, level: bool, holds: bool) {
    && (holds <==> t.point.Clearing?)
    && (level && t.point.Parked? ==> t.flag || t.edge)
    && (level && t.point.Clearing? ==> t.edge)
    && t.lastGuard <= t.tick
    && (t.flag ==> 0 < t.tick)
    && (t.guard.Some? ==> t.guard.value == t.lastGuard)
    && (t.guard.None? && !t.point.Finished? && !t.point.Parked? ==> t.lastGuard == 0)
    && (t.point.Parked? || t.point.Fresh? ==> t.guard.None?)
    && (t.point.Parked? && t.flag ==> t.lastGuard < t.tick)
  }

  /** The rendezvous of one live task. */
  predicate MeetOk(slot: Slot, t: Task, owed: nat) {
    !slot.dead && slot.cb ==>
      && (t.point.Waiting? ==> owed == 1)
      && (t.point.Fresh? || t.point.Parked? || t.point.Clearing? ==> owed == 0)
      && !t.point.Finished?
  }

  predicate TaskOk(s: State, i: nat)
    requires i < |s.tasks| == |s.reg.slots|
  {
    && FlagOk(s.tasks[i], Level(s, i), s.busy == Some(i))
    && MeetOk(s.reg.slots[i], s.tasks[i], Owed(s, i))
  }

  ghost predicate Inv(s: State) {
    && Sound(s.reg)
    && |s.tasks| == |s.reg.slots|
    && (forall k :: 0 <= k < |s.io| ==> s.io[k] < |s.tasks|)
    && (s.running.Some? ==> s.running.value < |s.tasks|)
    && (s.busy.Some? ==> s.busy.value < |s.tasks|)
    && forall i :: 0 <= i < |s.tasks| ==> TaskOk(s, i)
  }

  // ---------------------------------------------------------------------------
  // every step keeps it
  // ---------------------------------------------------------------------------

  lemma LevelKeeps(s: State, a: Action)
    requires Inv(s) && Enabled(s, a) && (a.LevelUp? || a.LevelDown?)
    ensures Inv(Apply(s, a))
  {
    var u := Apply(s, a);
    forall i | 0 <= i < |u.tasks|
      ensures TaskOk(u, i)
    {
      assert TaskOk(s, i);
    }
  }

  /** A change to one task that touches neither the queue nor the registry. */
  lemma TaskStepKeeps(s: State, i: nat, t: Task, busy: Option<nat>)
    requires Inv(s) && i < |s.tasks|
    requires busy == s.busy || (s.busy.None? && busy == Some(i)) || (s.busy == Some(i) && busy.None?)
    requires FlagOk(t, Level(s, i), busy == Some(i))
    requires MeetOk(s.reg.slots[i], t,
                    multiset(s.io)[i] + (if s.running == Some(i) then 1 else 0) + (if t.permit then 1 else 0))
    ensures Inv(SetTask(s, i, t).(busy := busy))
  {
    var u := SetTask(s, i, t).(busy := busy);
    forall j | 0 <= j < |u.tasks|
      ensures TaskOk(u, j)
    {
      assert TaskOk(s, j);
    }
  }

  /** Firing: `t` is the task before the push. */
  lemma FireKeeps(s: State, i: nat, t: Task)
    requires Inv(s) && s.busy.None? && i < |s.tasks|
    requires FlagOk(t.(point := Waiting), Level(s, i), false)
    requires s.reg.slots[i].cb && !s.reg.slots[i].dead ==>
               multiset(s.io)[i] == 0 && s.running != Some(i) && !t.permit
    ensures Inv(Fire(s, i, t))
  {
    var u := Fire(s, i, t);
    assert SlotOk(s.reg, i);
    forall j | 0 <= j < |u.tasks|
      ensures TaskOk(u, j)
    {
      assert TaskOk(s, j);
      assert multiset(s.io + [i]) == multiset(s.io) + multiset{i};
    }
  }

  lemma DriverKeeps(s: State, a: Action)
    requires Inv(s) && Enabled(s, a) && (a.SpareEdge? || a.Driver? || a.OtherEvent? || a.Clear? || a.Abort?)
    ensures Inv(Apply(s, a))
  {
    assert TaskOk(s, a.i) && SlotOk(s.reg, a.i);
    var u := Apply(s, a);
    TaskStepKeeps(s, a.i, u.tasks[a.i], u.busy);
  }

  lemma FirstKeeps(s: State, i: nat, failOpen: bool)
    requires Inv(s) && Enabled(s, First(i, failOpen))
    ensures Inv(Apply(s, First(i, failOpen)))
  {
    assert TaskOk(s, i) && SlotOk(s.reg, i);
    var t := s.tasks[i];
    if Level(s, i) || failOpen {
      FireKeeps(s, i, t);
    } else {
      TaskStepKeeps(s, i, t.(point := Parked), s.busy);
    }
  }

  lemma ReadyKeeps(s: State, i: nat)
    requires Inv(s) && Enabled(s, Ready(i))
    ensures Inv(Apply(s, Ready(i)))
  {
    assert TaskOk(s, i);
    var t := s.tasks[i];
    FireKeeps(s, i, t.(guard := Some(t.tick), lastGuard := t.tick));
  }

  lemma ResumeKeeps(s: State, i: nat, failOpen: bool)
    requires Inv(s) && Enabled(s, Resume(i, failOpen))
    ensures Inv(Apply(s, Resume(i, failOpen)))
  {
    assert TaskOk(s, i) && SlotOk(s.reg, i);
    var t := s.tasks[i].(permit := false);
    if !s.reg.slots[i].cb {
      TaskStepKeeps(s, i, t.(point := Finished), s.busy);
    } else if Level(s, i) || failOpen {
      FireKeeps(s, i, t);
    } else {
      TaskStepKeeps(s, i, t.(point := Clearing), Some(i));
    }
  }

  lemma PopKeeps(s: State)
    requires Inv(s) && Enabled(s, PopIo)
    ensures Inv(Apply(s, PopIo))
  {
    var u := Apply(s, PopIo);
    var i := s.io[0];
    assert SlotOk(s.reg, i);
    forall j | 0 <= j < |u.tasks|
      ensures TaskOk(u, j)
    {
      assert TaskOk(s, j);
      PopCount(s.io, j);
    }
  }

  lemma PopCount(io: seq<nat>, j: nat)
    requires io != []
    ensures multiset(io)[j] == multiset(io[1..])[j] + if io[0] == j then 1 else 0
  {
    assert io == [io[0]] + io[1..];
    assert multiset(io) == multiset{io[0]} + multiset(io[1..]);
  }

  lemma CallDoneKeeps(s: State)
    requires Inv(s) && Enabled(s, CallDone)
    ensures Inv(Apply(s, CallDone))
  {
    var u := Apply(s, CallDone);
    forall j | 0 <= j < |u.tasks|
      ensures TaskOk(u, j)
    {
      assert TaskOk(s, j);
    }
  }

  /** A request adds at most one slot, and only ever kills the others. */
  lemma DoSlots(r: Registry, op: Op)
    requires Sound(r)
    ensures var u := Do(r, op);
            && |r.slots| <= |u.slots| <= |r.slots| + 1
            && (forall i :: 0 <= i < |r.slots| ==>
                  u.slots[i] == r.slots[i] || u.slots[i] == Killed(r.slots[i]))
            && (|u.slots| == |r.slots| + 1 ==>
                  op.AddOp? && u.slots[|r.slots|] == Slot(op.fd, op.dir, !op.drain, op.drain, false, true, false))
  {
    if op.CancelOp? && op.id < |r.slots| {
      CancelIsDetach(r, op.id);
    }
  }

  lemma RequestKeeps(s: State, op: Op)
    requires Inv(s) && s.busy.None?
    ensures Inv(Apply(s, Request(op)))
  {
    DoKeeps(s.reg, op);
    DoSlots(s.reg, op);
    var u := Apply(s, Request(op));
    assert |u.tasks| == |u.reg.slots|;
    forall i | 0 <= i < |u.tasks|
      ensures TaskOk(u, i)
    {
      if i < |s.tasks| {
        assert TaskOk(s, i);
      } else {
        NotQueued(s.io, |s.tasks|);
      }
    }
  }

  lemma NotQueued(io: seq<nat>, n: nat)
    requires forall k :: 0 <= k < |io| ==> io[k] < n
    ensures multiset(io)[n] == 0
  {
    assert n !in io;
  }

  lemma StepKeeps(s: State, a: Action)
    requires Inv(s) && Enabled(s, a)
    ensures Inv(Apply(s, a))
  {
    match a
    case LevelUp(_, _) => LevelKeeps(s, a);
    case LevelDown(_, _) => LevelKeeps(s, a);
    case First(i, f) => FirstKeeps(s, i, f);
    case Ready(i) => ReadyKeeps(s, i);
    case Resume(i, f) => ResumeKeeps(s, i, f);
    case PopIo => PopKeeps(s);
    case CallDone => CallDoneKeeps(s);
    case Request(op) => RequestKeeps(s, op);
    case _ => DriverKeeps(s, a);
  }

  lemma {:induction false} RunKeeps(s: State, run: seq<Action>)
    requires Inv(s) && Exec(s, run).Some?
    ensures Inv(Exec(s, run).value)
    decreases |run|
  {
    if run != [] {
      StepKeeps(s, run[0]);
      RunKeeps(Apply(s, run[0]), run[1..]);
    }
  }

  // ---------------------------------------------------------------------------
  // results, over every run
  // ---------------------------------------------------------------------------

  lemma ReachableInv(run: seq<Action>)
    requires Exec(Initial(), run).Some?
    ensures Inv(Exec(Initial(), run).value)
  {
    assert Occupied(Empty()) == {};
    RunKeeps(Initial(), run);
  }

  /** A live watcher parked on a ready direction has its flag set or an edge on the way. */
  lemma NeverStalls(run: seq<Action>, i: nat)
    requires Exec(Initial(), run).Some?
    requires var s := Exec(Initial(), run).value;
             && i < |s.tasks| && |s.tasks| == |s.reg.slots|
             && s.tasks[i].point.Parked? && Level(s, i)
    ensures var s := Exec(Initial(), run).value; s.tasks[i].flag || s.tasks[i].edge
  {
    ReachableInv(run);
    assert TaskOk(Exec(Initial(), run).value, i);
  }

  /**
   Level triggering: while a live registration's direction is ready and no callback or completion of it
   is outstanding, at most two steps of driver and task queue its callback.
   */
  lemma ReadyFires(run: seq<Action>, i: nat)
    requires Exec(Initial(), run).Some?
    requires var s := Exec(Initial(), run).value;
             && i < |s.tasks| && |s.tasks| == |s.reg.slots| && s.busy.None?
             && !s.reg.slots[i].dead && s.reg.slots[i].cb
             && Level(s, i) && Owed(s, i) == (if s.tasks[i].permit then 1 else 0)
    ensures var s := Exec(Initial(), run).value;
            exists next :: |next| <= 2 && Exec(s, next).Some? && Exec(s, next).value.io == s.io + [i]
  {
    ReachableInv(run);
    var s := Exec(Initial(), run).value;
    var t := s.tasks[i];
    assert TaskOk(s, i);
    if t.point.Fresh? {
      ExecOne(s, First(i, false));
    } else if t.point.Waiting? {
      assert t.permit;
      ExecOne(s, Resume(i, false));
    } else if t.flag {
      ExecOne(s, Ready(i));
    } else {
      ExecTwo(s, Driver(i), Ready(i));
    }
  }

  lemma ExecOne(s: State, a: Action)
    requires Enabled(s, a)
    ensures Exec(s, [a]) == Some(Apply(s, a))
  {
    assert [a][1..] == [];
  }

  lemma ExecTwo(s: State, a: Action, b: Action)
    requires Enabled(s, a) && Enabled(Apply(s, a), b)
    ensures Exec(s, [a, b]) == Some(Apply(Apply(s, a), b))
  {
    assert [a, b][1..] == [b];
    ExecOne(Apply(s, a), b);
  }

  /** The step queues a completion of task `i`. */
  predicate Fires(s: State, a: Action, i: nat)
    requires Enabled(s, a)
  {
    multiset(s.io)[i] < multiset(Apply(s, a).io)[i]
  }

  /** The task has asked `poll(2)`, and the answer was ready or an error. */
  predicate Polled(s: State, a: Action, i: nat) {
    i < |s.reg.slots| && (a.First? || a.Resume?) && a.i == i && (Level(s, i) || a.failOpen)
  }

  /** The task was woken by the readiness flag, which was raised after its last guard. */
  predicate Woken(s: State, a: Action, i: nat) {
    i < |s.tasks| && a == Ready(i) && s.tasks[i].flag && s.tasks[i].lastGuard < s.tasks[i].tick
  }

  /** A completion is queued after a positive poll, or by a wake-up with a higher tick than any before. */
  lemma FiringCause(s: State, a: Action, i: nat)
    requires Inv(s) && Enabled(s, a) && Fires(s, a, i)
    ensures Polled(s, a, i) || Woken(s, a, i)
    ensures i < |s.reg.slots| && s.reg.slots[i].cb
    ensures Woken(s, a, i) ==> Apply(s, a).tasks[i].lastGuard == s.tasks[i].tick
  {
    if a.First? || a.Ready? || a.Resume? {
      assert TaskOk(s, a.i);
      assert multiset(s.io + [a.i]) == multiset(s.io) + multiset{a.i};
    } else if a.PopIo? {
      PopCount(s.io, i);
    }
  }

  /** After the callback, with the descriptor not ready, the task parks and queues nothing; its flag stays set only for a later event. */
  lemma QuietAfterCallback(s: State, i: nat)
    requires Inv(s) && Enabled(s, Resume(i, false)) && s.reg.slots[i].cb && !Level(s, i)
    ensures var u := Apply(s, Resume(i, false));
            && Enabled(u, Clear(i)) && u.io == s.io
            && var v := Apply(u, Clear(i));
            && v.io == s.io && v.tasks[i].point.Parked?
            && (v.tasks[i].flag <==> s.tasks[i].flag && s.tasks[i].guard.Some? && s.tasks[i].lastGuard < s.tasks[i].tick)
  {
    assert TaskOk(s, i);
  }

  /** The task of a detached registration ends at its next step after a wake-up or a callback. */
  lemma DetachedTaskEnds(s: State, a: Action, i: nat)
    requires Inv(s) && Enabled(s, a) && (a == Ready(i) || (a.Resume? && a.i == i) || a == Abort(i)) && s.reg.slots[i].dead
    ensures Apply(s, a).tasks[i].point.Finished? && Apply(s, a).io == s.io
  {
    assert SlotOk(s.reg, i);
  }

  /** A callback that returns frees the batch and wakes its task, which is the only one it wakes. */
  lemma CallbackReturns(s: State, i: nat)
    requires Inv(s) && Enabled(s, CallDone) && s.running == Some(i)
    ensures var u := Apply(s, CallDone);
            && u.running.None? && u.io == s.io && u.calls == s.calls
            && (s.busy.None? && s.tasks[i].point.Waiting? ==> Enabled(u, Resume(i, false)))
            && (forall j :: 0 <= j < |s.tasks| && j != i ==> u.tasks[j] == s.tasks[j])
  {
  }

  /** So does a new task whose descriptor is not ready. */
  lemma QuietAtFirst(s: State, i: nat)
    requires Inv(s) && Enabled(s, First(i, false)) && !Level(s, i)
    ensures var u := Apply(s, First(i, false)); u.io == s.io && u.tasks[i].point.Parked?
  {
  }

  /** How often a run queues a completion of task `i` ... */
  function Firings(s: State, run: seq<Action>, i: nat): nat
    requires Exec(s, run).Some?
    decreases |run|
  {
    if run == [] then 0
    else (if Fires(s, run[0], i) then 1 else 0) + Firings(Apply(s, run[0]), run[1..], i)
  }

  /** ... how often its poll is answered positively ... */
  function Polls(s: State, run: seq<Action>, i: nat): nat
    requires Exec(s, run).Some?
    decreases |run|
  {
    if run == [] then 0
    else (if Polled(s, run[0], i) then 1 else 0) + Polls(Apply(s, run[0]), run[1..], i)
  }

  /** ... and how many events the driver delivers to its registration, of either direction. */
  function Events(run: seq<Action>, i: nat): nat {
    if run == [] then 0
    else (if run[0] == Driver(i) || run[0] == OtherEvent(i) then 1 else 0) + Events(run[1..], i)
  }

  /** Events that no wake-up has answered yet. */
  function Unanswered(s: State, i: nat): int {
    if i < |s.tasks| then s.tasks[i].tick - s.tasks[i].lastGuard else 0
  }

  /**
   Spurious firings are bounded: on every run, the completions queued for a task number at most its positive
   polls and the events delivered to its registration.
   */
  lemma SpuriousFiringsBounded(run: seq<Action>, i: nat)
    requires Exec(Initial(), run).Some?
    ensures Firings(Initial(), run, i) <= Polls(Initial(), run, i) + Events(run, i)
  {
    ReachableInv([]);
    FiringsFrom(Initial(), run, i);
  }

  lemma {:induction false} FiringsFrom(s: State, run: seq<Action>, i: nat)
    requires Inv(s) && Exec(s, run).Some?
    ensures Firings(s, run, i) <= Polls(s, run, i) + Events(run, i) + Unanswered(s, i)
    decreases |run|
  {
    if run == [] {
      if i < |s.tasks| {
        assert TaskOk(s, i);
      }
    } else {
      StepKeeps(s, run[0]);
      FiringsFrom(Apply(s, run[0]), run[1..], i);
      FiringPaid(s, run[0], i);
    }
  }

  /** Every step is paid for: by its poll, by the event it delivers, or by an event not answered before. */
  lemma FiringPaid(s: State, a: Action, i: nat)
    requires Inv(s) && Enabled(s, a)
    ensures (if Fires(s, a, i) then 1 else 0) + Unanswered(Apply(s, a), i) <=
            (if Polled(s, a, i) then 1 else 0) + (if a == Driver(i) || a == OtherEvent(i) then 1 else 0) + Unanswered(s, i)
  {
    if Fires(s, a, i) {
      FiringCause(s, a, i);
    }
    UnansweredStep(s, a, i);
  }

  lemma UnansweredStep(s: State, a: Action, i: nat)
    requires Inv(s) && Enabled(s, a)
    ensures 0 <= Unanswered(s, i)
    ensures Unanswered(Apply(s, a), i) ==
            if a == Ready(i) then 0 else Unanswered(s, i) + if a == Driver(i) || a == OtherEvent(i) then 1 else 0
  {
    if i < |s.tasks| {
      assert TaskOk(s, i);
    }
    if a.Request? {
      NewTasksOwe(s, a.op, i);
    } else {
      OldTasksOwe(s, a, i);
    }
  }

  lemma NewTasksOwe(s: State, op: Op, i: nat)
    requires Enabled(s, Request(op))
    ensures Unanswered(Apply(s, Request(op)), i) == Unanswered(s, i)
  {
    var u := Apply(s, Request(op));
    assert u.tasks == s.tasks || u.tasks == s.tasks + [Spawned(op.AddOp? && op.drain)];
  }

  lemma OldTasksOwe(s: State, a: Action, i: nat)
    requires Enabled(s, a) && !a.Request?
    ensures Unanswered(Apply(s, a), i) ==
            if a == Ready(i) then 0 else Unanswered(s, i) + if a == Driver(i) || a == OtherEvent(i) then 1 else 0
  {
  }

  /** What the environment can do: a direction becomes ready, with an edge for every registration on it, or ceases to be. */
  lemma EnvironmentActs(s: State, a: Action)
    requires Enabled(s, a) && (a.LevelUp? || a.LevelDown? || a.SpareEdge?)
    ensures var u := Apply(s, a);
            && u.reg == s.reg && u.io == s.io && u.calls == s.calls && |u.tasks| == |s.tasks|
            && (a.LevelUp? ==> u.ready == s.ready + {(a.fd, a.dir)})
            && (a.LevelUp? && (a.fd, a.dir) !in s.ready ==>
                  forall i :: 0 <= i < |s.tasks| && s.reg.slots[i].fd == a.fd && s.reg.slots[i].dir == a.dir ==> u.tasks[i].edge)
            && (a.LevelDown? ==> u.ready == s.ready - {(a.fd, a.dir)})
            && (a.SpareEdge? ==> u.tasks[a.i] == s.tasks[a.i].(edge := true))
  {
  }

  /** A registration on a ready direction is called back: register, become ready, poll, deliver. */
  lemma CallbackWitness(fd: int, d: Direction)
    requires 0 <= fd
    ensures exists run :: Exec(Initial(), run).Some? && Exec(Initial(), run).value.calls == [0]
  {
    var s0 := Initial();
    var s1 := Apply(s0, Request(AddOp(fd, d, false)));
    assert s1.reg.slots == [Slot(fd, d, true, false, false, true, false)] && s1.tasks == [Spawned(false)];
    var s2 := Apply(s1, LevelUp(fd, d));
    var s3 := Apply(s2, First(0, false));
    assert s3.io == [0];
    var s4 := Apply(s3, PopIo);
    assert s4.calls == [0];
    ExecTwo(s2, First(0, false), PopIo);
    FirstTwo(s0, Request(AddOp(fd, d, false)), LevelUp(fd, d), [First(0, false), PopIo]);
    var run := [Request(AddOp(fd, d, false)), LevelUp(fd, d)] + [First(0, false), PopIo];
    assert Exec(Initial(), run) == Some(s4);
  }

  lemma FirstTwo(s: State, a: Action, b: Action, rest: seq<Action>)
    requires Enabled(s, a) && Enabled(Apply(s, a), b)
    ensures Exec(s, [a, b] + rest) == Exec(Apply(Apply(s, a), b), rest)
  {
    var run := [a, b] + rest;
    assert run[0] == a && run[1..][0] == b && run[1..][1..] == rest;
  }

  /** A live task waiting at the rendezvous is owed exactly one wake-up; one that is not waiting is owed none. */
  lemma RendezvousIsOneToOne(run: seq<Action>, i: nat)
    requires Exec(Initial(), run).Some?
    requires var s := Exec(Initial(), run).value;
             i < |s.tasks| && |s.tasks| == |s.reg.slots| && !s.reg.slots[i].dead && s.reg.slots[i].cb
    ensures var s := Exec(Initial(), run).value;
            Owed(s, i) == if s.tasks[i].point.Waiting? then 1 else 0
  {
    ReachableInv(run);
    assert TaskOk(Exec(Initial(), run).value, i);
  }

  /** A callback is invoked only while its registration serves its descriptor and its handle is uncancelled. */
  lemma OnlyLiveCallbacksRun(run: seq<Action>)
    requires Exec(Initial(), run).Some? && Enabled(Exec(Initial(), run).value, PopIo)
    ensures var s := Exec(Initial(), run).value;
            var i := s.io[0];
            Apply(s, PopIo).calls ==
              if Serves(s.reg, i) && s.reg.slots[i].cb then s.calls + [i] else s.calls
  {
    ReachableInv(run);
    var s := Exec(Initial(), run).value;
    assert SlotOk(s.reg, s.io[0]);
  }

  /** Once removed, replaced or cancelled, a callback is never invoked again, whatever is still queued. */
  lemma {:induction false} DeadNeverCalled(s: State, run: seq<Action>, i: nat)
    requires Inv(s) && Exec(s, run).Some? && i < |s.reg.slots| && s.reg.slots[i].dead
    ensures var u := Exec(s, run).value;
            s.calls <= u.calls && i !in u.calls[|s.calls|..]
    decreases |run|
  {
    if run != [] {
      var v := Apply(s, run[0]);
      StepKeeps(s, run[0]);
      DeadStep(s, run[0], i);
      DeadNeverCalled(v, run[1..], i);
      StillNotCalled(s.calls, v.calls, Exec(s, run).value.calls, i);
    }
  }

  lemma StillNotCalled(a: seq<nat>, b: seq<nat>, c: seq<nat>, i: nat)
    requires b == a || exists j :: j != i && b == a + [j]
    requires b <= c && i !in c[|b|..]
    ensures a <= c && i !in c[|a|..]
  {
    assert c[|a|..] == b[|a|..] + c[|b|..];
  }

  lemma DeadStep(s: State, a: Action, i: nat)
    requires Inv(s) && Enabled(s, a) && i < |s.reg.slots| && s.reg.slots[i].dead
    ensures var v := Apply(s, a);
            && i < |v.reg.slots| && v.reg.slots[i].dead
            && (v.calls == s.calls || exists j :: j != i && v.calls == s.calls + [j])
  {
    assert SlotOk(s.reg, i);
    if a.Request? {
      DeadStays(s.reg, a.op, i);
    } else if a.PopIo? {
      assert Apply(s, a).calls == s.calls || Apply(s, a).calls == s.calls + [s.io[0]];
    }
  }
}
