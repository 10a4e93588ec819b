/**
 A stream end to end: kernel buffer, drain watcher tasks, completion queue, transport.

 The machine interleaves single system calls of the watcher tasks with arrivals, driver
 wake-ups, completions of other descriptors, batch deliveries and transport calls.  The
 runtime is single threaded, so a task that has started reading keeps the thread until its
 next await (`busy`); only the kernel acts in between.  What a delivery or a transport call
 does to the read side is any outcome the relations of `ReadSide` allow, which the
 transport class is proved to respect.
 */
module DrainMachine {
  import opened Bytes
  import opened Options
  import opened Quantum
  import opened ReadSide

  /**
   Fresh     spawned, not yet polled
   Reading   inside a quantum, `n` chunks and `bytes` bytes into it
   Draining  a read reported no more data; the readiness flag is not yet cleared
   Yielding  between quanta
   Parked    awaiting readiness
   Gone      returned or aborted
   */
  datatype Point = Fresh | Reading(n: nat, bytes: nat) | Draining | Yielding | Parked | Gone

  /**
   A watcher task with its own driver registration: queued edge, readiness flag and tick.
   `failed` tells that its latest drain ended in a read error rather than in an empty read, `lastGuard` is
   the tick of its latest readiness guard.
   */
  datatype Task = Task(
    point: Point, guard: Option<nat>, edge: bool, flag: bool, tick: nat, dead: bool, failed: bool, lastGuard: nat)

  datatype Completion = Ours(item: Item) | Other

  datatype State = State(
    chunk: nat,
    kernel: seq<Byte>,        // received, unread
    fin: bool,                // the peer has closed its side
    arrived: seq<Byte>,       // everything ever received
    read: seq<Item>,          // everything ever read off this descriptor
    tasks: seq<Task>,         // one per reader registration of this descriptor
    busy: Option<nat>,        // the task that holds the thread
    queue: seq<Completion>,
    rd: ReadView)

  datatype Action =
    | Arrive(bytes: seq<Byte>) | Finish | SpareEdge(i: nat)
    | Driver(i: nat) | OtherEvent(i: nat)
    | Begin(i: nat) | Recv(i: nat, k: nat) | RecvError(i: nat) | Clear(i: nat)
    | Wake(i: nat) | Ready(i: nat) | Abort(i: nat)
    | PushOther | Pop(to: ReadView) | Call(to: ReadView) | Start(to: ReadView)

  predicate Readable(s: State) {
    s.kernel != [] || s.fin
  }

  // ---------------------------------------------------------------------------
  // steps
  // ---------------------------------------------------------------------------

  function WithEdges(tasks: seq<Task>): (r: seq<Task>)
    ensures |r| == |tasks| && forall i :: 0 <= i < |r| ==> r[i] == tasks[i].(edge := true)
  {
    seq(|tasks|, i requires 0 <= i < |tasks| => tasks[i].(edge := true))
  }

  /** The tasks after the transport moved from one read view to the next: only the last registration can be live. */
  function Registered(tasks: seq<Task>, to: ReadView): (r: seq<Task>)
    ensures |r| == to.regs
    ensures forall i :: 0 <= i < |r| ==>
              var gone := i != to.regs - 1 || !to.watched;
              r[i] == if i < |tasks| then tasks[i].(dead := tasks[i].dead || gone)
                      else Task(Fresh, None, false, false, 0, gone, false, 0)
  {
    seq(to.regs, i requires 0 <= i < to.regs =>
      var gone := i != to.regs - 1 || !to.watched;
      if i < |tasks| then tasks[i].(dead := tasks[i].dead || gone)
      else Task(Fresh, None, false, false, 0, gone, false, 0))
  }

  predicate Runs(s: State, i: nat) {
    s.busy.None? && i < |s.tasks|
  }

  predicate Holds(s: State, i: nat) {
    s.busy == Some(i) && i < |s.tasks|
  }

  predicate Enabled(s: State, a: Action) {
    match a
    case Arrive(bytes) => !s.fin && bytes != []
    case Finish => !s.fin
    case SpareEdge(i) => i < |s.tasks|
    case Driver(i) => Runs(s, i) && s.tasks[i].edge
    case OtherEvent(i) => Runs(s, i)
    case Begin(i) => Runs(s, i) && s.tasks[i].point.Fresh?
    case Recv(i, k) =>
      && Holds(s, i) && s.tasks[i].point.Reading?
      && if s.kernel == [] then k == 0 else 1 <= k <= |s.kernel| && k <= s.chunk
    case RecvError(i) => Holds(s, i) && s.tasks[i].point.Reading?
    case Clear(i) => Holds(s, i) && s.tasks[i].point.Draining?
    case Wake(i) => Runs(s, i) && s.tasks[i].point.Yielding?
    case Ready(i) => Runs(s, i) && s.tasks[i].point.Parked? && s.tasks[i].flag
    case Abort(i) => Runs(s, i) && s.tasks[i].dead
    case PushOther => true
    case Pop(to) =>
      && s.busy.None? && s.queue != [] && ReadValid(to)
      && if s.queue[0].Other? then to == s.rd else Delivered(true, s.rd, s.queue[0].item, to)
    case Call(to) => s.busy.None? && ReadValid(to) && ReadLater(true, s.rd, to)
    case Start(to) => s.busy.None? && ReadValid(to) && Started(s.rd, to)
  }

  function SetTask(s: State, i: nat, t: Task): State
    requires i < |s.tasks|
  {
    s.(tasks := s.tasks[i := t])
  }

  /** One read: a chunk, end of stream, or nothing there. */
  function AfterRecv(s: State, i: nat, k: nat): State
    requires Enabled(s, Recv(i, k))
  {
    var t := s.tasks[i];
    if s.kernel != [] then
      var x := Data(s.kernel[..k]);
      var n, bytes := t.point.n + 1, t.point.bytes + k;
      var more := TcpMore(n, bytes);
      SetTask(s, i, t.(point := if more then Reading(n, bytes) else Yielding))
        .(kernel := s.kernel[k..], read := s.read + [x], queue := s.queue + [Ours(x)],
          busy := if more then s.busy else None)
    else if s.fin then
      SetTask(s, i, t.(point := Yielding))
        .(read := s.read + [Eof], queue := s.queue + [Ours(Eof)], busy := None)
    else
      SetTask(s, i, t.(point := Draining, failed := false))
  }

  /** Leaving the drain loop: the flag is cleared only if no edge was delivered since the guard was taken. */
  function AfterClear(t: Task): Task {
    t.(point := if t.dead then Gone else Parked,
       guard := None,
       flag := t.flag && (t.guard.None? || t.guard.value != t.tick))
  }

  function Apply(s: State, a: Action): State
    requires Enabled(s, a)
  {
    match a
    case Arrive(bytes) =>
      s.(kernel := s.kernel + bytes, arrived := s.arrived + bytes,
         tasks := if Readable(s) then s.tasks else WithEdges(s.tasks))
    case Finish => s.(fin := true, tasks := if Readable(s) then s.tasks else WithEdges(s.tasks))
    case SpareEdge(i) => SetTask(s, i, s.tasks[i].(edge := true))
    case Driver(i) => SetTask(s, i, s.tasks[i].(edge := false, flag := true, tick := s.tasks[i].tick + 1))
    case OtherEvent(i) => SetTask(s, i, s.tasks[i].(tick := s.tasks[i].tick + 1))
    case Begin(i) =>
      if s.tasks[i].dead then SetTask(s, i, s.tasks[i].(point := Parked))
      else SetTask(s, i, s.tasks[i].(point := Reading(0, 0), failed := false)).(busy := Some(i))
    case Recv(i, k) => AfterRecv(s, i, k)
    case RecvError(i) =>
      SetTask(s, i, s.tasks[i].(point := Draining, failed := true))
        .(read := s.read + [ReadError], queue := s.queue + [Ours(ReadError)])
    case Clear(i) => SetTask(s, i, AfterClear(s.tasks[i])).(busy := None)
    case Wake(i) =>
      if s.tasks[i].dead then SetTask(s, i, s.tasks[i].(point := Gone))
      else SetTask(s, i, s.tasks[i].(point := Reading(0, 0), failed := false)).(busy := Some(i))
    case Ready(i) =>
      var t := s.tasks[i].(lastGuard := s.tasks[i].tick);
      if t.dead then SetTask(s, i, t.(point := Gone))
      else SetTask(s, i, t.(point := Reading(0, 0), failed := false, guard := Some(t.tick))).(busy := Some(i))
    case Abort(i) => SetTask(s, i, s.tasks[i].(point := Gone))
    case PushOther => s.(queue := s.queue + [Other])
    case Pop(to) => s.(queue := s.queue[1..], rd := to, tasks := Registered(s.tasks, to))
    case Call(to) => s.(rd := to, tasks := Registered(s.tasks, to))
    case Start(to) => s.(rd := to, tasks := Registered(s.tasks, to))
  }

  function Initial(maxSize: nat): State {
    State(ClampChunk(maxSize), [], false, [], [], [], None, [],
          ReadView([], [], false, false, 0, false, false, 0))
  }

  /** The state after a sequence of steps, if every step was possible. */
  function Exec(s: State, run: seq<Action>): Option<State>
    decreases |run|
  {
    if run == [] then Some(s)
    else if Enabled(s, run[0]) then Exec(Apply(s, run[0]), run[1..])
    else None
  }

  // ---------------------------------------------------------------------------
  // invariant
  // ---------------------------------------------------------------------------

  /** The completions of this descriptor still in the queue. */
  function Waiting(queue: seq<Completion>): seq<Item> {
    if queue == [] then []
    else (if queue[0].Ours? then [queue[0].item] else []) + Waiting(queue[1..])
  }

  predicate EofLast(items: seq<Item>) {
    forall i, j :: 0 <= i < j < |items| && items[i].Eof? ==> !items[j].Data?
  }

  predicate Flow(s: State) {
    && Payload(s.read) + s.kernel == s.arrived
    && (if s.rd.closing then s.rd.log <= s.read
        else s.read == s.rd.log + s.rd.replay + Waiting(s.queue))
    && EofLast(s.read)
    && (Eof in s.read ==> s.fin && s.kernel == [])
  }

  predicate TaskOk(chunk: nat, readable: bool, holds: bool, t: Task) {
    && (holds <==> t.point.Reading? || t.point.Draining?)
    && (t.point.Reading? ==> t.point.n < TCP_QUANTUM_ITEMS && t.point.bytes <= t.point.n * chunk)
    && (t.point.Parked? || t.point.Fresh? ==> t.guard.None?)
    && t.lastGuard <= t.tick && (t.guard.Some? ==> t.guard.value == t.lastGuard)
    && (t.guard.None? && !t.point.Parked? && !t.point.Gone? ==> t.lastGuard == 0)
    && (t.flag ==> 0 < t.tick) && (t.point.Parked? && t.flag ==> t.lastGuard < t.tick)
    && (t.point.Gone? ==> t.dead)
    && (t.failed ==> t.point.Draining? || t.point.Parked? || t.point.Gone?)
    && (!t.failed && readable && t.point.Draining? ==> t.edge)
    && (!t.failed && readable && t.point.Parked? && !t.dead ==> t.flag || t.edge)
  }

  predicate Shape(s: State) {
    && 4096 <= s.chunk <= 65536
    && ReadValid(s.rd) && Quiet(s.rd) && Attentive(s.rd)
    && |s.tasks| == s.rd.regs
    && (s.busy.Some? ==> s.busy.value < |s.tasks|)
    && forall i :: 0 <= i < |s.tasks| ==> (s.tasks[i].dead <==> i != s.rd.regs - 1 || !s.rd.watched)
  }

  predicate TasksOk(s: State) {
    forall i :: 0 <= i < |s.tasks| ==> TaskOk(s.chunk, Readable(s), s.busy == Some(i), s.tasks[i])
  }

  predicate Inv(s: State) {
    Shape(s) && Flow(s) && TasksOk(s)
  }

  // ---------------------------------------------------------------------------
  // every step keeps it
  // ---------------------------------------------------------------------------

  /** Delivery of a completion, a transport call, or the start-up registration. */
  predicate Transports(a: Action) {
    a.Pop? || a.Call? || a.Start?
  }

  lemma TransportKeepsShape(s: State, a: Action)
    requires Inv(s) && Enabled(s, a) && Transports(a)
    ensures Shape(Apply(s, a))
  {
  }

  lemma TransportKeepsTasks(s: State, a: Action)
    requires Inv(s) && Enabled(s, a) && Transports(a)
    ensures TasksOk(Apply(s, a))
  {
    var u := Apply(s, a);
    assert s.rd.regs <= a.to.regs;
    forall i | 0 <= i < |u.tasks|
      ensures TaskOk(u.chunk, Readable(u), u.busy == Some(i), u.tasks[i])
    {
      if i < |s.tasks| {
        assert TaskOk(s.chunk, Readable(s), s.busy == Some(i), s.tasks[i]);
      }
    }
  }

  lemma DeliveryKeepsFlow(s: State, a: Action)
    requires Inv(s) && Enabled(s, a) && a.Pop?
    ensures Flow(Apply(s, a))
  {
    if s.queue[0].Ours? && !s.rd.closing {
      var x, rest := s.queue[0].item, Waiting(s.queue[1..]);
      assert Waiting(s.queue) == [x] + rest;
      assert s.read == s.rd.log + s.rd.replay + ([x] + rest);
      DeliveryKeepsOrder(s.rd, x, rest, a.to);
      assert Apply(s, a) == s.(queue := s.queue[1..], rd := a.to, tasks := Registered(s.tasks, a.to));
    } else if s.queue[0].Ours? {
      assert a.to == s.rd;
    } else {
      assert Waiting(s.queue) == [] + Waiting(s.queue[1..]) == Waiting(s.queue[1..]);
    }
  }

  lemma MoveKeepsFlow(s: State, a: Action)
    requires Inv(s) && Enabled(s, a) && (a.Call? || a.Start?)
    ensures Flow(Apply(s, a))
  {
    if !s.rd.closing {
      MoveKeepsOrder(s.rd, Waiting(s.queue), a.to);
    }
  }

  lemma MoveKeepsOrder(v: ReadView, rest: seq<Item>, to: ReadView)
    requires !v.closing && (ReadLater(true, v, to) || Started(v, to))
    ensures if to.closing then to.log <= v.log + v.replay + rest
            else to.log + to.replay + rest == v.log + v.replay + rest
  {
    if to.closing {
      assert to.log <= v.log + v.replay;
    }
  }

  lemma DeliveryKeepsOrder(v: ReadView, x: Item, rest: seq<Item>, to: ReadView)
    requires !v.closing && Quiet(v) && Delivered(true, v, x, to)
    ensures if to.closing then to.log <= v.log + v.replay + ([x] + rest)
            else to.log + to.replay + rest == v.log + v.replay + ([x] + rest)
  {
    if v.paused {
      assert v.log + (v.replay + [x]) + rest == v.log + v.replay + ([x] + rest);
    } else {
      var h := Handed(v, x);
      assert h.log + h.replay == v.log + [x];
      assert v.log + v.replay + ([x] + rest) == (v.log + [x]) + rest;
      if to.closing {
        assert to.log <= v.log + [x];
      }
    }
  }

  /** A change to one task that leaves the rest of the state alone. */
  lemma TaskStepKeeps(s: State, i: nat, t: Task, busy: Option<nat>)
    requires Inv(s) && i < |s.tasks| && t.dead == s.tasks[i].dead
    requires busy == s.busy || (s.busy.None? && busy == Some(i)) || (s.busy == Some(i) && busy.None?)
    requires TaskOk(s.chunk, Readable(s), busy == Some(i), t)
    ensures Inv(SetTask(s, i, t).(busy := busy))
  {
    var u := SetTask(s, i, t).(busy := busy);
    forall j | 0 <= j < |u.tasks|
      ensures TaskOk(u.chunk, Readable(u), u.busy == Some(j), u.tasks[j])
    {
      assert TaskOk(s.chunk, Readable(s), s.busy == Some(j), s.tasks[j]);
    }
  }

  lemma ArrivalKeeps(s: State, a: Action)
    requires Inv(s) && Enabled(s, a) && (a.Arrive? || a.Finish?)
    ensures Inv(Apply(s, a))
  {
    if a.Arrive? {
      AddAssoc(Payload(s.read), s.kernel, a.bytes);
    }
    ArrivalKeepsTasks(s, a);
  }

  lemma ArrivalKeepsTasks(s: State, a: Action)
    requires Inv(s) && Enabled(s, a) && (a.Arrive? || a.Finish?)
    ensures TasksOk(Apply(s, a))
  {
    var u := Apply(s, a);
    forall i | 0 <= i < |u.tasks|
      ensures TaskOk(u.chunk, Readable(u), u.busy == Some(i), u.tasks[i])
    {
      assert TaskOk(s.chunk, Readable(s), s.busy == Some(i), s.tasks[i]);
    }
  }

  lemma WaitingConcat(a: seq<Completion>, c: Completion)
    ensures Waiting(a + [c]) == Waiting(a) + if c.Ours? then [c.item] else []
  {
    if a == [] {
      assert [c][1..] == [];
    } else {
      WaitingConcat(a[1..], c);
      var ac := a + [c];
      assert ac[0] == a[0] && ac[1..] == a[1..] + [c];
    }
  }

  lemma PushKeepsBytes(read: seq<Item>, x: Item, kernel: seq<Byte>, left: seq<Byte>)
    requires (if x.Data? then x.bytes else []) + left == kernel
    ensures Payload(read + [x]) + left == Payload(read) + kernel
  {
    PayloadConcat(read, [x]);
    PayloadOne(x);
    AddAssoc(Payload(read), if x.Data? then x.bytes else [], left);
  }

  lemma PushKeepsEofLast(read: seq<Item>, x: Item)
    requires EofLast(read) && (Eof in read ==> !x.Data?)
    ensures EofLast(read + [x])
  {
  }

  /** Pushing what was read, `left` being what the kernel still holds. */
  lemma PushKeepsFlow(s: State, x: Item, left: seq<Byte>)
    requires Flow(s)
    requires (if x.Data? then x.bytes else []) + left == s.kernel
    requires x.Data? ==> x.bytes != []
    requires x.Eof? ==> s.fin && left == []
    ensures Flow(s.(kernel := left, read := s.read + [x], queue := s.queue + [Ours(x)]))
  {
    PushKeepsBytes(s.read, x, s.kernel, left);
    PushKeepsEofLast(s.read, x);
    WaitingConcat(s.queue, Ours(x));
    if s.rd.closing {
      PrefixGrows(s.rd.log, s.read, x);
    } else {
      AddAssoc(s.rd.log + s.rd.replay, Waiting(s.queue), [x]);
    }
  }

  lemma PrefixGrows(p: seq<Item>, r: seq<Item>, x: Item)
    requires p <= r
    ensures p <= r + [x]
  {
  }

  lemma RecvKeeps(s: State, i: nat, k: nat)
    requires Inv(s) && Enabled(s, Recv(i, k))
    ensures Inv(AfterRecv(s, i, k))
  {
    assert TaskOk(s.chunk, Readable(s), s.busy == Some(i), s.tasks[i]);
    var u := AfterRecv(s, i, k);
    if s.kernel == [] && !s.fin {
      TaskStepKeeps(s, i, u.tasks[i], s.busy);
    } else {
      var x := if s.kernel != [] then Data(s.kernel[..k]) else Eof;
      assert s.kernel[..k] + s.kernel[k..] == s.kernel;
      PushKeepsFlow(s, x, u.kernel);
      RecvKeepsTasks(s, i, k);
    }
  }

  lemma RecvKeepsTasks(s: State, i: nat, k: nat)
    requires Inv(s) && Enabled(s, Recv(i, k)) && Readable(s)
    ensures TasksOk(AfterRecv(s, i, k))
  {
    var u := AfterRecv(s, i, k);
    var t := s.tasks[i];
    assert TaskOk(s.chunk, Readable(s), true, t);
    QuantumBound(s.chunk, t.point.n, t.point.bytes, k);
    forall j | 0 <= j < |u.tasks|
      ensures TaskOk(u.chunk, Readable(u), u.busy == Some(j), u.tasks[j])
    {
      assert TaskOk(s.chunk, Readable(s), s.busy == Some(j), s.tasks[j]);
    }
  }

  /** One more chunk stays within the byte bound of the chunks read so far. */
  lemma QuantumBound(chunk: nat, n: nat, bytes: nat, k: nat)
    requires bytes <= n * chunk && k <= chunk
    ensures bytes + k <= (n + 1) * chunk
  {
  }

  lemma ErrorKeeps(s: State, i: nat)
    requires Inv(s) && Enabled(s, RecvError(i))
    ensures Inv(Apply(s, RecvError(i)))
  {
    var u := Apply(s, RecvError(i));
    PushKeepsFlow(s, ReadError, s.kernel);
    forall j | 0 <= j < |u.tasks|
      ensures TaskOk(u.chunk, Readable(u), u.busy == Some(j), u.tasks[j])
    {
      assert TaskOk(s.chunk, Readable(s), s.busy == Some(j), s.tasks[j]);
    }
  }

  lemma WakeUpKeeps(s: State, a: Action)
    requires Inv(s) && Enabled(s, a) && (a.Begin? || a.Wake? || a.Ready?)
    ensures Inv(Apply(s, a))
  {
    var u := Apply(s, a);
    assert TaskOk(s.chunk, Readable(s), s.busy == Some(a.i), s.tasks[a.i]);
    TaskStepKeeps(s, a.i, u.tasks[a.i], u.busy);
  }

  lemma SmallStepKeeps(s: State, a: Action)
    requires Inv(s) && Enabled(s, a) && (a.SpareEdge? || a.Driver? || a.OtherEvent? || a.Clear? || a.Abort?)
    ensures Inv(Apply(s, a))
  {
    var u := Apply(s, a);
    assert TaskOk(s.chunk, Readable(s), s.busy == Some(a.i), s.tasks[a.i]);
    TaskStepKeeps(s, a.i, u.tasks[a.i], u.busy);
  }

  lemma StepKeeps(s: State, a: Action)
    requires Inv(s) && Enabled(s, a)
    ensures Inv(Apply(s, a))
  {
    match a
    case Arrive(_) => ArrivalKeeps(s, a);
    case Finish => ArrivalKeeps(s, a);
    case Recv(i, k) => RecvKeeps(s, i, k);
    case RecvError(i) => ErrorKeeps(s, i);
    case PushOther => PushOtherKeeps(s);
    case Pop(_) => TransportStepKeeps(s, a);
    case Call(_) => TransportStepKeeps(s, a);
    case Start(_) => TransportStepKeeps(s, a);
    case Begin(_) => WakeUpKeeps(s, a);
    case Wake(_) => WakeUpKeeps(s, a);
    case Ready(_) => WakeUpKeeps(s, a);
    case _ => SmallStepKeeps(s, a);
  }

  lemma PushOtherKeeps(s: State)
    requires Inv(s)
    ensures Inv(Apply(s, PushOther))
  {
    WaitingConcat(s.queue, Other);
    assert s.rd.log + s.rd.replay + (Waiting(s.queue) + []) == s.rd.log + s.rd.replay + Waiting(s.queue);
    var u := Apply(s, PushOther);
    assert u.tasks == s.tasks && TasksOk(s);
  }

  lemma TransportStepKeeps(s: State, a: Action)
    requires Inv(s) && Enabled(s, a) && Transports(a)
    ensures Inv(Apply(s, a))
  {
    TransportKeepsShape(s, a);
    if a.Pop? {
      DeliveryKeepsFlow(s, a);
    } else {
      MoveKeepsFlow(s, a);
    }
    TransportKeepsTasks(s, a);
  }

  /** Every run. */
  lemma {:induction false} RunKeeps(s: State, run: seq<Action>)
    requires Inv(s) && Exec(s, run).Some?
    ensures Inv(Exec(s, run).value)
    decreases |run|
  {
    if run != [] {
      StepKeeps(s, run[0]);
      RunKeeps(Apply(s, run[0]), run[1..]);
    }
  }

  // ---------------------------------------------------------------------------
  // results, over every run
  // ---------------------------------------------------------------------------

  lemma ReachableInv(maxSize: nat, run: seq<Action>)
    requires Exec(Initial(maxSize), run).Some?
    ensures Inv(Exec(Initial(maxSize), run).value)
  {
    RunKeeps(Initial(maxSize), run);
  }

  predicate Conserved(s: State) {
    && Payload(s.rd.log) <= s.arrived
    && (!s.rd.closing ==>
          Payload(s.rd.log) + Payload(s.rd.replay) + Payload(Waiting(s.queue)) + s.kernel == s.arrived)
  }

  /**
   No byte is lost or reordered between the kernel and the protocol: until the transport closes,
   what was handed over, what waits for replay, what waits in the queue and what the kernel holds
   make up what arrived; after that, what was handed over is still a prefix of it.
   */
  lemma StreamConserved(maxSize: nat, run: seq<Action>)
    requires Exec(Initial(maxSize), run).Some?
    ensures Conserved(Exec(Initial(maxSize), run).value)
  {
    ReachableInv(maxSize, run);
    FlowConserves(Exec(Initial(maxSize), run).value);
  }

  lemma FlowConserves(s: State)
    requires Flow(s)
    ensures Conserved(s)
  {
    assert s.rd.log <= s.read;
    LogPrefix(s);
    if !s.rd.closing {
      PayloadConcat(s.rd.log + s.rd.replay, Waiting(s.queue));
      PayloadConcat(s.rd.log, s.rd.replay);
    }
  }

  lemma LogPrefix(s: State)
    requires Flow(s) && s.rd.log <= s.read
    ensures Payload(s.rd.log) <= s.arrived
  {
    var rest := s.read[|s.rd.log|..];
    assert s.read == s.rd.log + rest;
    PayloadConcat(s.rd.log, rest);
    assert s.arrived == Payload(s.rd.log) + (Payload(rest) + s.kernel);
  }

  /** End of stream is handed over only after every byte that ever arrives, and no byte follows it. */
  lemma EofAfterEveryByte(maxSize: nat, run: seq<Action>, j: nat)
    requires Exec(Initial(maxSize), run).Some?
    requires var s := Exec(Initial(maxSize), run).value; j < |s.rd.log| && s.rd.log[j].Eof?
    ensures var s := Exec(Initial(maxSize), run).value;
            && Payload(s.rd.log[..j]) == s.arrived
            && s.fin
            && forall k :: j < k < |s.rd.log| ==> !s.rd.log[k].Data?
  {
    ReachableInv(maxSize, run);
    EofMeansAll(Exec(Initial(maxSize), run).value, j);
  }

  lemma EofMeansAll(s: State, j: nat)
    requires Flow(s) && j < |s.rd.log| && s.rd.log[j].Eof?
    ensures Payload(s.rd.log[..j]) == s.arrived && s.fin
    ensures forall k :: j < k < |s.rd.log| ==> !s.rd.log[k].Data?
  {
    assert s.rd.log <= s.read;
    assert s.read[j] == Eof && Eof in s.read;
    TailWithoutData(s.read, j);
    assert s.rd.log[..j] == s.read[..j];
  }

  lemma TailWithoutData(read: seq<Item>, j: nat)
    requires EofLast(read) && j < |read| && read[j].Eof?
    ensures Payload(read) == Payload(read[..j])
  {
    var tail := read[j..];
    assert read == read[..j] + tail;
    PayloadConcat(read[..j], tail);
    NoDataNoPayload(tail);
  }

  lemma {:induction false} NoDataNoPayload(items: seq<Item>)
    requires forall k :: 0 <= k < |items| ==> !items[k].Data?
    ensures Payload(items) == []
  {
    if items != [] {
      NoDataNoPayload(items[1..]);
    }
  }

  /** A live task parked on a readable descriptor has its flag set or an edge on the way. */
  predicate Stalled(s: State, i: nat) {
    && i < |s.tasks| && !s.tasks[i].dead && s.tasks[i].point.Parked?
    && Readable(s) && !s.tasks[i].flag && !s.tasks[i].edge
  }

  lemma NeverStalls(maxSize: nat, run: seq<Action>, i: nat)
    requires Exec(Initial(maxSize), run).Some?
    requires var s := Exec(Initial(maxSize), run).value; i < |s.tasks| ==> !s.tasks[i].failed
    ensures !Stalled(Exec(Initial(maxSize), run).value, i)
  {
    ReachableInv(maxSize, run);
    var s := Exec(Initial(maxSize), run).value;
    if i < |s.tasks| {
      assert TaskOk(s.chunk, Readable(s), s.busy == Some(i), s.tasks[i]);
    }
  }

  /**
   Neither data in the kernel nor the end of the stream is ever stranded: a transport that wants to read has a live task, and from
   any state in which nothing holds the thread that task has read on three steps later.
   */
  lemma NothingStranded(maxSize: nat, run: seq<Action>)
    requires Exec(Initial(maxSize), run).Some?
    requires var s := Exec(Initial(maxSize), run).value;
             && s.busy.None? && Readable(s)
             && s.rd.started && !s.rd.paused && !s.rd.closing && s.rd.kept == 0
             && (0 < s.rd.regs <= |s.tasks| ==> !s.tasks[s.rd.regs - 1].failed)
    ensures var s := Exec(Initial(maxSize), run).value;
            exists next :: |next| <= 3 && Exec(s, next).Some? && |s.read| < |Exec(s, next).value.read|
  {
    ReachableInv(maxSize, run);
    TaskReadsOn(Exec(Initial(maxSize), run).value);
  }

  lemma TaskReadsOn(s: State)
    requires Inv(s) && s.busy.None? && Readable(s)
    requires s.rd.started && !s.rd.paused && !s.rd.closing && s.rd.kept == 0
    requires 0 < s.rd.regs <= |s.tasks| ==> !s.tasks[s.rd.regs - 1].failed
    ensures exists next :: |next| <= 3 && Exec(s, next).Some? && |s.read| < |Exec(s, next).value.read|
  {
    var i := s.rd.regs - 1;
    var t := s.tasks[i];
    assert TaskOk(s.chunk, Readable(s), s.busy == Some(i), t);
    if t.point.Fresh? {
      ReadsOn(s, [Begin(i)], i);
    } else if t.point.Yielding? {
      ReadsOn(s, [Wake(i)], i);
    } else if t.flag {
      ReadsOn(s, [Ready(i)], i);
    } else {
      ExecTwo(s, Driver(i), Ready(i));
      ReadsOn(s, [Driver(i), Ready(i)], i);
    }
  }

  lemma ExecCons(s: State, a: Action, rest: seq<Action>)
    requires Enabled(s, a)
    ensures Exec(s, [a] + rest) == Exec(Apply(s, a), rest)
  {
    var run := [a] + rest;
    assert run[0] == a && run[1..] == rest;
  }

  lemma ExecOne(s: State, a: Action)
    requires Enabled(s, a)
    ensures Exec(s, [a]) == Some(Apply(s, a))
  {
    ExecCons(s, a, []);
    assert [a] + [] == [a];
  }

  lemma ExecTwo(s: State, a: Action, b: Action)
    requires Enabled(s, a) && Enabled(Apply(s, a), b)
    ensures Exec(s, [a, b]) == Some(Apply(Apply(s, a), b))
  {
    ExecCons(s, a, [b]);
    ExecOne(Apply(s, a), b);
    assert [a, b] == [a] + [b];
  }

  lemma {:induction false} ExecConcat(s: State, p: seq<Action>, q: seq<Action>)
    requires Exec(s, p).Some?
    ensures Exec(s, p + q) == Exec(Exec(s, p).value, q)
    decreases |p|
  {
    if p == [] {
      assert p + q == q;
    } else {
      var a, rest := p[0], p[1..];
      assert p == [a] + rest && p + q == [a] + (rest + q);
      ExecCons(s, a, rest);
      ExecCons(s, a, rest + q);
      ExecConcat(Apply(s, a), rest, q);
    }
  }

  lemma ReadsOn(s: State, p: seq<Action>, i: nat)
    requires |p| <= 2 && Exec(s, p).Some?
    requires var u := Exec(s, p).value;
             && Holds(u, i) && u.tasks[i].point.Reading? && Readable(u) && 0 < u.chunk && |s.read| == |u.read|
    ensures exists next :: |next| <= 3 && Exec(s, next).Some? && |s.read| < |Exec(s, next).value.read|
  {
    var u := Exec(s, p).value;
    var a := Recv(i, if u.kernel != [] then 1 else 0);
    ExecConcat(s, p, [a]);
    ExecOne(u, a);
    var next := p + [a];
    assert |next| <= 3 && Exec(s, next).Some?;
  }

  /**
   The one way to stall is a read error: after it, the task parks on a readable descriptor with no
   wake-up coming exactly when no edge is queued and the readiness flag is clear or about to be cleared.
   */
  lemma ErrorStallsIff(s: State, i: nat)
    requires Inv(s) && Enabled(s, RecvError(i))
    ensures Enabled(Apply(s, RecvError(i)), Clear(i))
    ensures var u := Apply(Apply(s, RecvError(i)), Clear(i));
            var t := s.tasks[i];
            Stalled(u, i) <==>
              !t.dead && Readable(s) && !t.edge && (t.flag ==> t.guard == Some(t.tick))
  {
  }

  // ---------------------------------------------------------------------------
  // what is read, and how often a task is woken
  // ---------------------------------------------------------------------------

  /** A read that finds something pushes it, and only that: a chunk of what was there, or the end of the stream. */
  lemma ReadPushes(s: State, i: nat, k: nat)
    requires Enabled(s, Recv(i, k))
    ensures var u := Apply(s, Recv(i, k));
            && (s.kernel != [] ==>
                  exists b :: b != [] && b + u.kernel == s.kernel && u.read == s.read + [Data(b)] && u.queue == s.queue + [Ours(Data(b))])
            && (s.kernel == [] && s.fin ==> u.read == s.read + [Eof] && u.queue == s.queue + [Ours(Eof)])
            && (s.kernel == [] && !s.fin ==> u.read == s.read && u.queue == s.queue)
            && (s.kernel == [] ==> u.kernel == [])
  {
    if s.kernel != [] {
      var b, u := s.kernel[..k], AfterRecv(s, i, k);
      assert b != [] && b + u.kernel == s.kernel;
      assert u.read == s.read + [Data(b)] && u.queue == s.queue + [Ours(Data(b))];
    }
  }

  /** A task that was removed or replaced finishes its quantum and starts no other: at its next await it ends or stays parked. */
  lemma DetachedTaskStops(s: State, a: Action, i: nat)
    requires Inv(s) && Enabled(s, a) && i < |s.tasks| && s.tasks[i].dead
    ensures var u := Apply(s, a);
            && i < |u.tasks| && u.tasks[i].dead
            && (u.tasks[i].point.Reading? ==> s.tasks[i].point.Reading?)
            && (a == Wake(i) || a == Ready(i) || a == Clear(i) || a == Abort(i) ==> u.tasks[i].point.Gone?)
  {
    if Transports(a) {
      DetachedStays(s, a, i);
    } else {
      DetachedMoves(s, a, i);
    }
  }

  lemma DetachedMoves(s: State, a: Action, i: nat)
    requires Inv(s) && Enabled(s, a) && !Transports(a) && i < |s.tasks| && s.tasks[i].dead
    ensures var u := Apply(s, a);
            && i < |u.tasks| && u.tasks[i].dead
            && (u.tasks[i].point.Reading? ==> s.tasks[i].point.Reading?)
            && (a == Wake(i) || a == Ready(i) || a == Clear(i) || a == Abort(i) ==> u.tasks[i].point.Gone?)
  {
  }

  lemma DetachedStays(s: State, a: Action, i: nat)
    requires Inv(s) && Enabled(s, a) && Transports(a) && i < |s.tasks| && s.tasks[i].dead
    ensures var u := Apply(s, a); i < |u.tasks| && u.tasks[i] == s.tasks[i]
  {
  }

  function ErrorsIn(items: seq<Item>): nat {
    if items == [] then 0 else (if items[0].ReadError? then 1 else 0) + ErrorsIn(items[1..])
  }

  function FailedReads(run: seq<Action>): nat {
    if run == [] then 0 else (if run[0].RecvError? then 1 else 0) + FailedReads(run[1..])
  }

  lemma {:induction false} ErrorsSnoc(items: seq<Item>, x: Item)
    ensures ErrorsIn(items + [x]) == ErrorsIn(items) + if x.ReadError? then 1 else 0
  {
    if items == [] {
      assert [x][1..] == [];
    } else {
      ErrorsSnoc(items[1..], x);
      var more := items + [x];
      assert more[0] == items[0] && more[1..] == items[1..] + [x];
    }
  }

  /** Every failed read is among the items read off the descriptor, which all reach the queue, and nothing else counts as one. */
  lemma {:induction false} ErrorsArePushed(s: State, run: seq<Action>)
    requires Exec(s, run).Some?
    ensures ErrorsIn(Exec(s, run).value.read) == ErrorsIn(s.read) + FailedReads(run)
    decreases |run|
  {
    if run != [] {
      var u := Apply(s, run[0]);
      if u.read != s.read {
        ErrorsSnoc(s.read, u.read[|s.read|]);
        assert u.read == s.read + [u.read[|s.read|]];
      }
      ErrorsArePushed(u, run[1..]);
    }
  }

  function Wakeups(run: seq<Action>, i: nat): nat {
    if run == [] then 0 else (if run[0] == Ready(i) then 1 else 0) + Wakeups(run[1..], i)
  }

  function Events(run: seq<Action>, i: nat): nat {
    if run == [] then 0 else (if run[0] == Driver(i) || run[0] == OtherEvent(i) then 1 else 0) + Events(run[1..], i)
  }

  /** Events that no wake-up has answered yet. */
  function Unanswered(s: State, i: nat): int {
    if i < |s.tasks| then s.tasks[i].tick - s.tasks[i].lastGuard else 0
  }

  /** A drained flag is cleared, so a task is woken at most once for every event the driver delivers to it. */
  lemma WakeupsBounded(maxSize: nat, run: seq<Action>, i: nat)
    requires Exec(Initial(maxSize), run).Some?
    ensures Wakeups(run, i) <= Events(run, i)
  {
    WakeupsFrom(Initial(maxSize), run, i);
  }

  lemma {:induction false} WakeupsFrom(s: State, run: seq<Action>, i: nat)
    requires Inv(s) && Exec(s, run).Some?
    ensures Wakeups(run, i) <= Events(run, i) + Unanswered(s, i)
    decreases |run|
  {
    if run == [] {
      if i < |s.tasks| {
        assert TaskOk(s.chunk, Readable(s), s.busy == Some(i), s.tasks[i]);
      }
    } else {
      StepKeeps(s, run[0]);
      WakeupsFrom(Apply(s, run[0]), run[1..], i);
      WakeupPaid(s, run[0], i);
    }
  }

  lemma WakeupPaid(s: State, a: Action, i: nat)
    requires Inv(s) && Enabled(s, a)
    ensures (if a == Ready(i) then 1 else 0) + Unanswered(Apply(s, a), i) <=
            (if a == Driver(i) || a == OtherEvent(i) then 1 else 0) + Unanswered(s, i)
  {
    if i < |s.tasks| {
      assert TaskOk(s.chunk, Readable(s), s.busy == Some(i), s.tasks[i]);
    }
    UnansweredStep(s, a, i);
  }

  lemma UnansweredStep(s: State, a: Action, i: nat)
    requires Shape(s) && Enabled(s, a)
    ensures Unanswered(Apply(s, a), i) ==
            if a == Ready(i) then 0 else Unanswered(s, i) + if a == Driver(i) || a == OtherEvent(i) then 1 else 0
  {
    if Transports(a) {
      assert |s.tasks| <= a.to.regs;
    }
  }

  /** The state in which data arrived before the watcher was registered, and its first read begins. */
  function FirstRead(): State {
    State(65536, [1], false, [1], [], [Task(Reading(0, 0), None, false, false, 0, false, false, 0)], Some(0), [],
          ReadView([], [], false, false, 1, true, true, 0))
  }

  lemma FirstReadReached()
    ensures Exec(Initial(65536), [Arrive([1]), Start(FirstRead().rd), Begin(0)]) == Some(FirstRead())
  {
    var s0 := Initial(65536);
    var s1 := Apply(s0, Arrive([1]));
    assert s1.tasks == [];
    var s2 := Apply(s1, Start(FirstRead().rd));
    assert s2.tasks == [Task(Fresh, None, false, false, 0, false, false, 0)];
    assert Apply(s2, Begin(0)) == FirstRead();
    ExecTwo(s1, Start(FirstRead().rd), Begin(0));
    ExecCons(s0, Arrive([1]), [Start(FirstRead().rd), Begin(0)]);
    assert [Arrive([1])] + [Start(FirstRead().rd), Begin(0)] == [Arrive([1]), Start(FirstRead().rd), Begin(0)];
  }

  /** What the environment can do: data and the end of the stream arrive, edges are queued, other descriptors complete. */
  lemma EnvironmentActs(s: State, a: Action)
    requires Enabled(s, a) && (a.Arrive? || a.Finish? || a.SpareEdge? || a.PushOther?)
    ensures var u := Apply(s, a);
            && u.rd == s.rd && u.read == s.read && u.busy == s.busy && |u.tasks| == |s.tasks|
            && (a.Arrive? ==> u.kernel == s.kernel + a.bytes && u.arrived == s.arrived + a.bytes && u.fin == s.fin)
            && (a.Finish? ==> u.fin && u.kernel == s.kernel)
            && (a.Arrive? || a.Finish? ==>
                  forall i :: 0 <= i < |s.tasks| ==> u.tasks[i] == s.tasks[i].(edge := s.tasks[i].edge || !Readable(s)))
            && (a.SpareEdge? ==> u.tasks[a.i] == s.tasks[a.i].(edge := true))
            && u.queue == s.queue + (if a.PushOther? then [Other] else [])
  {
  }

  /** From that first read on, the data and then the end of the stream reach the protocol. */
  function Delivering(): seq<Action> {
    var rd := FirstRead().rd;
    [Recv(0, 1)] + ([Finish] + ([Recv(0, 0)] +
      ([Pop(rd.(log := [Data([1])]))] + ([Pop(rd.(log := [Data([1]), Eof], watched := false, kept := 1))] + []))))
  }

  lemma DeliveryWitness()
    ensures var u := Exec(FirstRead(), Delivering());
            u.Some? && u.value.rd.log == [Data([1]), Eof] && u.value.queue == [] && u.value.kernel == []
  {
    var s0 := FirstRead();
    BothAreRead();
    var s1 := Apply(s0, Recv(0, 1));
    var s2 := Apply(s1, Finish);
    var s3 := Apply(s2, Recv(0, 0));
    var rd3, rd4 := s0.rd.(log := [Data([1])]), s0.rd.(log := [Data([1]), Eof], watched := false, kept := 1);
    DataIsDelivered(s3, rd3);
    var s4 := Apply(s3, Pop(rd3));
    EndIsDelivered(s4, rd4);
    DeliverySteps(s0, s1, s2, s3, s4, Apply(s4, Pop(rd4)));
  }

  lemma DataIsDelivered(s: State, to: ReadView)
    requires s.busy.None? && s.queue == [Ours(Data([1])), Ours(Eof)] && s.rd == FirstRead().rd
    requires to == s.rd.(log := [Data([1])])
    ensures Enabled(s, Pop(to))
    ensures var u := Apply(s, Pop(to)); u.busy.None? && u.queue == [Ours(Eof)] && u.rd == to && u.kernel == s.kernel
  {
    assert Handed(s.rd, Data([1])).log == [Data([1])];
    ReadLaterRefl(true, to);
  }

  lemma EndIsDelivered(s: State, to: ReadView)
    requires s.busy.None? && s.queue == [Ours(Eof)] && s.rd == FirstRead().rd.(log := [Data([1])])
    requires to == FirstRead().rd.(log := [Data([1]), Eof], watched := false, kept := 1)
    ensures Enabled(s, Pop(to))
    ensures var u := Apply(s, Pop(to)); u.queue == [] && u.rd == to && u.kernel == s.kernel
  {
    assert Handed(s.rd, Eof).log == [Data([1]), Eof];
  }

  lemma BothAreRead()
    ensures Enabled(FirstRead(), Recv(0, 1))
    ensures var s1 := Apply(FirstRead(), Recv(0, 1));
            Enabled(s1, Finish) && Enabled(Apply(s1, Finish), Recv(0, 0))
    ensures var s3 := Apply(Apply(Apply(FirstRead(), Recv(0, 1)), Finish), Recv(0, 0));
            && s3.queue == [Ours(Data([1])), Ours(Eof)] && s3.rd == FirstRead().rd && s3.busy.None? && s3.kernel == []
  {
    assert FirstRead().kernel[..1] == [1] && FirstRead().kernel[1..] == [];
  }

  lemma DeliverySteps(s0: State, s1: State, s2: State, s3: State, s4: State, s5: State)
    requires s0 == FirstRead()
    requires Enabled(s0, Recv(0, 1)) && s1 == Apply(s0, Recv(0, 1))
    requires Enabled(s1, Finish) && s2 == Apply(s1, Finish)
    requires Enabled(s2, Recv(0, 0)) && s3 == Apply(s2, Recv(0, 0))
    requires var rd := s0.rd.(log := [Data([1])]); Enabled(s3, Pop(rd)) && s4 == Apply(s3, Pop(rd))
    requires var rd := s0.rd.(log := [Data([1]), Eof], watched := false, kept := 1);
             Enabled(s4, Pop(rd)) && s5 == Apply(s4, Pop(rd))
    ensures Exec(s0, Delivering()) == Some(s5)
  {
    var p4 := [Pop(s0.rd.(log := [Data([1]), Eof], watched := false, kept := 1))] + [];
    var p3 := [Pop(s0.rd.(log := [Data([1])]))] + p4;
    ExecCons(s0, Recv(0, 1), [Finish] + ([Recv(0, 0)] + p3));
    ExecCons(s1, Finish, [Recv(0, 0)] + p3);
    ExecCons(s2, Recv(0, 0), p3);
    ExecCons(s3, p3[0], p4);
    ExecCons(s4, p4[0], []);
  }

  lemma FirstReadFails()
    ensures Exec(FirstRead(), [RecvError(0), Clear(0)]).Some?
    ensures Stalled(Exec(FirstRead(), [RecvError(0), Clear(0)]).value, 0)
  {
    FirstReadReached();
    ReachableInv(65536, [Arrive([1]), Start(FirstRead().rd), Begin(0)]);
    ErrorStallsIff(FirstRead(), 0);
    ExecTwo(FirstRead(), RecvError(0), Clear(0));
  }

  /** It happens: that read fails, and the data is left behind with nothing to wake the task. */
  lemma ErrorStallWitness()
    ensures exists run :: Exec(Initial(65536), run).Some? && Stalled(Exec(Initial(65536), run).value, 0)
  {
    FirstReadReached();
    FirstReadFails();
    Continued(Initial(65536), [Arrive([1]), Start(FirstRead().rd), Begin(0)], FirstRead(), [RecvError(0), Clear(0)]);
  }

  lemma Continued(s: State, p: seq<Action>, m: State, q: seq<Action>)
    requires Exec(s, p) == Some(m) && Exec(m, q).Some? && Stalled(Exec(m, q).value, 0)
    ensures exists run :: Exec(s, run).Some? && Stalled(Exec(s, run).value, 0)
  {
    ExecConcat(s, p, q);
    var run := p + q;
    assert Exec(s, run) == Exec(m, q);
  }

  /** The byte limit of a quantum never cuts it short: only the item limit does, at 262144 bytes at most. */
  lemma QuantumBounds(maxSize: nat, run: seq<Action>, i: nat, k: nat)
    requires Exec(Initial(maxSize), run).Some?
    requires Enabled(Exec(Initial(maxSize), run).value, Recv(i, k))
    ensures var s := Exec(Initial(maxSize), run).value;
            var p := s.tasks[i].point;
            && p.n < TCP_QUANTUM_ITEMS && p.bytes + k <= TCP_QUANTUM_BYTES
            && (s.kernel != [] ==>
                  (AfterRecv(s, i, k).tasks[i].point.Yielding? <==> p.n + 1 == TCP_QUANTUM_ITEMS))
  {
    ReachableInv(maxSize, run);
    var s := Exec(Initial(maxSize), run).value;
    var p := s.tasks[i].point;
    assert TaskOk(s.chunk, Readable(s), s.busy == Some(i), s.tasks[i]);
    QuantumBound(s.chunk, p.n, p.bytes, k);
    ByteLimitIsSlack(p.n + 1, p.bytes + k, s.chunk);
  }

  /** A transport call that does not keep an ended stream open leaves a live drain watcher in place: none of the tasks changes. */
  lemma CallsKeepTheWatcher(maxSize: nat, run: seq<Action>, to: ReadView)
    requires Exec(Initial(maxSize), run).Some?
    requires Enabled(Exec(Initial(maxSize), run).value, Call(to))
    ensures var s := Exec(Initial(maxSize), run).value;
            s.rd.watched && !to.closing && to.kept == s.rd.kept ==> Apply(s, Call(to)).tasks == s.tasks
  {
    ReachableInv(maxSize, run);
  }
}
