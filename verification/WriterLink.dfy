/**
 The stream transport's writer inside the callback-mode machine.  The transport's boolean stands for the
 registry entry of its descriptor: a queued completion calls the transport back only while the slot it
 was queued for still serves the descriptor, and then a writer is registered.
 */
module WriterLink {
  import opened Options
  import opened StreamState
  import opened StreamTransport
  import opened Watchers
  import R = Reactor

  /** The registry entry of the descriptor agrees with the transport. */
  ghost predicate Agrees(r: R.State, fd: int, writer: bool) {
    R.Inv(r) && 0 <= fd && !r.reg.closed && (Entry(r.reg, fd, Writer).Some? <==> writer)
  }

  /** A request that is not about this writer, and does not close the loop. */
  predicate Foreign(reg: Registry, op: Op, fd: int) {
    match op
    case AddOp(f, d, _) => f != fd || d != Writer
    case RemoveOp(f, d) => f != fd || d != Writer
    case CancelOp(id) => id < |reg.slots| ==> reg.slots[id].fd != fd || reg.slots[id].dir != Writer
    case SockDoneOp(id, _) => id < |reg.slots| ==> reg.slots[id].fd != fd || reg.slots[id].dir != Writer
    case CloseOp => false
  }

  lemma ForeignKeepsEntry(reg: Registry, op: Op, fd: int)
    requires Sound(reg) && Foreign(reg, op, fd)
    ensures Do(reg, op).closed == reg.closed && Entry(Do(reg, op), fd, Writer) == Entry(reg, fd, Writer)
  {
    if op.CancelOp? && op.id < |reg.slots| {
      CancelIsDetach(reg, op.id);
    }
  }

  /** The transport's own requests: `true` registers, `false` removes. */
  function Ask(fd: int, add: bool): R.Action {
    R.Request(if add then AddOp(fd, Writer, false) else RemoveOp(fd, Writer))
  }

  function AskAll(r: R.State, fd: int, asks: seq<bool>): R.State
    decreases |asks|
  {
    if asks == [] || r.busy.Some? then r else AskAll(R.Apply(r, Ask(fd, asks[0])), fd, asks[1..])
  }

  /** Any number of them, replacements included, leaves the entry as the last one says. */
  lemma {:induction false} AskAllAgrees(r: R.State, fd: int, writer: bool, asks: seq<bool>)
    requires Agrees(r, fd, writer) && r.busy.None?
    ensures Agrees(AskAll(r, fd, asks), fd, if asks == [] then writer else asks[|asks| - 1])
    decreases |asks|
  {
    if asks != [] {
      R.RequestKeeps(r, Ask(fd, asks[0]).op);
      AskAllAgrees(R.Apply(r, Ask(fd, asks[0])), fd, asks[0], asks[1..]);
    }
  }

  /**
   The head of the completion queue is for this writer: it calls the transport back exactly if its slot
   still serves the descriptor, whatever was removed, replaced or registered since it was queued, and
   then the transport has a writer registered.
   */
  lemma FiringIsLive(r: R.State, fd: int, t: Transport)
    requires Agrees(r, fd, t.wr.writer) && Settled(t) && R.Enabled(r, R.PopIo)
    requires var i := r.io[0]; r.reg.slots[i].fd == fd && r.reg.slots[i].dir == Writer && !r.reg.slots[i].drain
    ensures var i := r.io[0];
            && (R.Apply(r, R.PopIo).calls == r.calls + [i] <==> Serves(r.reg, i))
            && (Serves(r.reg, i) ==> t.wr.writer && (t.wr.buffer == [] <==> t.wr.cleared))
  {
    assert SlotOk(r.reg, r.io[0]);
    assert R.Apply(r, R.PopIo).calls == r.calls || R.Apply(r, R.PopIo).calls == r.calls + [r.io[0]];
    SettledMeans(t);
  }

  /** The requests logged between two states of the transport end with what it has registered. */
  lemma LoggedRequests(a: WriteView, b: WriteView)
    requires WriteValid(a) && WriteValid(b) && WriteLater(a, b)
    ensures var asks := b.asks[|a.asks|..];
            b.writer == if asks == [] then a.writer else asks[|asks| - 1]
  {
    var asks := b.asks[|a.asks|..];
    assert b.asks == a.asks + asks;
  }

  /** A completion of this writer is at the head of the queue and can be taken. */
  predicate AtHead(r: R.State, fd: int) {
    R.Enabled(r, R.PopIo) && r.reg.slots[r.io[0]].fd == fd && r.reg.slots[r.io[0]].dir == Writer
  }

  /** A step of anything but this writer. */
  predicate Around(r: R.State, a: R.Action, fd: int) {
    && R.Enabled(r, a)
    && (a.Request? ==> Foreign(r.reg, a.op, fd))
    && (a.PopIo? ==> !AtHead(r, fd))
  }

  lemma AroundKeeps(r: R.State, a: R.Action, fd: int, writer: bool)
    requires Agrees(r, fd, writer) && Around(r, a, fd)
    ensures Agrees(R.Apply(r, a), fd, writer)
  {
    R.StepKeeps(r, a);
    if a.Request? {
      ForeignKeepsEntry(r.reg, a.op, fd);
    } else {
      assert R.Apply(r, a).reg == r.reg;
    }
  }

  /**
   Other      any step of the machine that is not about this writer
   Completion the batch takes a completion of this writer
   Callback   any other loop callback of the transport, or a call by its user, whatever callback it is made from
   */
  datatype Step = Other(action: R.Action) | Completion | Callback(event: Event)

  class Link {
    const t: SocketTransport
    const fd: int
    var r: R.State

    ghost predicate Linked() reads this, t {
      Settled(t.View()) && Agrees(r, fd, t.wr.writer)
    }

    constructor (t: SocketTransport, fd: int, r: R.State)
      requires Settled(t.View()) && Agrees(r, fd, t.wr.writer)
      ensures this.t == t && this.fd == fd && this.r == r && Linked()
    {
      this.t, this.fd, this.r := t, fd, r;
    }

    /** The transport acts, and the registry takes the requests it logged meanwhile. */
    method Callback(e: Event)
      requires Linked() && r.busy.None?
      modifies this, t
      ensures Linked()
      ensures old(t.wr.asks) <= t.wr.asks && r == AskAll(old(r), fd, t.wr.asks[|old(t.wr.asks)|..])
      ensures t.life.asserts == old(t.life.asserts) + if e.WriterFires? && old(t.wr.writer && t.wr.cleared) then 1 else 0
    {
      ghost var before := t.wr;
      var n := |t.wr.asks|;
      t.Handle(e);
      LoggedRequests(before, t.wr);
      AskAllAgrees(r, fd, before.writer, t.wr.asks[n..]);
      r := AskAll(r, fd, t.wr.asks[n..]);
    }

    /** A completion of this writer: the transport is called back if the slot still serves the descriptor. */
    method Complete()
      requires Linked() && AtHead(r, fd)
      modifies this, t
      ensures Linked()
      ensures old(r.reg.slots[r.io[0]].cb) ==> old(Serves(r.reg, r.io[0]) && t.wr.writer)
      ensures !old(r.reg.slots[r.io[0]].cb) ==> t.Now() == old(t.Now())
      ensures t.life.asserts == old(t.life.asserts) + if old(r.reg.slots[r.io[0]].cb && t.wr.cleared) then 1 else 0
    {
      var i := r.io[0];
      assert SlotOk(r.reg, i);
      var live := r.reg.slots[i].cb;
      R.StepKeeps(r, R.PopIo);
      r := R.Apply(r, R.PopIo);
      if live {
        Callback(WriterFires);
      }
    }

    method Take(step: Step)
      requires Linked()
      modifies this, t
      ensures Linked()
    {
      match step {
        case Other(a) =>
          if Around(r, a, fd) {
            AroundKeeps(r, a, fd, t.wr.writer);
            r := R.Apply(r, a);
          }
        case Completion =>
          if AtHead(r, fd) {
            Complete();
          }
        case Callback(e) =>
          if r.busy.None? && !e.WriterFires? {
            Callback(e);
          }
      }
    }

    /**
     Under any interleaving with other descriptors, the driver and the watcher tasks: the registry entry of
     the descriptor is the transport's writer, so the transport is called back only while one is registered.
     */
    method Drive(steps: seq<Step>)
      requires Linked()
      modifies this, t
      ensures Linked()
      ensures !t.life.dead ==> (Entry(r.reg, fd, Writer).Some? <==> t.wr.buffer != [])
      ensures Entry(r.reg, fd, Writer).Some? ==> (t.wr.buffer == [] <==> t.wr.cleared)
    {
      for i := 0 to |steps|
        invariant Linked()
      {
        Take(steps[i]);
      }
      SettledMeans(t.View());
    }
  }
}
