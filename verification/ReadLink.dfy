/**
 The stream transport inside the end-to-end machine: the transport's own code takes the transport
 steps, and what it does to its read side is a step the machine allows.  So what is proved about
 every run of the machine holds of the transport.
 */
module ReadLink {
  import opened Bytes
  import opened Options
  import opened ReadSide
  import opened StreamState
  import opened StreamScript
  import opened StreamTransport
  import D = DrainMachine

  /**
   Around     a step of kernel, driver, watcher task or another descriptor's completion
   Batch      the batch takes the head of the completion queue
   Callback   any other loop callback of the transport, or a call by its user
   */
  datatype Step = Around(action: D.Action) | Batch | Callback(event: Event)

  /** The machine step that stands for an event of the transport. */
  function StepOf(e: Event, to: ReadView): D.Action {
    match e
    case StartReading => D.Start(to)
    case Deliver(_) => D.Pop(to)
    case _ => D.Call(to)
  }

  /** Whatever the transport did on this event, the machine can do. */
  lemma HandleIsStep(s: D.State, e: Event, to: ReadView)
    requires D.Inv(s) && s.busy.None? && ReadValid(to) && ReadStep(true, e, s.rd, to)
    requires e.Deliver? ==> s.queue != [] && s.queue[0] == D.Ours(e.item)
    ensures D.Enabled(s, StepOf(e, to))
    ensures var u := D.Apply(s, StepOf(e, to)); D.Inv(u) && u.rd == to
  {
    D.StepKeeps(s, StepOf(e, to));
  }

  class Link {
    const t: SocketTransport
    var s: D.State
    var run: seq<D.Action>    // the machine steps taken so far

    ghost predicate Linked() reads this, t {
      && t.drain && Settled(t.View())
      && D.Inv(s) && s.rd == t.rd
    }

    constructor (maxSize: nat, iovMax: nat, script: seq<Command>, net: seq<SendResult>)
      ensures Linked() && fresh(t) && run == [] && s == D.Initial(maxSize)
    {
      t := new SocketTransport(true, iovMax, script, net);
      s, run := D.Initial(maxSize), [];
    }

    /** One event: the transport acts, the machine follows. */
    method Follow(e: Event)
      requires Linked() && s.busy.None?
      requires e.Deliver? ==> s.queue != [] && s.queue[0] == D.Ours(e.item)
      modifies this, t
      ensures Linked()
      ensures D.Enabled(old(s), StepOf(e, t.rd)) && s == D.Apply(old(s), StepOf(e, t.rd))
      ensures run == old(run) + [StepOf(e, t.rd)]
    {
      t.Handle(e);
      HandleIsStep(s, e, t.rd);
      run := run + [StepOf(e, t.rd)];
      s := D.Apply(s, StepOf(e, t.rd));
    }

    /** A step that is not the transport's. */
    method Move(a: D.Action)
      requires Linked() && D.Enabled(s, a) && D.Apply(s, a).rd == s.rd
      modifies this
      ensures Linked() && s == D.Apply(old(s), a) && run == old(run) + [a]
    {
      D.StepKeeps(s, a);
      run := run + [a];
      s := D.Apply(s, a);
    }

    /** One step, if it is possible. */
    method Take(step: Step)
      requires Linked()
      modifies this, t
      ensures Linked()
      ensures (s, run) == (old(s), old(run)) ||
              exists a :: D.Enabled(old(s), a) && s == D.Apply(old(s), a) && run == old(run) + [a]
    {
      match step {
        case Around(a) =>
          if D.Enabled(s, a) && !D.Transports(a) {
            Move(a);
          }
        case Batch =>
          if s.busy.None? && s.queue != [] {
            if s.queue[0].Ours? {
              Follow(Deliver(s.queue[0].item));
            } else {
              Move(D.Pop(s.rd));
            }
          }
        case Callback(e) =>
          if s.busy.None? && !e.Deliver? {
            Follow(e);
          }
      }
    }
  }

  lemma {:induction false} ExecSnoc(s: D.State, run: seq<D.Action>, a: D.Action)
    requires D.Exec(s, run).Some? && D.Enabled(D.Exec(s, run).value, a)
    ensures D.Exec(s, run + [a]) == Some(D.Apply(D.Exec(s, run).value, a))
  {
    D.ExecConcat(s, run, [a]);
    D.ExecOne(D.Exec(s, run).value, a);
  }

  /**
   The transport's own code, with any protocol and any socket, under any interleaving of kernel, driver,
   watcher tasks and batch: it is a run of the machine, so no byte is lost or reordered on the way from
   the kernel to the protocol, and the end of the stream is handed over after the last of them.
   */
  method Drive(maxSize: nat, iovMax: nat, script: seq<Command>, net: seq<SendResult>, steps: seq<Step>) returns (l: Link)
    ensures fresh(l) && fresh(l.t) && l.Linked()
    ensures D.Exec(D.Initial(maxSize), l.run) == Some(l.s)
    ensures Payload(l.t.rd.log) <= l.s.arrived
    ensures !l.t.rd.closing ==>
              Payload(l.t.rd.log) + Payload(l.t.rd.replay) + Payload(D.Waiting(l.s.queue)) + l.s.kernel == l.s.arrived
    ensures forall j :: 0 <= j < |l.t.rd.log| && l.t.rd.log[j].Eof? ==> Payload(l.t.rd.log[..j]) == l.s.arrived
  {
    l := new Link(maxSize, iovMax, script, net);
    ghost var s0 := l.s;
    for i := 0 to |steps|
      invariant fresh(l) && fresh(l.t) && l.Linked()
      invariant D.Exec(s0, l.run) == Some(l.s)
    {
      ghost var s, run := l.s, l.run;
      l.Take(steps[i]);
      if (l.s, l.run) != (s, run) {
        ghost var a :| D.Enabled(s, a) && l.s == D.Apply(s, a) && l.run == run + [a];
        ExecSnoc(s0, run, a);
      }
    }
    D.StreamConserved(maxSize, l.run);
    forall j | 0 <= j < |l.t.rd.log| && l.t.rd.log[j].Eof?
      ensures Payload(l.t.rd.log[..j]) == l.s.arrived
    {
      D.EofAfterEveryByte(maxSize, l.run, j);
    }
  }
}
