/** The datagram transport's send path, method by method. */
module DatagramTransport {
  import opened Bytes
  import opened Options
  import opened Datagram

  datatype Event = Api(command: Command) | WriterFires | ConnectionLost

  /** The transport together with what its protocol and its socket will do next. */
  datatype World = World(s: Sender, script: seq<Command>, net: seq<SendResult>)

  class SendQueue {
    const address: Option<nat>    // remote address of a connected transport
    var s: Sender
    var script: seq<Command>
    var net: seq<SendResult>

    ghost function Now(): World reads this {
      World(s, script, net)
    }

    constructor (address: Option<nat>, script: seq<Command>, net: seq<SendResult>)
      ensures this.address == address && this.script == script && this.net == net
      ensures Valid(s) && New(s)
    {
      this.address, this.script, this.net := address, script, net;
      var sender := NewSender();
      s := sender;
    }

    method NextSend() returns (r: SendResult)
      modifies this`net
      ensures old(net) != [] ==> r == old(net)[0] && net == old(net)[1..]
      ensures old(net) == [] ==> r.WouldBlock? && net == []
    {
      r := WouldBlock;
      if net != [] {
        r := net[0];
        net := net[1..];
      }
    }

    method CloseNow()
      requires Valid(s)
      modifies this`s
      ensures s == Closed(old(s)) && CloseOutcome(old(s), s) && Valid(s) && Later(old(s), s)
    {
      if s.closing {
        return;
      }
      s := s.(closing := true);
      if s.buffer == [] {
        s := s.(connLost := s.connLost + 1);
        s := s.(writer := false);
        s := s.(pending := s.pending + 1);
      }
    }

    method ForceClose()
      requires Valid(s)
      modifies this`s
      ensures s == ForceClosed(old(s)) && AbortOutcome(old(s), s) && Valid(s) && Later(old(s), s)
    {
      ForceClosedKeeps(s);
      DropQueue();
    }

    method DropQueue()
      modifies this`s
      ensures s == ForceClosed(old(s))
    {
      if 0 < s.connLost {
        return;
      }
      var queued := s.buffer != [];
      s := s.(outcomes := s.outcomes + AllDiscarded(s.buffer), buffer := []);
      if s.dead {
        if !queued {
          s := s.(connLost := s.connLost + 1);
        }
        return; // the call into the missing loop raises
      }
      if queued {
        s := s.(writer := false);
      }
      s := s.(closing := true);
      s := s.(connLost := s.connLost + 1, pending := s.pending + 1);
    }

    /** One protocol callback. */
    method RunProtocol()
      requires Valid(s)
      modifies this
      ensures Valid(s) && Later(old(s), s) && (script == [] || |script| < old(|script|))
      ensures Silent(old(script)) ==> Now() == old(Now()).(script := Rest(old(script)))
      ensures QueuesFirst(address, old(Now())) ==> s == AfterQueueing(address, old(Now())).s
      decreases |script|, 0
    {
      ghost var before := s;
      if script == [] {
        return;
      }
      var c := script[0];
      script := script[1..];
      if !c.Return? {
        Perform(c);
        ghost var mid := s;
        RunProtocol();
        LaterTrans(before, mid, s);
      }
    }

    method Perform(c: Command)
      requires Valid(s)
      modifies this
      ensures Valid(s) && Later(old(s), s) && |script| <= old(|script|)
      ensures c.Close? ==> Now() == old(Now()).(s := Closed(old(s)))
      ensures c.Abort? ==> Now() == old(Now()).(s := ForceClosed(old(s)))
      ensures Queues(address, c, old(Now())) ==> Now() == Enqueued(address, c, old(Now()))
      decreases |script|, 5
    {
      match c
      case SendTo(data, addr) => var _ := Send(data, addr);
      case Close => CloseNow();
      case Abort => ForceClose();
      case Return =>
    }

    /** `sendto(data, addr)`; tells whether the datagram was taken over. */
    method Send(data: View, addr: Option<nat>) returns (taken: bool)
      requires Valid(s)
      modifies this
      ensures Valid(s) && Later(old(s), s) && |script| <= old(|script|)
      ensures var d := Dgram(Raw(data), if address.Some? then address else addr);
              taken ==> old(s.accepted) + [d] <= s.accepted
      // refused: a foreign address, a lost connected transport, or a transport already torn down
      ensures !taken <==> (address.Some? && addr.Some? && addr != address)
                          || (address.Some? && 0 < old(s.connLost))
                          || (old(s.dead) && old(s.buffer) == [])
      // with nothing queued the socket is asked at once, and its answer decides
      ensures taken && old(s.buffer) == [] && !Answer(old(net)).WouldBlock? ==>
                var d := Dgram(Raw(data), if address.Some? then address else addr);
                old(s.outcomes) + [Outcome(d, FateOf(Answer(old(net))))] <= s.outcomes
      ensures var c := SendTo(data, addr); Queues(address, c, old(Now())) ==> Now() == Enqueued(address, c, old(Now()))
      decreases |script|, 4
    {
      taken := false;
      if address.Some? && addr.Some? && addr != address {
        return; // ValueError
      }
      var d := Dgram(Raw(data), if address.Some? then address else addr);
      if 0 < s.connLost && address.Some? {
        s := s.(connLost := s.connLost + 1);
        return;
      }
      if s.buffer == [] && s.dead {
        return; // the socket is gone: the call raises
      }
      taken := true;
      if s.buffer == [] {
        var r := NextSend();
        if r.WouldBlock? {
          s := s.(writer := true);
        } else {
          SendDirect(d, r);
          return;
        }
      }
      Enqueue(d, |data|);
    }

    /** The immediate attempt did not block. */
    method SendDirect(d: Dgram, r: SendResult)
      requires Valid(s) && s.buffer == [] && !r.WouldBlock?
      modifies this
      ensures Valid(s) && Later(old(s), s) && |script| <= old(|script|)
      ensures old(s.accepted) + [d] <= s.accepted
      ensures old(s.outcomes) + [Outcome(d, FateOf(r))] <= s.outcomes
      // a refusal is told to the protocol, any other error tears down
      ensures r.OsError? ==> old(s.errors) < s.errors && (script == [] || |script| < old(|script|))
      ensures r.OtherError? ==> s.closing && (0 < s.connLost || s.dead)
      decreases |script|, 2
    {
      ghost var before := s;
      var fate := FateOf(r);
      DirectKeeps(s, d, fate);
      s := s.(accepted := s.accepted + [d], outcomes := s.outcomes + [Outcome(d, fate)]);
      ghost var mid := s;
      Tell(r);
      LaterTrans(before, mid, s);
    }

    /** What the socket's answer calls for: error_received for an OSError, a forced close for any other exception. */
    method Tell(r: SendResult)
      requires Sane(s) && Valid(Told(s, Verdict(r))) && Later(s, Told(s, Verdict(r)))
      modifies this
      ensures Valid(s) && Later(Told(old(s), Verdict(r)), s) && Later(old(s), s) && |script| <= old(|script|)
      ensures r.OsError? ==> old(s.errors) < s.errors && (script == [] || |script| < old(|script|))
      ensures r.OtherError? ==> s == ForceClosed(old(s)) && s.closing && (0 < s.connLost || s.dead)
      decreases |script|, 1
    {
      ghost var before, told := s, Told(s, Verdict(r));
      if r.OsError? {
        s := s.(errors := s.errors + 1);
        RunProtocol(); // error_received
      } else if r.OtherError? {
        DropQueue();
      }
      LaterTrans(before, told, s);
    }

    /** Append to the queue; `len` is what the view given counts. */
    method Enqueue(d: Dgram, len: nat)
      requires Valid(s) && s.writer && len <= |d.data|
      modifies this
      ensures Valid(s) && Later(old(s), s) && |script| <= old(|script|)
      ensures old(s.accepted) + [d] <= s.accepted
      ensures Silent(old(script)) && !old(s.dead) ==> Now() == World(Queued(old(s), d, len), Rest(old(script)), old(net))
      decreases |script|, 3
    {
      ghost var before := s;
      QueuedKeeps(s, d, len);
      s := s.(buffer := s.buffer + [d], accepted := s.accepted + [d]);
      s := s.(size := s.size + len + HEADER_SIZE, short := s.short + |d.data| - len);
      ghost var mid := s;
      if !s.dead {
        RunProtocol(); // _maybe_pause_protocol
      }
      LaterTrans(before, mid, s);
    }

    /** The loop of `_sendto_ready`: in queue order until it is empty, blocks or fails. */
    method SendQueued() returns (r: SendResult)
      requires Valid(s)
      modifies this`s, this`net
      ensures (s, net, r) == Drained(old(s), old(net))
    {
      r := Ok;
      while s.buffer != []
        invariant Drained(s, net) == Drained(old(s), old(net))
        decreases |s.buffer|
      {
        ghost var mid := s;
        var d := s.buffer[0];
        s := s.(buffer := s.buffer[1..], size := s.size - (|d.data| + HEADER_SIZE));
        r := NextSend();
        if r.WouldBlock? {
          s := s.(buffer := [d] + s.buffer, size := s.size + |d.data| + HEADER_SIZE);
          assert s == mid;
          return;
        }
        s := s.(outcomes := s.outcomes + [Outcome(d, FateOf(r))]);
        assert s == Taken(mid, FateOf(r));
        if !r.Ok? {
          return;
        }
      }
      r := Ok;
    }

    /**
     `_sendto_ready`.  On a torn-down transport the call raises, but only after the head of the queue was
     popped: a datagram vanishes unreported exactly when there is one.
     */
    method SendtoReady()
      requires Valid(s) && s.inLost == 0
      modifies this
      ensures Valid(s) && RunLater(old(s), s) && |script| <= old(|script|)
      ensures NoneVanished(old(s), s) <==> !old(s.dead) || old(s.buffer) == []
      ensures old(s.dead) ==> Now() == old(Now()).(s := Popped(old(s)))
      ensures !old(s.dead) ==> Flushed(address, old(Now()), s)
      ensures !old(s.dead) && Drained(old(s), old(net)).2.OsError? ==> script == [] || |script| < old(|script|)
    {
      if s.dead {
        PopHead();
      } else {
        FlushQueue();
      }
    }

    method PopHead()
      requires Valid(s) && s.dead
      modifies this`s
      ensures s == Popped(old(s)) && Valid(s) && RunLater(old(s), s)
      ensures NoneVanished(old(s), s) <==> old(s.buffer) == []
    {
      PoppedKeeps(s);
      if s.buffer != [] {
        var d := s.buffer[0];
        s := s.(buffer := s.buffer[1..], size := s.size - (|d.data| + HEADER_SIZE));
        s := s.(outcomes := s.outcomes + [Outcome(d, Dropped)]);
      }
    }

    method FlushQueue()
      requires Valid(s) && !s.dead && s.inLost == 0
      modifies this
      ensures Valid(s) && Later(old(s), s) && |script| <= old(|script|)
      ensures Flushed(address, old(Now()), s)
      ensures Drained(old(s), old(net)).2.OsError? ==> script == [] || |script| < old(|script|)
    {
      ghost var before := s;
      DrainedKeeps(s, net);
      var r := SendQueued();
      ghost var mid := s;
      if r.OsError? || r.OtherError? {
        Tell(r); // the writer stays registered
      } else {
        RunProtocol(); // _maybe_resume_protocol
        ghost var resumed := s;
        if s.buffer == [] && !s.dead {
          FinishFlush();
        }
        LaterTrans(mid, resumed, s);
      }
      LaterTrans(before, mid, s);
    }

    /** The queue is empty: drop the writer and, on a closing transport, report the loss. */
    method FinishFlush()
      requires Valid(s) && !s.dead && s.buffer == [] && s.inLost == 0
      modifies this
      ensures Valid(s) && Later(old(s), s) && |script| <= old(|script|)
      ensures s.dead || (s.buffer == [] && !s.writer && !s.closing)
      ensures !old(s.closing) ==> s == old(s).(writer := false)
      ensures old(s.closing) && QueuesFirst(address, old(Now())) ==>
                s.dead && s.writer && s.buffer == AfterQueueing(address, old(Now())).s.buffer && s.outcomes == old(s.outcomes)
    {
      s := s.(writer := false);
      if s.closing {
        Report();
      }
    }

    /** `_call_connection_lost` on a live transport. */
    method Report()
      requires s.closing && !s.dead && s.inLost == 0 && Valid(s.(lost := s.lost + 1, inLost := 1))
      modifies this
      ensures Valid(s) && Later(old(s), s) && |script| <= old(|script|)
      ensures s.dead && s.lost == old(s.lost) + 1
      ensures QueuesFirst(address, old(Now())) ==>
                s.writer && s.buffer == AfterQueueing(address, old(Now())).s.buffer && s.outcomes == old(s.outcomes)
    {
      ghost var before := s;
      s := s.(lost := s.lost + 1, inLost := s.inLost + 1);
      RunProtocol(); // connection_lost
      s := s.(inLost := s.inLost - 1, dead := true);
    }

    /** The ready queue reaches a queued `_call_connection_lost`; on a torn-down transport it raises. */
    method TakeConnectionLost()
      requires Valid(s) && 0 < s.pending && s.inLost == 0
      modifies this
      ensures Valid(s) && Later(old(s), s) && |script| <= old(|script|)
      ensures s.dead
    {
      s := s.(pending := s.pending - 1);
      if !s.dead {
        Report();
      }
    }

    /** One loop callback or user call. */
    method Handle(e: Event)
      requires Valid(s) && s.inLost == 0
      modifies this
      ensures Valid(s) && RunLater(old(s), s)
      ensures NoneVanished(old(s), s) <==> !(e.WriterFires? && old(s.writer && s.dead && s.buffer != []))
      ensures e.Api? && e.command.Close? ==> Now() == old(Now()).(s := Closed(old(s)))
      ensures e.Api? && e.command.Abort? ==> Now() == old(Now()).(s := ForceClosed(old(s)))
      ensures e.Api? && Queues(address, e.command, old(Now())) ==> Now() == Enqueued(address, e.command, old(Now()))
      ensures e.WriterFires? && old(s.writer && !s.dead) ==> Flushed(address, old(Now()), s)
      ensures e.WriterFires? && old(s.writer && s.dead) ==> Now() == old(Now()).(s := Popped(old(s)))
    {
      match e
      case Api(c) => Perform(c);
      case WriterFires =>
        if s.writer {
          SendtoReady();
        }
      case ConnectionLost =>
        if 0 < s.pending {
          TakeConnectionLost();
        }
    }

    /**
     Any sequence of user calls, writer firings and queued loss reports.  Datagrams are attempted in the
     order they were accepted, each leaves the queue once, and the reported size is the queue's plus what
     forced closes dropped, less what wider items kept from being added; the loss is reported at most once, and a closing transport owes it or has made it.
     */
    method Run(events: seq<Event>)
      requires Valid(s) && s.inLost == 0
      modifies this
      ensures Valid(s) && RunLater(old(s), s)
      ensures Left(s.outcomes) + s.buffer == s.accepted
      ensures s.size == Total(s.buffer) + Lost(s.outcomes) - s.short
      // refused datagrams are told to the protocol, one call each, and a fatal error closes
      ensures s.errors == Count(s.outcomes, Reported)
      ensures 0 < Count(s.outcomes, Failed) ==> s.closing
      ensures s.buffer != [] ==> s.writer
      ensures s.closing && !s.dead ==> s.pending == 1 || s.writer
      ensures s.pending <= 1 && s.lost == (if s.dead then 1 else 0)
      ensures !s.dead ==> Count(s.outcomes, Dropped) == 0
    {
      var i := 0;
      while i < |events|
        invariant 0 <= i <= |events|
        invariant Valid(s) && RunLater(old(s), s) && s.inLost == 0
      {
        Handle(events[i]);
        i := i + 1;
      }
    }
  }

  // ---------------------------------------------------------------------------
  // exact effects where the callbacks are known
  // ---------------------------------------------------------------------------

  /** The next callback does nothing. */
  predicate Silent(script: seq<Command>) {
    script == [] || script[0].Return?
  }

  /** The call is a sendto that is accepted and queued, and its flow-control callback does nothing. */
  predicate Queues(address: Option<nat>, c: Command, w: World) {
    && c.SendTo? && Silent(w.script) && !w.s.dead
    && !(address.Some? && c.addr.Some? && c.addr != address)
    && !(address.Some? && 0 < w.s.connLost)
    && (w.s.buffer == [] ==> Answer(w.net).WouldBlock?)
  }

  function Enqueued(address: Option<nat>, c: Command, w: World): World
    requires c.SendTo?
  {
    World(Queued(w.s.(writer := true), Dgram(Raw(c.data), if address.Some? then address else c.addr), |c.data|),
          Rest(w.script),
          if w.s.buffer == [] then Rest(w.net) else w.net)
  }

  /** The next callback does nothing but such a sendto, with nothing queued before it. */
  predicate QueuesFirst(address: Option<nat>, w: World) {
    && w.script != [] && w.s.buffer == []
    && Queues(address, w.script[0], w.(script := w.script[1..]))
    && Silent(Rest(w.script[1..]))
  }

  function AfterQueueing(address: Option<nat>, w: World): (v: World)
    requires QueuesFirst(address, w)
    ensures v.s.buffer != []
  {
    Enqueued(address, w.script[0], w.(script := w.script[1..]))
  }

  /**
   A writer firing on a live transport: the queue is attempted from its head; an emptied queue loses its
   writer and a closing transport reports its loss.  What connection_lost then queues stays queued.
   */
  predicate Flushed(address: Option<nat>, w: World, u: Sender) {
    var (d, net, end) := Drained(w.s, w.net);
    && Later(d, u)
    // a refusal is told to the protocol, any other error tears down
    && (end.OsError? ==> d.errors < u.errors)
    && (end.OtherError? ==> u == ForceClosed(d) && u.closing && (0 < u.connLost || u.dead))
    && ((end.Ok? || end.WouldBlock?) && u.buffer == [] ==> u.dead || (!u.writer && !u.closing))
    && (end.Ok? && !d.closing && Silent(w.script) ==> u == d.(writer := false))
    && (end.Ok? && d.closing && Silent(w.script) && QueuesFirst(address, World(d, Rest(w.script), net)) ==>
          && u.dead && u.writer && u.outcomes == d.outcomes
          && u.buffer == AfterQueueing(address, World(d, Rest(w.script), net)).s.buffer)
  }
}
