/** Runs of the datagram transport in which a promise is not kept. */
module DatagramRuns {
  import opened Bytes
  import opened Options
  import opened Datagram
  import opened DatagramTransport

  /** The datagram a view and an address make. */
  function Packed(v: View, addr: Option<nat>): Dgram {
    Dgram(Raw(v), addr)
  }

  /** A transport whose first sendto, of `v`, blocked. */
  predicate Blocked(v: View, addr: Option<nat>, s: Sender) {
    && s.buffer == [Packed(v, addr)] && s.size == |v| + HEADER_SIZE && s.short == |Raw(v)| - |v|
    && s.writer && !s.closing && s.connLost == 0 && !s.dead && s.pending == 0 && s.lost == 0 && s.inLost == 0
    && s.accepted == [Packed(v, addr)] && |s.outcomes| == 0
  }

  /** A first sendto that blocks. */
  method BlockedSend(v: View, addr: Option<nat>, script: seq<Command>, net: seq<SendResult>) returns (q: SendQueue)
    requires Silent(script) && Answer(net).WouldBlock?
    ensures fresh(q) && q.address == None && Valid(q.s) && Blocked(v, addr, q.s)
    ensures q.script == Rest(script) && q.net == Rest(net)
  {
    q := new SendQueue(None, script, net);
    SendBlocks(q.address, v, addr, q.Now());
    SendOnce(q, SendTo(v, addr));
  }

  method SendOnce(q: SendQueue, c: Command)
    requires Valid(q.s) && q.s.inLost == 0 && Queues(q.address, c, q.Now())
    modifies q
    ensures Valid(q.s) && q.Now() == Enqueued(q.address, c, old(q.Now()))
  {
    q.Handle(Api(c));
  }

  lemma SendBlocks(address: Option<nat>, v: View, addr: Option<nat>, w: World)
    requires address.None? && New(w.s)
    requires Silent(w.script) && Answer(w.net).WouldBlock?
    ensures var c := SendTo(v, addr);
            && Queues(address, c, w) && Blocked(v, addr, Enqueued(address, c, w).s)
            && Enqueued(address, c, w) == World(Enqueued(address, c, w).s, Rest(w.script), Rest(w.net))
  {
    var d := Packed(v, addr);
    assert w.s.buffer + [d] == [d] && w.s.accepted + [d] == [d];
  }

  /** Two queued datagrams, then abort(): the queue is empty and its size is not zero. */
  method AbortKeepsSize(v: View, w: View, addr: Option<nat>) returns (q: SendQueue)
    ensures q.s.buffer == [] && q.s.size == |v| + HEADER_SIZE + |w| + HEADER_SIZE > 0
  {
    q := BlockedSend(v, addr, [], []);
    SendOnce(q, SendTo(w, addr));
    q.Handle(Api(Abort));
  }

  /**
   One queued datagram, then the socket takes it: the queue is empty, and its size is zero exactly if the
   view given had no item wider than a byte; otherwise it is negative.
   */
  method WideViewSkewsSize(v: View, addr: Option<nat>) returns (q: SendQueue)
    ensures q.s.outcomes == [Outcome(Packed(v, addr), Sent)] && q.s.buffer == []
    ensures q.s.size == |v| - |Raw(v)|
    ensures q.s.size == 0 <==> Narrow(v)
  {
    q := BlockedSend(v, addr, [], [WouldBlock, Ok]);
    assert q.net == [Ok];
    FirstSent(q.s, Packed(v, addr));
    q.Handle(WriterFires);
    NarrowIff(v);
  }

  lemma FirstSent(s: Sender, d: Dgram)
    requires s.buffer == [d] && |s.outcomes| == 0
    ensures Drained(s, [Ok]) == (Taken(s, Sent), [], Ok)
    ensures Taken(s, Sent).buffer == [] && Taken(s, Sent).outcomes == [Outcome(d, Sent)]
    ensures Taken(s, Sent).size == s.size - Cost(d)
  {
    assert Rest([Ok]) == [];
  }

  /**
   The queue of a closing transport is flushed, and connection_lost sends one more datagram to a blocked
   socket: the writer outlives the teardown, and its next firing pops the datagram and raises.
   */
  method DatagramVanishes(v: View, w: View, addr: Option<nat>) returns (q: SendQueue)
    ensures q.s.dead && q.s.buffer == [] && q.s.accepted == [Packed(v, addr), Packed(w, addr)]
    ensures q.s.outcomes == [Outcome(Packed(v, addr), Sent), Outcome(Packed(w, addr), Dropped)]
  {
    q := SentInLost(v, w, addr);
    q.Handle(WriterFires);
  }

  method SentInLost(v: View, w: View, addr: Option<nat>) returns (q: SendQueue)
    ensures fresh(q) && Valid(q.s) && q.s.inLost == 0
    ensures q.s.dead && q.s.writer && q.s.buffer == [Packed(w, addr)] && q.s.outcomes == [Outcome(Packed(v, addr), Sent)]
  {
    q := BlockedSend(v, addr, [Return, Return, SendTo(w, addr), Return, Return], [WouldBlock, Ok, WouldBlock]);
    assert q.script == [Return, SendTo(w, addr), Return, Return] && q.net == [Ok, WouldBlock];
    q.Handle(Api(Close));
    LastSend(q.s, Packed(v, addr), w, addr);
    q.Handle(WriterFires);
  }

  lemma LastSend(s: Sender, d: Dgram, w: View, addr: Option<nat>)
    requires s.buffer == [d] && s.closing && !s.dead && s.connLost == 0 && |s.outcomes| == 0
    ensures var script := [Return, SendTo(w, addr), Return, Return];
            var (u, net, end) := Drained(s, [Ok, WouldBlock]);
            && end.Ok? && u.closing && u.outcomes == [Outcome(d, Sent)]
            && QueuesFirst(None, World(u, Rest(script), net))
            && AfterQueueing(None, World(u, Rest(script), net)).s.buffer == [Packed(w, addr)]
  {
    var u := Taken(s, Sent);
    assert u.buffer == [] && u.outcomes == [Outcome(d, Sent)];
    assert Rest([Ok, WouldBlock]) == [WouldBlock];
    assert Drained(u, [WouldBlock]) == (u, [WouldBlock], Ok);
    var script := [SendTo(w, addr), Return, Return];
    assert Rest([Return] + script) == script && [Return] + script == [Return, SendTo(w, addr), Return, Return];
    assert script[1..] == [Return, Return];
    assert u.buffer + [Packed(w, addr)] == [Packed(w, addr)];
  }
}
