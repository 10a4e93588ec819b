/**
 Runs of the stream transport in which a promise is not kept, each from a new transport through
 the events of the loop and its user.
 */
module StreamRuns {
  import opened Bytes
  import opened ReadSide
  import opened WriteBuffer
  import opened StreamState
  import opened StreamScript
  import opened StreamTransport

  const ALIVE: LifeView := LifeView(0, false, 0, 0, 0, 0, 0, 0, false, false, false, 0)

  const UNWRITTEN: WriteView := WriteView([], false, false, [], [], [], false, false, 0, false, false, [])

  const UNREAD: ReadView := ReadView([], [], false, false, 0, false, false, 0)

  /** A transport whose first write, of `x`, blocked. */
  function Blocked(x: View): Transport {
    Transport(UNREAD, UNWRITTEN.(buffer := [x], writer := true, accepted := x, asks := [true]), ALIVE)
  }

  method BlockedWrite(x: View, iovMax: nat, script: seq<Command>, net: seq<SendResult>) returns (t: SocketTransport)
    requires x != []
    ensures fresh(t) && t.drain && t.iovMax == iovMax && Settled(t.View())
    ensures t.Now() == World(Blocked(x), script, net)
  {
    t := new SocketTransport(true, iovMax, [Return(false)] + script, [WouldBlock] + net);
    ghost var w := t.Now();
    assert After(w.script) == script && After(w.net) == net;
    WriteBlocks(w, x);
    t.Handle(UserCall(Write(x)));
  }

  lemma WriteBlocks(w: World, x: View)
    requires x != [] && w.net != [] && w.net[0].WouldBlock?
    requires w.t == Transport(UNREAD, UNWRITTEN, ALIVE)
    ensures WriteCall(w, x) == World(Blocked(x), After(w.script), After(w.net))
  {
    assert [] + x == x && x[0..] == x && x[..0] == [];
  }

  /** The same transport once close() was called: the queue still has to be flushed. */
  function Closing(x: View): Transport {
    Blocked(x).(rd := Blocked(x).rd.(closing := true))
  }

  method ClosedWhileBlocked(x: View, iovMax: nat, script: seq<Command>, net: seq<SendResult>) returns (t: SocketTransport)
    requires x != []
    ensures fresh(t) && t.drain && t.iovMax == iovMax && Settled(t.View())
    ensures t.Now() == World(Closing(x), script, net)
  {
    t := BlockedWrite(x, iovMax, script, net);
    t.Handle(UserCall(Close));
  }

  /**
   A write blocks, the transport is closed, and the socket then takes the queue: connection_lost runs
   and calls writelines.  If the socket takes that list too, the loss is reported a second time.
   */
  method LostTwice(x: View, list: seq<View>, iovMax: nat) returns (t: SocketTransport)
    requires x != [] && 0 < iovMax
    requires list != [] && |list| <= iovMax && !HollowTail(list)
    ensures 2 <= t.life.lost
  {
    t := ClosedWhileBlocked(x, iovMax, [Return(false), WriteLines(list)], [Sent(|x|), Sent(|Flat(list)|)]);
    LinesInLost(x, list, iovMax);
    t.Handle(WriterFires);
  }

  lemma LinesInLost(x: View, list: seq<View>, iovMax: nat)
    requires x != [] && 0 < iovMax
    requires list != [] && |list| <= iovMax && !HollowTail(list)
    ensures ReportsTwice(World(Closing(x), [Return(false), WriteLines(list)], [Sent(|x|), Sent(|Flat(list)|)]), iovMax)
  {
    FlatOne(x);
    assert [] + list == list;
  }

  /**
   The same, but resume_writing calls abort() while the last bytes leave: the report is queued, and the
   tail of the flush makes it directly as well.  The queued entry then runs on a torn-down transport.
   */
  method EnteredTwice(x: View, iovMax: nat) returns (t: SocketTransport)
    requires x != [] && 0 < iovMax
    ensures t.life.direct == 1 && t.life.scheduled == 1 && t.life.lost == 1 && t.life.dead
  {
    t := ClosedWhileBlocked(x, iovMax, [Abort, Return(false)], [Sent(|x|)]);
    AbortInResume(x, iovMax);
    t.Handle(WriterFires);
    t.Handle(RunConnectionLost);
  }

  lemma AbortInResume(x: View, iovMax: nat)
    requires x != [] && 0 < iovMax
    ensures var w := World(Closing(x), [Abort, Return(false)], [Sent(|x|)]);
            PlainSend(true, w, iovMax) &&
            var l := AfterPlainSend(true, w, iovMax).t.life;
            l.direct == 1 && l.scheduled == 1 && l.lost == 1 && l.dead
  {
    FlatOne(x);
  }

  /**
   A list ends in an empty chunk, nothing else of it is left in the queue, and the stream is half-closed or closed:
   whatever happens next, until more is accepted SHUT_WR is not issued, and short of a forced close no loss is
   reported.  After a half-close nothing more can be accepted.
   */
  method HollowListHolds(x: View, end: Command, events: seq<Event>, script: seq<Command>, net: seq<SendResult>)
    returns (t: SocketTransport)
    requires end.WriteEof? || end.Close?
    ensures end.WriteEof? ==> t.wr.eof && t.wr.accepted == x
    ensures t.wr.accepted == x ==> t.wr.shutdowns == 0 && t.wr.dropped == x
    ensures t.wr.accepted == x && !t.wr.discarded ==> t.life.lost == 0
  {
    t := EndedHollow(x, end, script, net);
    ghost var a := t.View();
    t.Run(events);
    SentStays(a.wr, t.wr);
  }

  lemma SentStays(a: WriteView, b: WriteView)
    requires WriteLater(a, b) && a.dropped == a.accepted && WriteValid(b)
    ensures a.eof ==> b.accepted == a.accepted
    ensures b.accepted == a.accepted ==> b.dropped == a.dropped
  {
  }

  method EndedHollow(x: View, end: Command, script: seq<Command>, net: seq<SendResult>) returns (t: SocketTransport)
    requires end.WriteEof? || end.Close?
    ensures fresh(t) && Settled(t.View())
    ensures t.wr.hollow && t.wr.shutdowns == 0 && t.life.lost == 0 && (end.WriteEof? ==> t.wr.eof)
    ensures t.wr.dropped == t.wr.accepted == x
  {
    t := HollowQueued(x, script, net);
    t.Handle(UserCall(end));
  }

  method HollowQueued(x: View, script: seq<Command>, net: seq<SendResult>) returns (t: SocketTransport)
    ensures fresh(t) && Settled(t.View()) && !t.wr.eof && t.rd == UNREAD
    ensures t.wr.buffer != [] && t.wr.hollow && t.wr.shutdowns == 0 && t.life.lost == 0
    ensures t.wr.dropped == t.wr.accepted == x
  {
    t := new SocketTransport(true, 2, [Return(false), Return(false)] + script, [Sent(|x|)] + net);
    HollowList(t.View(), x, t.net);
    t.Handle(UserCall(WriteLines([x, []])));
  }

  lemma HollowList(t: Transport, x: View, net: seq<SendResult>)
    requires t.wr == UNWRITTEN && net != [] && net[0] == Sent(|x|)
    ensures var u := LinesDone(t, 2, [x, []], net);
            && u.rd == t.rd && u.wr.buffer != [] && u.wr.hollow && !u.wr.eof && u.wr.shutdowns == 0
            && u.wr.dropped == u.wr.accepted == x && u.life.lost == t.life.lost
  {
    var list := [x, []];
    FlatOne([]);
    assert list == [x] + [[]] && list[1..] == [[]];
    assert Flat(list) == x + [] == x;
    assert [] + list == list && [] + x == x && x[..|x|] == x;
    DropKeepsTail(list, |x|);
  }

  /**
   connection_lost writes to a blocked socket, and abort() is called after the teardown: the queue is
   cleared, the writer is not, and its next firing ends in "Data should not be empty".
   */
  method AssertionFails(x: View, y: View, iovMax: nat) returns (t: SocketTransport)
    requires x != [] && y != [] && 0 < iovMax
    ensures t.life.asserts == 1
  {
    t := WrittenInLost(x, y, iovMax);
    t.Handle(UserCall(Abort));
    t.Handle(WriterFires);
  }

  method WrittenInLost(x: View, y: View, iovMax: nat) returns (t: SocketTransport)
    requires x != [] && y != [] && 0 < iovMax
    ensures fresh(t) && Settled(t.View())
    ensures t.life.dead && t.wr.writer && t.wr.buffer == [y] && t.life.connLost == 0 && t.life.asserts == 0
  {
    t := ClosedWhileBlocked(x, iovMax, [Return(false), Write(y), Return(false), Return(false)], [Sent(|x|), WouldBlock]);
    WriteInLost(x, y, iovMax);
    t.Handle(WriterFires);
  }

  lemma WriteInLost(x: View, y: View, iovMax: nat)
    requires x != [] && y != [] && 0 < iovMax
    ensures var w := World(Closing(x), [Return(false), Write(y), Return(false), Return(false)], [Sent(|x|), WouldBlock]);
            PlainSend(true, w, iovMax) &&
            var u := AfterPlainSend(true, w, iovMax).t;
            u.life.dead && u.wr.writer && u.wr.buffer == [y] && u.life.connLost == 0 && u.life.asserts == 0
  {
    FlatOne(x);
    assert y[0..] == y;
    var w := World(Closing(x), [Return(false), Write(y), Return(false), Return(false)], [Sent(|x|), WouldBlock]);
    assert w.net[1..] == [WouldBlock] && w.script[1..] == [Write(y), Return(false), Return(false)];
    assert w.script[1..][1..] == [Return(false), Return(false)];
    FullSendEmptiesIff([x]);
  }

  /**
   write() of a view whose items have `width` bytes, to a socket that takes `n` bytes of it: nothing is
   lost exactly if the items are single bytes, or all or nothing was taken.  No error is raised either way.
   */
  method WriteOneView(x: View, width: nat, n: nat) returns (t: SocketTransport)
    requires x != [] && Uniform(x, width) && n <= |Raw(x)|
    ensures t.wr.accepted == x && !t.wr.discarded && !t.rd.closing
    ensures t.wr.sent + Raw(Flat(t.wr.buffer)) == Raw(x) <==> width == 1 || n == 0 || n == |Raw(x)|
  {
    t := new SocketTransport(true, 1, [], [Sent(n)]);
    SentInPart(t.Now(), x, n);
    t.Handle(UserCall(Write(x)));
    WriteSkewsIff(x, width, n);
    ConservedIff(t.wr);
  }

  lemma SentInPart(w: World, x: View, n: nat)
    requires x != [] && n <= |Raw(x)| && w.net == [Sent(n)] && w.script == []
    requires w.t == Transport(UNREAD, UNWRITTEN, ALIVE)
    ensures var u := WriteCall(w, x).t;
            && u.wr.accepted == x && !u.wr.discarded && !u.rd.closing && u.wr.skewed == Skews(x, Sliced(x, n), n)
  {
    assert [] + x == x;
  }

  /**
   writelines() of one view to a socket that takes all of it: everything was sent, and the transport is
   torn down exactly if the view has an item wider than a byte.
   */
  method WriteViewInList(x: View) returns (t: SocketTransport)
    requires x != []
    ensures t.wr.sent == Raw(x) == Raw(t.wr.accepted)
    ensures t.rd.closing <==> !Narrow(x)
  {
    t := new SocketTransport(true, 1, [], [Sent(|Raw(x)|)]);
    SentAtOnce(t.Now(), x);
    t.Handle(UserCall(WriteLines([x])));
  }

  lemma SentAtOnce(w: World, x: View)
    requires x != [] && w.net == [Sent(|Raw(x)|)] && w.t == Transport(UNREAD, UNWRITTEN, ALIVE)
    ensures var u := LinesDone(w.t, 1, [x], w.net);
            && u.wr.sent == Raw(x) && u.wr.accepted == x
            && (u.rd.closing <==> !Narrow(x))
  {
    FlatOne(x);
    NarrowIff(x);
    assert [] + [x] == [x] && [] + x == x && [] + Raw(x) == Raw(x);
    assert Raw(x)[..|Raw(x)|] == Raw(x);
    assert Taken([x], 1, |Raw(x)|) == |Raw(x)|;
    if Narrow(x) {
      DropItemsFlat([x], |x|);
      FullSendEmptiesIff([x]);
    }
  }

  /**
   What is read while paused reaches the protocol on resume, all of it and in order, and the reader is
   live again.
   */
  method PausedItemsArrive(items: seq<Item>) returns (t: SocketTransport)
    requires AllData(items)
    ensures t.rd.log == items && t.rd.replay == []
    ensures !t.rd.paused && !t.rd.closing && t.rd.watched && t.rd.regs == 1
  {
    t := PausedTransport();
    for i := 0 to |items|
      invariant fresh(t) && t.drain && Settled(t.View()) && t.script == []
      invariant t.rd == UNREAD.(started := true, regs := 1, watched := true, paused := true, replay := items[..i])
    {
      t.Handle(Deliver(items[i]));
      assert items[..i] + [items[i]] == items[..i + 1];
    }
    assert items[..|items|] == items && [] + items == items;
    t.Handle(UserCall(ResumeReading));
  }

  method PausedTransport() returns (t: SocketTransport)
    ensures fresh(t) && t.drain && Settled(t.View()) && t.script == []
    ensures t.rd == UNREAD.(started := true, regs := 1, watched := true, paused := true)
  {
    t := new SocketTransport(true, 1, [], []);
    t.Handle(StartReading);
    t.Handle(UserCall(PauseReading));
  }

  /** A stream that was sent completely is ended at once by write_eof. */
  method EofFollowsData(x: View) returns (t: SocketTransport)
    requires x != []
    ensures t.wr.sent == Raw(x) && t.wr.eof && t.wr.shutdowns == 1
  {
    t := new SocketTransport(true, 1, [], [Sent(|Raw(x)|)]);
    SentWhole(t.Now(), x);
    t.Handle(UserCall(Write(x)));
    t.Handle(UserCall(WriteEof));
  }

  lemma SentWhole(w: World, x: View)
    requires x != [] && w.net == [Sent(|Raw(x)|)] && w.script == []
    requires w.t == Transport(UNREAD, UNWRITTEN, ALIVE)
    ensures WriteCall(w, x).t == w.t.(wr := WriteCall(w, x).t.wr)
    ensures var u := WriteCall(w, x).t.wr;
            u.sent == Raw(x) && u.buffer == [] && !u.eof && u.shutdowns == 0 && !u.hollow
  {
    assert Raw(x)[..|Raw(x)|] == Raw(x) && [] + Raw(x) == Raw(x);
    assert Sliced(x, |Raw(x)|) == |x|;
  }
}
