/**
 The stream transport with its protocol in the loop.

 Every protocol callback may call straight back into the transport, to any depth.
 What the protocol does is read from `script`: a callback performs the commands at
 its head until it meets `Return` or `Raise`, and nested callbacks consume the same
 script, so every finite behaviour of every protocol is some script.  What the
 socket answers to `send` and `sendmsg` is read from `net` in the same way.
 */
module StreamTransport {
  import opened Bytes
  import opened ReadSide
  import opened StreamState
  import opened WriteBuffer
  import opened StreamScript

  /** One entry point of the transport used by the loop or by user code outside any callback. */
  datatype Event =
    | StartReading
    | Deliver(item: Item)
    | WriterFires
    | RunConnectionLost
    | UserCall(command: Command)

  class SocketTransport {
    const drain: bool    // drain mode ('tcp') or callback mode
    const iovMax: nat    // SC_IOV_MAX

    var rd: ReadView     // paused, closing, replay; what was handed over and registered
    var wr: WriteView    // _buffer, writer registration, _eof; what was accepted and sent
    var life: LifeView   // _conn_lost, queued and running connection_lost calls

    var script: seq<Command>
    var net: seq<SendResult>

    ghost function View(): Transport reads this {
      Transport(rd, wr, life)
    }

    ghost function Now(): World reads this {
      World(View(), script, net)
    }

    constructor (drain: bool, iovMax: nat, script: seq<Command>, net: seq<SendResult>)
      ensures this.drain == drain && this.iovMax == iovMax && this.script == script && this.net == net
      ensures View() == Transport(
                          ReadView([], [], false, false, 0, false, false, 0),
                          WriteView([], false, false, [], [], [], false, false, 0, false, false, []),
                          LifeView(0, false, 0, 0, 0, 0, 0, 0, false, false, false, 0))
      ensures Settled(View())
    {
      this.drain, this.iovMax, this.script, this.net := drain, iovMax, script, net;
      rd := ReadView([], [], false, false, 0, false, false, 0);
      wr := WriteView([], false, false, [], [], [], false, false, 0, false, false, []);
      life := LifeView(0, false, 0, 0, 0, 0, 0, 0, false, false, false, 0);
    }

    // -------------------------------------------------------------------------
    // leaves: no protocol call
    // -------------------------------------------------------------------------

    /** The socket's answer when `offered` bytes are on offer. */
    method NextSend(offered: nat) returns (r: SendResult)
      modifies this`net
      ensures r == Answer(old(net), offered) && net == After(old(net))
    {
      if net == [] {
        r := WouldBlock;
      } else {
        r := net[0];
        net := net[1..];
        if r.Sent? && offered < r.n {
          r := Sent(offered);
        }
      }
    }

    method AddWriter()
      modifies this`wr
      ensures wr == Adding(old(wr))
    {
      wr := wr.(writer := true);
      wr := wr.(asks := wr.asks + [true]);
    }

    method RemoveWriter()
      modifies this`wr
      ensures wr == Removing(old(wr))
    {
      wr := wr.(writer := false);
      wr := wr.(asks := wr.asks + [false]);
    }

    method CallSoonConnectionLost()
      modifies this`life
      ensures life == Schedule(old(life))
    {
      life := life.(connLost := life.connLost + 1);
      life := life.(pending := life.pending + 1, scheduled := life.scheduled + 1);
      life := life.(overlap := life.overlap || 0 < life.inLost + life.inFlush);
    }

    method CloseNow()
      modifies this`rd, this`wr, this`life
      ensures View() == Closed(old(View()))
    {
      if rd.closing {
        return;
      }
      rd := rd.(closing := true);
      rd := rd.(watched := false);
      if wr.buffer == [] {
        RemoveWriter();
        CallSoonConnectionLost();
      }
    }

    method ForceClose()
      requires rd.closing ==> !rd.watched
      requires life.dead ==> rd.closing
      modifies this`rd, this`wr, this`life
      ensures View() == ForceClosed(old(View()))
    {
      if 0 < life.connLost {
        return;
      }
      if wr.buffer != [] {
        wr := wr.(buffer := [], discarded := true, hollow := false);
        if life.dead {
          wr := wr.(cleared := true);
          return; // _remove_writer on the missing loop raises
        }
        RemoveWriter();
      }
      if !rd.closing {
        rd := rd.(closing := true, watched := false);
      }
      if life.dead {
        life := life.(connLost := life.connLost + 1);
        return; // call_soon on the missing loop raises
      }
      CallSoonConnectionLost();
    }

    /** The loop counts elements down from a number of bytes; `ok` tells that the deque did not run out before it ended. */
    method AdjustLeftoverBuffer(nbytes: nat) returns (ok: bool)
      modifies this`wr
      ensures ok <==> nbytes <= |Flat(old(wr.buffer))|
      ensures wr == old(wr).(buffer := if ok then DropItems(old(wr.buffer), nbytes) else [])
    {
      var left := nbytes;
      ok := true;
      while left != 0
        invariant 0 <= left
        invariant wr == old(wr).(buffer := wr.buffer)
        invariant left <= |Flat(wr.buffer)| <==> nbytes <= |Flat(old(wr.buffer))|
        invariant left <= |Flat(wr.buffer)| ==> DropItems(wr.buffer, left) == DropItems(old(wr.buffer), nbytes)
        decreases |wr.buffer|
      {
        if wr.buffer == [] {
          ok := false; // popleft raises IndexError
          return;
        }
        var b := wr.buffer[0];
        wr := wr.(buffer := wr.buffer[1..]);
        if |b| <= left {
          left := left - |b|;
        } else {
          wr := wr.(buffer := [b[left..]] + wr.buffer);
          break;
        }
      }
    }

    // -------------------------------------------------------------------------
    // the protocol, and everything it can reach
    // -------------------------------------------------------------------------

    /**
     One protocol callback: perform commands until it returns or raises.  Its reply is the last
     command it took from the script, however long and re-entrant the callback was.
     */
    method RunProtocol() returns (r: Reply)
      requires Valid(View())
      modifies this
      ensures Stretch(drain, old(Now()), Now())
      ensures Replied(old(script), script, r)
      ensures Plain(old(script)) ==> Now() == Called(drain, old(Now()))
      ensures Reports(old(Now()), iovMax) ==> old(life.lost) < life.lost
      decreases |script|, 0, 2
    {
      ghost var w := Now();
      RunCommands();
      r := Returned(false);
      if script != [] {
        r := if script[0].Return? then Returned(script[0].keepOpen) else Raised;
        SuffixHead(script, w.script);
        StretchLast(drain, w, Now());
        script := script[1..];
      }
    }

    /** Commands up to the next `Return` or `Raise`. */
    method RunCommands()
      requires Valid(View())
      modifies this
      ensures Stretch(drain, old(Now()), Now()) && Silent(script)
      ensures Plain(old(script)) ==> Now() == Acted(drain, old(Now()))
      ensures Reports(old(Now()), iovMax) ==> old(life.lost) < life.lost
      decreases |script|, 0, 1
    {
      ghost var w := Now();
      if Silent(script) {
        StretchRefl(drain, w);
        return;
      }
      RunCommand();
      ghost var m := Now();
      RunCommands();
      StretchTrans(drain, w, m, Now());
      CommandsEnd(drain, w, m, Now());
    }

    /** The next command of the script. */
    method RunCommand()
      requires Valid(View()) && !Silent(script)
      modifies this
      ensures Stretch(drain, old(Now()), Now()) && |script| < old(|script|)
      ensures Plain(old(script)) ==> Now() == Acted(drain, old(Now()))
      ensures Reports(old(Now()), iovMax) ==> old(life.lost) < life.lost
      decreases |script|, 0, 0
    {
      ghost var w := Now();
      var c := script[0];
      script := script[1..];
      Perform(c);
      CommandStretch(drain, iovMax, w, Now());
    }

    /** One call into the transport. */
    method Perform(c: Command)
      requires Valid(View())
      modifies this
      ensures CallOutcome(drain, iovMax, c, old(Now()), Now()) && Suffix(script, old(script))
      ensures c.PauseReading? || Ran(old(Now()), Now())
      decreases |script|, 9
    {
      if c.Write? || c.WriteLines? || c.WriteEof? {
        PerformWrite(c);
      } else {
        PerformOther(c);
      }
    }

    method PerformWrite(c: Command)
      requires Valid(View()) && (c.Write? || c.WriteLines? || c.WriteEof?)
      modifies this
      ensures CallOutcome(drain, iovMax, c, old(Now()), Now()) && Ran(old(Now()), Now())
      decreases |script|, 8
    {
      ghost var w := Now();
      match c
      case WriteEof => HalfClose();
      case Write(data) =>
        WriteData(data);
        WriteIsCall(drain, iovMax, w, data, Now());
      case WriteLines(list) =>
        WriteAll(list);
        LinesIsCall(drain, iovMax, w, list, Now());
    }

    method PerformOther(c: Command)
      requires Valid(View()) && !(c.Write? || c.WriteLines? || c.WriteEof?)
      modifies this
      ensures CallOutcome(drain, iovMax, c, old(Now()), Now()) && Suffix(script, old(script))
      ensures c.PauseReading? || Ran(old(Now()), Now())
      decreases |script|, 8
    {
      if c.PauseReading? {
        Pause();
      } else if c.ResumeReading? {
        Resume();
      } else if c.Close? || c.Abort? {
        PerformClose(c);
      } else {
        NoCall(drain, iovMax, c, Now());
      }
    }

    /** The calls that end the transport. */
    method PerformClose(c: Command)
      requires Valid(View()) && (c.Close? || c.Abort?)
      modifies this`rd, this`wr, this`life
      ensures CallOutcome(drain, iovMax, c, old(Now()), Now()) && Ran(old(Now()), Now())
    {
      if c.Close? {
        CloseIsCall(drain, iovMax, Now());
        CloseNow();
      } else {
        AbortIsCall(drain, iovMax, Now());
        ForceClose();
      }
    }

    method CloseCall()
      requires Valid(View())
      modifies this`rd, this`wr, this`life
      ensures View() == Closed(old(View())) && Valid(View()) && Later(drain, old(View()), View())
    {
      ClosedLater(drain, View());
      CloseNow();
    }

    method Pause()
      requires Valid(View())
      modifies this`rd
      ensures Valid(View()) && Later(drain, old(View()), View())
      ensures rd == Paused(drain, old(rd)) && PauseOutcome(drain, old(rd), rd)
    {
      LaterRefl(drain, View());
      if rd.closing || rd.paused {
        return;
      }
      rd := rd.(paused := true);
      if !drain {
        rd := rd.(watched := false);
      }
    }

    method Resume()
      requires Valid(View())
      modifies this
      ensures Valid(View()) && Later(drain, old(View()), View()) && Ran(old(Now()), Now())
      ensures ResumeOutcome(old(Now()), Now())
      ensures !old(rd.paused && !rd.closing) ==> Now() == old(Now())
      decreases |script|, 6
    {
      LaterRefl(drain, View());
      if rd.closing || !rd.paused {
        return;
      }
      ghost var w := Now();
      rd := rd.(paused := false);
      FlushReplay();
      ResumeAddsUp(drain, w, Now());
      FinishResume();
    }

    /** Once the replay queue was flushed: register the reader unless one is live, or reading was paused or closed again. */
    method FinishResume()
      modifies this`rd
      ensures Now() == Watching(old(Now()))
    {
      if rd.paused || rd.closing {
        return;
      }
      if !rd.watched {
        RegisterReader();
      }
    }

    /** The registration queued by the constructor, to run after connection_made. */
    method StartReader()
      modifies this`rd
      ensures Started(old(rd), rd)
    {
      RegisterReader();
      rd := rd.(started := true);
    }

    method RegisterReader()
      modifies this`rd
      ensures rd == if old(rd).closing || old(rd).paused then old(rd)
                    else old(rd).(watched := true, regs := old(rd).regs + 1)
    {
      if rd.closing || rd.paused {
        return;
      }
      rd := rd.(watched := true, regs := rd.regs + 1);
    }

    /** Deliver what was read while paused, in order, until re-paused, closed or empty. */
    method FlushReplay()
      requires Valid(View()) && !rd.closing
      modifies this
      ensures Valid(View()) && ReplayOver(drain, old(Now()), Now())
      decreases |script|, 5, 1
    {
      ghost var w := Now();
      LaterRefl(drain, w.t);
      ReplayedNone(w);
      while rd.replay != [] && !rd.paused && !rd.closing && life.connLost == 0
        invariant Valid(View()) && Replaying(drain, w, Now())
        decreases |rd.replay|
      {
        ghost var m := Now();
        ReplayOne();
        FlushedOn(drain, w, m, Now());
      }
    }

    /** Deliver the head of the replay queue. */
    method ReplayOne()
      requires Valid(View()) && rd.replay != [] && !rd.paused && !rd.closing
      modifies this
      ensures Valid(View()) && ReplayStep(drain, old(Now()), Now())
      decreases |script|, 5, 0
    {
      ghost var w := Now();
      var x := rd.replay[0];
      rd := rd.(replay := rd.replay[1..]);
      PoppedLater(drain, w.t);
      DeliverItem(x);
      LaterTrans(drain, w.t, Popped(w.t), View());
    }

    /** Hand one item to the protocol: data_received, eof_received, or a fatal error. */
    method DeliverItem(x: Item)
      requires Valid(View()) && !rd.closing
      modifies this
      ensures Valid(View()) && Ran(old(Now()), Now())
      ensures Later(drain, old(View()).(rd := Handed(old(rd), x)), View())
      ensures x.ReadError? ==> rd.closing
      ensures x.Data? ==> DataOutcome(Logged(old(Now()), x), Now())
      ensures x.Eof? ==> EndOutcome(Logged(old(Now()), x), Now())
      decreases |script|, 4
    {
      rd := rd.(log := rd.log + [x]);
      match x
      case Data(_) => OnData();
      case Eof => OnEof();
      case ReadError => FatalError();
    }

    /** data_received; an exception from it is fatal. */
    method OnData()
      requires Valid(View())
      modifies this
      ensures Valid(View()) && Later(drain, old(View()), View()) && Ran(old(Now()), Now())
      ensures DataOutcome(old(Now()), Now())
      decreases |script|, 3
    {
      ghost var w := Now();
      var r := RunProtocol();
      ghost var m := Now();
      AfterData(r);
      LaterTrans(drain, w.t, m.t, View());
      DataAddsUp(drain, w, m, r, Now());
    }

    method AfterData(r: Reply)
      requires Valid(View())
      modifies this`rd, this`wr, this`life
      ensures Valid(View()) && Later(drain, old(View()), View())
      ensures if r.Raised? then rd.closing && rd.paused == old(rd.paused) else View() == old(View())
    {
      LaterRefl(drain, View());
      if r.Raised? {
        FatalError();
      }
    }

    /** `_fatal_error`; on a dead transport it raises before or inside `_force_close`. */
    method FatalError()
      requires Valid(View())
      modifies this`rd, this`wr, this`life
      ensures Valid(View()) && Later(drain, old(View()), View())
      ensures rd.closing && (life.dead || 0 < life.connLost)
      ensures View() == if old(life.dead) then old(View()) else ForceClosed(old(View()))
    {
      LaterRefl(drain, View());
      if life.dead {
        return;
      }
      ForceClosedLater(drain, View());
      ForceClose();
    }

    method OnEof()
      requires Valid(View())
      modifies this
      ensures Valid(View()) && Later(drain, old(View()), View()) && Ran(old(Now()), Now())
      ensures EndOutcome(old(Now()), Now())
      decreases |script|, 3
    {
      ghost var before := View();
      var r := RunProtocol();
      ghost var replied := View();
      AfterEof(r);
      LaterTrans(drain, before, replied, View());
    }

    method AfterEof(r: Reply)
      requires Valid(View())
      modifies this`rd, this`wr, this`life
      ensures Valid(View()) && Later(drain, old(View()), View())
      ensures if r == Returned(true) then old(rd.kept) < rd.kept && !rd.watched else rd.closing
      ensures rd.paused == old(rd.paused)
    {
      if r.Raised? {
        FatalError();
      } else if r.keepOpen {
        StopWatching();
      } else {
        CloseCall();
      }
    }

    /** Nothing more can be read, but the connection stays open for writing. */
    method StopWatching()
      requires Valid(View())
      modifies this`rd
      ensures Valid(View()) && Later(drain, old(View()), View())
      ensures rd == old(rd).(watched := false, kept := old(rd.kept) + 1)
    {
      KeptOpenLater(drain, View());
      rd := rd.(watched := false, kept := rd.kept + 1);
    }

    /** Drain-mode delivery of one item read by the watcher. */
    method DrainStream(x: Item)
      requires Valid(View()) && Quiet(rd)
      modifies this
      ensures Valid(View()) && Ran(old(Now()), Now())
      ensures Delivered(drain, old(rd), x, rd)
      ensures if old(rd.closing) then View() == old(View())
              else if old(rd.paused) then View() == old(View()).(rd := rd)
              else Later(drain, old(View()).(rd := Handed(old(rd), x)), View())
      ensures !old(rd.closing) && !old(rd.paused) && !x.ReadError? ==> Answered(old(script), script)
      ensures DeliverOutcome(x, old(Now()), Now())
      decreases |script|, 7
    {
      if 0 < life.connLost || rd.closing {
        return;
      }
      if rd.paused {
        rd := rd.(replay := rd.replay + [x]);
        return;
      }
      DeliverItem(x);
    }

    // -------------------------------------------------------------------------
    // write path
    // -------------------------------------------------------------------------

    method WriteData(data: View)
      requires Valid(View())
      modifies this
      ensures WriteOutcome(drain, old(Now()), data, Now()) && Ran(old(Now()), Now())
      decreases |script|, 2
    {
      ghost var w := Now();
      var queued := QueueData(data);
      ghost var m := Now();
      if queued && !life.dead {
        var _ := RunProtocol(); // _maybe_pause_protocol
        WriteAddsUp(drain, w, data, m, Now());
      } else {
        WriteEndsUp(drain, w, data, m);
      }
    }

    /** `write(data)` up to the flow-control callback; tells whether anything was queued. */
    method QueueData(data: View) returns (queued: bool)
      requires Valid(View())
      modifies this`rd, this`wr, this`life, this`net
      ensures QueueOutcome(drain, old(Now()), data, Now())
      ensures queued == (wr.buffer != old(wr.buffer))
    {
      WriteDoneLater(drain, Now(), data);
      queued := StoreData(data);
    }

    method StoreData(data: View) returns (queued: bool)
      requires rd.closing ==> !rd.watched
      requires life.dead ==> rd.closing
      modifies this`rd, this`wr, this`life, this`net
      ensures View() == WriteDone(old(View()), data, old(net))
      ensures net == if Tries(old(View()), data) then After(old(net)) else old(net)
      ensures queued == (wr.buffer != old(wr.buffer))
    {
      queued := false;
      if wr.eof || data == [] {
        return; // write() after write_eof() raises
      }
      if 0 < life.connLost {
        life := life.(connLost := life.connLost + 1);
        return;
      }
      if wr.buffer == [] {
        if !life.dead { // on a dead transport the socket is gone and the call raises
          queued := SendNow(data);
        }
        return;
      }
      wr := wr.(accepted := wr.accepted + data, buffer := wr.buffer + [data], hollow := false);
      queued := true;
    }

    /**
     `write(data)` with nothing queued: try the socket first.  What is left after the slice is queued with
     a writer registered; if the socket fails, the data is gone and the transport torn down.
     */
    method SendNow(data: View) returns (queued: bool)
      requires wr.buffer == [] && !life.dead && life.connLost == 0
      requires rd.closing ==> !rd.watched
      modifies this`rd, this`wr, this`life, this`net
      ensures View() == Written(old(View()), data, Answer(old(net), |Raw(data)|)) && net == After(old(net))
      ensures queued == (wr.buffer != []) && wr.accepted == old(wr.accepted) + data
    {
      var r := NextSend(|Raw(data)|);
      queued := StoreAnswer(data, r);
    }

    method StoreAnswer(data: View, r: SendResult) returns (queued: bool)
      requires wr.buffer == [] && !life.dead && life.connLost == 0 && (r.Sent? ==> r.n <= |Raw(data)|)
      requires rd.closing ==> !rd.watched
      modifies this`rd, this`wr, this`life
      ensures View() == Written(old(View()), data, r)
      ensures queued == (wr.buffer != []) && wr.accepted == old(wr.accepted) + data
    {
      if r.Failed? {
        LoseData(data);
        queued := false;
      } else {
        queued := QueueUnsent(data, if r.Sent? then r.n else 0);
      }
    }

    /** `write(data)` when the socket fails. */
    method LoseData(data: View)
      requires wr.buffer == [] && !life.dead && life.connLost == 0
      requires rd.closing ==> !rd.watched
      modifies this`rd, this`wr, this`life
      ensures View() == WriteFailed(old(View()), data)
    {
      ForceClose();
      wr := wr.(accepted := wr.accepted + data, discarded := true);
    }

    /** The socket took the first `n` bytes; the slice that is left counts elements.  Register a writer for it and queue it. */
    method QueueUnsent(data: View, n: nat) returns (queued: bool)
      requires wr.buffer == [] && n <= |Raw(data)|
      modifies this`wr
      ensures wr == Wrote(old(wr), data, n) && queued == (n < |data|)
    {
      var k := if n <= |data| then n else |data|;
      queued := k != |data|;
      wr := wr.(sent := wr.sent + Raw(data)[..n], skewed := wr.skewed || n < |Raw(data[..k])|);
      wr := wr.(accepted := wr.accepted + data, dropped := wr.dropped + data[..k]);
      if queued {
        AddWriter();
        wr := wr.(buffer := wr.buffer + [data[k..]]);
      }
    }

    method HalfClose()
      requires Valid(View())
      modifies this`wr
      ensures Valid(View()) && Later(drain, old(View()), View())
      ensures View() == HalfClosed(old(View())) && EofOutcome(old(View()), View())
    {
      LaterRefl(drain, View());
      if rd.closing || wr.eof {
        return;
      }
      wr := wr.(eof := true);
      if wr.buffer == [] {
        wr := wr.(shutdowns := wr.shutdowns + 1);
      }
    }

    /** `_write_sendmsg`; `ok` tells that the assertion at its head held. */
    method WriteSendmsg() returns (ok: bool)
      requires Valid(View())
      requires life.inLost == 0 || life.linesInLost
      modifies this
      ensures Ran(old(Now()), Now())
      ensures ok <==> old(wr.buffer) != []
      ensures if old(MaySend(View())) then SendOutcome(drain, iovMax, old(Now()), Now()) else Now() == old(Now())
      decreases |script|, 4, 1
    {
      ok := wr.buffer != [];
      if !ok || 0 < life.connLost || life.dead {
        return; // on a dead transport the call raises, as it does when the assertion fails
      }
      TrySend();
    }

    method TrySend()
      requires Valid(View()) && MaySend(View())
      requires life.inLost == 0 || life.linesInLost
      modifies this
      ensures SendOutcome(drain, iovMax, old(Now()), Now()) && Ran(old(Now()), Now())
      decreases |script|, 4, 0
    {
      ghost var w := Now();
      var r := OfferQueue();
      if r.Sent? {
        FlushSent(w, r.n);
      } else {
        LeaveUnsent(w, r.Failed?);
      }
    }

    /** The socket took `n` bytes. */
    method FlushSent(ghost w: World, n: nat)
      requires Valid(w.t) && MaySend(w.t) && (w.t.life.inLost == 0 || w.t.life.linesInLost)
      requires w.net != [] && w.net[0].Sent? && n == Taken(w.t.wr.buffer, iovMax, w.net[0].n)
      requires Now() == w.(net := w.net[1..])
      modifies this
      ensures SendOutcome(drain, iovMax, w, Now()) && Ran(old(Now()), Now())
      decreases |script|, 3, 1
    {
      AfterSend(n);
      SentAddsUp(drain, iovMax, w, Now());
    }

    /** The socket took nothing: it blocked or failed. */
    method LeaveUnsent(ghost w: World, failed: bool)
      requires Valid(w.t) && MaySend(w.t)
      requires if failed then w.net != [] && w.net[0].Failed? else w.net == [] || w.net[0].WouldBlock?
      requires Now() == w.(net := After(w.net))
      modifies this`rd, this`wr, this`life
      ensures SendOutcome(drain, iovMax, w, Now()) && rd.paused == old(rd.paused)
    {
      if failed {
        FailFlush();
      }
      UnsentResult(drain, iovMax, w);
    }

    /** `sendmsg` on the head of the queue. */
    method OfferQueue() returns (r: SendResult)
      requires wr.buffer != []
      modifies this`net
      ensures net == After(old(net))
      ensures if old(net) == [] then r.WouldBlock?
              else if old(net)[0].Sent? then r == Sent(Taken(wr.buffer, iovMax, old(net)[0].n))
              else r == old(net)[0]
    {
      if net != [] && net[0].Sent? {
        SendIsFlush(wr.buffer, iovMax, net);
      }
      r := NextSend(|Offered(wr.buffer, iovMax)|);
    }

    /** The failure branch of `_write_sendmsg`. */
    method FailFlush()
      requires rd.closing ==> !rd.watched
      requires !life.dead
      modifies this`rd, this`wr, this`life
      ensures View() == FlushFailed(old(View()))
    {
      RemoveWriter();
      wr := wr.(buffer := [], discarded := true, hollow := false);
      ForceClose();
    }

    /** The socket took `n` bytes: the queue is adjusted, and if that does not raise the flush goes on. */
    method AfterSend(n: nat)
      requires Valid(View()) && MaySend(View()) && n <= |Raw(Flat(wr.buffer))|
      requires life.inLost == 0 || life.linesInLost
      modifies this
      ensures SentOutcome(drain, iovMax, old(Now()), n, Now()) && Ran(old(Now()), Now())
      decreases |script|, 3, 0
    {
      ghost var w := Now();
      var ok := TakeSent(n);
      if ok {
        FlushStarts(w, n);
        FinishFlush(w, n);
      } else {
        FailFlush();
      }
    }

    /** A flush from its flow-control callback on; `w` is the state before it, `n` what the socket took. */
    method FinishFlush(ghost w: World, ghost n: nat)
      requires Valid(w.t) && MayFlush(w, n)
      requires Now() == w.(t := Flushing(Took(w, n).t))
      modifies this
      ensures FlushResult(drain, iovMax, w, n, Now()) && Ran(old(Now()), Now())
      decreases |script|, 2, 2
    {
      FlushIsReady(w, n);
      ghost var l := ResumeAndFinish();
      FlushAddsUp(drain, iovMax, w, n, l, Now());
      EndFlush();
    }

    method EndFlush()
      requires 0 < life.inFlush
      modifies this`life
      ensures View() == Unflushing(old(View()))
    {
      life := life.(inFlush := life.inFlush - 1);
    }

    /** A callback whose reply nobody looks at. */
    method FlowControl()
      requires Valid(View())
      modifies this
      ensures Stretch(drain, old(Now()), Now())
      ensures Plain(old(script)) ==> Now() == Called(drain, old(Now()))
      decreases |script|, 1
    {
      var _ := RunProtocol();
    }

    /** The flow-control callback and what follows it; `l` is the state between the two. */
    method ResumeAndFinish() returns (ghost l: World)
      requires FlushReady(View())
      modifies this
      ensures FlushParts(drain, iovMax, old(Now()), l, Now()) && Ran(old(Now()), Now())
      decreases |script|, 2, 1
    {
      ghost var f := Now();
      FlowControl(); // _maybe_resume_protocol
      l := Now();
      TailMayStart(drain, f, l);
      AfterResume();
      PartsAddUp(drain, iovMax, f, l, Now());
    }

    /** As many elements as the socket took bytes leave the queue; `ok` tells that there were so many. */
    method TakeSent(n: nat) returns (ok: bool)
      requires n <= |Raw(Flat(wr.buffer))|
      modifies this`wr, this`life
      ensures ok <==> n <= |Flat(old(wr.buffer))|
      ensures ok ==> View() == Flushing(old(View()).(wr := Flushed(old(wr), n)))
      ensures !ok ==> View() == old(View()).(wr := Overrun(old(wr), n))
    {
      var q := Flat(wr.buffer);
      wr := wr.(sent := wr.sent + Raw(q)[..n]);
      ok := AdjustLeftoverBuffer(n);
      if ok {
        wr := wr.(dropped := wr.dropped + q[..n], skewed := wr.skewed || n < |Raw(q[..n])|);
        life := life.(inFlush := life.inFlush + 1);
      } else {
        wr := wr.(dropped := wr.dropped + q, skewed := wr.skewed || n < |Raw(q)|, hollow := false);
      }
    }

    /** The tail of `_write_sendmsg`, once the flow-control callback is over. */
    method AfterResume()
      requires Valid(View()) && 0 < life.inFlush
      requires !life.dead ==> MayEnterLost(life, false)
      modifies this
      ensures TailOutcome(drain, iovMax, old(Now()), Now())
      decreases |script|, 2, 0
    {
      ghost var l := Now();
      if wr.buffer != [] || life.dead {
        QuietTail(drain, iovMax, l);
        return;
      }
      RemoveWriter();
      if rd.closing {
        CallConnectionLost(false);
        ReportingTail(drain, iovMax, l, Now());
      } else {
        QuietTail(drain, iovMax, l);
        if wr.eof {
          wr := wr.(shutdowns := wr.shutdowns + 1);
        }
      }
    }

    method WriteAll(list: seq<View>)
      requires Valid(View())
      modifies this
      ensures LinesOutcome(drain, iovMax, old(Now()), list, View()) && Ran(old(Now()), Now())
      ensures old(!wr.eof && life.connLost == 0) && list != [] ==> LinesPaused(script, old(script), View())
      decreases |script|, 6, 1
    {
      LaterRefl(drain, View());
      if wr.eof || list == [] {
        return; // writelines() after write_eof() raises
      }
      if 0 < life.connLost {
        life := life.(connLost := life.connLost + 1);
        return;
      }
      SendLines(list);
    }

    /** `writelines` of an accepted list. */
    method SendLines(list: seq<View>)
      requires Valid(View()) && MayQueue(View()) && list != []
      modifies this
      ensures LinesResult(drain, iovMax, old(Now()), list, View()) && Ran(old(Now()), Now())
      ensures LinesPaused(script, old(script), View())
      decreases |script|, 6, 0
    {
      ghost var w := Now();
      FlushLines(list);
      ghost var m := Now();
      if wr.buffer != [] && !life.dead {
        var _ := RunProtocol(); // _maybe_pause_protocol
        RanTrans(w, m, Now());
        CallbackAfterLines(drain, iovMax, w, list, m, Now());
      } else {
        NoCallbackAfterLines(drain, iovMax, w, list, m);
      }
    }

    method ExtendQueue(list: seq<View>)
      requires list != []
      modifies this`wr, this`life
      ensures View() == WithLines(old(View()), list)
    {
      life := life.(linesInLost := life.linesInLost || 0 < life.inLost);
      wr := wr.(accepted := wr.accepted + Flat(list), buffer := wr.buffer + list);
      wr := wr.(hollow := list[|list| - 1] == [], cleared := false);
    }

    /** `writelines` up to its flow-control callback: queue, try to send, register the writer if needed. */
    method FlushLines(list: seq<View>)
      requires Valid(View()) && MayQueue(View()) && list != []
      modifies this
      ensures LinesFlushed(drain, iovMax, old(Now()), list, Now()) && Ran(old(Now()), Now())
      decreases |script|, 5
    {
      ghost var w := Now();
      ExtendQueue(list);
      ExtendedValid(w.t, list);
      if life.dead {
        DeadLines(drain, iovMax, w, list);
        return; // _write_ready is None: the call raises
      }
      var ok := WriteSendmsg();
      assert ok;
      ghost var y := Now();
      KeepWriting();
      LinesAddUp(drain, iovMax, w, list, y, Now());
    }

    /** A live transport with something queued registers its writer. */
    method KeepWriting()
      modifies this`wr
      ensures View() == Keeping(old(View()))
    {
      if wr.buffer != [] && !life.dead {
        AddWriter();
      }
    }

    method StartReport(fromQueue: bool)
      requires fromQueue ==> 0 < life.pending
      modifies this`life
      ensures life == EnterLost(old(life), fromQueue)
    {
      life := life.(lost := life.lost + 1, inLost := life.inLost + 1);
      if fromQueue {
        life := life.(pending := life.pending - 1);
      } else {
        life := life.(direct := life.direct + 1, nested := life.nested || 1 < life.inLost);
      }
    }

    /** `_call_connection_lost`, from the ready queue or straight from the write path. */
    method CallConnectionLost(fromQueue: bool)
      requires Valid(View()) && rd.closing && wr.buffer == [] && Useful(View()) && MayEnterLost(life, fromQueue)
      modifies this
      ensures LostOutcome(drain, iovMax, old(Now()), fromQueue, Now()) && Ran(old(Now()), Now())
      decreases |script|, 1
    {
      ghost var w := Now();
      EnterLostValid(life, fromQueue);
      StartReport(fromQueue);
      var _ := RunProtocol();
      LostAddsUp(drain, iovMax, w, fromQueue, Now());
      EndReport();
    }

    method EndReport()
      requires 0 < life.inLost
      modifies this`life
      ensures life == LeaveLost(old(life))
    {
      life := life.(inLost := life.inLost - 1, dead := true);
    }

    // -------------------------------------------------------------------------
    // whole runs
    // -------------------------------------------------------------------------

    /**
     One loop callback: between two of them the transport is settled.  The reactor runs the writer
     callback while it is registered, also on a torn-down transport; the assertion at its head fails
     exactly when a forced close after the teardown has cleared the queue.
     */
    method Handle(e: Event)
      requires Settled(View())
      modifies this
      ensures Settled(View()) && RunLater(old(View()), ItemsOf([e]), View())
      ensures ReadStep(drain, e, old(rd), rd)
      ensures life.asserts == old(life.asserts) + if e.WriterFires? && old(wr.writer && wr.cleared) then 1 else 0
      ensures e.UserCall? ==> CallOutcome(drain, iovMax, e.command, old(Now()), Now())
      ensures e.StartReading? ==> Now() == old(Now()).(t := old(View()).(rd := rd))
      ensures e.Deliver? ==> DeliverOutcome(e.item, old(Now()), Now())
      ensures e.WriterFires? && old(wr.writer) ==> FiringExact(drain, old(Now()), iovMax, Now())
      ensures e.RunConnectionLost? && old(life.dead) ==> life.lost == old(life.lost)
    {
      ItemsOfOne(e);
      match e
      case StartReading =>
        BeginReading();
      case Deliver(x) =>
        TakeItem(x);
      case WriterFires =>
        FireWriter();
      case RunConnectionLost =>
        TakeConnectionLost();
      case UserCall(c) =>
        TakeCall(c);
    }

    /** The registration queued by the constructor. */
    method BeginReading()
      requires Settled(View())
      modifies this
      ensures Settled(View()) && RunLater(old(View()), [], View()) && Started(old(rd), rd)
      ensures Now() == old(Now()).(t := old(View()).(rd := rd))
    {
      ghost var before := View();
      StartReader();
      StartedRunLater(before, View());
    }

    /** A call from outside any callback. */
    method TakeCall(c: Command)
      requires Settled(View())
      modifies this
      ensures Settled(View()) && RunLater(old(View()), [], View())
      ensures ReadLater(drain, old(rd), rd) && life.asserts == old(life.asserts)
      ensures CallOutcome(drain, iovMax, c, old(Now()), Now())
    {
      ghost var before := View();
      Perform(c);
      LaterIsRunLater(drain, before, View());
    }

    /** The batch hands over one item read by the watcher. */
    method TakeItem(x: Item)
      requires Settled(View())
      modifies this
      ensures Settled(View()) && RunLater(old(View()), [x], View())
      ensures Delivered(drain, old(rd), x, rd) && life.asserts == old(life.asserts)
      ensures DeliverOutcome(x, old(Now()), Now())
    {
      ghost var before := View();
      DrainStream(x);
      DeliveredRunLater(drain, before, x, View());
    }

    /** The reactor runs the writer callback if it is registered. */
    method FireWriter()
      requires Settled(View())
      modifies this
      ensures Settled(View()) && RunLater(old(View()), [], View()) && ReadLater(drain, old(rd), rd)
      ensures life.asserts == old(life.asserts) + if old(wr.writer && wr.cleared) then 1 else 0
      ensures old(wr.writer) ==> FiringExact(drain, old(Now()), iovMax, Now())
    {
      ghost var before := View();
      LaterIsRunLater(drain, before, before);
      ReadLaterRefl(drain, rd);
      if wr.writer {
        var ok := WriteSendmsg();
        LaterIsRunLater(drain, before, View());
        if !ok {
          life := life.(asserts := life.asserts + 1); // AssertionError
        }
      }
    }

    /** The ready queue reaches a queued `_call_connection_lost`. */
    method TakeConnectionLost()
      requires Settled(View())
      modifies this
      ensures Settled(View()) && RunLater(old(View()), [], View())
      ensures 0 < old(life.pending) ==> life.dead && life.pending == 0
      ensures ReadLater(drain, old(rd), rd) && life.asserts == old(life.asserts)
      ensures old(life.dead) ==> life.lost == old(life.lost)
    {
      ghost var before := View();
      LaterIsRunLater(drain, before, before);
      if life.pending == 0 {
      } else if life.dead {
        life := life.(pending := life.pending - 1); // the entry raises: the protocol is gone
      } else {
        CallConnectionLost(true);
        LaterIsRunLater(drain, before, View());
      }
    }

    /**
     Any sequence of loop callbacks and user calls, with any protocol and any socket.
     */
    method Run(events: seq<Event>)
      requires Settled(View())
      modifies this
      ensures Settled(View())
      ensures RunLater(old(View()), ItemsOf(events), View())
      // what was accepted is what was sent and what is queued, in order, exactly while no view of wider items was sent in part
      ensures !wr.discarded ==> (wr.sent + Raw(Flat(wr.buffer)) == Raw(wr.accepted) <==> !wr.skewed)
      ensures !wr.discarded && Narrow(wr.accepted) ==> !wr.skewed
      // the writer is registered exactly while data is queued; after the teardown it may outlive a cleared queue
      ensures !life.dead ==> (wr.writer <==> wr.buffer != [])
      ensures wr.writer ==> (wr.buffer == [] <==> wr.cleared)
      ensures wr.cleared ==> life.dead
      // SHUT_WR comes after the last accepted byte, and does come unless a list ended in an empty chunk
      ensures 0 < wr.shutdowns ==> wr.eof && wr.buffer == []
      ensures 0 < wr.shutdowns && !wr.discarded ==> (wr.sent == Raw(wr.accepted) <==> !wr.skewed)
      ensures wr.eof && Flat(wr.buffer) == [] && !rd.closing ==> (0 < wr.shutdowns <==> !wr.hollow)
      // so does the report of a closing transport with nothing left to send
      ensures rd.closing && !life.dead && Flat(wr.buffer) == [] ==> (life.pending == 1 <==> !wr.hollow)
      ensures rd.closing && !life.dead ==> life.pending == 1 || (wr.buffer != [] && wr.writer)
      // the loss is reported at most once unless connection_lost itself flushed a writelines, and queued at most once;
      // it is entered a second time exactly if it was queued from inside a flush or a report, or reported twice
      ensures life.lost <= 1 <==> !life.nested
      ensures life.nested ==> life.linesInLost
      ensures life.scheduled <= 1
      ensures life.direct + life.scheduled <= 1 <==> !life.nested && !life.overlap
      // a transport that wants to read is watched
      ensures rd.started && !rd.paused && !rd.closing && rd.kept == 0 ==> rd.watched
    {
      HandleAll(events);
      SettledMeans(View());
    }

    method HandleAll(events: seq<Event>)
      requires Settled(View())
      modifies this
      ensures Settled(View()) && RunLater(old(View()), ItemsOf(events), View())
      decreases |events|
    {
      ghost var before := View();
      if events == [] {
        LaterIsRunLater(drain, before, before);
      } else {
        HandleNext(events[0]);
        ghost var mid := View();
        HandleAll(events[1..]);
        FirstEvent(before, events, mid, View());
      }
    }

    method HandleNext(e: Event)
      requires Settled(View())
      modifies this
      ensures Settled(View()) && RunLater(old(View()), ItemsOf([e]), View())
    {
      Handle(e);
    }
  }

  function ItemsOf(events: seq<Event>): seq<Item> {
    if events == [] then []
    else (if events[0].Deliver? then [events[0].item] else []) + ItemsOf(events[1..])
  }

  lemma FirstEvent(a: Transport, events: seq<Event>, m: Transport, b: Transport)
    requires events != []
    requires RunLater(a, ItemsOf([events[0]]), m) && RunLater(m, ItemsOf(events[1..]), b)
    ensures RunLater(a, ItemsOf(events), b)
  {
    RunLaterTrans(a, ItemsOf([events[0]]), m, ItemsOf(events[1..]), b);
    ItemsOfOne(events[0]);
  }

  lemma ItemsOfOne(e: Event)
    ensures ItemsOf([e]) == if e.Deliver? then [e.item] else []
  {
    assert [e][1..] == [];
  }

  /** The read side of one event, as the end-to-end machine takes it. */
  predicate ReadStep(drain: bool, e: Event, a: ReadView, b: ReadView) {
    match e
    case StartReading => Started(a, b)
    case Deliver(x) => Delivered(drain, a, x, b)
    case _ => ReadLater(drain, a, b)
  }
}
