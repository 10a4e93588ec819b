/**
 What the protocol and the socket will do next, and what the transport then does exactly.

 A callback performs the commands at the head of the script until it meets `Return` or
 `Raise`.  Where the callbacks of an operation are known to do nothing, or to make one
 plain call, the operation's effect is a function of the state, the script and the
 socket's answers; the predicates here say so for each operation of the write path.
 */
module StreamScript {
  import opened Bytes
  import opened ReadSide
  import opened StreamState
  import opened WriteBuffer

  datatype Command =
    | PauseReading | ResumeReading | Close | Abort | WriteEof
    | Write(data: View) | WriteLines(list: seq<View>)
    | Return(keepOpen: bool) | Raise

  datatype Reply = Returned(keepOpen: bool) | Raised

  datatype SendResult = Sent(n: nat) | WouldBlock | Failed

  /** The transport together with what its protocol and its socket will do next. */
  datatype World = World(t: Transport, script: seq<Command>, net: seq<SendResult>)

  // ---------------------------------------------------------------------------
  // scripts
  // ---------------------------------------------------------------------------

  function After<T>(s: seq<T>): seq<T> {
    if s == [] then [] else s[1..]
  }

  /** `a` is what is left of `b`. */
  predicate Suffix(a: seq<Command>, b: seq<Command>) {
    |a| <= |b| && a == b[|b| - |a|..]
  }

  lemma SuffixTrans(a: seq<Command>, b: seq<Command>, c: seq<Command>)
    requires Suffix(a, b) && Suffix(b, c)
    ensures Suffix(a, c)
  {
  }

  lemma SuffixHead(a: seq<Command>, b: seq<Command>)
    requires Suffix(a, b) && a != []
    ensures Suffix(a[1..], b) && LastTaken(b, a[1..]) == a[0]
  {
  }

  /** How many calls of `pause_reading` a script has. */
  function Pauses(script: seq<Command>): nat {
    if script == [] then 0 else (if script[0].PauseReading? then 1 else 0) + Pauses(script[1..])
  }

  /** A command that may end the connection. */
  predicate Ending(c: Command) {
    c.Close? || c.Abort? || c.Raise? || c.Write? || c.WriteLines? || c.ResumeReading?
  }

  function Endings(script: seq<Command>): nat {
    if script == [] then 0 else (if Ending(script[0]) then 1 else 0) + Endings(script[1..])
  }

  /**
   What any activity does to the script: commands are taken from its head, and reading is not paused
   unless one of them was `PauseReading`.
   */
  predicate Ran(w: World, v: World) {
    && Suffix(v.script, w.script) && Pauses(v.script) <= Pauses(w.script)
    && (v.t.rd.paused && !w.t.rd.paused ==> Pauses(v.script) < Pauses(w.script))
  }

  lemma RanTrans(a: World, b: World, c: World)
    requires Ran(a, b) && Ran(b, c)
    ensures Ran(a, c)
  {
    SuffixTrans(c.script, b.script, a.script);
  }

  /** The head of the script was taken as well. */
  lemma RanHead(w: World, v: World)
    requires w.script != [] && Suffix(v.script, w.script[1..]) && Pauses(v.script) <= Pauses(w.script[1..])
    requires w.script[0].PauseReading? || Ran(w.(script := w.script[1..]), v)
    ensures Ran(w, v)
  {
    SuffixTrans(v.script, w.script[1..], w.script);
  }

  lemma RanLast(w: World, v: World)
    requires Ran(w, v) && v.script != []
    ensures Ran(w, v.(script := v.script[1..]))
  {
    RanHead(v, v.(script := v.script[1..]));
    RanTrans(w, v, v.(script := v.script[1..]));
  }

  /** The connection does not end on its own: a command that may end it was taken. */
  predicate EndedBy(w: World, v: World) {
    && Endings(v.script) <= Endings(w.script)
    && (v.t.rd.closing && !w.t.rd.closing ==> Endings(v.script) < Endings(w.script))
  }

  lemma EndedByHead(w: World, v: World)
    requires w.script != [] && Endings(v.script) <= Endings(w.script[1..])
    requires Ending(w.script[0]) || EndedBy(w.(script := w.script[1..]), v)
    ensures EndedBy(w, v)
  {
  }

  lemma {:induction false} SuffixCounts(a: seq<Command>, b: seq<Command>)
    requires Suffix(a, b)
    ensures Pauses(a) <= Pauses(b) && Endings(a) <= Endings(b)
    decreases |b|
  {
    if |a| < |b| {
      assert Suffix(a, b[1..]);
      SuffixCounts(a, b[1..]);
    }
  }

  /** The last command taken when `before` has shrunk to `after`. */
  function LastTaken(before: seq<Command>, after: seq<Command>): Command {
    if |after| < |before| then before[|before| - |after| - 1] else Return(false)
  }

  /** The reply of a callback: the command it ended with, or nothing once the script has run out. */
  predicate Replied(before: seq<Command>, after: seq<Command>, r: Reply) {
    var c := LastTaken(before, after);
    || (|after| < |before| && c.Return? && r == Returned(c.keepOpen))
    || (|after| < |before| && c.Raise? && r == Raised)
    || (after == [] && r == Returned(false))
  }

  /** A callback was made, and it ended with a `Return` or a `Raise` of its own unless the script ran out. */
  predicate Answered(before: seq<Command>, after: seq<Command>) {
    after == [] || (|after| < |before| && (LastTaken(before, after).Return? || LastTaken(before, after).Raise?))
  }

  /** The next callback does nothing. */
  predicate Silent(script: seq<Command>) {
    script == [] || script[0].Return? || script[0].Raise?
  }

  /** Neither do the next two. */
  predicate Still(script: seq<Command>) {
    Silent(script) && Silent(After(script))
  }

  /** A command that makes no callback, given what the next callback would do. */
  predicate PlainCommand(c: Command, script: seq<Command>) {
    c.PauseReading? || c.Close? || c.Abort? || c.WriteEof? || (c.Write? && Silent(script))
  }

  /** The next callback makes at most one call, which has no callback of its own that does anything. */
  predicate Plain(script: seq<Command>) {
    Silent(script) || (PlainCommand(script[0], script[1..]) && Still(script[1..]))
  }

  // ---------------------------------------------------------------------------
  // exact effects where the callbacks are known
  // ---------------------------------------------------------------------------

  /** The socket's answer when `offered` bytes are on offer. */
  function Answer(net: seq<SendResult>, offered: nat): (r: SendResult)
    ensures r.Sent? ==> r.n <= offered
  {
    if net == [] then WouldBlock
    else if net[0].Sent? && offered < net[0].n then Sent(offered)
    else net[0]
  }

  /** `write(data)` with nothing queued, the socket having answered `r`. */
  function Written(t: Transport, data: View, r: SendResult): Transport
    requires r.Sent? ==> r.n <= |Raw(data)|
  {
    if r.Failed? then WriteFailed(t, data) else t.(wr := Wrote(t.wr, data, if r.Sent? then r.n else 0))
  }

  /** `write(data)` asks the socket. */
  predicate Tries(t: Transport, data: View) {
    Accepting(t) && data != [] && t.wr.buffer == []
  }

  /** `write(data)` up to its flow-control callback. */
  function WriteDone(t: Transport, data: View, net: seq<SendResult>): Transport {
    if t.wr.eof || data == [] then t
    else if 0 < t.life.connLost then t.(life := t.life.(connLost := t.life.connLost + 1))
    else if t.wr.buffer != [] then t.(wr := Queued(t.wr, data))
    else if t.life.dead then t
    else Written(t, data, Answer(net, |Raw(data)|))
  }

  /** The whole of `write(data)` when its flow-control callback does nothing. */
  function WriteCall(w: World, data: View): World {
    var t := WriteDone(w.t, data, w.net);
    World(t,
          if t.wr.buffer != w.t.wr.buffer && !w.t.life.dead then After(w.script) else w.script,
          if Tries(w.t, data) then After(w.net) else w.net)
  }

  /** `write(data)`: invariant and relation kept, the data accepted in order, and with a silent callback all of it. */
  predicate WriteOutcome(drain: bool, w: World, data: View, v: World) {
    && Valid(v.t) && Later(drain, w.t, v.t)
    && (Accepting(w.t) ==> w.t.wr.accepted + data <= v.t.wr.accepted)
    && (Tries(w.t, data) ==> SocketTook(w, Raw(data), v))
    && (Silent(w.script) ==> v == WriteCall(w, data))
  }

  /** Up to the flow-control callback. */
  predicate QueueOutcome(drain: bool, w: World, data: View, m: World) {
    && Valid(m.t) && Later(drain, w.t, m.t)
    && m == Queueing(w, data)
    && (Accepting(w.t) ==> w.t.wr.accepted + data <= m.t.wr.accepted)
    && (Tries(w.t, data) ==> SocketTook(w, Raw(data), m))
  }

  /** What the socket took of the bytes on offer counts as sent, and a failure closes. */
  predicate SocketTook(w: World, offered: seq<Byte>, v: World) {
    var r := Answer(w.net, |offered|);
    && (r.Sent? ==> w.t.wr.sent + offered[..r.n] <= v.t.wr.sent)
    && (r.Failed? ==> v.t.rd.closing)
  }

  lemma WrittenLater(drain: bool, t: Transport, data: View, r: SendResult)
    requires Valid(t) && MayQueue(t) && !t.life.dead && t.wr.buffer == [] && (r.Sent? ==> r.n <= |Raw(data)|)
    ensures var u := Written(t, data, r);
            && Valid(u) && Later(drain, t, u)
            && u.wr.accepted == t.wr.accepted + data
            && (u.wr.buffer != [] <==> u.wr.accepted != u.wr.dropped && !u.wr.discarded)
  {
    if r.Failed? {
      WriteFailedLater(drain, t, data);
    } else {
      WroteLater(drain, t, data, if r.Sent? then r.n else 0);
      WroteUnsent(t.wr, data, if r.Sent? then r.n else 0);
    }
  }

  /** The state and the answers left after `write(data)` up to its flow-control callback. */
  function Queueing(w: World, data: View): World {
    World(WriteDone(w.t, data, w.net), w.script, if Tries(w.t, data) then After(w.net) else w.net)
  }

  lemma WriteDoneLater(drain: bool, w: World, data: View)
    requires Valid(w.t)
    ensures QueueOutcome(drain, w, data, Queueing(w, data))
  {
    if Tries(w.t, data) {
      WrittenLater(drain, w.t, data, Answer(w.net, |Raw(data)|));
    } else {
      NotTriedLater(drain, w, data);
    }
  }

  lemma NotTriedLater(drain: bool, w: World, data: View)
    requires Valid(w.t) && !Tries(w.t, data)
    ensures QueueOutcome(drain, w, data, Queueing(w, data))
  {
    LaterRefl(drain, w.t);
    if data != [] && MayQueue(w.t) && w.t.wr.buffer != [] {
      QueuedLater(drain, w.t, data);
    }
  }

  lemma WroteUnsent(w: WriteView, data: View, n: nat)
    requires WriteValid(w) && !w.discarded && w.buffer == [] && n <= |Raw(data)|
    ensures var v := Wrote(w, data, n); v.buffer != [] <==> v.accepted != v.dropped
  {
    assert w.dropped == w.accepted;
    var k := Sliced(data, n);
    assert |w.accepted + data| == |w.accepted| + |data| && |w.dropped + data[..k]| == |w.dropped| + k;
  }

  lemma WriteEndsUp(drain: bool, w: World, data: View, m: World)
    requires QueueOutcome(drain, w, data, m)
    requires m.t.wr.buffer == w.t.wr.buffer || w.t.life.dead
    ensures WriteOutcome(drain, w, data, m)
  {
  }

  /** `m` is the state before the flow-control callback. */
  lemma WriteAddsUp(drain: bool, w: World, data: View, m: World, v: World)
    requires QueueOutcome(drain, w, data, m)
    requires m.t.wr.buffer != w.t.wr.buffer && !w.t.life.dead
    requires Valid(v.t) && Later(drain, m.t, v.t) && (Plain(m.script) ==> v == Called(drain, m))
    ensures WriteOutcome(drain, w, data, v)
  {
    LaterTrans(drain, w.t, m.t, v.t);
  }

  function Performed(drain: bool, w: World, c: Command): (v: World)
    requires PlainCommand(c, w.script)
    ensures v.t.life.inLost == w.t.life.inLost && v.t.life.inFlush == w.t.life.inFlush
  {
    match c
    case PauseReading => w.(t := w.t.(rd := Paused(drain, w.t.rd)))
    case Close => w.(t := Closed(w.t))
    case Abort => w.(t := ForceClosed(w.t))
    case WriteEof => w.(t := HalfClosed(w.t))
    case Write(data) => WriteCall(w, data)
  }

  /** A plain callback up to its return ... */
  function Acted(drain: bool, w: World): (v: World)
    requires Plain(w.script)
    ensures v.t.life.inLost == w.t.life.inLost && v.t.life.inFlush == w.t.life.inFlush
  {
    if Silent(w.script) then w else Performed(drain, w.(script := w.script[1..]), w.script[0])
  }

  /** ... and the whole of it. */
  function Called(drain: bool, w: World): (v: World)
    requires Plain(w.script)
    ensures v.t.life.inLost == w.t.life.inLost && v.t.life.inFlush == w.t.life.inFlush
  {
    var v := Acted(drain, w);
    v.(script := After(v.script))
  }

  /** `_call_connection_lost` around a plain callback. */
  function LostBy(drain: bool, w: World, fromQueue: bool): (v: World)
    requires Plain(w.script) && (fromQueue ==> 0 < w.t.life.pending)
    ensures v.t.life.inFlush == w.t.life.inFlush
  {
    var v := Called(drain, w.(t := w.t.(life := EnterLost(w.t.life, fromQueue))));
    v.(t := v.t.(life := LeaveLost(v.t.life)))
  }

  /** The whole of it: the protocol is told, whatever it does, and the transport is torn down. */
  predicate LostOutcome(drain: bool, iovMax: nat, w: World, fromQueue: bool, v: World)
    requires fromQueue ==> 0 < w.t.life.pending
  {
    && Valid(v.t) && Later(drain, w.t, v.t)
    && v.t.life.dead && w.t.life.lost < v.t.life.lost
    && (if fromQueue then v.t.life.pending < w.t.life.pending else w.t.life.direct < v.t.life.direct)
    && (Plain(w.script) ==> v == LostBy(drain, w, fromQueue))
    && (Reports(w, iovMax) ==> w.t.life.lost + 1 < v.t.life.lost)
  }

  /** `m` is the state when the protocol's connection_lost has returned. */
  lemma LostAddsUp(drain: bool, iovMax: nat, w: World, fromQueue: bool, m: World)
    requires Valid(w.t) && w.t.rd.closing && w.t.wr.buffer == [] && Useful(w.t) && MayEnterLost(w.t.life, fromQueue)
    requires Valid(m.t)
    requires var e := w.(t := w.t.(life := EnterLost(w.t.life, fromQueue)));
             && Later(drain, e.t, m.t)
             && (Plain(w.script) ==> m == Called(drain, e))
             && (Reports(e, iovMax) ==> e.t.life.lost < m.t.life.lost)
    ensures LostOutcome(drain, iovMax, w, fromQueue, m.(t := m.t.(life := LeaveLost(m.t.life))))
  {
    LostLater(drain, w.t, fromQueue, m.t);
  }

  /** The guard of the reporting branch at the end of a flush. */
  predicate Reporting(t: Transport) {
    t.wr.buffer == [] && !t.life.dead && t.rd.closing
  }

  function Finished(drain: bool, w: World): (v: World)
    requires Plain(w.script)
    ensures v.t.life.inFlush == w.t.life.inFlush
  {
    if Reporting(w.t) then LostBy(drain, w.(t := w.t.(wr := Removing(w.t.wr))), false)
    else w.(t := Rested(w.t))
  }

  predicate FinishExact(drain: bool, iovMax: nat, l: World, g: World) {
    && (!Reporting(l.t) ==> g.script == l.script && g.net == l.net)
    && (Plain(l.script) ==> g == Finished(drain, l))
    && (Reporting(l.t) && Reports(l, iovMax) ==> l.t.life.lost + 1 < g.t.life.lost)
  }

  /** The queue may be offered to the socket. */
  predicate MaySend(t: Transport) {
    t.wr.buffer != [] && t.life.connLost == 0 && !t.life.dead
  }

  /** The socket took `n` bytes. */
  function Took(w: World, n: nat): World
    requires n <= |Flat(w.t.wr.buffer)|
  {
    w.(t := w.t.(wr := Flushed(w.t.wr, n)))
  }

  /** The states around the send of a flush are valid, and the flush may end in a report. */
  predicate MayFlush(w: World, n: nat) {
    && MaySend(w.t) && n <= |Flat(w.t.wr.buffer)| && (w.t.life.inLost == 0 || w.t.life.linesInLost)
    && Valid(Took(w, n).t) && Valid(Flushing(Took(w, n).t))
  }

  lemma FlushStarts(w: World, n: nat)
    requires Valid(w.t) && MaySend(w.t) && n <= |Flat(w.t.wr.buffer)|
    requires w.t.life.inLost == 0 || w.t.life.linesInLost
    ensures MayFlush(w, n)
  {
    FlushedValid(w.t, n);
    FlushingValid(Took(w, n).t);
  }

  /** All callbacks of a flush in which the socket takes `n` bytes are plain. */
  predicate PlainFlush(drain: bool, w: World, n: nat) {
    && n <= |Flat(w.t.wr.buffer)| && Plain(w.script)
    && Plain(Called(drain, w.(t := Flushing(Took(w, n).t))).script)
  }

  function AfterPlainFlush(drain: bool, w: World, n: nat): World
    requires PlainFlush(drain, w, n)
  {
    var v := Finished(drain, Called(drain, w.(t := Flushing(Took(w, n).t))));
    v.(t := Unflushing(v.t))
  }

  predicate PlainSend(drain: bool, w: World, iovMax: nat) {
    && w.net != [] && w.net[0].Sent?
    && PlainFlush(drain, w.(net := w.net[1..]), Taken(w.t.wr.buffer, iovMax, w.net[0].n))
  }

  function AfterPlainSend(drain: bool, w: World, iovMax: nat): World
    requires PlainSend(drain, w, iovMax)
  {
    AfterPlainFlush(drain, w.(net := w.net[1..]), Taken(w.t.wr.buffer, iovMax, w.net[0].n))
  }

  /** The socket takes as many bytes as the deque has elements, and that empties it. */
  predicate SocketTakes(net: seq<SendResult>, chunks: seq<View>, iovMax: nat) {
    net != [] && net[0].Sent? && SendsAll(chunks, iovMax, net[0].n)
  }

  lemma SendIsFlush(chunks: seq<View>, iovMax: nat, net: seq<SendResult>)
    requires chunks != [] && net != [] && net[0].Sent?
    ensures var m := Taken(chunks, iovMax, net[0].n);
            && Answer(net, |Offered(chunks, iovMax)|) == Sent(m)
            && (m <= |Flat(chunks)| ==> (SocketTakes(net, chunks, iovMax) <==> DropItems(chunks, m) == []))
            && (SocketTakes(net, chunks, iovMax) ==> m == |Flat(chunks)|)
  {
    if Taken(chunks, iovMax, net[0].n) <= |Flat(chunks)| {
      SendEmptiesIff(chunks, iovMax, net[0].n);
    }
  }

  /**
   The socket took `n` bytes and resume_writing did nothing: the loss is reported exactly when that
   empties the queue of a closing transport; otherwise nothing but the queue changes.
   */
  predicate FlushExact(w: World, n: nat, v: World)
    requires n <= |Flat(w.t.wr.buffer)|
  {
    if w.t.rd.closing && DropItems(w.t.wr.buffer, n) == [] then v.t.life.dead && w.t.life.lost < v.t.life.lost
    else v == w.(t := Rested(Took(w, n).t), script := After(w.script))
  }

  /**
   A flush in which the socket took `n` bytes, from `w` to `v`: invariant and relation are kept, the
   bytes are gone, an empty queue has no writer and a closing transport has reported its loss.
   */
  predicate FlushResult(drain: bool, iovMax: nat, w: World, n: nat, v: World)
    requires n <= |Flat(w.t.wr.buffer)|
  {
    && Valid(v.t) && Later(drain, w.t, v.t)
    && w.t.wr.sent + Raw(Flat(w.t.wr.buffer))[..n] <= v.t.wr.sent
    && (v.t.wr.buffer == [] ==> v.t.life.dead || (!v.t.wr.writer && !v.t.rd.closing))
    && (Silent(w.script) ==> FlushExact(w, n, v))
    && (PlainFlush(drain, w, n) ==> v == AfterPlainFlush(drain, w, n))
    && (Silent(w.script) && FlushReports(w, n, iovMax) ==> w.t.life.lost + 1 < v.t.life.lost)
  }

  /** The callback of a flush, from `f` to `l`, and its tail, from `l` to `g`. */
  predicate FlushParts(drain: bool, iovMax: nat, f: World, l: World, g: World) {
    && Valid(l.t) && Later(drain, f.t, l.t)
    && (Plain(f.script) ==> l == Called(drain, f))
    && Valid(g.t) && Tail(drain, l.t, g.t) && FinishExact(drain, iovMax, l, g)
  }

  /** The tail of a flush: invariant kept, the report made exactly when it is due. */
  predicate TailOutcome(drain: bool, iovMax: nat, l: World, g: World) {
    Valid(g.t) && Tail(drain, l.t, g.t) && FinishExact(drain, iovMax, l, g) && Ran(l, g)
  }

  lemma QuietTail(drain: bool, iovMax: nat, l: World)
    requires Valid(l.t) && !Reporting(l.t)
    ensures TailOutcome(drain, iovMax, l, l.(t := Rested(l.t)))
  {
  }

  lemma ReportingTail(drain: bool, iovMax: nat, l: World, g: World)
    requires Valid(l.t) && Reporting(l.t)
    requires var r := l.(t := l.t.(wr := Removing(l.t.wr))); LostOutcome(drain, iovMax, r, false, g) && Ran(r, g)
    ensures TailOutcome(drain, iovMax, l, g)
  {
  }

  /** The flow-control callback of a flush may run. */
  predicate FlushReady(t: Transport) {
    && 0 < t.life.inFlush && Valid(t) && Valid(Unflushing(t))
    && t.life.connLost == 0 && !t.life.dead && (t.life.inLost == 0 || t.life.linesInLost)
  }

  lemma FlushIsReady(w: World, n: nat)
    requires MayFlush(w, n)
    ensures FlushReady(Flushing(Took(w, n).t))
  {
  }

  lemma TailMayStart(drain: bool, f: World, l: World)
    requires FlushReady(f.t) && Stretch(drain, f, l)
    ensures Valid(l.t) && 0 < l.t.life.inFlush && (!l.t.life.dead ==> MayEnterLost(l.t.life, false))
  {
    FlushMayReport(drain, Unflushing(f.t), l.t);
  }

  lemma PartsAddUp(drain: bool, iovMax: nat, f: World, l: World, g: World)
    requires Stretch(drain, f, l) && (Plain(f.script) ==> l == Called(drain, f))
    requires TailOutcome(drain, iovMax, l, g)
    ensures FlushParts(drain, iovMax, f, l, g) && Ran(f, g)
  {
    RanTrans(f, l, g);
  }

  lemma FlushAddsUp(drain: bool, iovMax: nat, w: World, n: nat, l: World, g: World)
    requires Valid(w.t) && MaySend(w.t) && n <= |Flat(w.t.wr.buffer)|
    requires FlushParts(drain, iovMax, w.(t := Flushing(Took(w, n).t)), l, g)
    ensures 0 < g.t.life.inFlush && FlushResult(drain, iovMax, w, n, g.(t := Unflushing(g.t)))
  {
    var f := Took(w, n).t;
    FlushedValid(w.t, n);
    FlushValid(drain, w.t, f.wr, l.t, g.t);
    FlushLater(drain, w.t, f.wr, l.t, g.t);
    FlushOutcome(drain, iovMax, w, n, l, g);
  }

  lemma FlushOutcome(drain: bool, iovMax: nat, w: World, n: nat, l: World, g: World)
    requires Valid(w.t) && MaySend(w.t) && n <= |Flat(w.t.wr.buffer)|
    requires Later(drain, Flushing(Took(w, n).t), l.t) && Tail(drain, l.t, g.t)
    requires Plain(w.script) ==> l == Called(drain, w.(t := Flushing(Took(w, n).t)))
    requires FinishExact(drain, iovMax, l, g)
    ensures 0 < g.t.life.inFlush
    ensures var v := g.(t := Unflushing(g.t));
            && w.t.wr.sent + Raw(Flat(w.t.wr.buffer))[..n] <= v.t.wr.sent
            && (v.t.wr.buffer == [] ==> v.t.life.dead || (!v.t.wr.writer && !v.t.rd.closing))
            && (Silent(w.script) ==> FlushExact(w, n, v))
            && (PlainFlush(drain, w, n) ==> v == AfterPlainFlush(drain, w, n))
            && (Silent(w.script) && FlushReports(w, n, iovMax) ==> w.t.life.lost + 1 < v.t.life.lost)
  {
    if Silent(w.script) {
      SilentFlush(drain, w, n, l, g);
      if FlushReports(w, n, iovMax) {
        SilentFlushReports(drain, iovMax, w, n, l, g);
      }
    }
  }

  lemma SilentFlush(drain: bool, w: World, n: nat, l: World, g: World)
    requires MaySend(w.t) && n <= |Flat(w.t.wr.buffer)| && Silent(w.script) && 0 < g.t.life.inFlush
    requires l == w.(t := Flushing(Took(w, n).t), script := After(w.script))
    requires Tail(drain, l.t, g.t) && (!Reporting(l.t) ==> g.script == l.script && g.net == l.net)
    ensures FlushExact(w, n, g.(t := Unflushing(g.t)))
  {
  }

  lemma SilentFlushReports(drain: bool, iovMax: nat, w: World, n: nat, l: World, g: World)
    requires MaySend(w.t) && n <= |Flat(w.t.wr.buffer)| && FlushReports(w, n, iovMax)
    requires l == w.(t := Flushing(Took(w, n).t), script := After(w.script))
    requires FinishExact(drain, iovMax, l, g)
    ensures w.t.life.lost + 1 < g.t.life.lost
  {
  }

  /** The same for one attempt to send, whatever the socket answers. */
  predicate SendExact(w: World, iovMax: nat, v: World) {
    if w.t.rd.closing && SocketTakes(w.net, w.t.wr.buffer, iovMax) then v.t.life.dead && w.t.life.lost < v.t.life.lost
    else v.t == Attempt(w.t, iovMax, w.net) && v.net == After(w.net) && (v.script == w.script || v.script == After(w.script))
  }

  function Attempt(t: Transport, iovMax: nat, net: seq<SendResult>): Transport {
    if net == [] || net[0].WouldBlock? then t
    else if net[0].Failed? then FlushFailed(t)
    else
      var n := Taken(t.wr.buffer, iovMax, net[0].n);
      if n <= |Flat(t.wr.buffer)| then Rested(t.(wr := Flushed(t.wr, n))) else FlushOverrun(t, n)
  }

  /** One attempt to send: invariant, relation, and what the socket's answer did. */
  predicate SendOutcome(drain: bool, iovMax: nat, w: World, v: World) {
    && Valid(v.t) && Later(drain, w.t, v.t)
    && (w.net != [] ==> Attempted(w.t, iovMax, w.net[0], v.t))
    && (Silent(w.script) ==> SendExact(w, iovMax, v))
    && (PlainSend(drain, w, iovMax) ==> v == AfterPlainSend(drain, w, iovMax))
    && (ReportsTwice(w, iovMax) ==> w.t.life.lost + 1 < v.t.life.lost)
  }

  lemma SentResult(drain: bool, iovMax: nat, w: World, v: World)
    requires w.t.wr.buffer != [] && w.net != [] && w.net[0].Sent?
    requires Taken(w.t.wr.buffer, iovMax, w.net[0].n) <= |Flat(w.t.wr.buffer)|
    requires FlushResult(drain, iovMax, w.(net := w.net[1..]), Taken(w.t.wr.buffer, iovMax, w.net[0].n), v)
    ensures SendOutcome(drain, iovMax, w, v)
  {
    SendIsFlush(w.t.wr.buffer, iovMax, w.net);
    if Silent(w.script) {
      SentExact(w, iovMax, v);
    }
  }

  /** The socket took `n` bytes of the queue: a flush, or a fatal error if the queue has fewer elements. */
  predicate SentOutcome(drain: bool, iovMax: nat, w: World, n: nat, v: World)
    requires n <= |Raw(Flat(w.t.wr.buffer))|
  {
    if n <= |Flat(w.t.wr.buffer)| then FlushResult(drain, iovMax, w, n, v) else v == w.(t := FlushOverrun(w.t, n))
  }

  lemma SentAddsUp(drain: bool, iovMax: nat, w: World, v: World)
    requires Valid(w.t) && MaySend(w.t) && w.net != [] && w.net[0].Sent?
    requires SentOutcome(drain, iovMax, w.(net := w.net[1..]), Taken(w.t.wr.buffer, iovMax, w.net[0].n), v)
    ensures SendOutcome(drain, iovMax, w, v)
  {
    if Taken(w.t.wr.buffer, iovMax, w.net[0].n) <= |Flat(w.t.wr.buffer)| {
      SentResult(drain, iovMax, w, v);
    } else {
      OverrunResult(drain, iovMax, w);
    }
  }

  lemma SentExact(w: World, iovMax: nat, v: World)
    requires w.t.wr.buffer != [] && w.net != [] && w.net[0].Sent?
    requires Taken(w.t.wr.buffer, iovMax, w.net[0].n) <= |Flat(w.t.wr.buffer)|
    requires FlushExact(w.(net := w.net[1..]), Taken(w.t.wr.buffer, iovMax, w.net[0].n), v)
    ensures SendExact(w, iovMax, v)
  {
    SendIsFlush(w.t.wr.buffer, iovMax, w.net);
  }

  /** The socket took more bytes than the queue has elements. */
  lemma OverrunResult(drain: bool, iovMax: nat, w: World)
    requires Valid(w.t) && MaySend(w.t) && w.net != [] && w.net[0].Sent?
    requires |Flat(w.t.wr.buffer)| < Taken(w.t.wr.buffer, iovMax, w.net[0].n)
    ensures SendOutcome(drain, iovMax, w, World(Attempt(w.t, iovMax, w.net), w.script, w.net[1..]))
  {
    FlushOverrunLater(drain, w.t, Taken(w.t.wr.buffer, iovMax, w.net[0].n));
  }

  lemma UnsentResult(drain: bool, iovMax: nat, w: World)
    requires Valid(w.t) && MaySend(w.t) && (w.net == [] || !w.net[0].Sent?)
    ensures SendOutcome(drain, iovMax, w, World(Attempt(w.t, iovMax, w.net), w.script, After(w.net)))
  {
    LaterRefl(drain, w.t);
    FlushFailedLater(drain, w.t);
  }

  /** `writelines(list)` before its first attempt to send. */
  function WithLines(t: Transport, list: seq<View>): Transport {
    t.(wr := Extended(t.wr, list), life := t.life.(linesInLost := t.life.linesInLost || 0 < t.life.inLost))
  }

  function Keeping(t: Transport): Transport {
    if t.wr.buffer != [] && !t.life.dead then t.(wr := Adding(t.wr)) else t
  }

  /** `writelines(list)` when no report comes of it. */
  function LinesDone(t: Transport, iovMax: nat, list: seq<View>, net: seq<SendResult>): Transport {
    Keeping(Attempt(WithLines(t, list), iovMax, net))
  }

  /** A report comes of it. */
  predicate LinesReport(w: World, iovMax: nat, list: seq<View>) {
    w.t.rd.closing && SocketTakes(w.net, w.t.wr.buffer + list, iovMax)
  }

  /** `writelines(list)` up to the flow-control callback at its end. */
  predicate LinesFlushed(drain: bool, iovMax: nat, w: World, list: seq<View>, v: World) {
    && Valid(v.t) && Later(drain, w.t, v.t)
    && w.t.wr.accepted + Flat(list) <= v.t.wr.accepted
    && (Accepting(w.t) && Silent(w.script) ==>
          if LinesReport(w, iovMax, list) then v.t.life.dead && w.t.life.lost < v.t.life.lost
          else v.t == LinesDone(w.t, iovMax, list, w.net) && (v.script == w.script || v.script == After(w.script)))
  }

  lemma DeadLines(drain: bool, iovMax: nat, w: World, list: seq<View>)
    requires Valid(w.t) && MayQueue(w.t) && list != [] && w.t.life.dead
    ensures LinesFlushed(drain, iovMax, w, list, w.(t := WithLines(w.t, list)))
  {
    ExtendedValid(w.t, list);
    ReadLaterRefl(drain, w.t.rd);
  }

  lemma LinesAddUp(drain: bool, iovMax: nat, w: World, list: seq<View>, y: World, z: World)
    requires Valid(w.t) && Accepting(w.t) && list != []
    requires SendOutcome(drain, iovMax, w.(t := WithLines(w.t, list)), y) && z == y.(t := Keeping(y.t))
    ensures LinesFlushed(drain, iovMax, w, list, z)
  {
    ExtendedValid(w.t, list);
    LinesLater(drain, w.t, WithLines(w.t, list), y.t, z.t);
    if Silent(w.script) {
      SilentLines(w, iovMax, list, y, z);
    }
  }

  lemma SilentLines(w: World, iovMax: nat, list: seq<View>, y: World, z: World)
    requires SendExact(w.(t := WithLines(w.t, list)), iovMax, y) && z == y.(t := Keeping(y.t))
    ensures if LinesReport(w, iovMax, list) then z.t.life.dead && w.t.life.lost < z.t.life.lost
            else z.t == LinesDone(w.t, iovMax, list, w.net) && (z.script == w.script || z.script == After(w.script))
  {
  }

  /**
   `writelines(list)` whose flow-control callbacks do nothing makes a report, from inside connection_lost
   a second one, exactly when the transport is closing, the socket takes as many bytes as queue and list
   have elements, and the list does not end in an empty chunk.
   */
  predicate LinesExact(w: World, iovMax: nat, list: seq<View>, b: Transport) {
    Accepting(w.t) && list != [] && Still(w.script) ==>
      && (w.t.life.lost < b.life.lost <==> LinesReport(w, iovMax, list))
      && (!LinesReport(w, iovMax, list) ==> b == LinesDone(w.t, iovMax, list, w.net))
  }

  /** The second report, in the terms of the call that makes it. */
  lemma SecondReportIff(w: World, iovMax: nat, list: seq<View>, b: Transport)
    requires Valid(w.t) && 0 < w.t.life.inLost && Accepting(w.t) && list != [] && Still(w.script)
    requires LinesExact(w, iovMax, list, b)
    ensures w.t.life.lost < b.life.lost <==>
            && w.net != [] && w.net[0].Sent?
            && Taken(w.t.wr.buffer + list, iovMax, w.net[0].n) == |Flat(w.t.wr.buffer)| + |Flat(list)|
            && list[|list| - 1] != []
    // on single bytes: the socket takes every byte of them at once
    ensures Narrow(Flat(w.t.wr.buffer)) && Narrow(Flat(list)) ==>
              (w.t.life.lost < b.life.lost <==>
                && w.net != [] && w.net[0].Sent?
                && |w.t.wr.buffer| + |list| <= iovMax
                && |Flat(w.t.wr.buffer)| + |Flat(list)| <= w.net[0].n
                && list[|list| - 1] != [])
  {
    TailOfConcat(w.t.wr.buffer, list);
    if Narrow(Flat(w.t.wr.buffer)) && Narrow(Flat(list)) && w.net != [] && w.net[0].Sent? {
      FlatConcat(w.t.wr.buffer, list);
      NarrowSendsAllIff(w.t.wr.buffer + list, iovMax, w.net[0].n);
    }
  }

  /** `writelines(list)`: invariant and relation kept, the lists of an open transport accepted in order, reports exact. */
  predicate LinesOutcome(drain: bool, iovMax: nat, w: World, list: seq<View>, b: Transport) {
    && Valid(b) && Later(drain, w.t, b)
    && (Accepting(w.t) ==> w.t.wr.accepted + Flat(list) <= b.wr.accepted)
    && LinesExact(w, iovMax, list, b)
  }

  /** A live transport that still has something queued has been through its flow-control callback. */
  predicate LinesPaused(left: seq<Command>, script: seq<Command>, b: Transport) {
    b.wr.buffer != [] && !b.life.dead ==> left == [] || |left| < |script|
  }

  predicate LinesResult(drain: bool, iovMax: nat, w: World, list: seq<View>, b: Transport) {
    && Valid(b) && Later(drain, w.t, b)
    && w.t.wr.accepted + Flat(list) <= b.wr.accepted
    && LinesExact(w, iovMax, list, b)
  }

  /** No list that fails to report changes the number of reports. */
  lemma LinesDoneLost(t: Transport, iovMax: nat, list: seq<View>, net: seq<SendResult>)
    ensures LinesDone(t, iovMax, list, net).life.lost == t.life.lost
  {
    AttemptLost(WithLines(t, list), iovMax, net);
  }

  lemma AttemptLost(t: Transport, iovMax: nat, net: seq<SendResult>)
    ensures Attempt(t, iovMax, net).life.lost == t.life.lost
  {
    FailureLost(t);
    if net != [] && net[0].Sent? {
      FailureLost(t.(wr := Overrun(t.wr, Taken(t.wr.buffer, iovMax, net[0].n))));
    }
  }

  lemma FailureLost(t: Transport)
    ensures FlushFailed(t).life.lost == t.life.lost
  {
  }

  lemma NoCallbackAfterLines(drain: bool, iovMax: nat, w: World, list: seq<View>, m: World)
    requires LinesFlushed(drain, iovMax, w, list, m)
    ensures LinesResult(drain, iovMax, w, list, m.t)
  {
    LinesDoneLost(w.t, iovMax, list, w.net);
  }

  lemma CallbackAfterLines(drain: bool, iovMax: nat, w: World, list: seq<View>, m: World, v: World)
    requires LinesFlushed(drain, iovMax, w, list, m) && !m.t.life.dead
    requires Valid(v.t) && Later(drain, m.t, v.t) && (Plain(m.script) ==> v == Called(drain, m))
    ensures LinesResult(drain, iovMax, w, list, v.t)
  {
    LaterTrans(drain, w.t, m.t, v.t);
    LinesDoneLost(w.t, iovMax, list, w.net);
  }

  /** The next callback starts with a writelines that makes a report. */
  predicate Reports(w: World, iovMax: nat) {
    && !Silent(w.script) && w.script[0].WriteLines? && w.script[0].list != []
    && Accepting(w.t) && w.t.rd.closing && Still(w.script[1..])
    && SocketTakes(w.net, w.t.wr.buffer + w.script[0].list, iovMax)
  }

  /** A flush in which the socket takes `n` bytes reports the loss, and the report makes another one. */
  predicate FlushReports(w: World, n: nat, iovMax: nat) {
    && n <= |Flat(w.t.wr.buffer)| && w.t.rd.closing && DropItems(w.t.wr.buffer, n) == []
    && Reports(World(w.t.(wr := w.t.wr.(buffer := [])), After(w.script), w.net), iovMax)
  }

  predicate ReportsTwice(w: World, iovMax: nat) {
    && Silent(w.script) && SocketTakes(w.net, w.t.wr.buffer, iovMax)
    && FlushReports(w.(net := After(w.net)), |Flat(w.t.wr.buffer)|, iovMax)
  }

  /** What one answer of the socket does to the queue: the bytes it took are gone, a block changes nothing, a failure tears down. */
  predicate Attempted(a: Transport, iovMax: nat, r: SendResult, b: Transport) {
    match r
    case Sent(n) => a.wr.sent + Raw(Flat(a.wr.buffer))[..Taken(a.wr.buffer, iovMax, n)] <= b.wr.sent
    case WouldBlock => b == a
    case Failed => b == FlushFailed(a)
  }

  /** What a writer firing does where the callbacks are known. */
  predicate FiringExact(drain: bool, w: World, iovMax: nat, v: World) {
    if !MaySend(w.t) then v.t.wr == w.t.wr && v.t.rd == w.t.rd
    else
      && (Silent(w.script) ==> SendExact(w, iovMax, v))
      && (PlainSend(drain, w, iovMax) ==> v == AfterPlainSend(drain, w, iovMax))
      && (ReportsTwice(w, iovMax) ==> w.t.life.lost + 1 < v.t.life.lost)
  }

  /** One call into the transport: invariant and relation kept, its effect, and where the callbacks are known all of it. */
  ghost predicate CallOutcome(drain: bool, iovMax: nat, c: Command, w: World, v: World) {
    && Valid(v.t) && Later(drain, w.t, v.t)
    && Effect(drain, c, w.t, v.t)
    && (PlainCommand(c, w.script) ==> v == Performed(drain, w, c))
    && (c.ResumeReading? ==> ResumeOutcome(w, v))
    && (c.WriteLines? ==> LinesExact(w, iovMax, c.list, v.t))
  }

  lemma WriteIsCall(drain: bool, iovMax: nat, w: World, data: View, v: World)
    requires WriteOutcome(drain, w, data, v)
    ensures CallOutcome(drain, iovMax, Write(data), w, v)
  {
  }

  lemma LinesIsCall(drain: bool, iovMax: nat, w: World, list: seq<View>, v: World)
    requires LinesOutcome(drain, iovMax, w, list, v.t)
    ensures CallOutcome(drain, iovMax, WriteLines(list), w, v)
  {
  }

  lemma CloseIsCall(drain: bool, iovMax: nat, w: World)
    requires Valid(w.t)
    ensures CallOutcome(drain, iovMax, Close, w, w.(t := Closed(w.t)))
  {
    ClosedLater(drain, w.t);
  }

  lemma AbortIsCall(drain: bool, iovMax: nat, w: World)
    requires Valid(w.t)
    ensures CallOutcome(drain, iovMax, Abort, w, w.(t := ForceClosed(w.t)))
  {
    ForceClosedLater(drain, w.t);
    AbortMeans(w.t);
  }

  lemma AbortMeans(t: Transport)
    requires Valid(t)
    ensures AbortOutcome(t, ForceClosed(t))
  {
  }

  /** `Return` and `Raise` are no calls. */
  lemma NoCall(drain: bool, iovMax: nat, c: Command, w: World)
    requires Valid(w.t) && (c.Return? || c.Raise?)
    ensures CallOutcome(drain, iovMax, c, w, w)
  {
    LaterRefl(drain, w.t);
  }

  /** What a stretch of a callback does: invariant, relation, script and closing accounted for. */
  predicate Stretch(drain: bool, w: World, v: World) {
    Valid(v.t) && Later(drain, w.t, v.t) && Ran(w, v) && EndedBy(w, v)
  }

  lemma StretchTrans(drain: bool, a: World, b: World, c: World)
    requires Stretch(drain, a, b) && Stretch(drain, b, c)
    ensures Stretch(drain, a, c)
  {
    LaterTrans(drain, a.t, b.t, c.t);
    RanTrans(a, b, c);
  }

  lemma StretchRefl(drain: bool, a: World)
    requires Valid(a.t)
    ensures Stretch(drain, a, a)
  {
    LaterRefl(drain, a.t);
  }

  lemma CommandStretch(drain: bool, iovMax: nat, w: World, v: World)
    requires !Silent(w.script) && CallOutcome(drain, iovMax, w.script[0], w.(script := w.script[1..]), v)
    requires Suffix(v.script, w.script[1..]) && (w.script[0].PauseReading? || Ran(w.(script := w.script[1..]), v))
    ensures Stretch(drain, w, v) && |v.script| < |w.script|
    ensures Plain(w.script) ==> v == Acted(drain, w)
    ensures Reports(w, iovMax) ==> w.t.life.lost < v.t.life.lost
  {
    SuffixCounts(v.script, w.script[1..]);
    RanHead(w, v);
    CommandOutcome(drain, iovMax, w, v);
    EndedByHead(w, v);
  }

  /** After the one command of a plain callback nothing follows. */
  lemma CommandsEnd(drain: bool, w: World, m: World, v: World)
    requires !Silent(w.script) && (Plain(w.script) ==> m == Acted(drain, w)) && (Plain(m.script) ==> v == Acted(drain, m))
    ensures Plain(w.script) ==> v == Acted(drain, w)
  {
  }

  /** The callback returns or raises. */
  lemma StretchLast(drain: bool, w: World, m: World)
    requires Stretch(drain, w, m) && m.script != []
    ensures Stretch(drain, w, m.(script := m.script[1..]))
  {
    RanLast(w, m);
    SuffixCounts(m.script[1..], m.script);
  }

  /** The first command of a callback was performed: `w` before it was taken from the script. */
  lemma CommandOutcome(drain: bool, iovMax: nat, w: World, v: World)
    requires !Silent(w.script) && CallOutcome(drain, iovMax, w.script[0], w.(script := w.script[1..]), v)
    ensures Valid(v.t) && Later(drain, w.t, v.t)
    ensures Plain(w.script) ==> v == Acted(drain, w)
    ensures Reports(w, iovMax) ==> w.t.life.lost < v.t.life.lost
    ensures Ending(w.script[0]) || EndedBy(w.(script := w.script[1..]), v)
  {
  }

  // ---------------------------------------------------------------------------
  // replaying
  // ---------------------------------------------------------------------------

  predicate AllData(items: seq<Item>) {
    forall i :: 0 <= i < |items| ==> items[i].Data?
  }

  /** The next `k` callbacks do nothing and return. */
  predicate Calm(script: seq<Command>, k: nat) {
    forall i :: 0 <= i < k && i < |script| ==> script[i].Return?
  }

  function Skip<T>(s: seq<T>, k: nat): seq<T> {
    if k <= |s| then s[k..] else []
  }

  /** `i` items of the replay queue were handed over, and nothing else happened. */
  function Replayed(w: World, i: nat): World
    requires i <= |w.t.rd.replay|
  {
    World(w.t.(rd := w.t.rd.(log := w.t.rd.log + w.t.rd.replay[..i], replay := w.t.rd.replay[i..])), Skip(w.script, i), w.net)
  }

  lemma ReplayedNext(w: World, i: nat)
    requires i < |w.t.rd.replay|
    ensures var v := Replayed(w, i);
            && v.t.rd.replay[0] == w.t.rd.replay[i]
            && Replayed(w, i + 1) == World(Popped(v.t), After(v.script), w.net)
            && (v.script != [] ==> i < |w.script| && v.script[0] == w.script[i])
  {
    var r := w.t.rd.replay;
    assert r[..i + 1] == r[..i] + [r[i]];
    AddAssoc(w.t.rd.log, r[..i], [r[i]]);
  }

  lemma ReplayedNone(w: World)
    ensures Replayed(w, 0) == w
  {
    assert w.t.rd.log + w.t.rd.replay[..0] == w.t.rd.log;
  }

  /** The head of the replay queue was delivered. */
  predicate ReplayStep(drain: bool, w: World, v: World) {
    && Later(drain, w.t, v.t) && Ran(w, v) && w.t.rd.replay != [] && |v.t.rd.replay| < |w.t.rd.replay|
    && (w.t.rd.replay[0].Data? ==> EndedBy(w, v))
    && (w.t.rd.replay[0].Data? && Calm(w.script, 1) ==> v == World(Popped(w.t), After(w.script), w.net))
  }

  /** Part of the replay queue was delivered. */
  predicate Replaying(drain: bool, w: World, v: World) {
    && Later(drain, w.t, v.t) && Ran(w, v) && |v.t.rd.replay| <= |w.t.rd.replay|
    && (AllData(w.t.rd.replay) ==> EndedBy(w, v))
    && (AllData(w.t.rd.replay) && Calm(w.script, |w.t.rd.replay|) ==>
          v == Replayed(w, |w.t.rd.replay| - |v.t.rd.replay|))
  }

  /** The flush is over. */
  predicate ReplayOver(drain: bool, w: World, v: World) {
    Replaying(drain, w, v) && Quiet(v.t.rd)
  }

  /** The replay queue only ever loses its head while the transport is open. */
  lemma ReplaySuffix(drain: bool, w: Transport, v: Transport)
    requires Later(drain, w, v) && !v.rd.closing && AllData(w.rd.replay)
    ensures AllData(v.rd.replay)
  {
    var n := |w.rd.log + w.rd.replay| - |v.rd.replay|;
    forall i | 0 <= i < |v.rd.replay|
      ensures v.rd.replay[i].Data?
    {
      assert v.rd.replay[i] == (v.rd.log + v.rd.replay)[n + i] == (w.rd.log + w.rd.replay)[n + i];
    }
  }

  /** The item is the next one in the hand-over order. */
  function Logged(w: World, x: Item): World {
    w.(t := w.t.(rd := Handed(w.t.rd, x)))
  }

  /** data_received was called; an exception from it closes. */
  predicate DataOutcome(w: World, v: World) {
    && Answered(w.script, v.script)
    && (v.script != [] && LastTaken(w.script, v.script).Raise? ==> v.t.rd.closing)
    && EndedBy(w, v)
    && (Calm(w.script, 1) ==> v == w.(script := After(w.script)))
  }

  /** eof_received was called; keep_open removes the reader, anything else closes. */
  predicate EndOutcome(w: World, v: World) {
    && Answered(w.script, v.script)
    && (v.t.rd.closing || (w.t.rd.kept < v.t.rd.kept && !v.t.rd.watched))
    && (v.script != [] ==>
          if LastTaken(w.script, v.script) == Return(true) then w.t.rd.kept < v.t.rd.kept && !v.t.rd.watched
          else v.t.rd.closing)
  }

  lemma FlushedOn(drain: bool, w: World, m: World, v: World)
    requires !m.t.rd.closing && Replaying(drain, w, m) && ReplayStep(drain, m, v)
    ensures Replaying(drain, w, v)
  {
    LaterTrans(drain, w.t, m.t, v.t);
    RanTrans(w, m, v);
    if AllData(w.t.rd.replay) {
      ReplaySuffix(drain, w.t, m.t);
      if Calm(w.script, |w.t.rd.replay|) {
        ReplayedOn(w, m, v);
      }
    }
  }

  lemma ReplayedOn(w: World, m: World, v: World)
    requires AllData(w.t.rd.replay) && Calm(w.script, |w.t.rd.replay|)
    requires 0 < |m.t.rd.replay| <= |w.t.rd.replay| && m == Replayed(w, |w.t.rd.replay| - |m.t.rd.replay|)
    requires Calm(m.script, 1) ==> v == World(Popped(m.t), After(m.script), m.net)
    ensures v == Replayed(w, |w.t.rd.replay| - |v.t.rd.replay|)
  {
    ReplayedNext(w, |w.t.rd.replay| - |m.t.rd.replay|);
  }

  /** The end of `resume_reading`: the reader is registered unless one is live, or reading was paused or closed again. */
  function Watching(f: World): World {
    if f.t.rd.paused || f.t.rd.closing || f.t.rd.watched then f
    else f.(t := f.t.(rd := f.t.rd.(watched := true, regs := f.t.rd.regs + 1)))
  }

  /** `f` is the state when the replay queue was flushed. */
  lemma ResumeAddsUp(drain: bool, w: World, f: World)
    requires w.t.rd.paused && !w.t.rd.closing && Valid(f.t)
    requires ReplayOver(drain, w.(t := w.t.(rd := w.t.rd.(paused := false))), f)
    ensures var v := Watching(f);
            Valid(v.t) && Later(drain, w.t, v.t) && Ran(w, v) && ResumeOutcome(w, v)
  {
    var r := w.(t := w.t.(rd := w.t.rd.(paused := false)));
    if f.t.rd.paused || f.t.rd.closing {
      ResumedLater(drain, w.t, r.t, f.t);
    } else {
      RegisteredLater(drain, w.t, r.t, f.t, Watching(f).t);
    }
    ResumeMeans(drain, w, f);
  }

  lemma ResumeMeans(drain: bool, w: World, f: World)
    requires w.t.rd.paused && !w.t.rd.closing
    requires ReplayOver(drain, w.(t := w.t.(rd := w.t.rd.(paused := false))), f)
    requires Attentive(Watching(f).t.rd) && Quiet(Watching(f).t.rd)
    ensures Ran(w, Watching(f)) && ResumeOutcome(w, Watching(f))
  {
  }

  lemma RaiseTaken(before: seq<Command>, after: seq<Command>)
    requires Suffix(after, before) && |after| < |before| && LastTaken(before, after).Raise?
    ensures Endings(after) < Endings(before)
  {
    var k := |before| - |after| - 1;
    var last := before[k..];
    assert last[0].Raise? && last[1..] == after;
    assert Suffix(last, before);
    SuffixCounts(last, before);
  }

  /** The reply of data_received was acted on. */
  lemma RaiseEnds(w: World, m: World, r: Reply, v: World)
    requires Ran(w, m) && EndedBy(w, m) && Replied(w.script, m.script, r) && v == m.(t := v.t)
    requires !r.Raised? ==> v.t == m.t
    requires v.t.rd.paused ==> m.t.rd.paused
    ensures Ran(w, v) && EndedBy(w, v)
  {
    if r.Raised? {
      RaiseTaken(w.script, m.script);
    }
  }

  lemma DataAddsUp(drain: bool, w: World, m: World, r: Reply, v: World)
    requires Ran(w, m) && EndedBy(w, m) && Replied(w.script, m.script, r) && v == m.(t := v.t)
    requires Plain(w.script) ==> m == Called(drain, w)
    requires if r.Raised? then v.t.rd.closing && v.t.rd.paused == m.t.rd.paused else v.t == m.t
    ensures Ran(w, v) && DataOutcome(w, v)
  {
    RaiseEnds(w, m, r, v);
    RepliedAnswers(w.script, m.script, r);
  }

  lemma RepliedAnswers(before: seq<Command>, after: seq<Command>, r: Reply)
    requires Replied(before, after, r)
    ensures Answered(before, after)
    ensures after != [] ==> (r.Raised? <==> LastTaken(before, after).Raise?)
    ensures Calm(before, 1) && Suffix(after, before) && after == After(before) ==> !r.Raised?
  {
    if Calm(before, 1) && after == After(before) && before != [] {
      assert before[0].Return? && LastTaken(before, after) == before[0];
    }
  }

  /** An item read by the watcher: dropped when closing, stashed when paused, handed over otherwise. */
  predicate DeliverOutcome(x: Item, w: World, v: World) {
    && (w.t.rd.closing ==> v == w)
    && (!w.t.rd.closing && w.t.rd.paused ==> v == w.(t := w.t.(rd := w.t.rd.(replay := w.t.rd.replay + [x]))))
    && (!w.t.rd.closing && !w.t.rd.paused && x.Data? && Calm(w.script, 1) ==>
          v == World(w.t.(rd := Handed(w.t.rd, x)), After(w.script), w.net))
  }

  /**
   `resume_reading()` on a paused transport that is not closing: it stays paused only if a callback paused
   it again, and closes only if a callback could close it or an end of stream or an error was replayed.
   With callbacks that do nothing, everything stashed reaches the protocol, in order, and the reader is live.
   */
  predicate ResumeOutcome(w: World, v: World) {
    w.t.rd.paused && !w.t.rd.closing ==>
      && Quiet(v.t.rd) && Attentive(v.t.rd)
      && (v.t.rd.paused ==> Pauses(v.script) < Pauses(w.script))
      && (v.t.rd.closing ==> Endings(v.script) < Endings(w.script) || !AllData(w.t.rd.replay))
      && (AllData(w.t.rd.replay) && Calm(w.script, |w.t.rd.replay|) ==>
            && !v.t.rd.paused && !v.t.rd.closing && v.t.rd.watched
            && v.t.rd.replay == [] && v.t.rd.log == w.t.rd.log + w.t.rd.replay
            && v.t.rd.regs == w.t.rd.regs + (if w.t.rd.watched then 0 else 1)
            && v.t.rd.started == w.t.rd.started && v.t.rd.kept == w.t.rd.kept
            && v.t.wr == w.t.wr && v.t.life == w.t.life
            && v.script == Skip(w.script, |w.t.rd.replay|) && v.net == w.net)
  }

  /** `write_eof()` on an open transport: SHUT_WR at once if nothing is queued. */
  predicate EofOutcome(a: Transport, b: Transport) {
    && (a.rd.closing || a.wr.eof ==> b == a)
    && (!a.rd.closing && !a.wr.eof ==>
          && b.wr.eof && b.wr.shutdowns == a.wr.shutdowns + (if a.wr.buffer == [] then 1 else 0)
          && b == a.(wr := b.wr) && b.wr == a.wr.(eof := true, shutdowns := b.wr.shutdowns))
  }

  /** After `write_eof()` on an open transport with nothing left to send, SHUT_WR has been issued. */
  lemma EofAnnounced(a: Transport, b: Transport)
    requires Settled(a) && EofOutcome(a, b)
    requires !a.rd.closing && Flat(a.wr.buffer) == [] && !a.wr.hollow
    ensures b.wr.eof && 0 < b.wr.shutdowns
  {
    NothingUnsent(a);
  }

  /** `pause_reading()` on a transport that is reading: the flag, and in callback mode the registration. */
  predicate PauseOutcome(drain: bool, a: ReadView, b: ReadView) {
    && (!a.closing ==> b.paused && b == a.(paused := true, watched := b.watched))
    && (!a.closing && !a.paused && !drain ==> !b.watched)
    && (drain || a.paused ==> b.watched == a.watched)
    && (a.closing ==> b == a)
  }

  /** `close()` on an open transport: reading ends, and the report is queued at once unless data has to be flushed first. */
  predicate CloseOutcome(a: Transport, b: Transport) {
    && (a.rd.closing ==> b == a)
    && (!a.rd.closing ==>
          && b.rd == a.rd.(closing := true, watched := false)
          && (a.wr.buffer != [] ==> b == a.(rd := b.rd))
          && (a.wr.buffer == [] ==>
                && b.wr == a.wr.(writer := false, asks := b.wr.asks)
                && b.life.pending == a.life.pending + 1 && 0 < b.life.connLost
                && b.life.lost == a.life.lost && b.life.dead == a.life.dead))
  }

  /** `abort()`: nothing is left queued and reading has ended; on a live transport the report is queued, once. */
  predicate AbortOutcome(a: Transport, b: Transport) {
    && b.rd.closing && b.wr.buffer == []
    && b.rd == a.rd.(closing := true, watched := b.rd.watched) && !b.rd.watched
    && (0 < a.life.connLost ==> b == a)
    && (a.life.connLost == 0 && !a.life.dead ==>
          && b.life.pending == a.life.pending + 1 && 0 < b.life.connLost
          && (a.wr.buffer != [] ==> !b.wr.writer && b.wr.discarded))
    && b.life.lost == a.life.lost && b.life.dead == a.life.dead
    && b.wr.accepted == a.wr.accepted && b.wr.sent == a.wr.sent && b.wr.dropped == a.wr.dropped
    && b.wr.eof == a.wr.eof && b.wr.shutdowns == a.wr.shutdowns
  }

  /** What one call is for, beyond keeping the invariant. */
  ghost predicate Effect(drain: bool, c: Command, a: Transport, b: Transport) {
    match c
    case PauseReading => b == a.(rd := b.rd) && PauseOutcome(drain, a.rd, b.rd)
    case ResumeReading => if a.rd.paused && !a.rd.closing then Quiet(b.rd) && Attentive(b.rd) else b == a
    case Close => CloseOutcome(a, b)
    case Abort => AbortOutcome(a, b)
    case WriteEof => EofOutcome(a, b)
    case Write(data) => Accepting(a) ==> a.wr.accepted + data <= b.wr.accepted
    case WriteLines(list) => Accepting(a) ==> a.wr.accepted + Flat(list) <= b.wr.accepted
    case Return(_) => b == a
    case Raise => b == a
  }
}
