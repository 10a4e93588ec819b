/**
 The state of a stream transport as a value: the invariant that holds whenever
 protocol code may run, the relation that any stretch of re-entrant activity
 satisfies, and the state changes that involve no protocol call.
 */
module StreamState {
  import opened Bytes
  import opened ReadSide
  import opened WriteBuffer

  /**
   buffer, writer, eof   _buffer, whether a writer is registered, _eof
   accepted              elements taken over from write/writelines
   dropped               elements taken off again as sent
   sent                  bytes the socket took
   skewed                more was taken off than was sent
   discarded             the queue was thrown away by a fatal error or an abort
   shutdowns             SHUT_WR calls issued
   hollow                the last accepted call was a writelines whose list ended in an empty chunk,
                         and no forced close has dropped it since
   cleared               a forced close of a torn-down transport dropped the queue, and nothing was
                         queued since
   asks                  add_writer (true) and remove_writer (false) requests made
   */
  datatype WriteView = WriteView(
    buffer: seq<View>, writer: bool, eof: bool,
    accepted: View, dropped: View, sent: seq<Byte>, skewed: bool, discarded: bool, shutdowns: nat,
    hollow: bool, cleared: bool, asks: seq<bool>)

  /**
   connLost      _conn_lost
   dead          _call_connection_lost has finished: _loop, _sock and _protocol are None
   pending       _call_connection_lost entries waiting in the ready queue
   scheduled     such entries ever queued
   direct        _call_connection_lost calls made straight from the write path
   lost          protocol.connection_lost invocations
   inLost        protocol.connection_lost invocations in progress
   inFlush       flushes of the write queue past their send and not yet over
   overlap       an entry was queued while inLost or inFlush was positive
   linesInLost   writelines was called while inLost was positive
   nested        a flush took its closing branch while inLost was positive
   asserts       writer firings that ended in the assertion on an empty queue
   */
  datatype LifeView = LifeView(
    connLost: nat, dead: bool, pending: nat, scheduled: nat, direct: nat,
    lost: nat, inLost: nat, inFlush: nat, overlap: bool, linesInLost: bool, nested: bool, asserts: nat)

  datatype Transport = Transport(rd: ReadView, wr: WriteView, life: LifeView)

  // ---------------------------------------------------------------------------
  // invariant
  // ---------------------------------------------------------------------------

  predicate WriteValid(w: WriteView) {
    && w.dropped <= w.accepted
    && (!w.discarded ==> w.dropped + Flat(w.buffer) == w.accepted)
    && Tally(w.dropped, w.sent, w.skewed)
    && (0 < w.shutdowns ==> w.eof && w.buffer == [])
    && (w.hollow <==> HollowTail(w.buffer))
    && (w.cleared ==> w.buffer == [])
    && (w.writer <==> w.asks != [] && w.asks[|w.asks| - 1])
  }

  predicate LifeValid(l: LifeView) {
    && l.pending <= l.scheduled <= 1
    && (l.scheduled == 1 ==> 0 < l.connLost)
    && (!l.dead && 0 < l.connLost ==> l.scheduled == 1)
    && (!l.dead && 0 < l.connLost && l.inLost == 0 ==> l.pending == 1)
    && l.direct <= l.lost && l.inLost <= l.lost
    && (!l.nested ==>
          l.inLost <= 1 && (0 < l.inLost ==> !l.dead) && l.lost == l.inLost + (if l.dead then 1 else 0))
    && (l.nested ==> l.linesInLost && 2 <= l.direct)
    && (!l.nested && !l.overlap ==> l.direct + l.scheduled <= 1)
    && (l.overlap ==> l.scheduled == 1 && 0 < l.direct + l.inFlush)
    && (0 < l.inLost && l.direct == 0 ==> 0 < l.connLost)
  }

  predicate Valid(t: Transport) {
    && ReadValid(t.rd)
    && WriteValid(t.wr)
    && LifeValid(t.life)
    && (0 < t.life.connLost ==> t.rd.closing && t.wr.buffer == [])
    && (t.life.dead || 0 < t.life.inLost ==> t.rd.closing)
    && (t.wr.discarded ==> t.life.dead || 0 < t.life.connLost)
    && (t.wr.cleared ==> t.life.dead)
  }

  /** Unsent data has a writer. */
  predicate Served(t: Transport) {
    t.life.dead || t.wr.buffer == [] || t.wr.writer
  }

  /** A registered writer finds something queued, unless the queue of a torn-down transport was cleared. */
  predicate Useful(t: Transport) {
    t.wr.writer ==> t.wr.buffer != [] || t.wr.cleared
  }

  /** A closing transport has reported the loss, has queued the report, or still has data to flush. */
  predicate Owed(t: Transport) {
    t.rd.closing ==> t.life.dead || 0 < t.life.connLost || t.wr.buffer != []
  }

  /** A requested half-close has been issued once nothing is left to send. */
  predicate Announced(t: Transport) {
    t.wr.eof && t.wr.buffer == [] && !t.rd.closing ==> 0 < t.wr.shutdowns
  }

  /** What holds between loop callbacks, when no transport method is on the stack. */
  predicate Settled(t: Transport) {
    && Valid(t)
    && Quiet(t.rd) && Attentive(t.rd)
    && Served(t) && Useful(t) && Owed(t) && Announced(t)
    && t.life.inLost == 0 && t.life.inFlush == 0
  }

  // ---------------------------------------------------------------------------
  // relation between an earlier and a later state
  // ---------------------------------------------------------------------------

  predicate WriteLater(a: WriteView, b: WriteView) {
    && a.sent <= b.sent && |a.dropped| <= |b.dropped| && (a.skewed ==> b.skewed)
    && a.asks <= b.asks
    && a.accepted <= b.accepted
    && (a.eof ==> b.eof && b.accepted == a.accepted)
    && (a.discarded ==> b.discarded)
    && a.shutdowns <= b.shutdowns
    && (0 < a.shutdowns ==> b.sent == a.sent)
    // until more is accepted, an empty chunk behind the last byte stays there and keeps SHUT_WR back
    && (a.hollow && |b.accepted| == |a.accepted| ==> b.hollow || b.discarded)
    && (a.discarded || (a.hollow && |b.accepted| == |a.accepted|) ==> b.shutdowns == a.shutdowns)
  }

  predicate LifeLater(a: LifeView, b: LifeView) {
    && a.connLost <= b.connLost
    && (a.dead ==> b.dead)
    && a.scheduled <= b.scheduled && a.direct <= b.direct && a.lost <= b.lost
    && b.inLost == a.inLost && b.inFlush == a.inFlush
    && (a.overlap ==> b.overlap)
    && (a.linesInLost ==> b.linesInLost)
    && (a.nested ==> b.nested)
    && (0 < a.inLost + a.inFlush && !b.overlap ==> b.scheduled == a.scheduled)
    && (0 < a.inFlush && !a.dead && b.dead ==> a.direct < b.direct)
    && (b.scheduled == a.scheduled ==> b.pending <= a.pending)
    && a.asserts <= b.asserts
  }

  predicate CoreLater(drain: bool, a: Transport, b: Transport) {
    && ReadLater(drain, a.rd, b.rd)
    && WriteLater(a.wr, b.wr)
    && LifeLater(a.life, b.life)
    && b.life.asserts == a.life.asserts
    && (a.wr.hollow && |b.wr.accepted| == |a.wr.accepted| && !b.wr.discarded ==> b.life.lost == a.life.lost)
    && (!a.life.dead && b.life.dead ==> Useful(b))
  }

  predicate Later(drain: bool, a: Transport, b: Transport) {
    && CoreLater(drain, a, b)
    && (Served(a) ==> Served(b))
    && (Useful(a) ==> Useful(b))
    && (Owed(a) ==> Owed(b))
    && (Announced(a) ==> Announced(b))
  }

  lemma LaterRefl(drain: bool, a: Transport)
    ensures Later(drain, a, a)
  {
    ReadLaterRefl(drain, a.rd);
  }

  lemma LaterTrans(drain: bool, a: Transport, b: Transport, c: Transport)
    requires Later(drain, a, b) && Later(drain, b, c)
    ensures Later(drain, a, c)
  {
    ReadLaterTrans(drain, a.rd, b.rd, c.rd);
  }

  // ---------------------------------------------------------------------------
  // state changes without protocol calls
  // ---------------------------------------------------------------------------

  /** `add_writer`, and `remove_writer`. */
  function Adding(w: WriteView): WriteView {
    w.(writer := true, asks := w.asks + [true])
  }

  function Removing(w: WriteView): WriteView {
    w.(writer := false, asks := w.asks + [false])
  }

  /** Queue `_call_connection_lost` and count it in `_conn_lost`. */
  function Schedule(l: LifeView): LifeView {
    l.(connLost := l.connLost + 1, pending := l.pending + 1, scheduled := l.scheduled + 1,
       overlap := l.overlap || 0 < l.inLost + l.inFlush)
  }

  /** `close()`. */
  function Closed(t: Transport): Transport {
    if t.rd.closing then t
    else
      var u := t.(rd := t.rd.(closing := true, watched := false));
      if t.wr.buffer != [] then u
      else u.(wr := Removing(t.wr), life := Schedule(t.life))
  }

  /** `_force_close(exc)`; on a dead transport the call into the missing loop raises half-way. */
  function ForceClosed(t: Transport): Transport {
    if 0 < t.life.connLost then t
    else if t.life.dead then
      if t.wr.buffer != [] then t.(wr := t.wr.(buffer := [], discarded := true, hollow := false, cleared := true))
      else t.(life := t.life.(connLost := 1))
    else
      Transport(
        t.rd.(closing := true, watched := false),
        if t.wr.buffer != [] then Removing(t.wr).(buffer := [], discarded := true, hollow := false) else t.wr,
        Schedule(t.life))
  }

  lemma ClosedLater(drain: bool, t: Transport)
    requires Valid(t)
    ensures Valid(Closed(t)) && Later(drain, t, Closed(t))
  {
    ReadLaterRefl(drain, t.rd);
  }

  lemma ForceClosedLater(drain: bool, t: Transport)
    requires Valid(t)
    ensures Valid(ForceClosed(t)) && Later(drain, t, ForceClosed(t))
    ensures ForceClosed(t).wr.buffer == [] && ForceClosed(t).rd.closing
    ensures Owed(ForceClosed(t))
  {
    ReadLaterRefl(drain, t.rd);
    ForceClosedValid(t);
    ForceClosedWrites(t);
  }

  lemma ForceClosedValid(t: Transport)
    requires Valid(t)
    ensures Valid(ForceClosed(t))
  {
  }

  lemma ForceClosedWrites(t: Transport)
    requires Valid(t)
    ensures WriteLater(t.wr, ForceClosed(t).wr)
  {
  }

  // ---------------------------------------------------------------------------
  // the write path
  // ---------------------------------------------------------------------------

  /** `write(data)` after the socket took the first `n` bytes and nothing was queued. */
  function Wrote(w: WriteView, data: View, n: nat): WriteView
    requires n <= |Raw(data)|
  {
    var k := Sliced(data, n);
    var v := w.(accepted := w.accepted + data, dropped := w.dropped + data[..k], sent := w.sent + Raw(data)[..n],
                skewed := w.skewed || Skews(data, k, n));
    if k == |data| then v else Adding(v).(buffer := [data[k..]])
  }

  /** `write(data)` behind data that is already queued. */
  function Queued(w: WriteView, data: View): WriteView {
    w.(accepted := w.accepted + data, buffer := w.buffer + [data], hollow := false)
  }

  /** `writelines(list)` before the first attempt to send. */
  function Extended(w: WriteView, list: seq<View>): WriteView {
    w.(accepted := w.accepted + Flat(list), buffer := w.buffer + list, hollow := HollowTail(list), cleared := false)
  }

  /** The socket took the first `n` bytes of the queue, and as many elements leave it. */
  function Flushed(w: WriteView, n: nat): WriteView
    requires n <= |Flat(w.buffer)|
  {
    var q := Flat(w.buffer);
    w.(dropped := w.dropped + q[..n], sent := w.sent + Raw(q)[..n], skewed := w.skewed || Skews(q, n, n),
       buffer := DropItems(w.buffer, n))
  }

  /** The socket took more bytes than the queue has elements: all of them leave, and the count is not used up. */
  function Overrun(w: WriteView, n: nat): WriteView
    requires n <= |Raw(Flat(w.buffer))|
  {
    var q := Flat(w.buffer);
    w.(dropped := w.dropped + q, sent := w.sent + Raw(q)[..n], skewed := w.skewed || n < |Raw(q)|,
       buffer := [], hollow := false)
  }

  predicate MayQueue(t: Transport) {
    !t.wr.eof && t.life.connLost == 0
  }

  lemma WroteLater(drain: bool, t: Transport, data: View, n: nat)
    requires Valid(t) && MayQueue(t) && !t.life.dead && n <= |Raw(data)| && t.wr.buffer == []
    ensures var u := t.(wr := Wrote(t.wr, data, n)); Valid(u) && Later(drain, t, u)
  {
    ReadLaterRefl(drain, t.rd);
    WroteValid(t.wr, data, n);
  }

  lemma WroteValid(w: WriteView, data: View, n: nat)
    requires WriteValid(w) && !w.discarded && !w.eof && n <= |Raw(data)| && w.buffer == [] && !w.cleared
    ensures WriteValid(Wrote(w, data, n)) && WriteLater(w, Wrote(w, data, n))
  {
    var k := Sliced(data, n);
    PrefixRaw(data, k);
    TallyStep(w.dropped, w.sent, w.skewed, data, k, n);
    WroteOnward(w, data, n);
    WroteParts(w, Wrote(w, data, n), data, k);
  }

  lemma WroteParts(w: WriteView, v: WriteView, data: View, k: nat)
    requires WriteValid(w) && !w.discarded && !w.eof && w.buffer == [] && !w.cleared && k <= |data|
    requires v.accepted == w.accepted + data && v.dropped == w.dropped + data[..k]
    requires Tally(v.dropped, v.sent, v.skewed)
    requires k == |data| ==> v == w.(accepted := v.accepted, dropped := v.dropped, sent := v.sent, skewed := v.skewed)
    requires k < |data| ==> v == Adding(w).(accepted := v.accepted, dropped := v.dropped, sent := v.sent, skewed := v.skewed,
                                            buffer := [data[k..]])
    ensures WriteValid(v)
  {
    WroteStream(w.accepted, data, k);
    assert w.dropped == w.accepted;
  }

  lemma WroteOnward(w: WriteView, data: View, n: nat)
    requires WriteValid(w) && !w.eof && !w.discarded && n <= |Raw(data)| && w.buffer == []
    ensures WriteLater(w, Wrote(w, data, n))
  {
  }

  lemma WroteStream(accepted: View, data: View, k: nat)
    requires k <= |data|
    ensures (accepted + data[..k]) + Flat([data[k..]]) == accepted + data
    ensures k == |data| ==> accepted + data[..k] == accepted + data
    ensures accepted + data[..k] <= accepted + data
  {
    FlatOne(data[k..]);
    assert data[..k] + data[k..] == data;
    AddAssoc(accepted, data[..k], data[k..]);
  }

  lemma QueuedLater(drain: bool, t: Transport, data: View)
    requires Valid(t) && MayQueue(t) && t.wr.buffer != [] && data != []
    ensures var u := t.(wr := Queued(t.wr, data)); Valid(u) && Later(drain, t, u)
  {
    ReadLaterRefl(drain, t.rd);
    FlatOne(data);
    FlatConcat(t.wr.buffer, [data]);
    AddAssoc(t.wr.dropped, Flat(t.wr.buffer), data);
  }

  lemma ExtendedValid(t: Transport, list: seq<View>)
    requires Valid(t) && MayQueue(t) && list != []
    ensures var u := t.(wr := Extended(t.wr, list)); Valid(u) && WriteLater(t.wr, u.wr)
  {
    FlatConcat(t.wr.buffer, list);
    if Flat(list) == [] {
      NothingLeftIff(list);
    }
    AddAssoc(t.wr.dropped, Flat(t.wr.buffer), Flat(list));
  }

  lemma FlushedValid(t: Transport, n: nat)
    requires Valid(t) && t.wr.buffer != [] && t.life.connLost == 0 && !t.life.dead
    requires n <= |Flat(t.wr.buffer)|
    ensures var u := t.(wr := Flushed(t.wr, n)); Valid(u) && WriteLater(t.wr, u.wr)
  {
    DropItemsFlat(t.wr.buffer, n);
    DropKeepsTail(t.wr.buffer, n);
    var q := Flat(t.wr.buffer);
    PrefixRaw(q, n);
    TallyStep(t.wr.dropped, t.wr.sent, t.wr.skewed, q, n, n);
    assert q == q[..n] + q[n..];
    AddAssoc(t.wr.dropped, q[..n], q[n..]);
  }

  /** `write(data)` when the first `send` fails: the data is lost and the transport torn down. */
  function WriteFailed(t: Transport, data: View): Transport {
    var u := ForceClosed(t);
    u.(wr := u.wr.(accepted := u.wr.accepted + data, discarded := true))
  }

  lemma WriteFailedLater(drain: bool, t: Transport, data: View)
    requires Valid(t) && MayQueue(t) && !t.life.dead && t.wr.buffer == []
    ensures Valid(WriteFailed(t, data)) && Later(drain, t, WriteFailed(t, data))
  {
    ForceClosedLater(drain, t);
  }

  /** `_write_sendmsg` when the socket fails: the queue is dropped before the transport is torn down. */
  function FlushFailed(t: Transport): Transport {
    ForceClosed(t.(wr := Removing(t.wr).(buffer := [], discarded := true, hollow := false)))
  }

  lemma FlushFailedLater(drain: bool, t: Transport)
    requires Valid(t) && t.life.connLost == 0 && !t.life.dead && t.wr.buffer != []
    ensures Valid(FlushFailed(t)) && Later(drain, t, FlushFailed(t))
  {
    ReadLaterRefl(drain, t.rd);
  }

  /** `_write_sendmsg` when `_adjust_leftover_buffer` runs past the end of the queue: its IndexError is fatal. */
  function FlushOverrun(t: Transport, n: nat): Transport
    requires n <= |Raw(Flat(t.wr.buffer))|
  {
    FlushFailed(t.(wr := Overrun(t.wr, n)))
  }

  lemma OverrunValid(w: WriteView, n: nat)
    requires WriteValid(w) && !w.discarded && w.buffer != []
    requires |Flat(w.buffer)| <= n <= |Raw(Flat(w.buffer))|
    ensures WriteValid(Overrun(w, n)) && Tally(Overrun(w, n).dropped, Overrun(w, n).sent, Overrun(w, n).skewed)
  {
    var q := Flat(w.buffer);
    assert q[..|q|] == q;
    TallyStep(w.dropped, w.sent, w.skewed, q, |q|, n);
  }

  lemma FlushOverrunLater(drain: bool, t: Transport, n: nat)
    requires Valid(t) && t.life.connLost == 0 && !t.life.dead && t.wr.buffer != []
    requires |Flat(t.wr.buffer)| <= n <= |Raw(Flat(t.wr.buffer))|
    ensures Valid(FlushOverrun(t, n)) && Later(drain, t, FlushOverrun(t, n))
  {
    OverrunValid(t.wr, n);
    ReadLaterRefl(drain, t.rd);
  }

  // ---------------------------------------------------------------------------
  // connection_lost
  // ---------------------------------------------------------------------------

  /** Entering `protocol.connection_lost`, from the ready queue or straight from the write path. */
  function EnterLost(l: LifeView, fromQueue: bool): LifeView
    requires fromQueue ==> 0 < l.pending
  {
    var m := l.(lost := l.lost + 1, inLost := l.inLost + 1);
    if fromQueue then m.(pending := l.pending - 1)
    else m.(direct := l.direct + 1, nested := l.nested || 0 < l.inLost)
  }

  /** Leaving it: socket, protocol and loop references are gone. */
  function LeaveLost(l: LifeView): LifeView
    requires 0 < l.inLost
  {
    l.(inLost := l.inLost - 1, dead := true)
  }

  predicate MayEnterLost(l: LifeView, fromQueue: bool) {
    && !l.dead
    && (if fromQueue then 0 < l.pending && l.inLost == 0 && l.inFlush == 0
        else
          && 0 < l.inFlush
          && (0 < l.inLost ==> l.linesInLost && 0 < l.direct)
          && (!l.overlap && !l.nested ==> l.scheduled == 0))
  }

  lemma EnterLostValid(l: LifeView, fromQueue: bool)
    requires LifeValid(l) && MayEnterLost(l, fromQueue)
    ensures LifeValid(EnterLost(l, fromQueue))
  {
  }

  lemma LeaveLostValid(l: LifeView, fromQueue: bool, m: LifeView)
    requires LifeValid(l) && MayEnterLost(l, fromQueue)
    requires LifeValid(m) && LifeLater(EnterLost(l, fromQueue), m)
    ensures LifeValid(LeaveLost(m)) && LifeLater(l, LeaveLost(m))
  {
  }

  /** Around the whole call: `a` before it, `m` when the protocol's connection_lost has returned. */
  lemma LostLater(drain: bool, a: Transport, fromQueue: bool, m: Transport)
    requires Valid(a) && a.rd.closing && a.wr.buffer == [] && Useful(a) && MayEnterLost(a.life, fromQueue)
    requires Valid(m) && Later(drain, a.(life := EnterLost(a.life, fromQueue)), m)
    ensures var b := m.(life := LeaveLost(m.life)); Valid(b) && Later(drain, a, b)
  {
    LeaveLostValid(a.life, fromQueue, m.life);
  }

  // ---------------------------------------------------------------------------
  // resume_reading
  // ---------------------------------------------------------------------------

  /** Unpausing, then flushing the replay queue: `a` before, `r` unpaused, `f` flushed. */
  lemma ResumedLater(drain: bool, a: Transport, r: Transport, f: Transport)
    requires a.rd.paused && !a.rd.closing && r == a.(rd := a.rd.(paused := false))
    requires Later(drain, r, f) && Quiet(f.rd)
    requires f.rd.paused || f.rd.closing
    ensures Later(drain, a, f) && Attentive(f.rd)
  {
  }

  /** The same when nothing re-paused or closed it: the reader is registered unless one is live. */
  lemma RegisteredLater(drain: bool, a: Transport, r: Transport, f: Transport, g: Transport)
    requires a.rd.paused && !a.rd.closing && r == a.(rd := a.rd.(paused := false))
    requires Later(drain, r, f) && Quiet(f.rd) && !f.rd.paused && !f.rd.closing
    requires g == if f.rd.watched then f else f.(rd := f.rd.(watched := true, regs := f.rd.regs + 1))
    ensures Later(drain, a, g) && Attentive(g.rd) && Quiet(g.rd)
  {
  }

  /** The head of the replay queue handed to the protocol. */
  function Popped(t: Transport): Transport
    requires t.rd.replay != []
  {
    t.(rd := t.rd.(log := t.rd.log + [t.rd.replay[0]], replay := t.rd.replay[1..]))
  }

  lemma PoppedLater(drain: bool, t: Transport)
    requires t.rd.replay != [] && !t.rd.paused && !t.rd.closing
    ensures Later(drain, t, Popped(t))
  {
    assert t.rd.log + t.rd.replay == Popped(t).rd.log + Popped(t).rd.replay;
    assert Popped(t).rd.log == (t.rd.log + t.rd.replay)[..|t.rd.log| + 1];
  }

  lemma KeptOpenLater(drain: bool, t: Transport)
    requires Valid(t)
    ensures var u := t.(rd := t.rd.(watched := false, kept := t.rd.kept + 1)); Valid(u) && Later(drain, t, u)
  {
    ReadLaterRefl(drain, t.rd);
  }

  // ---------------------------------------------------------------------------
  // flushing the write queue
  // ---------------------------------------------------------------------------

  /** A flush past its send: the flow-control callback is next. */
  function Flushing(t: Transport): Transport {
    t.(life := t.life.(inFlush := t.life.inFlush + 1))
  }

  /** The same flush when it is over. */
  function Unflushing(t: Transport): Transport
    requires 0 < t.life.inFlush
  {
    t.(life := t.life.(inFlush := t.life.inFlush - 1))
  }

  lemma FlushingValid(t: Transport)
    requires Valid(t)
    ensures Valid(Flushing(t))
  {
  }

  /** The flow-control callback ran from `f` to `l`: what the tail of the flush may rely on. */
  lemma FlushMayReport(drain: bool, f: Transport, l: Transport)
    requires Valid(f) && f.life.connLost == 0 && !f.life.dead && (f.life.inLost == 0 || f.life.linesInLost)
    requires Valid(l) && Later(drain, Flushing(f), l)
    ensures !l.life.dead ==> MayEnterLost(l.life, false)
  {
  }

  /** The tail of a flush when no report is due. */
  function Rested(t: Transport): Transport {
    if t.wr.buffer != [] || t.life.dead then t
    else t.(wr := Removing(t.wr).(shutdowns := t.wr.shutdowns + if t.wr.eof then 1 else 0))
  }

  /** The tail of a flush: the report is made exactly when the queue is empty and the transport closing. */
  predicate Tail(drain: bool, l: Transport, g: Transport) {
    if l.wr.buffer == [] && !l.life.dead && l.rd.closing then
      && g.life.dead && l.life.direct < g.life.direct && l.life.lost < g.life.lost
      && Later(drain, l.(wr := Removing(l.wr)), g)
    else
      g == Rested(l)
  }

  /** A flush: `a` before the send, `w` the write side after it, `l` after the callback, `g` after the tail. */
  lemma FlushValid(drain: bool, a: Transport, w: WriteView, l: Transport, g: Transport)
    requires Valid(a) && a.life.connLost == 0 && !a.life.dead
    requires WriteLater(a.wr, w)
    requires Valid(l) && Later(drain, Flushing(a.(wr := w)), l)
    requires Valid(g) && Tail(drain, l, g)
    ensures Valid(Unflushing(g))
  {
  }

  /** The send and the callback together; the writer condition is for the tail to restore. */
  lemma CallbackLater(drain: bool, a: Transport, w: WriteView, l: Transport)
    requires Valid(a) && a.wr.buffer != [] && a.life.connLost == 0 && !a.life.dead
    requires WriteLater(a.wr, w) && w.writer == a.wr.writer
    requires Valid(l) && Later(drain, Flushing(a.(wr := w)), l)
    ensures var r := Unflushing(l);
            && CoreLater(drain, a, r)
            && (Served(a) ==> Served(r))
            && (r.life.dead ==> Useful(r))
  {
  }

  lemma RestedLater(drain: bool, a: Transport, r: Transport)
    requires CoreLater(drain, a, r) && (Served(a) ==> Served(r)) && (r.life.dead ==> Useful(r))
    requires WriteValid(r.wr) && (r.wr.discarded || r.life.dead ==> r.rd.closing)
    requires 0 < r.life.connLost ==> r.wr.buffer == []
    requires !(r.wr.buffer == [] && !r.life.dead && r.rd.closing)
    ensures Later(drain, a, Rested(r))
  {
  }

  lemma ReportedLater(drain: bool, a: Transport, r: Transport, b: Transport)
    requires CoreLater(drain, a, r)
    requires WriteValid(r.wr) && r.wr.buffer == [] && b.life.dead && b.rd.closing
    requires Later(drain, r.(wr := Removing(r.wr)), b)
    ensures Later(drain, a, b)
  {
    ReadLaterTrans(drain, a.rd, r.rd, b.rd);
  }

  /** Counting one flush less on both sides. */
  lemma EarlierFlush(drain: bool, a: Transport, b: Transport)
    requires 0 < a.life.inFlush && Later(drain, a, b)
    ensures Later(drain, Unflushing(a), Unflushing(b))
  {
    EarlierLife(a.life, b.life);
    EarlierPromises(a);
    EarlierPromises(b);
  }

  lemma EarlierLife(a: LifeView, b: LifeView)
    requires 0 < a.inFlush && LifeLater(a, b)
    ensures LifeLater(a.(inFlush := a.inFlush - 1), b.(inFlush := b.inFlush - 1))
  {
  }

  lemma EarlierPromises(a: Transport)
    requires 0 < a.life.inFlush
    ensures var u := Unflushing(a);
            && u.rd == a.rd && u.wr == a.wr
            && (Served(u) <==> Served(a)) && (Useful(u) <==> Useful(a)) && (Owed(u) <==> Owed(a)) && (Announced(u) <==> Announced(a))
  {
  }

  lemma FlushReported(drain: bool, a: Transport, l: Transport, g: Transport)
    requires Valid(l) && 0 < l.life.inFlush && CoreLater(drain, a, Unflushing(l))
    requires l.wr.buffer == [] && !l.life.dead && l.rd.closing && Tail(drain, l, g)
    ensures Later(drain, a, Unflushing(g))
  {
    EarlierFlush(drain, l.(wr := Removing(l.wr)), g);
    ReportedLater(drain, a, Unflushing(l), Unflushing(g));
  }

  lemma FlushRested(drain: bool, a: Transport, l: Transport)
    requires Valid(l) && 0 < l.life.inFlush && !(l.wr.buffer == [] && !l.life.dead && l.rd.closing)
    requires var r := Unflushing(l);
             CoreLater(drain, a, r) && (Served(a) ==> Served(r)) && (r.life.dead ==> Useful(r))
    ensures Later(drain, a, Unflushing(Rested(l)))
  {
    RestedLater(drain, a, Unflushing(l));
    assert Unflushing(Rested(l)) == Rested(Unflushing(l));
  }

  lemma FlushLater(drain: bool, a: Transport, w: WriteView, l: Transport, g: Transport)
    requires Valid(a) && a.wr.buffer != [] && a.life.connLost == 0 && !a.life.dead
    requires WriteLater(a.wr, w) && w.writer == a.wr.writer
    requires Valid(l) && Later(drain, Flushing(a.(wr := w)), l)
    requires Valid(g) && Tail(drain, l, g)
    ensures Later(drain, a, Unflushing(g))
  {
    CallbackLater(drain, a, w, l);
    if l.wr.buffer == [] && !l.life.dead && l.rd.closing {
      FlushReported(drain, a, l, g);
    } else {
      FlushRested(drain, a, l);
    }
  }

  /** writelines: `x` extended, `y` after the first attempt, `z` with the writer registered if needed. */
  lemma LinesLater(drain: bool, a: Transport, x: Transport, y: Transport, z: Transport)
    requires x.rd == a.rd && WriteLater(a.wr, x.wr) && x.wr.buffer != []
    requires x.life == a.life.(linesInLost := x.life.linesInLost) && (a.life.linesInLost ==> x.life.linesInLost)
    requires Valid(y) && Later(drain, x, y)
    requires z == if y.wr.buffer != [] && !y.life.dead then y.(wr := Adding(y.wr)) else y
    ensures Valid(z) && Later(drain, a, z)
  {
    ReadLaterTrans(drain, a.rd, x.rd, z.rd);
  }

  /** Neither half-closed nor lost: bytes given to write or writelines are taken over. */
  predicate Accepting(t: Transport) {
    MayQueue(t) && !t.life.dead
  }

  /** `pause_reading()`. */
  function Paused(drain: bool, v: ReadView): ReadView {
    if v.closing || v.paused then v else v.(paused := true, watched := v.watched && drain)
  }

  /** `write_eof()`. */
  function HalfClosed(t: Transport): Transport {
    if t.rd.closing || t.wr.eof then t
    else t.(wr := t.wr.(eof := true, shutdowns := t.wr.shutdowns + if t.wr.buffer == [] then 1 else 0))
  }

  // ---------------------------------------------------------------------------
  // whole runs
  // ---------------------------------------------------------------------------

  /**
   From any settled state to any later one, `items` having been read by the watcher in between:
   nothing is handed over once closing has begun, nothing read is lost or reordered before that,
   nothing is sent after SHUT_WR, connection_lost entries only accumulate, and an empty chunk at
   the end of the queue keeps SHUT_WR and the report back until more is accepted.
   */
  predicate RunLater(a: Transport, items: seq<Item>, b: Transport) {
    && (a.rd.closing ==> b.rd.closing && b.rd.log == a.rd.log)
    && a.rd.log <= b.rd.log <= a.rd.log + a.rd.replay + items
    && (!b.rd.closing ==> b.rd.log + b.rd.replay == a.rd.log + a.rd.replay + items)
    && WriteLater(a.wr, b.wr)
    && LifeLater(a.life, b.life)
    && (a.wr.hollow && |b.wr.accepted| == |a.wr.accepted| && !b.wr.discarded ==> b.life.lost == a.life.lost)
  }

  lemma LaterIsRunLater(drain: bool, a: Transport, b: Transport)
    ensures RunLater(a, [], a)
    ensures Later(drain, a, b) ==> RunLater(a, [], b)
  {
    assert a.rd.log + a.rd.replay + [] == a.rd.log + a.rd.replay;
  }

  lemma RunLaterTrans(a: Transport, xs: seq<Item>, b: Transport, ys: seq<Item>, c: Transport)
    requires RunLater(a, xs, b) && RunLater(b, ys, c)
    ensures RunLater(a, xs + ys, c)
  {
    AddAssoc(a.rd.log + a.rd.replay, xs, ys);
    if b.rd.closing {
      PrefixExtends(c.rd.log, a.rd.log + a.rd.replay + xs, ys);
    }
  }

  lemma PrefixExtends<T>(p: seq<T>, s: seq<T>, t: seq<T>)
    requires p <= s
    ensures p <= s + t
  {
  }

  /** With nothing left to send, the queue is empty exactly if its last list did not end in an empty chunk. */
  lemma NothingUnsent(t: Transport)
    requires Valid(t) && Flat(t.wr.buffer) == []
    ensures t.wr.buffer == [] <==> !t.wr.hollow
  {
    NothingLeftIff(t.wr.buffer);
  }

  /** What was accepted is what was sent and what is queued exactly while nothing is skewed. */
  lemma ConservedIff(w: WriteView)
    requires WriteValid(w) && !w.discarded
    ensures w.sent + Raw(Flat(w.buffer)) == Raw(w.accepted) <==> !w.skewed
    ensures Narrow(w.accepted) ==> !w.skewed
  {
    RawConcat(w.dropped, Flat(w.buffer));
    if Narrow(w.accepted) {
      assert Narrow(w.dropped);
      NarrowIff(w.dropped);
    }
  }

  /** What the invariant says in the terms of a user of the transport. */
  lemma SettledMeans(t: Transport)
    requires Settled(t)
    // what was accepted is what was sent and what is queued, in order, exactly while no view of wider items was sent in part
    ensures !t.wr.discarded ==> (t.wr.sent + Raw(Flat(t.wr.buffer)) == Raw(t.wr.accepted) <==> !t.wr.skewed)
    ensures !t.wr.discarded && Narrow(t.wr.accepted) ==> !t.wr.skewed
    // the writer is registered exactly while data is queued; after the teardown it may outlive a cleared queue
    ensures !t.life.dead ==> (t.wr.writer <==> t.wr.buffer != [])
    ensures t.wr.writer ==> (t.wr.buffer == [] <==> t.wr.cleared)
    ensures t.wr.cleared ==> t.life.dead
    // SHUT_WR comes after the last accepted byte, and does come unless a list ended in an empty chunk
    ensures 0 < t.wr.shutdowns ==> t.wr.eof && t.wr.buffer == []
    ensures 0 < t.wr.shutdowns && !t.wr.discarded ==> (t.wr.sent == Raw(t.wr.accepted) <==> !t.wr.skewed)
    ensures t.wr.eof && Flat(t.wr.buffer) == [] && !t.rd.closing ==> (0 < t.wr.shutdowns <==> !t.wr.hollow)
    // so does the report of a closing transport with nothing left to send
    ensures t.rd.closing && !t.life.dead && Flat(t.wr.buffer) == [] ==> (t.life.pending == 1 <==> !t.wr.hollow)
    ensures t.rd.closing && !t.life.dead ==> t.life.pending == 1 || (t.wr.buffer != [] && t.wr.writer)
    // the loss is reported at most once unless connection_lost itself flushed a writelines, and queued at most once;
    // it is entered a second time exactly if it was queued from inside a flush or a report, or reported twice
    ensures t.life.lost <= 1 <==> !t.life.nested
    ensures t.life.nested ==> t.life.linesInLost
    ensures t.life.scheduled <= 1
    ensures t.life.direct + t.life.scheduled <= 1 <==> !t.life.nested && !t.life.overlap
    // a transport that wants to read is watched
    ensures t.rd.started && !t.rd.paused && !t.rd.closing && t.rd.kept == 0 ==> t.rd.watched
  {
    if !t.wr.discarded {
      ConservedIff(t.wr);
    }
    if Flat(t.wr.buffer) == [] {
      NothingUnsent(t);
    }
  }

  lemma StartedRunLater(a: Transport, b: Transport)
    requires Started(a.rd, b.rd) && b == a.(rd := b.rd)
    ensures RunLater(a, [], b)
    ensures Settled(a) ==> Settled(b)
  {
    assert a.rd.log + a.rd.replay + [] == a.rd.log + a.rd.replay;
  }

  lemma DeliveredRunLater(drain: bool, a: Transport, x: Item, b: Transport)
    requires Settled(a) && Valid(b)
    requires if a.rd.closing then b == a
             else if a.rd.paused then b == a.(rd := a.rd.(replay := a.rd.replay + [x]))
             else Later(drain, a.(rd := Handed(a.rd, x)), b)
    ensures Settled(b) && RunLater(a, [x], b)
  {
    AddAssoc(a.rd.log, a.rd.replay, [x]);
    PrefixExtends(a.rd.log, a.rd.log + a.rd.replay, [x]);
    if !a.rd.closing && !a.rd.paused {
      assert a.rd.replay == [];
      assert a.rd.log + a.rd.replay == a.rd.log;
      assert (a.rd.log + [x]) + [] == a.rd.log + [x];
    }
  }
}
