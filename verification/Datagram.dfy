/**
 The send queue of the datagram transport, with its protocol in the loop.

 As for streams, protocol behaviour is read from `script` and socket answers from `net`.
 */
module Datagram {
  import opened Bytes
  import opened Options

  const HEADER_SIZE: nat := 8

  datatype Dgram = Dgram(data: Chunk, addr: Option<nat>)

  /**
   What became of an accepted datagram once it left the queue: sent, reported to error_received, the
   cause of a fatal error, thrown away by a forced close, or popped by a torn-down transport and lost.
   */
  datatype Fate = Sent | Reported | Failed | Discarded | Dropped

  datatype Outcome = Outcome(dgram: Dgram, fate: Fate)

  datatype SendResult = Ok | WouldBlock | OsError | OtherError

  datatype Command = SendTo(data: View, addr: Option<nat>) | Close | Abort | Return

  /**
   size       _buffer_size
   short      how much too little was added to it: `len` of a queued view counts elements, of its copy bytes
   accepted   datagrams taken over by sendto, in order
   outcomes   datagrams that left the queue, in order
   pending    _call_connection_lost entries waiting in the ready queue
   lost       connection_lost calls made
   inLost     connection_lost calls in progress
   errors     error_received calls made
   */
  datatype Sender = Sender(
    buffer: seq<Dgram>, size: int, short: nat, writer: bool, closing: bool, connLost: nat, dead: bool,
    pending: nat, lost: nat, inLost: nat, errors: nat, accepted: seq<Dgram>, outcomes: seq<Outcome>)

  /** A new transport. */
  predicate New(s: Sender) {
    && |s.buffer| == 0 && s.size == 0 && s.short == 0 && !s.writer && !s.closing && s.connLost == 0 && !s.dead
    && s.pending == 0 && s.lost == 0 && s.inLost == 0 && s.errors == 0 && |s.accepted| == 0 && |s.outcomes| == 0
  }

  function Cost(d: Dgram): nat {
    |d.data| + HEADER_SIZE
  }

  function Total(ds: seq<Dgram>): nat {
    if ds == [] then 0 else Cost(ds[0]) + Total(ds[1..])
  }

  lemma {:induction false} TotalConcat(a: seq<Dgram>, b: seq<Dgram>)
    ensures Total(a + b) == Total(a) + Total(b)
  {
    if a == [] {
      assert a + b == b;
    } else {
      TotalConcat(a[1..], b);
      assert (a + b)[0] == a[0] && (a + b)[1..] == a[1..] + b;
    }
  }

  lemma TotalOne(d: Dgram)
    ensures Total([d]) == Cost(d)
  {
    assert [d][1..] == [];
  }

  /** The datagrams of a list of outcomes. */
  function Left(os: seq<Outcome>): (ds: seq<Dgram>)
    ensures |ds| == |os| && forall i :: 0 <= i < |os| ==> ds[i] == os[i].dgram
  {
    seq(|os|, i requires 0 <= i < |os| => os[i].dgram)
  }

  /** The queued size that forced closes threw away. */
  function Lost(os: seq<Outcome>): nat {
    if os == [] then 0
    else (if os[0].fate.Discarded? then Cost(os[0].dgram) else 0) + Lost(os[1..])
  }

  lemma {:induction false} LostConcat(a: seq<Outcome>, b: seq<Outcome>)
    ensures Lost(a + b) == Lost(a) + Lost(b)
  {
    if a == [] {
      assert a + b == b;
    } else {
      LostConcat(a[1..], b);
      assert (a + b)[0] == a[0] && (a + b)[1..] == a[1..] + b;
    }
  }

  lemma LostOne(o: Outcome)
    ensures Lost([o]) == if o.fate.Discarded? then Cost(o.dgram) else 0
  {
    assert [o][1..] == [];
  }

  /** How many datagrams met this fate. */
  function Count(os: seq<Outcome>, fate: Fate): nat {
    if os == [] then 0 else (if os[0].fate == fate then 1 else 0) + Count(os[1..], fate)
  }

  lemma {:induction false} CountAppend(a: seq<Outcome>, o: Outcome, fate: Fate)
    ensures Count(a + [o], fate) == Count(a, fate) + if o.fate == fate then 1 else 0
  {
    if a == [] {
      assert [o][1..] == [];
    } else {
      CountAppend(a[1..], o, fate);
      assert (a + [o])[0] == a[0] && (a + [o])[1..] == a[1..] + [o];
    }
  }

  lemma {:induction false} CountDiscards(a: seq<Outcome>, ds: seq<Dgram>, fate: Fate)
    requires !fate.Discarded?
    ensures Count(a + AllDiscarded(ds), fate) == Count(a, fate)
  {
    if a != [] {
      CountDiscards(a[1..], ds, fate);
      assert (a + AllDiscarded(ds))[0] == a[0] && (a + AllDiscarded(ds))[1..] == a[1..] + AllDiscarded(ds);
    } else if ds != [] {
      CountDiscards([], ds[1..], fate);
      assert [] + AllDiscarded(ds) == AllDiscarded(ds) && AllDiscarded(ds)[1..] == AllDiscarded(ds[1..]);
      assert [] + AllDiscarded(ds[1..]) == AllDiscarded(ds[1..]);
    }
  }

  predicate NoneDiscarded(os: seq<Outcome>) {
    forall i :: 0 <= i < |os| ==> !os[i].fate.Discarded?
  }

  /** Nothing was thrown away exactly when no outcome is a discard. */
  lemma {:induction false} LostZeroIff(os: seq<Outcome>)
    ensures Lost(os) == 0 <==> NoneDiscarded(os)
  {
    if os != [] {
      LostZeroIff(os[1..]);
      assert forall i :: 0 <= i < |os[1..]| ==> os[1..][i] == os[i + 1];
      if Lost(os) == 0 {
        forall i | 0 <= i < |os|
          ensures !os[i].fate.Discarded?
        {
          if i > 0 {
            assert os[i] == os[1..][i - 1];
          }
        }
      }
    }
  }

  function AllDiscarded(ds: seq<Dgram>): (os: seq<Outcome>)
    ensures |os| == |ds| && forall i :: 0 <= i < |ds| ==> os[i] == Outcome(ds[i], Discarded)
  {
    seq(|ds|, i requires 0 <= i < |ds| => Outcome(ds[i], Discarded))
  }

  lemma {:induction false} DiscardLoses(ds: seq<Dgram>)
    ensures Left(AllDiscarded(ds)) == ds && Lost(AllDiscarded(ds)) == Total(ds)
  {
    if ds != [] {
      DiscardLoses(ds[1..]);
      assert AllDiscarded(ds)[1..] == AllDiscarded(ds[1..]);
    }
  }

  // ---------------------------------------------------------------------------
  // invariant and relation
  // ---------------------------------------------------------------------------

  /** Everything but what the socket's errors call for. */
  predicate Sane(s: Sender) {
    // acceptance order: what left the queue, then what is in it
    && Left(s.outcomes) + s.buffer == s.accepted
    // the size counts the queue, plus what forced closes dropped without subtracting it, less what was never added
    && s.size == Total(s.buffer) + Lost(s.outcomes) - s.short
    && (s.buffer != [] ==> s.writer)
    && (0 < s.connLost || s.dead ==> s.closing)
    // a closing transport has reported its loss, is reporting it, has queued the report, or has yet to flush
    && (s.closing ==> s.dead || 0 < s.inLost || 0 < s.pending || s.writer)
    // the report is queued at most once and made at most once
    && s.pending <= 1 && (0 < s.pending ==> 0 < s.connLost)
    && s.inLost <= 1 && (0 < s.inLost ==> s.closing && !s.dead)
    && s.lost == s.inLost + (if s.dead then 1 else 0)
    // datagrams vanish only from a torn-down transport
    && (!s.dead ==> Count(s.outcomes, Dropped) == 0)
  }

  /** Every datagram the socket refused was reported, and a fatal error has closed the transport. */
  predicate Valid(s: Sender) {
    && Sane(s)
    && s.errors == Count(s.outcomes, Reported)
    && (0 < Count(s.outcomes, Failed) ==> s.closing)
  }

  lemma NewIsValid(s: Sender)
    requires New(s)
    ensures Valid(s)
  {
  }

  method NewSender() returns (s: Sender)
    ensures New(s) && Valid(s)
  {
    s := Blank();
    NewIsValid(s);
  }

  method Blank() returns (s: Sender)
    ensures New(s)
  {
    s := Sender([], 0, 0, false, false, 0, false, 0, 0, 0, 0, [], []);
  }

  predicate RunLater(a: Sender, b: Sender) {
    && a.accepted <= b.accepted && a.outcomes <= b.outcomes
    && (a.closing ==> b.closing) && (a.dead ==> b.dead) && a.connLost <= b.connLost
    && b.inLost == a.inLost && a.lost <= b.lost && a.errors <= b.errors && a.short <= b.short
  }

  /** Nothing that left the queue between `a` and `b` was popped by a torn-down transport. */
  predicate NoneVanished(a: Sender, b: Sender) {
    Count(b.outcomes, Dropped) == Count(a.outcomes, Dropped)
  }

  /** What any stretch of activity other than a writer firing does. */
  predicate Later(a: Sender, b: Sender) {
    RunLater(a, b) && NoneVanished(a, b)
  }

  /** One datagram leaves the head of the queue, or never entered it. */
  function Resolved(s: Sender, d: Dgram, fate: Fate): Sender {
    s.(outcomes := s.outcomes + [Outcome(d, fate)])
  }

  /** What the socket's answer calls for: a refusal is reported, any other error is fatal. */
  function Told(s: Sender, fate: Fate): Sender {
    if fate.Reported? then s.(errors := s.errors + 1) else if fate.Failed? then ForceClosed(s) else s
  }

  lemma LeftConcat(a: seq<Outcome>, b: seq<Outcome>)
    ensures Left(a + b) == Left(a) + Left(b)
  {
  }

  /** Sent, reported or failed straight away, with nothing queued. */
  function Direct(s: Sender, d: Dgram, fate: Fate): Sender {
    Resolved(s, d, fate).(accepted := s.accepted + [d])
  }

  lemma ResolvedCounts(s: Sender, d: Dgram, fate: Fate)
    ensures forall f :: Count(Resolved(s, d, fate).outcomes, f) == Count(s.outcomes, f) + if fate == f then 1 else 0
  {
    forall f
      ensures Count(Resolved(s, d, fate).outcomes, f) == Count(s.outcomes, f) + if fate == f then 1 else 0
    {
      CountAppend(s.outcomes, Outcome(d, fate), f);
    }
  }

  lemma DirectKeeps(s: Sender, d: Dgram, fate: Fate)
    requires Valid(s) && s.buffer == [] && !fate.Discarded? && !fate.Dropped?
    ensures Sane(Direct(s, d, fate)) && Later(s, Direct(s, d, fate))
    ensures Valid(Told(Direct(s, d, fate), fate)) && Later(Direct(s, d, fate), Told(Direct(s, d, fate), fate))
  {
    LeftConcat(s.outcomes, [Outcome(d, fate)]);
    LostConcat(s.outcomes, [Outcome(d, fate)]);
    LostOne(Outcome(d, fate));
    ResolvedCounts(s, d, fate);
    assert Left([Outcome(d, fate)]) == [d];
    var u := Direct(s, d, fate);
    ToldKeeps(u, fate);
  }

  /** With the answer's consequence drawn, everything is in order again. */
  lemma ToldKeeps(u: Sender, fate: Fate)
    requires Sane(u)
    requires u.errors + (if fate.Reported? then 1 else 0) == Count(u.outcomes, Reported)
    requires fate.Failed? || (0 < Count(u.outcomes, Failed) ==> u.closing)
    ensures Valid(Told(u, fate)) && Later(u, Told(u, fate))
  {
    if fate.Failed? {
      ForceClosedKeeps(u);
    }
  }

  /** `len` of the view given, which is what the size grows by besides the header. */
  function Queued(s: Sender, d: Dgram, len: nat): Sender
    requires len <= |d.data|
  {
    s.(buffer := s.buffer + [d], size := s.size + len + HEADER_SIZE, short := s.short + |d.data| - len,
       accepted := s.accepted + [d])
  }

  lemma QueuedKeeps(s: Sender, d: Dgram, len: nat)
    requires Valid(s) && s.writer && len <= |d.data|
    ensures Valid(Queued(s, d, len)) && Later(s, Queued(s, d, len))
  {
    TotalConcat(s.buffer, [d]);
    TotalOne(d);
    AddAssoc(Left(s.outcomes), s.buffer, [d]);
  }

  /** The size falls short by a queued view exactly when it has an item wider than a byte. */
  lemma ShortIff(s: Sender, v: View, addr: Option<nat>)
    ensures Queued(s, Dgram(Raw(v), addr), |v|).short == s.short <==> Narrow(v)
  {
    NarrowIff(v);
  }

  /** The head of the queue resolved. */
  function Taken(s: Sender, fate: Fate): Sender
    requires s.buffer != []
  {
    Resolved(s, s.buffer[0], fate).(buffer := s.buffer[1..], size := s.size - Cost(s.buffer[0]))
  }

  lemma TakenKeeps(s: Sender, fate: Fate)
    requires Valid(s) && s.buffer != [] && !fate.Discarded? && (fate.Dropped? ==> s.dead)
    ensures Sane(Taken(s, fate)) && RunLater(s, Taken(s, fate))
    ensures !fate.Dropped? ==> Later(s, Taken(s, fate))
    ensures forall f :: Count(Taken(s, fate).outcomes, f) == Count(s.outcomes, f) + if fate == f then 1 else 0
  {
    var o := Outcome(s.buffer[0], fate);
    LeftConcat(s.outcomes, [o]);
    LostConcat(s.outcomes, [o]);
    LostOne(o);
    ResolvedCounts(s, s.buffer[0], fate);
    assert Left([o]) == [s.buffer[0]];
    assert s.buffer == [s.buffer[0]] + s.buffer[1..];
    AddAssoc(Left(s.outcomes), [s.buffer[0]], s.buffer[1..]);
  }

  /** `close()` ends the transport: with an empty queue the report is queued at once, otherwise the queue is flushed first. */
  predicate CloseOutcome(a: Sender, b: Sender) {
    && (a.closing ==> b == a)
    && (!a.closing && a.buffer != [] ==> b.closing && b == a.(closing := true))
    && (!a.closing && a.buffer == [] ==>
          && b.closing && !b.writer && 0 < b.connLost && b.pending == a.pending + 1
          && b == a.(closing := true, writer := false, connLost := b.connLost, pending := b.pending))
  }

  /** `abort()`: nothing is left queued, what was is discarded in order, and on a live transport the report is queued, once. */
  predicate AbortOutcome(a: Sender, b: Sender) {
    && (0 < a.connLost ==> b == a)
    && (a.connLost == 0 ==>
          && b.buffer == [] && b.outcomes == a.outcomes + AllDiscarded(a.buffer)
          && (!a.dead ==> b.closing && 0 < b.connLost && b.pending == a.pending + 1 && (a.buffer != [] ==> !b.writer)))
    && b.size == a.size && b.short == a.short && b.accepted == a.accepted && b.errors == a.errors
    && b.lost == a.lost && b.inLost == a.inLost && b.dead == a.dead
  }

  /** `close()`. */
  function Closed(s: Sender): Sender {
    if s.closing then s
    else if s.buffer != [] then s.(closing := true)
    else s.(closing := true, writer := false, connLost := s.connLost + 1, pending := s.pending + 1)
  }

  /** `_force_close(exc)`: the queue is dropped, its size is not. */
  function ForceClosed(s: Sender): Sender {
    if 0 < s.connLost then s
    else
      var u := s.(buffer := [], outcomes := s.outcomes + AllDiscarded(s.buffer));
      if s.dead then
        if s.buffer != [] then u else u.(connLost := 1)
      else
        u.(writer := s.writer && s.buffer == [], closing := true, connLost := 1, pending := s.pending + 1)
  }

  lemma ForceClosedKeeps(s: Sender)
    requires Sane(s) && s.errors == Count(s.outcomes, Reported)
    ensures Valid(ForceClosed(s)) && Later(s, ForceClosed(s))
  {
    LeftConcat(s.outcomes, AllDiscarded(s.buffer));
    LostConcat(s.outcomes, AllDiscarded(s.buffer));
    DiscardLoses(s.buffer);
    forall f: Fate | !f.Discarded?
      ensures Count(s.outcomes + AllDiscarded(s.buffer), f) == Count(s.outcomes, f)
    {
      CountDiscards(s.outcomes, s.buffer, f);
    }
  }

  // ---------------------------------------------------------------------------
  // draining the queue
  // ---------------------------------------------------------------------------

  function FateOf(r: SendResult): Fate
    requires !r.WouldBlock?
  {
    match r
    case Ok => Sent
    case OsError => Reported
    case OtherError => Failed
  }

  /** What a drain that ended so calls for. */
  function Verdict(r: SendResult): Fate {
    if r.WouldBlock? then Sent else FateOf(r)
  }

  function Answer(net: seq<SendResult>): SendResult {
    if net == [] then WouldBlock else net[0]
  }

  function Rest<T>(s: seq<T>): seq<T> {
    if s == [] then [] else s[1..]
  }

  /** The loop of `_sendto_ready`: the sender, the socket's remaining answers, and how it ended. */
  function Drained(s: Sender, net: seq<SendResult>): (Sender, seq<SendResult>, SendResult)
    decreases |s.buffer|
  {
    if s.buffer == [] then (s, net, Ok)
    else
      match Answer(net)
      case WouldBlock => (s, Rest(net), WouldBlock)
      case Ok => Drained(Taken(s, Sent), Rest(net))
      case OsError => (Taken(s, Reported), Rest(net), OsError)
      case OtherError => (Taken(s, Failed), Rest(net), OtherError)
  }

  /**
   The queue is attempted from its head: everything that leaves was sent, except the last on an error;
   it stops at the first block or error, or empty.
   */
  lemma DrainedKeeps(s: Sender, net: seq<SendResult>)
    requires Valid(s)
    ensures var (u, _, r) := Drained(s, net);
            && Sane(u) && Later(s, u)
            && (r.Ok? || r.WouldBlock? ==> Valid(u))
            && Valid(Told(u, Verdict(r))) && Later(u, Told(u, Verdict(r)))
            && (r.Ok? ==> u.buffer == [])
            && (r.WouldBlock? ==> u.buffer != [])
            && (forall i :: |s.outcomes| <= i < |u.outcomes| - (if r.Ok? || r.WouldBlock? then 0 else 1) ==>
                  u.outcomes[i].fate.Sent?)
            && (r.OsError? ==> u.outcomes != [] && u.outcomes[|u.outcomes| - 1].fate.Reported?)
            && u == s.(buffer := u.buffer, size := u.size, outcomes := u.outcomes)
  {
    DrainedValid(s, net);
    DrainedFates(s, net);
    var (u, _, r) := Drained(s, net);
    ToldKeeps(u, Verdict(r));
  }

  lemma {:induction false} DrainedValid(s: Sender, net: seq<SendResult>)
    requires Valid(s)
    ensures var (u, _, r) := Drained(s, net);
            && Sane(u) && Later(s, u) && u == s.(buffer := u.buffer, size := u.size, outcomes := u.outcomes)
            && u.errors + (if r.OsError? then 1 else 0) == Count(u.outcomes, Reported)
            && (r.OtherError? || (0 < Count(u.outcomes, Failed) ==> u.closing))
    decreases |s.buffer|
  {
    if s.buffer != [] && !Answer(net).WouldBlock? {
      TakenKeeps(s, FateOf(Answer(net)));
      if Answer(net).Ok? {
        DrainedValid(Taken(s, Sent), Rest(net));
      }
    }
  }

  lemma {:induction false} DrainedFates(s: Sender, net: seq<SendResult>)
    ensures var (u, _, r) := Drained(s, net);
            && (r.Ok? ==> u.buffer == [])
            && (r.WouldBlock? ==> u.buffer != [])
            && s.outcomes <= u.outcomes
            && (forall i :: |s.outcomes| <= i < |u.outcomes| - (if r.Ok? || r.WouldBlock? then 0 else 1) ==>
                  u.outcomes[i].fate.Sent?)
            && (r.OsError? ==> u.outcomes != [] && u.outcomes[|u.outcomes| - 1].fate.Reported?)
    decreases |s.buffer|
  {
    if s.buffer != [] && Answer(net).Ok? {
      DrainedFates(Taken(s, Sent), Rest(net));
    }
  }

  /** How many datagrams a drain takes off the queue. */
  function Leaving(s: Sender, net: seq<SendResult>): nat
    decreases |s.buffer|
  {
    if s.buffer == [] || Answer(net).WouldBlock? then 0
    else if Answer(net).Ok? then 1 + Leaving(Taken(s, Sent), Rest(net))
    else 1
  }

  /** The drain ends with the first answer that is not Ok, or with the queue. */
  lemma {:induction false} DrainedCount(s: Sender, net: seq<SendResult>)
    ensures var (u, left, end) := Drained(s, net);
            var n := Leaving(s, net);
            && |u.outcomes| == |s.outcomes| + n && n <= |s.buffer| && n <= |net|
            && (end.WouldBlock? ==> n < |s.buffer| && (n == |net| || net[n].WouldBlock?))
            && (end.Ok? ==> n == |s.buffer|)
            && (end.OsError? || end.OtherError? ==> 0 < n && net[n - 1] == end)
    decreases |s.buffer|
  {
    if s.buffer != [] && Answer(net).Ok? {
      DrainedCount(Taken(s, Sent), Rest(net));
    }
  }

  /** What stays queued, and the answers not used. */
  lemma {:induction false} DrainedLeaves(s: Sender, net: seq<SendResult>)
    ensures var (u, left, end) := Drained(s, net);
            var n := Leaving(s, net);
            && n <= |s.buffer| && n <= |net| && u.buffer == s.buffer[n..]
            && left == if end.WouldBlock? && n < |net| then net[n + 1..] else net[n..]
    decreases |s.buffer|
  {
    if s.buffer != [] && Answer(net).Ok? {
      DrainedLeaves(Taken(s, Sent), Rest(net));
    }
  }

  /** What leaves is what the socket answered: the k-th datagram of the queue met the fate its answer says. */
  lemma {:induction false} DrainedAnswers(s: Sender, net: seq<SendResult>, k: nat)
    requires k < Leaving(s, net)
    ensures k < |s.buffer| && k < |net| && !net[k].WouldBlock?
    ensures var u := Drained(s, net).0;
            |s.outcomes| + k < |u.outcomes| && u.outcomes[|s.outcomes| + k] == Outcome(s.buffer[k], FateOf(net[k]))
    decreases |s.buffer|
  {
    if net[0].Ok? {
      DrainedFates(Taken(s, Sent), Rest(net));
      if k > 0 {
        DrainedAnswers(Taken(s, Sent), Rest(net), k - 1);
      }
    }
  }

  lemma LaterTrans(a: Sender, b: Sender, c: Sender)
    requires Later(a, b) && Later(b, c)
    ensures Later(a, c)
  {
  }

  /** The head of the queue is popped before the missing socket is found out; an empty queue loses nothing. */
  function Popped(s: Sender): Sender {
    if s.buffer == [] then s else Taken(s, Dropped)
  }

  lemma PoppedKeeps(s: Sender)
    requires Valid(s) && s.dead
    ensures Valid(Popped(s)) && RunLater(s, Popped(s))
    ensures NoneVanished(s, Popped(s)) <==> s.buffer == []
  {
    if s.buffer != [] {
      TakenKeeps(s, Dropped);
    }
  }

  // ---------------------------------------------------------------------------
  // results
  // ---------------------------------------------------------------------------

  /** The reported size is the size of the queue exactly when what forced closes dropped makes up for what was never added. */
  lemma SizeExactIff(s: Sender)
    requires Valid(s)
    ensures s.size == Total(s.buffer) <==> Lost(s.outcomes) == s.short
    // with no datagram dropped by a forced close: exactly if no queued view had an item wider than a byte
    ensures NoneDiscarded(s.outcomes) ==> (s.size == Total(s.buffer) <==> s.short == 0)
    // with no such view: exactly if no datagram was dropped by a forced close
    ensures s.short == 0 ==> (s.size == Total(s.buffer) <==> NoneDiscarded(s.outcomes))
  {
    LostZeroIff(s.outcomes);
  }
}
