/** One quantum of the drain loop: how much a watcher task reads before it yields. */
module Quantum {
  import opened Bytes

  const UDP_QUANTUM: nat := 16
  const TCP_QUANTUM_ITEMS: nat := 4
  const TCP_QUANTUM_BYTES: nat := 256 * 1024

  /** The read size used for a transport's `max_size`. */
  function ClampChunk(maxSize: nat): (chunk: nat)
    ensures 4096 <= chunk <= 65536
    ensures 4096 <= maxSize <= 65536 ==> chunk == maxSize
    ensures maxSize <= 4096 ==> chunk == 4096
    ensures 65536 <= maxSize ==> chunk == 65536
  {
    if maxSize < 4096 then 4096 else if 65536 < maxSize then 65536 else maxSize
  }

  /** The quantum is not yet full. */
  predicate TcpMore(n: nat, bytes: nat) {
    n < TCP_QUANTUM_ITEMS && bytes < TCP_QUANTUM_BYTES
  }

  /** What one receive call answers; `NoData` is WouldBlock, `Broken` any other error. */
  datatype Answer = Got(bytes: Chunk) | NoData | Broken

  /** What a sequence of answers to a stream task makes it push. */
  function TcpItems(answers: seq<Answer>): seq<Item> {
    if answers == [] then []
    else TcpItem(answers[0]) + TcpItems(answers[1..])
  }

  lemma {:induction false} TcpItemsSnoc(a: seq<Answer>, x: Answer)
    ensures TcpItems(a + [x]) == TcpItems(a) + TcpItem(x)
  {
    if a == [] {
      assert a + [x] == [x] && [x][1..] == [];
    } else {
      TcpItemsSnoc(a[1..], x);
      var ax := a + [x];
      assert ax[0] == a[0] && ax[1..] == a[1..] + [x];
      assert TcpItems(ax) == TcpItem(a[0]) + (TcpItems(a[1..]) + TcpItem(x));
      AddAssoc(TcpItem(a[0]), TcpItems(a[1..]), TcpItem(x));
    }
  }

  /** What one answer makes the task push. */
  function TcpItem(a: Answer): seq<Item> {
    match a
    case Got(b) => [if b == [] then Eof else Data(b)]
    case NoData => []
    case Broken => [ReadError]
  }

  predicate IsData(a: Answer) {
    a.Got? && a.bytes != []
  }

  /** The bytes the socket gave. */
  function Received(answers: seq<Answer>): seq<Byte> {
    if answers == [] then []
    else (if answers[0].Got? then answers[0].bytes else []) + Received(answers[1..])
  }

  lemma {:induction false} ReceivedSnoc(a: seq<Answer>, x: Answer)
    ensures Received(a + [x]) == Received(a) + if x.Got? then x.bytes else []
  {
    if a == [] {
      assert a + [x] == [x] && [x][1..] == [];
    } else {
      ReceivedSnoc(a[1..], x);
      var ax := a + [x];
      assert ax[0] == a[0] && ax[1..] == a[1..] + [x];
      AddAssoc(if a[0].Got? then a[0].bytes else [], Received(a[1..]), if x.Got? then x.bytes else []);
    }
  }

  /**
   What is pushed is what the socket answered: the same bytes, one data item for every non-empty answer at
   its position, and at most one more item at the end, for an end of stream or an error and for nothing else.
   */
  predicate Mirrors(answers: seq<Answer>, pushed: seq<Item>) {
    && Payload(pushed) == Received(answers)
    && (forall k :: 0 <= k < |answers| && IsData(answers[k]) ==> k < |pushed| && pushed[k] == Data(answers[k].bytes))
    && (forall k :: 0 <= k < |pushed| - 1 ==> pushed[k].Data?)
    && (Eof in pushed <==> answers != [] && answers[|answers| - 1] == Got([]))
    && (ReadError in pushed <==> answers != [] && answers[|answers| - 1].Broken?)
  }

  lemma MirrorsNext(answers: seq<Answer>, pushed: seq<Item>, a: Answer)
    requires Mirrors(answers, pushed) && |pushed| == |answers|
    requires forall k :: 0 <= k < |answers| ==> IsData(answers[k])
    ensures Mirrors(answers + [a], pushed + TcpItem(a))
  {
    SameBytes(answers, pushed, a);
    var more, items := answers + [a], pushed + TcpItem(a);
    forall k | 0 <= k < |pushed|
      ensures items[k] == Data(answers[k].bytes)
    {
      assert IsData(answers[k]);
    }
    if items != pushed {
      assert items[|pushed|] == TcpItem(a)[0] && |items| == |pushed| + 1;
    }
    LastOnly(answers, pushed, items);
  }

  lemma SameBytes(answers: seq<Answer>, pushed: seq<Item>, a: Answer)
    requires Payload(pushed) == Received(answers)
    ensures Payload(pushed + TcpItem(a)) == Received(answers + [a])
  {
    ReceivedSnoc(answers, a);
    PayloadConcat(pushed, TcpItem(a));
    if TcpItem(a) != [] {
      PayloadOne(TcpItem(a)[0]);
    }
  }

  /** Data items are no end of stream and no error, so what else there is stands at the end. */
  lemma LastOnly(answers: seq<Answer>, pushed: seq<Item>, items: seq<Item>)
    requires |answers| == |pushed| <= |items| <= |pushed| + 1
    requires forall k :: 0 <= k < |answers| ==> answers[k].Got? && items[k] == Data(answers[k].bytes)
    ensures Eof in items <==> |items| == |pushed| + 1 && items[|pushed|].Eof?
    ensures ReadError in items <==> |items| == |pushed| + 1 && items[|pushed|].ReadError?
  {
    if |items| == |pushed| + 1 {
      assert items == items[..|pushed|] + [items[|pushed|]];
    }
  }

  /** Answers of which only the last may be other than data. */
  lemma {:induction false} ItemsMirror(answers: seq<Answer>)
    requires forall k :: 0 <= k < |answers| - 1 ==> IsData(answers[k])
    ensures Mirrors(answers, TcpItems(answers))
    ensures (forall k :: 0 <= k < |answers| ==> IsData(answers[k])) ==> |TcpItems(answers)| == |answers|
  {
    if answers != [] {
      var n := |answers| - 1;
      ItemsMirror(answers[..n]);
      MirrorsNext(answers[..n], TcpItems(answers[..n]), answers[n]);
      TcpItemsSnoc(answers[..n], answers[n]);
      assert answers[..n] + [answers[n]] == answers;
    }
  }

  /** The state of a quantum after `used` answers. */
  predicate Quantized(answers: seq<Answer>, chunk: nat, used: nat, pushed: seq<Item>, n: nat, bytes: nat, drained: bool) {
    && used <= |answers| && pushed == TcpItems(answers[..used])
    && (forall k :: 0 <= k < used - 1 ==> IsData(answers[k]))
    && |pushed| <= TCP_QUANTUM_ITEMS && |Payload(pushed)| <= bytes <= n * chunk && n <= TCP_QUANTUM_ITEMS
    && (!drained ==> used == n == |pushed| && forall k :: 0 <= k < used ==> IsData(answers[k]))
    && (drained ==> used == |answers| || (0 < used && !IsData(answers[used - 1])))
  }

  lemma QuantizedStep(answers: seq<Answer>, chunk: nat, used: nat, pushed: seq<Item>, n: nat, bytes: nat)
    requires Quantized(answers, chunk, used, pushed, n, bytes, false) && used < |answers| && TcpMore(n, bytes)
    requires answers[used].Got? ==> |answers[used].bytes| <= chunk
    ensures var a := answers[used];
            Quantized(answers, chunk, used + 1, pushed + TcpItem(a),
                      if IsData(a) then n + 1 else n, if IsData(a) then bytes + |a.bytes| else bytes, !IsData(a))
  {
    var a := answers[used];
    TcpItemsSnoc(answers[..used], a);
    assert answers[..used] + [a] == answers[..used + 1];
    PushedBytes(pushed, a);
    assert (n + 1) * chunk == n * chunk + chunk;
  }

  lemma PushedBytes(pushed: seq<Item>, a: Answer)
    ensures |Payload(pushed + TcpItem(a))| == |Payload(pushed)| + if IsData(a) then |a.bytes| else 0
  {
    PayloadConcat(pushed, TcpItem(a));
    if TcpItem(a) != [] {
      PayloadOne(TcpItem(a)[0]);
    }
  }

  /** Four chunks at most 65536 bytes long: fewer than four never reach the byte limit. */
  lemma ByteLimitIsSlack(n: nat, bytes: nat, chunk: nat)
    requires chunk <= 65536 && bytes <= n * chunk && n <= TCP_QUANTUM_ITEMS
    ensures bytes <= TCP_QUANTUM_BYTES && (n < TCP_QUANTUM_ITEMS ==> TcpMore(n, bytes))
  {
    if n == 0 {
      assert n * chunk == 0;
    } else if n == 1 {
      assert n * chunk == chunk;
    } else if n == 2 {
      assert n * chunk == 2 * chunk;
    } else if n == 3 {
      assert n * chunk == 3 * chunk;
    } else {
      assert n * chunk == 4 * chunk;
    }
  }

  /**
   The stream branch.  `answers` are the socket's answers, read from the front; an exhausted list
   means nothing more is there.  The items pushed are those of the answers used, in order.
   */
  method TcpQuantum(answers: seq<Answer>, chunk: nat)
    returns (used: nat, pushed: seq<Item>, drained: bool, eof: bool)
    requires 4096 <= chunk <= 65536
    requires forall k :: 0 <= k < |answers| && answers[k].Got? ==> |answers[k].bytes| <= chunk
    ensures used <= |answers| && pushed == TcpItems(answers[..used])
    // the same bytes, one item for every non-empty answer, and an end of stream or an error only as the last one
    ensures Mirrors(answers[..used], pushed) && (Eof in pushed <==> eof)
    ensures |pushed| <= TCP_QUANTUM_ITEMS && |Payload(pushed)| <= TCP_QUANTUM_BYTES
    // a quantum that was not drained is full, and full by count: the byte limit never cuts it short
    ensures !drained ==> used == TCP_QUANTUM_ITEMS && forall k :: 0 <= k < used ==> IsData(answers[k])
    ensures drained ==> used == |answers| || (0 < used && !IsData(answers[used - 1]))
    ensures eof <==> 0 < used && answers[used - 1] == Got([])
  {
    var n: nat, bytes: nat := 0, 0;
    used, pushed, drained, eof := 0, [], false, false;
    while TcpMore(n, bytes) && !drained
      invariant Quantized(answers, chunk, used, pushed, n, bytes, drained)
      invariant eof <==> 0 < used && answers[used - 1] == Got([])
      decreases TCP_QUANTUM_ITEMS - n, !drained
    {
      if used == |answers| {
        drained := true;
      } else {
        QuantizedStep(answers, chunk, used, pushed, n, bytes);
        var a := answers[used];
        used := used + 1;
        pushed := pushed + TcpItem(a);
        if IsData(a) {
          n, bytes := n + 1, bytes + |a.bytes|;
        } else {
          drained, eof := true, a.Got?;
        }
      }
    }
    ByteLimitIsSlack(n, bytes, chunk);
    ItemsMirror(answers[..used]);
  }

  /** The datagram branch: at most sixteen datagrams, plus one error that ends the quantum. */
  method UdpQuantum(answers: seq<Answer>) returns (used: nat, datagrams: seq<Chunk>, error: bool, drained: bool)
    ensures used <= |answers| && |datagrams| <= UDP_QUANTUM
    // the datagrams are the leading answers, empty ones included
    ensures |datagrams| <= used <= |datagrams| + 1
    ensures forall k :: 0 <= k < |datagrams| ==> answers[k] == Got(datagrams[k])
    ensures !drained ==> |datagrams| == UDP_QUANTUM && used == UDP_QUANTUM && !error
    ensures drained ==> used == |answers| || (used == |datagrams| + 1 && !answers[used - 1].Got?)
    ensures error <==> used == |datagrams| + 1 && answers[used - 1].Broken?
  {
    used, datagrams, error, drained := 0, [], false, false;
    while |datagrams| < UDP_QUANTUM
      invariant used == |datagrams| <= |answers| && |datagrams| <= UDP_QUANTUM
      invariant forall k :: 0 <= k < |datagrams| ==> answers[k] == Got(datagrams[k])
      decreases UDP_QUANTUM - |datagrams|
    {
      if used == |answers| {
        drained := true;
        return;
      }
      var a := answers[used];
      used := used + 1;
      match a
      case Got(b) =>
        datagrams := datagrams + [b];
      case NoData =>
        drained := true;
        return;
      case Broken =>
        error, drained := true, true;
        return;
    }
  }
}
