/** The write deque after a partial `sendmsg`: `_adjust_leftover_buffer` as a function on lists of views. */
module WriteBuffer {
  import opened Bytes

  /** The deque once `n` has been taken off it, counting elements. */
  function DropItems(chunks: seq<View>, n: nat): (rest: seq<View>)
    requires n <= |Flat(chunks)|
    decreases chunks
  {
    if n == 0 then chunks
    else if |chunks[0]| <= n then DropItems(chunks[1..], n - |chunks[0]|)
    else [chunks[0][n..]] + chunks[1..]
  }

  /** Exactly the first `n` elements leave; the rest keeps its order. */
  lemma {:induction false} DropItemsFlat(chunks: seq<View>, n: nat)
    requires n <= |Flat(chunks)|
    ensures Flat(DropItems(chunks, n)) == Flat(chunks)[n..]
    decreases chunks
  {
    if n == 0 {
    } else if |chunks[0]| <= n {
      DropItemsFlat(chunks[1..], n - |chunks[0]|);
    } else {
      var rest := [chunks[0][n..]] + chunks[1..];
      assert rest[1..] == chunks[1..];
    }
  }

  /** The deque ends in an empty chunk. */
  predicate HollowTail(chunks: seq<View>) {
    chunks != [] && chunks[|chunks| - 1] == []
  }

  lemma TailOfConcat(chunks: seq<View>, list: seq<View>)
    requires list != []
    ensures HollowTail(chunks + list) <==> list[|list| - 1] == []
    ensures |chunks + list| == |chunks| + |list| && |Flat(chunks + list)| == |Flat(chunks)| + |Flat(list)|
  {
    FlatConcat(chunks, list);
  }

  /** No send, of however many bytes, removes or creates an empty chunk at the end. */
  lemma {:induction false} DropKeepsTail(chunks: seq<View>, n: nat)
    requires n <= |Flat(chunks)|
    ensures HollowTail(DropItems(chunks, n)) <==> HollowTail(chunks)
    decreases chunks
  {
    if n != 0 && |chunks[0]| <= n {
      DropKeepsTail(chunks[1..], n - |chunks[0]|);
    }
  }

  /** With nothing left to send the deque is empty exactly when it does not end in an empty chunk. */
  lemma NothingLeftIff(chunks: seq<View>)
    requires Flat(chunks) == []
    ensures chunks == [] <==> !HollowTail(chunks)
  {
    if chunks != [] {
      NoBytesNoContent(chunks, |chunks| - 1);
    }
  }

  /**
   Handing every byte to the socket empties the deque exactly when the last chunk is not
   an empty one: the loop stops as soon as no bytes are left to account for, and leaves
   trailing empty chunks behind.
   */
  lemma {:induction false} FullSendEmptiesIff(chunks: seq<View>)
    ensures DropItems(chunks, |Flat(chunks)|) == [] <==> !HollowTail(chunks)
    decreases chunks
  {
    if chunks != [] && |Flat(chunks)| != 0 {
      FullSendEmptiesIff(chunks[1..]);
    } else if chunks != [] {
      NoBytesNoContent(chunks, |chunks| - 1);
    }
  }

  lemma {:induction false} NoBytesNoContent(chunks: seq<View>, k: nat)
    requires k < |chunks| && Flat(chunks) == []
    ensures chunks[k] == []
  {
    if k > 0 {
      NoBytesNoContent(chunks[1..], k - 1);
    }
  }

  /** What `sendmsg` is offered: at most `iovMax` leading views, which is a prefix of the whole stream. */
  function Offered(chunks: seq<View>, iovMax: nat): (bytes: seq<Byte>)
  {
    Raw(Flat(if |chunks| <= iovMax then chunks else chunks[..iovMax]))
  }

  lemma OfferedIsPrefix(chunks: seq<View>, iovMax: nat)
    ensures Offered(chunks, iovMax) <= Raw(Flat(chunks))
  {
    if iovMax < |chunks| {
      FlatConcat(chunks[..iovMax], chunks[iovMax..]);
      RawConcat(Flat(chunks[..iovMax]), Flat(chunks[iovMax..]));
      assert chunks[..iovMax] + chunks[iovMax..] == chunks;
    }
  }

  /** How many bytes of the deque a socket ready for `n` takes in one `sendmsg`. */
  function Taken(chunks: seq<View>, iovMax: nat, n: nat): (m: nat)
    ensures m <= |Raw(Flat(chunks))|
  {
    OfferedIsPrefix(chunks, iovMax);
    if n <= |Offered(chunks, iovMax)| then n else |Offered(chunks, iovMax)|
  }

  /** One `sendmsg` to a socket ready for `n` bytes gets rid of the whole deque. */
  predicate SendsAll(chunks: seq<View>, iovMax: nat, n: nat) {
    Taken(chunks, iovMax, n) == |Flat(chunks)| && !HollowTail(chunks)
  }

  /** It does so exactly when it takes as many bytes as there are elements and the last view is not empty. */
  lemma SendEmptiesIff(chunks: seq<View>, iovMax: nat, n: nat)
    requires Taken(chunks, iovMax, n) <= |Flat(chunks)|
    ensures DropItems(chunks, Taken(chunks, iovMax, n)) == [] <==> SendsAll(chunks, iovMax, n)
  {
    DropItemsFlat(chunks, Taken(chunks, iovMax, n));
    FullSendEmptiesIff(chunks);
  }

  /** On single bytes: exactly when everything fits the vector and the socket, and the last view is not empty. */
  lemma NarrowSendsAllIff(chunks: seq<View>, iovMax: nat, n: nat)
    requires chunks != [] && Narrow(Flat(chunks))
    ensures SendsAll(chunks, iovMax, n) <==> |chunks| <= iovMax && |Flat(chunks)| <= n && !HollowTail(chunks)
  {
    NarrowIff(Flat(chunks));
    if iovMax < |chunks| && !HollowTail(chunks) {
      TruncatedOffer(chunks, iovMax);
    }
  }

  /** A vector too short for a deque that does not end in an empty view leaves bytes out. */
  lemma TruncatedOffer(chunks: seq<View>, iovMax: nat)
    requires iovMax < |chunks| && !HollowTail(chunks)
    ensures |Offered(chunks, iovMax)| < |Raw(Flat(chunks))|
  {
    var head, tail := chunks[..iovMax], chunks[iovMax..];
    assert head + tail == chunks;
    FlatConcat(head, tail);
    RawConcat(Flat(head), Flat(tail));
    if Flat(tail) == [] {
      NoBytesNoContent(tail, |tail| - 1);
    }
  }

  // ---------------------------------------------------------------------------
  // bytes the socket took, and elements taken off for them
  // ---------------------------------------------------------------------------

  /**
   `dropped` elements were taken off for `sent` bytes; they are the same bytes unless `skewed`, and then
   more was taken off than was sent.
   */
  predicate Tally(dropped: View, sent: seq<Byte>, skewed: bool) {
    && |dropped| <= |sent| <= |Raw(dropped)|
    && (if skewed then |sent| < |Raw(dropped)| else sent == Raw(dropped))
  }

  /** `k` elements of `v` are taken off for `n` bytes of it. */
  predicate Skews(v: View, k: nat, n: nat)
    requires k <= |v|
  {
    n < |Raw(v[..k])|
  }

  lemma TallyStep(dropped: View, sent: seq<Byte>, skewed: bool, v: View, k: nat, n: nat)
    requires Tally(dropped, sent, skewed)
    requires k <= |v| && k <= n <= |Raw(v[..k])| <= |Raw(v)|
    ensures Tally(dropped + v[..k], sent + Raw(v)[..n], skewed || Skews(v, k, n))
  {
    RawConcat(dropped, v[..k]);
    RawConcat(v[..k], v[k..]);
    assert v[..k] + v[k..] == v;
  }

  lemma PrefixRaw(v: View, k: nat)
    requires k <= |v|
    ensures |Raw(v[..k])| <= |Raw(v)|
    ensures k == |v| ==> v[..k] == v
  {
    RawConcat(v[..k], v[k..]);
    assert v[..k] + v[k..] == v;
  }

  /**
   The elements that leave are the bytes that were sent exactly when they are single bytes.
   */
  lemma SkewsIff(v: View, k: nat)
    requires k <= |v|
    ensures Skews(v, k, k) <==> !Narrow(v[..k])
  {
    NarrowIff(v[..k]);
  }

  /** Every element has `width` bytes. */
  predicate Uniform(v: View, width: nat) {
    forall i :: 0 <= i < |v| ==> 1 + |v[i].rest| == width
  }

  /** How many elements `write` drops when the socket took `n` bytes of `v`: its slice counts elements. */
  function Sliced(v: View, n: nat): (k: nat)
    ensures k <= |v| && k <= n
  {
    if n <= |v| then n else |v|
  }

  /** `write` keeps account of a partial send exactly for items of one byte, or when all or nothing was sent. */
  lemma WriteSkewsIff(v: View, width: nat, n: nat)
    requires v != [] && Uniform(v, width) && n <= |Raw(v)|
    ensures Skews(v, Sliced(v, n), n) <==> width != 1 && 0 < n < |Raw(v)|
  {
    var k := Sliced(v, n);
    PrefixRaw(v, k);
    NarrowIff(v[..k]);
    if width == 1 {
      NarrowIff(v);
    } else if 0 < k {
      assert v[..k][0].rest == v[0].rest != [];
    }
  }
}
