/**
 Bytes, the chunks and views they travel in, and the flattenings that the stream
 results are phrased with.
 */
module Bytes {

  newtype Byte = x: int | 0 <= x < 256

  type Chunk = seq<Byte>

  lemma AddAssoc<T>(a: seq<T>, b: seq<T>, c: seq<T>)
    ensures a + (b + c) == (a + b) + c
  {
  }

  /** One element of a buffer given to write, writelines or sendto: one byte, or more for a view of wider items. */
  datatype Element = Element(first: Byte, rest: seq<Byte>)

  /** Such a buffer.  Its `len` and its slices count elements, the socket counts bytes. */
  type View = seq<Element>

  /** The bytes of a view. */
  function Raw(v: View): (bytes: seq<Byte>)
    ensures |v| <= |bytes|
  {
    if v == [] then [] else [v[0].first] + v[0].rest + Raw(v[1..])
  }

  lemma {:induction false} RawConcat(a: View, b: View)
    ensures Raw(a + b) == Raw(a) + Raw(b)
  {
    if a == [] {
      assert a + b == b;
    } else {
      RawConcat(a[1..], b);
      var ab := a + b;
      assert ab[0] == a[0] && ab[1..] == a[1..] + b;
      AddAssoc([a[0].first] + a[0].rest, Raw(a[1..]), Raw(b));
    }
  }

  /** Every element is a single byte. */
  predicate Narrow(v: View) {
    forall i :: 0 <= i < |v| ==> v[i].rest == []
  }

  /** A view has as many elements as bytes exactly when it is narrow. */
  lemma {:induction false} NarrowIff(v: View)
    ensures |Raw(v)| == |v| <==> Narrow(v)
  {
    if v != [] {
      NarrowIff(v[1..]);
      if Narrow(v[1..]) && v[0].rest == [] {
        forall i | 0 <= i < |v|
          ensures v[i].rest == []
        {
          assert i > 0 ==> v[i] == v[1..][i - 1];
        }
      }
    }
  }

  /** The elements a deque of views stands for. */
  function Flat(chunks: seq<View>): View {
    if chunks == [] then [] else chunks[0] + Flat(chunks[1..])
  }

  lemma {:induction false} FlatConcat(a: seq<View>, b: seq<View>)
    ensures Flat(a + b) == Flat(a) + Flat(b)
  {
    if a == [] {
      assert a + b == b;
    } else {
      FlatConcat(a[1..], b);
      var ab := a + b;
      assert ab[0] == a[0] && ab[1..] == a[1..] + b;
      assert Flat(ab) == a[0] + (Flat(a[1..]) + Flat(b));
      AddAssoc(a[0], Flat(a[1..]), Flat(b));
    }
  }

  lemma FlatOne(c: View)
    ensures Flat([c]) == c
  {
    assert [c][1..] == [];
  }

  /** What a drain watcher hands to a stream transport: one read chunk, end of stream, or a read error. */
  datatype Item = Data(bytes: Chunk) | Eof | ReadError

  /** The bytes carried by a sequence of items. */
  function Payload(items: seq<Item>): seq<Byte> {
    if items == [] then []
    else (if items[0].Data? then items[0].bytes else []) + Payload(items[1..])
  }

  lemma {:induction false} PayloadConcat(a: seq<Item>, b: seq<Item>)
    ensures Payload(a + b) == Payload(a) + Payload(b)
  {
    if a == [] {
      assert a + b == b;
    } else {
      PayloadConcat(a[1..], b);
      var ab := a + b;
      assert ab[0] == a[0] && ab[1..] == a[1..] + b;
      AddAssoc(if a[0].Data? then a[0].bytes else [], Payload(a[1..]), Payload(b));
    }
  }

  lemma PayloadOne(x: Item)
    ensures Payload([x]) == if x.Data? then x.bytes else []
  {
    assert [x][1..] == [];
  }
}
