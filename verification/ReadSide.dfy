/**
 The read half of a transport as the rest of the system sees it, and the two
 relations every read-side operation satisfies.  The transport class proves its
 methods against these relations; the end-to-end machine is built from them.
 */
module ReadSide {
  import opened Bytes

  /**
   log      items handed to the protocol so far, in the order the calls started
   replay   items read from the kernel while paused, not yet handed over
   regs     reader registrations made so far
   watched  the latest registration is still in the registry
   started  the registration queued by the constructor has run
   kept     reader removals made because eof_received asked to keep the connection open
   */
  datatype ReadView = ReadView(
    log: seq<Item>, replay: seq<Item>, paused: bool, closing: bool,
    regs: nat, watched: bool, started: bool, kept: nat)

  predicate ReadValid(v: ReadView) {
    && (v.closing ==> !v.watched)
    && (v.watched ==> 0 < v.regs)
  }

  /** Between loop callbacks, items wait for replay only while reading is paused (or abandoned). */
  predicate Quiet(v: ReadView) {
    v.replay == [] || v.paused || v.closing
  }

  /** A transport that wants to read has a live reader. */
  predicate Attentive(v: ReadView) {
    v.started && !v.paused && !v.closing && v.kept == 0 ==> v.watched
  }

  /**
   What any stretch of transport activity does to the read side when no new item is handed in.
   `drain` tells the read mode.
   */
  predicate ReadLater(drain: bool, a: ReadView, b: ReadView) {
    && (a.closing ==> b.closing && b.log == a.log)
    && a.log <= b.log <= a.log + a.replay
    && (!b.closing ==> b.log + b.replay == a.log + a.replay)
    && |b.replay| <= |a.replay|
    && (Quiet(a) ==> Quiet(b))
    && (Attentive(a) ==> Attentive(b))
    && a.regs <= b.regs && (b.regs == a.regs && b.watched ==> a.watched)
    && b.started == a.started
    && a.kept <= b.kept
    && (drain && a.watched && !b.closing && b.kept == a.kept ==> b.watched && b.regs == a.regs)
  }

  lemma ReadLaterRefl(drain: bool, a: ReadView)
    ensures ReadLater(drain, a, a)
  {
    assert a.log <= a.log + a.replay;
  }

  lemma ReadLaterTrans(drain: bool, a: ReadView, b: ReadView, c: ReadView)
    requires ReadLater(drain, a, b) && ReadLater(drain, b, c)
    ensures ReadLater(drain, a, c)
  {
  }

  /** The view with one more item handed to the protocol. */
  function Handed(v: ReadView, x: Item): ReadView {
    v.(log := v.log + [x])
  }

  /** What delivering one item read by the watcher does. */
  predicate Delivered(drain: bool, a: ReadView, x: Item, b: ReadView) {
    if a.closing then b == a
    else if a.paused then b == a.(replay := a.replay + [x])
    else ReadLater(drain, Handed(a, x), b)
  }

  /** What the start-up registration does. */
  predicate Started(a: ReadView, b: ReadView) {
    if a.paused || a.closing then b == a.(started := true)
    else b == a.(started := true, regs := a.regs + 1, watched := true)
  }
}
