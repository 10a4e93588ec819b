/** Timer deadlines, their ordering, and how long the loop may sleep. */
module Timers {
  import opened Options

  /** A 64-bit float used as a deadline; rounding is not the point, the special values are. */
  datatype Time = NaN | NegInf | At(t: real) | PosInf

  datatype Order = Less | Equal | Greater

  function Rank(x: Time): int {
    if x.NegInf? then -1 else if x.PosInf? then 1 else 0
  }

  /** `partial_cmp`: undefined exactly when a NaN is involved. */
  function PartialCmp(x: Time, y: Time): (o: Option<Order>)
    ensures o.None? <==> x.NaN? || y.NaN?
  {
    if x.NaN? || y.NaN? then None
    else if x.At? && y.At? then Some(if x.t < y.t then Less else if x.t == y.t then Equal else Greater)
    else Some(if Rank(x) < Rank(y) then Less else if Rank(x) == Rank(y) then Equal else Greater)
  }

  predicate Earlier(x: Time, y: Time) {
    PartialCmp(x, y) == Some(Less)
  }

  predicate NotAfter(x: Time, now: real) {
    PartialCmp(x, At(now)) == Some(Less) || PartialCmp(x, At(now)) == Some(Equal)
  }

  datatype Timer = Timer(when: Time, seq_: nat)

  /** The heap order: reversed, because the heap keeps its greatest element on top. */
  function Cmp(a: Timer, b: Timer): Order {
    var o := PartialCmp(b.when, a.when);
    if o.Some? && o.value != Equal then o.value
    else if b.seq_ < a.seq_ then Less else if b.seq_ == a.seq_ then Equal else Greater
  }

  /** `a` leaves the heap before `b`. */
  predicate Before(a: Timer, b: Timer) {
    Cmp(a, b) == Greater
  }

  /** On deadlines that are numbers this is a strict total order by deadline, then by sequence number. */
  lemma TotalOrder(a: Timer, b: Timer, c: Timer)
    requires !a.when.NaN? && !b.when.NaN? && !c.when.NaN?
    ensures !Before(a, a)
    ensures Before(a, b) && Before(b, c) ==> Before(a, c)
    ensures a == b || Before(a, b) || Before(b, a)
    ensures !(Before(a, b) && Before(b, a))
    ensures Before(a, b) <==> Earlier(a.when, b.when) || (a.when == b.when && a.seq_ < b.seq_)
  {
  }

  /**
   A NaN deadline compares equal to every deadline, so its place is decided by sequence numbers alone.
   Here that places it between two timers whose deadlines run the other way: the three form a cycle.
   */
  predicate NaNCycle(a: Timer, n: Timer, b: Timer) {
    && n.when.NaN? && !a.when.NaN? && !b.when.NaN?
    && a.seq_ < n.seq_ < b.seq_ && Earlier(b.when, a.when)
  }

  /** Any two timers are ordered one way; the order composes exactly outside such a triple. */
  lemma TransitiveIff(a: Timer, b: Timer, c: Timer)
    requires a.seq_ != b.seq_ && b.seq_ != c.seq_ && a.seq_ != c.seq_
    ensures Before(a, b) <==> !Before(b, a)
    ensures Before(a, b) && Before(b, c) ==>
              (Before(a, c) <==> !NaNCycle(a, b, c) && !NaNCycle(b, c, a) && !NaNCycle(c, a, b))
    ensures NaNCycle(a, b, c) ==> Before(a, b) && Before(b, c) && Before(c, a)
  {
  }

  predicate Numbered(timers: set<Timer>) {
    forall t, u :: t in timers && u in timers && t.seq_ == u.seq_ ==> t == u
  }

  /** The heap order is a strict total order on these timers. */
  ghost predicate Ordered(timers: set<Timer>) {
    && (forall a :: a in timers ==> !Before(a, a))
    && (forall a, b :: a in timers && b in timers && a != b ==> (Before(a, b) <==> !Before(b, a)))
    && (forall a, b, c :: a in timers && b in timers && c in timers && Before(a, b) && Before(b, c) ==> Before(a, c))
  }

  ghost predicate CycleFree(timers: set<Timer>) {
    forall a, n, b :: a in timers && n in timers && b in timers ==> !NaNCycle(a, n, b)
  }

  /** On any heap the order is total exactly when no NaN sits between two deadlines that run the other way. */
  lemma OrderedIff(timers: set<Timer>)
    requires Numbered(timers)
    ensures Ordered(timers) <==> CycleFree(timers)
  {
    if CycleFree(timers) {
      forall a, b, c | a in timers && b in timers && c in timers && Before(a, b) && Before(b, c)
        ensures Before(a, c)
      {
        TransitiveIff(a, b, c);
      }
    } else {
      var a, n, b :| a in timers && n in timers && b in timers && NaNCycle(a, n, b);
      TransitiveIff(a, n, b);
      assert Before(a, n) && Before(n, b) && !Before(a, b);
    }
  }

  /** Three timers of a cycle have no least one. */
  lemma CycleHasNoLeast(a: Timer, n: Timer, b: Timer, t: Timer)
    requires NaNCycle(a, n, b) && t in {a, n, b}
    ensures !Least(t, {a, n, b})
  {
    TransitiveIff(a, n, b);
    TransitiveIff(n, b, a);
    TransitiveIff(b, a, n);
    var before := if t == a then b else if t == n then a else n;
    assert before in {a, n, b} && before != t && !Before(t, before);
  }

  /** There are such timers. */
  lemma NaNWitness()
    ensures exists a, n, b :: NaNCycle(a, n, b)
  {
    assert NaNCycle(Timer(At(2.0), 0), Timer(NaN, 1), Timer(At(1.0), 2));
  }

  predicate Numbers(timers: set<Timer>) {
    forall t :: t in timers ==> !t.when.NaN?
  }

  /** What the heap has on top. */
  predicate Least(t: Timer, timers: set<Timer>) {
    t in timers && forall u :: u in timers && u != t ==> Before(t, u)
  }

  lemma {:induction false} LeastExists(timers: set<Timer>)
    requires timers != {} && Numbers(timers)
    ensures exists t :: Least(t, timers)
    decreases |timers|
  {
    var x :| x in timers;
    var rest := timers - {x};
    assert forall u :: u in timers && u != x ==> u in rest;
    if rest == {} {
      assert Least(x, timers);
    } else {
      LeastExists(rest);
      var y :| Least(y, rest);
      TotalOrder(x, y, x);
      if Before(x, y) {
        forall u | u in timers && u != x
          ensures Before(x, u)
        {
          TotalOrder(x, y, u);
        }
        assert Least(x, timers);
      } else {
        assert Least(y, timers);
      }
    }
  }

  /** `next_deadline`: no timers, one already due, a sleep, or a panic in the conversion to a duration. */
  datatype Wait = Forever | NoWait | Sleep(seconds: real) | Panic

  const MAX_SECONDS: real := 18446744073709551616.0

  function NextDeadline(top: Option<Timer>, now: real): Wait {
    if top.None? then Forever
    else
      match top.value.when
      case NaN => Panic
      case PosInf => Panic
      case NegInf => NoWait
      case At(t) => if t - now <= 0.0 then NoWait else if t - now < MAX_SECONDS then Sleep(t - now) else Panic
  }

  /** Only without timers may the loop sleep until it is woken. */
  lemma SleepsForeverIff(top: Option<Timer>, now: real)
    ensures NextDeadline(top, now).Forever? <==> top.None?
  {
  }

  /** Parking never sleeps past a deadline, and sleeps only when nothing is due. */
  lemma NeverOversleeps(timers: set<Timer>, top: Timer, now: real)
    requires Numbers(timers) && Least(top, timers)
    ensures var w := NextDeadline(Some(top), now);
            && (w.NoWait? <==> exists t :: t in timers && NotAfter(t.when, now))
            && (w.Sleep? ==>
                  && 0.0 < w.seconds
                  && (forall t :: t in timers ==> !Earlier(t.when, At(now + w.seconds)))
                  && top.when == At(now + w.seconds))
            && (w.Panic? <==> top.when.PosInf? || (top.when.At? && MAX_SECONDS <= top.when.t - now))
  {
    forall t | t in timers
      ensures NotAfter(t.when, now) ==> NotAfter(top.when, now)
      ensures !Earlier(t.when, top.when)
    {
      TotalOrder(top, t, top);
    }
  }
}
