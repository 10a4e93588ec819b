/**
 One loop iteration: the ready snapshot, the timer phase, the I/O phase.

 Callbacks, and foreign threads acting between two steps of the batch, are read from
 `script`: a stretch of their activity performs the effects at its head up to the next
 `Return`.  Ready entries are numbered in push order, timers by their sequence number.
 */
module Scheduler {
  import opened Timers
  import opened Options

  datatype Effect =
    | CallSoon
    | CallAt(when: Time)
    | CancelReady(entry: nat)
    | CancelTimer(timer: nat)
    | Stop
    | Return

  /** One timer popped in the timer phase, and whether its callback was invoked. */
  datatype Turn = Turn(timer: Timer, ran: bool)

  /**
   pushed, popped   ready entries pushed and popped so far
   ran              entries whose callback was invoked, in order
   cancelAt         how many entries had been popped when each cancelled one was cancelled
   */
  datatype ReadySide = ReadySide(pushed: nat, popped: nat, ran: seq<nat>, cancelAt: map<nat, nat>)

  /**
   timers           the heap
   nextSeq          the sequence counter
   turns            timers popped so far, in order
   cancelAt         how many timers had been popped when each cancelled one was cancelled
   */
  datatype TimerSide = TimerSide(timers: set<Timer>, nextSeq: nat, turns: seq<Turn>, cancelAt: map<nat, nat>)

  /** One iteration of the loop: the completions queued before it, and its clock reading. */
  datatype Tick = Tick(completions: seq<nat>, now: real)

  /** Entry `k` was cancelled before its turn. */
  predicate Skipped(cancelAt: map<nat, nat>, k: nat) {
    k in cancelAt && cancelAt[k] <= k
  }

  /** The first `n` entries in push order, without those cancelled before their turn. */
  function Survivors(n: nat, cancelAt: map<nat, nat>): seq<nat> {
    if n == 0 then []
    else Survivors(n - 1, cancelAt) + if Skipped(cancelAt, n - 1) then [] else [n - 1]
  }

  lemma {:induction false} SurvivorsStable(n: nat, m: map<nat, nat>, m': map<nat, nat>)
    requires forall k :: 0 <= k < n ==> (Skipped(m, k) <==> Skipped(m', k))
    ensures Survivors(n, m) == Survivors(n, m')
  {
    if n != 0 {
      SurvivorsStable(n - 1, m, m');
    }
  }

  /** Invoked callbacks are exactly the survivors of the popped prefix. */
  predicate ReadyOk(q: ReadySide) {
    && q.popped <= q.pushed
    && q.ran == Survivors(q.popped, q.cancelAt)
    && (forall k :: k in q.cancelAt ==> q.cancelAt[k] <= q.popped)
  }

  /** A popped timer ran unless it was cancelled before its turn. */
  predicate TimerOk(w: TimerSide) {
    && Numbers(w.timers)
    && (forall t :: t in w.timers ==> t.seq_ < w.nextSeq)
    && Numbered(w.timers)
    && (forall k :: k in w.cancelAt ==> w.cancelAt[k] <= |w.turns|)
    && (forall k :: 0 <= k < |w.turns| ==>
          var n := w.turns[k].timer.seq_;
          w.turns[k].ran <==> !(n in w.cancelAt && w.cancelAt[n] <= k))
  }

  /** What a stretch of callback or foreign activity may do. */
  predicate ReadyLater(a: ReadySide, b: ReadySide) {
    && a.pushed <= b.pushed && b.popped == a.popped && b.ran == a.ran
    && (forall k :: k in a.cancelAt ==> k in b.cancelAt && b.cancelAt[k] == a.cancelAt[k])
    && (forall k :: k in b.cancelAt && k !in a.cancelAt ==> b.cancelAt[k] == a.popped)
  }

  predicate TimerLater(a: TimerSide, b: TimerSide) {
    && a.timers <= b.timers && b.turns == a.turns && a.nextSeq <= b.nextSeq
    && (forall k :: k in a.cancelAt ==> k in b.cancelAt && b.cancelAt[k] == a.cancelAt[k])
    && (forall k :: k in b.cancelAt && k !in a.cancelAt ==> b.cancelAt[k] == |a.turns|)
  }

  lemma ReadyLaterKeeps(a: ReadySide, b: ReadySide)
    requires ReadyOk(a) && ReadyLater(a, b)
    ensures ReadyOk(b)
  {
    SurvivorsStable(a.popped, a.cancelAt, b.cancelAt);
  }

  lemma LaterTrans(q: ReadySide, q': ReadySide, q'': ReadySide, w: TimerSide, w': TimerSide, w'': TimerSide)
    requires ReadyLater(q, q') && ReadyLater(q', q'') && TimerLater(w, w') && TimerLater(w', w'')
    ensures ReadyLater(q, q'') && TimerLater(w, w'')
  {
  }

  /** Deadlines given by the script are numbers. */
  predicate Sane(script: seq<Effect>) {
    forall e :: e in script && e.CallAt? ==> !e.when.NaN?
  }

  /** Deadlines given by the script all lie after `now`. */
  predicate AllLater(script: seq<Effect>, now: real) {
    forall e :: e in script && e.CallAt? ==> !NotAfter(e.when, now)
  }

  function Due(timers: set<Timer>, now: real): set<Timer> {
    set t | t in timers && NotAfter(t.when, now)
  }

  /** What is left of a script. */
  predicate Within(b: seq<Effect>, a: seq<Effect>) {
    |b| <= |a| && forall e :: e in b ==> e in a
  }

  /**
   What the loop and its callbacks share, with what the callbacks will do next; `asked` are the effects
   performed so far.
   */
  datatype Shared = Shared(q: ReadySide, w: TimerSide, stop: bool, asked: set<Effect>, script: seq<Effect>)

  /** Entries and timers are cancelled, and the loop is stopped, only by a request to do so. */
  predicate Requested(q: ReadySide, w: TimerSide, stop: bool, asked: set<Effect>) {
    && (forall k :: k in q.cancelAt ==> CancelReady(k) in asked)
    && (forall n :: n in w.cancelAt ==> CancelTimer(n) in asked)
    && (stop ==> Stop in asked)
  }

  /** Effects are performed only if the script has them, and are when they are taken from it. */
  predicate Follows(a: Shared, b: Shared) {
    && Within(b.script, a.script) && a.asked <= b.asked
    && (forall e :: e in b.asked && e !in a.asked ==> e in a.script)
    && (forall e :: e in a.script && e !in b.script && !e.Return? ==> e in b.asked)
  }

  lemma FollowsTrans(a: Shared, b: Shared, c: Shared)
    requires Follows(a, b) && Follows(b, c)
    ensures Follows(a, c)
  {
    forall e | e in c.asked && e !in a.asked
      ensures e in a.script
    {
      if e !in b.asked {
        assert e in b.script;
      }
    }
    forall e | e in a.script && e !in c.script && !e.Return?
      ensures e in c.asked
    {
      if e !in b.script {
        assert e in b.asked;
      }
    }
  }

  /** What one effect does to pushes, cancellations and the stop flag. */
  predicate Done(e: Effect, a: Shared, b: Shared) {
    && b.script == a.script && b.asked == a.asked + {e}
    && b.q.pushed == a.q.pushed + (if e.CallSoon? then 1 else 0)
    && (b.q.cancelAt == a.q.cancelAt
        || (e.CancelReady? && e.entry !in a.q.cancelAt && b.q.cancelAt == a.q.cancelAt[e.entry := a.q.popped]))
    && (b.w.cancelAt == a.w.cancelAt
        || (e.CancelTimer? && e.timer !in a.w.cancelAt && b.w.cancelAt == a.w.cancelAt[e.timer := |a.w.turns|]))
    && b.stop == (a.stop || e.Stop?)
  }

  /** A callback was invoked: it took its commands from the script, unless that had run out. */
  predicate Invoked(a: seq<Effect>, b: seq<Effect>, times: nat) {
    b == [] || |b| + times <= |a|
  }

  function Iota(n: nat): seq<nat> {
    if n == 0 then [] else Iota(n - 1) + [n - 1]
  }

  lemma {:induction false} NobodySkipped(n: nat)
    ensures Survivors(n, map[]) == Iota(n)
  {
    if n != 0 {
      NobodySkipped(n - 1);
    }
  }

  class EventLoop {
    var ready: seq<nat>
    var q: ReadySide
    var w: TimerSide
    var io: seq<nat>
    var handled: seq<nat>      // I/O completions handled so far, in order
    var stop: bool
    var stops: seq<bool>       // the stop flag as each batch so far left it
    var asked: set<Effect>     // effects performed so far
    var script: seq<Effect>

    ghost function Now(): Shared reads this {
      Shared(q, w, stop, asked, script)
    }

    ghost predicate Valid() reads this {
      && ReadyOk(q) && TimerOk(w) && Sane(script) && Requested(q, w, stop, asked)
      && |ready| == q.pushed - q.popped
      && forall j :: 0 <= j < |ready| ==> ready[j] == q.popped + j
    }

    constructor (script: seq<Effect>, io: seq<nat>)
      requires Sane(script)
      ensures Valid() && this.script == script && this.io == io
      ensures ready == [] && !stop && asked == {} && stops == [] && handled == [] && q == ReadySide(0, 0, [], map[])
    {
      ready, q, w := [], ReadySide(0, 0, [], map[]), TimerSide({}, 0, [], map[]);
      stop, asked, stops, handled := false, {}, [], [];
      this.script, this.io := script, io;
    }

    // -------------------------------------------------------------------------
    // scheduling requests
    // -------------------------------------------------------------------------

    method Perform(e: Effect)
      requires Valid() && (e.CallAt? ==> !e.when.NaN?)
      modifies this`ready, this`q, this`w, this`stop, this`asked
      ensures Valid() && ReadyLater(old(q), q) && TimerLater(old(w), w) && (old(stop) ==> stop)
      ensures Done(e, old(Now()), Now())
      ensures e.CallSoon? ==> q.pushed == old(q.pushed) + 1
      ensures w.timers == old(w.timers) + (if e.CallAt? then {Timer(e.when, old(w.nextSeq))} else {})
      ensures e.CancelReady? && e.entry < old(q.pushed) ==> e.entry in q.cancelAt
      ensures e.CancelTimer? && e.timer < old(w.nextSeq) ==> e.timer in w.cancelAt
      ensures e.Stop? ==> stop
    {
      ghost var q0 := q;
      asked := asked + {e};
      match e {
      case CallSoon =>
        ready := ready + [q.pushed];
        q := q.(pushed := q.pushed + 1);
      case CallAt(when) =>
        w := w.(timers := w.timers + {Timer(when, w.nextSeq)}, nextSeq := w.nextSeq + 1);
      case CancelReady(k) =>
        if k < q.pushed && k !in q.cancelAt {
          q := q.(cancelAt := q.cancelAt[k := q.popped]);
        }
      case CancelTimer(n) =>
        if n < w.nextSeq && n !in w.cancelAt {
          w := w.(cancelAt := w.cancelAt[n := |w.turns|]);
        }
      case Stop =>
        stop := true;
      case Return =>
      }
      ReadyLaterKeeps(q0, q);
    }

    /** The next effect of the script. */
    method PerformNext()
      requires Valid() && script != [] && !script[0].Return?
      modifies this`ready, this`q, this`w, this`stop, this`asked, this`script
      ensures Valid() && ReadyLater(old(q), q) && TimerLater(old(w), w) && (old(stop) ==> stop)
      ensures script == old(script)[1..] && Follows(old(Now()), Now())
      ensures var e := old(script)[0];
              w.timers == old(w.timers) + (if e.CallAt? then {Timer(e.when, old(w.nextSeq))} else {})
    {
      ghost var l0 := Now();
      var e := script[0];
      script := script[1..];
      Perform(e);
    }

    /**
     A callback, or foreign threads between two steps: everything up to the next `Return`.
     If every deadline given by the script lies after `now`, nothing becomes due.
     */
    method Act(ghost now: real)
      requires Valid()
      modifies this`ready, this`q, this`w, this`stop, this`asked, this`script
      ensures Valid() && ReadyLater(old(q), q) && TimerLater(old(w), w) && (old(stop) ==> stop)
      ensures Follows(old(Now()), Now()) && Invoked(old(script), script, 1)
      ensures AllLater(old(script), now) ==> Due(w.timers, now) == Due(old(w.timers), now)
      ensures |script| == |old(script)| ==> w.timers == old(w.timers)
    {
      ghost var s0, t0, l0 := script, w.timers, Now();
      while script != []
        invariant Valid() && ReadyLater(old(q), q) && TimerLater(old(w), w) && (old(stop) ==> stop)
        invariant Follows(l0, Now())
        invariant AllLater(s0, now) ==> Due(w.timers, now) == Due(t0, now)
        invariant |script| == |s0| ==> w.timers == t0
        decreases |script|
      {
        ghost var l1 := Now();
        assert script[0] in s0;
        if script[0].Return? {
          script := script[1..];
          FollowsTrans(l0, l1, Now());
          return;
        }
        PerformNext();
        LaterTrans(old(q), l1.q, q, old(w), l1.w, w);
        FollowsTrans(l0, l1, Now());
      }
    }

    // -------------------------------------------------------------------------
    // the batch
    // -------------------------------------------------------------------------

    /** Phase 1: exactly the entries queued at its start, in push order, whatever is scheduled or stopped meanwhile. */
    method RunReady()
      requires Valid()
      modifies this`ready, this`q, this`w, this`stop, this`asked, this`script
      ensures Valid() && (old(stop) ==> stop)
      ensures q.popped == old(q.popped) + old(|ready|)
      ensures q.ran == Survivors(q.popped, q.cancelAt) && old(q.ran) <= q.ran
      ensures Follows(old(Now()), Now()) && Invoked(old(script), script, |q.ran| - |old(q.ran)|)
    {
      var n := |ready|;
      ghost var first, l0 := q.popped, Now();
      for i := 0 to n
        invariant Valid() && (old(stop) ==> stop)
        invariant q.popped == first + i && n - i <= |ready|
        invariant l0.q.ran <= q.ran && Follows(l0, Now()) && Invoked(l0.script, script, |q.ran| - |l0.q.ran|)
      {
        RunNext(l0);
      }
    }

    /** Other threads, then the next entry. */
    method RunNext(ghost start: Shared)
      requires Valid() && ready != [] && Follows(start, Now())
      modifies this`ready, this`q, this`w, this`stop, this`asked, this`script
      ensures Valid() && (old(stop) ==> stop) && old(|ready|) - 1 <= |ready|
      ensures q.popped == old(q.popped) + 1 && old(q.ran) <= q.ran
      ensures Follows(start, Now()) && Invoked(old(script), script, |q.ran| - |old(q.ran)|)
    {
      ghost var l0 := Now();
      Act(0.0); // other threads
      FollowsTrans(start, l0, Now());
      ghost var l1 := Now();
      RunEntry();
      FollowsTrans(start, l1, Now());
    }

    /** Pop one entry and run it unless it is cancelled. */
    method RunEntry()
      requires Valid() && ready != []
      modifies this`ready, this`q, this`w, this`stop, this`asked, this`script
      ensures Valid() && (old(stop) ==> stop) && Follows(old(Now()), Now())
      // an entry nobody cancelled is invoked
      ensures old(ready[0] !in q.cancelAt) ==> Invoked(old(script), script, 1)
      ensures old(ready[0] in q.cancelAt) ==> script == old(script)
      ensures q.popped == old(q.popped) + 1 && old(|ready|) - 1 <= |ready|
      ensures q.ran == old(q.ran) + if old(ready[0] in q.cancelAt) then [] else [old(ready[0])]
    {
      ghost var l0 := Now();
      var k := ready[0];
      ready := ready[1..];
      var cancelled := k in q.cancelAt;
      q := q.(popped := q.popped + 1, ran := q.ran + if cancelled then [] else [k]);
      if !cancelled {
        Act(0.0);
      }
    }

    /** Pop what the heap has on top if it is due. */
    method PopDue(now: real) returns (due: Option<Timer>)
      requires Valid()
      modifies this`w
      ensures due.None? ==> w == old(w) && Due(w.timers, now) == {}
      ensures due.Some? ==> Least(due.value, old(w.timers)) && NotAfter(due.value.when, now)
      ensures due.Some? ==> w == old(w).(timers := old(w.timers) - {due.value}) && |w.timers| < |old(w.timers)|
      ensures Valid()
    {
      if w.timers == {} {
        return None;
      }
      LeastExists(w.timers);
      var top :| Least(top, w.timers);
      if NotAfter(top.when, now) {
        w := w.(timers := w.timers - {top});
        return Some(top);
      }
      TopNotDue(w.timers, top, now);
      due := None;
    }

    /** Take one timer's turn. */
    method RunTimer(t: Timer, ghost now: real)
      requires Valid() && t !in w.timers
      modifies this`ready, this`q, this`w, this`stop, this`asked, this`script
      ensures Valid() && (old(stop) ==> stop) && Follows(old(Now()), Now())
      ensures ReadyLater(old(q), q)
      ensures Turned(now, t, old(Now()), Now())
      // a timer nobody cancelled is invoked
      ensures t.seq_ !in old(w.cancelAt) ==> Invoked(old(script), script, 1)
    {
      var cancelled := t.seq_ in w.cancelAt;
      w := w.(turns := w.turns + [Turn(t, !cancelled)]);
      if !cancelled {
        Act(now);
      }
    }

    /** One round of the timer phase: the top of the heap, if it is due. */
    method RunDue(now: real) returns (more: bool, ghost top: Timer)
      requires Valid()
      modifies this`ready, this`q, this`w, this`stop, this`asked, this`script
      ensures Valid() && (old(stop) ==> stop) && Follows(old(Now()), Now())
      ensures ReadyLater(old(q), q)
      ensures if more then Round(now, top, old(Now()), Now())
              else w == old(w) && script == old(script) && Due(w.timers, now) == {}
    {
      ghost var a := Now();
      top := Timer(NegInf, 0);
      var due := PopDue(now);
      more := due.Some?;
      if more {
        top := due.value;
        ghost var p := Now();
        RunTimer(due.value, now);
        RoundDone(now, top, a, p, Now());
      }
    }

    /** Phase 2, with the clock sampled once. */
    method RunTimers(now: real)
      requires Valid()
      modifies this`ready, this`q, this`w, this`stop, this`asked, this`script
      ensures Valid() && (old(stop) ==> stop) && Follows(old(Now()), Now())
      ensures ReadyLater(old(q), q)
      ensures old(w.turns) <= w.turns
      // nothing fires early, nothing due is left
      ensures InTime(w.turns, |old(w.turns)|, now)
      ensures Due(w.timers, now) == {}
      // with no new past deadlines: the due timers, each once, in order
      ensures AllLater(old(script), now) ==> SortedRun(w.turns[|old(w.turns)|..], Due(old(w.timers), now))
    {
      ghost var l0, all := Now(), Due(w.timers, now);
      var more := true;
      while more
        invariant Valid() && (l0.stop ==> stop) && Follows(l0, Now())
        invariant ReadyLater(l0.q, q) && TurnsSoFar(now, l0, all, Now())
        invariant !more ==> Due(w.timers, now) == {}
        decreases |script|, |w.timers|, more
      {
        ghost var l1 := Now();
        ghost var top;
        more, top := RunDue(now);
        FollowsTrans(l0, l1, Now());
        if more {
          TurnsGoOn(now, l0, all, l1, top, Now());
        }
      }
    }

    /** Phase 3: callbacks cannot queue completions, so the queue is emptied once. */
    method RunIo()
      requires Valid()
      modifies this
      ensures Valid() && (old(stop) ==> stop) && ReadyLater(old(q), q)
      ensures io == [] && handled == old(handled) + old(io) && stops == old(stops)
      ensures Follows(old(Now()), Now()) && Invoked(old(script), script, |old(io)|)
    {
      ghost var all, l0, n := handled + io, Now(), |io|;
      while io != []
        invariant Valid() && (l0.stop ==> stop) && ReadyLater(l0.q, q)
        invariant handled + io == all && |io| <= n && stops == old(stops)
        invariant Follows(l0, Now()) && Invoked(l0.script, script, n - |io|)
        decreases |io|
      {
        RunCompletion(l0);
      }
    }

    /** The head of the completion queue. */
    method RunCompletion(ghost start: Shared)
      requires Valid() && io != [] && Follows(start, Now())
      modifies this
      ensures Valid() && (old(stop) ==> stop) && ReadyLater(old(q), q)
      ensures handled + io == old(handled + io) && |io| == old(|io|) - 1 && stops == old(stops)
      ensures Follows(start, Now()) && Invoked(old(script), script, 1)
    {
      ghost var l0 := Now();
      TakeCompletion();
      Act(0.0);
      FollowsTrans(start, l0, Now());
    }

    method TakeCompletion()
      requires io != []
      modifies this`handled, this`io
      ensures handled == old(handled) + [old(io)[0]] && io == old(io)[1..]
      ensures handled + io == old(handled + io) && |io| == old(|io|) - 1
    {
      handled := handled + [io[0]];
      io := io[1..];
    }

    /** One iteration: the entries queued at its start are handled, the rest waits for the next one. */
    method RunBatch(now: real)
      requires Valid()
      modifies this
      ensures Valid() && (old(stop) ==> stop)
      ensures q.popped == old(q.popped) + old(|ready|)
      ensures q.ran == Survivors(q.popped, q.cancelAt) && old(q.ran) <= q.ran
      ensures io == [] && handled == old(handled) + old(io)
      ensures stops == old(stops) + [stop]
      ensures Follows(old(Now()), Now())
    {
      ghost var l0 := Now();
      RunReady();
      ghost var l1 := Now();
      RunRest(now);
      FollowsTrans(l0, l1, Now());
      stops := stops + [stop];
    }

    /** The timer phase and the I/O phase. */
    method RunRest(now: real)
      requires Valid()
      modifies this
      ensures Valid() && (old(stop) ==> stop) && ReadyLater(old(q), q)
      ensures io == [] && handled == old(handled) + old(io) && stops == old(stops)
      ensures Follows(old(Now()), Now())
    {
      ghost var l0 := Now();
      RunTimers(now);
      ghost var l1 := Now();
      RunIo();
      ReadyLaterTrans(l0.q, l1.q, q);
      FollowsTrans(l0, l1, Now());
    }

    /** The watcher tasks queue completions while the loop yields or parks, then the batch runs. */
    method RunTick(tick: Tick)
      requires Valid()
      modifies this
      ensures Valid() && (old(stop) ==> stop)
      ensures io == [] && handled == (old(handled) + old(io)) + tick.completions
      ensures stops == old(stops) + [stop]
      ensures Follows(old(Now()), Now())
    {
      Regroup(handled, io, tick.completions);
      io := io + tick.completions;
      RunBatch(tick.now);
    }

    /**
     Whole runs: batch after batch, with other threads and watcher tasks in between, until stop() or out of clock
     readings.  Callbacks run in push order, each at most once, without exactly those cancelled before their turn;
     completions are handled in push order, each once; a stop() ends the run with the batch that saw it.
     */
    method RunMain(clock: seq<Tick>) returns (batches: nat)
      requires Valid() && !stop
      modifies this
      ensures Valid()
      ensures q.ran == Survivors(q.popped, q.cancelAt)
      // what was cancelled was cancelled by a request of the script
      ensures Follows(old(Now()), Now())
      // without such a request, every entry popped was invoked
      ensures (forall k :: CancelReady(k) !in old(script) && CancelReady(k) !in old(asked)) ==> q.ran == Iota(q.popped)
      ensures batches <= |clock|
      // every completion queued before the last batch is handled
      ensures handled + io == old(handled) + old(io) + Arrivals(clock[..batches]) && (0 < batches ==> io == [])
      // every batch but the last ended with the flag clear; short of the clock's end the last found it set
      ensures |stops| == old(|stops|) + batches && old(stops) <= stops
      ensures forall k :: old(|stops|) <= k < |stops| - 1 ==> !stops[k]
      ensures batches < |clock| ==> stop && 0 < batches && stops[|stops| - 1]
    {
      ghost var l0 := Now();
      batches := RunBatches(clock);
      if forall k :: CancelReady(k) !in l0.script && CancelReady(k) !in l0.asked {
        AllInvoked(l0, Now());
      }
    }

    /** The loop of `run_main`. */
    method RunBatches(clock: seq<Tick>) returns (batches: nat)
      requires Valid() && !stop
      modifies this
      ensures Valid()
      ensures Follows(old(Now()), Now())
      ensures batches <= |clock|
      ensures handled + io == old(handled) + old(io) + Arrivals(clock[..batches]) && (0 < batches ==> io == [])
      ensures |stops| == old(|stops|) + batches && old(stops) <= stops
      ensures forall k :: old(|stops|) <= k < |stops| - 1 ==> !stops[k]
      ensures batches < |clock| ==> stop && 0 < batches && stops[|stops| - 1]
    {
      ghost var all, l0, before := handled + io, Now(), stops;
      batches := 0;
      var more := true;
      assert all + [] == all;
      while more && batches < |clock|
        invariant Valid() && batches <= |clock| && Follows(l0, Now()) && (0 < batches ==> io == [])
        invariant Account(all, clock, batches, handled + io) && Flags(before, batches, more, stops) && (!more ==> stop)
      {
        ghost var sofar, flags := handled + io, stops;
        more := RunRound(clock[batches], l0);
        assert handled + io == handled;
        AccountOn(all, clock, batches, sofar);
        FlagsOn(before, batches, flags, more);
        batches := batches + 1;
      }
    }

    /** One batch, then other threads while the loop yields or parks, unless the batch found the stop flag set. */
    method RunRound(tick: Tick, ghost start: Shared) returns (more: bool)
      requires Valid() && Follows(start, Now())
      modifies this
      ensures Valid() && Follows(start, Now())
      ensures io == [] && handled == (old(handled) + old(io)) + tick.completions
      ensures stops == old(stops) + [!more] && (!more ==> stop)
    {
      ghost var l0 := Now();
      RunTick(tick);
      FollowsTrans(start, l0, Now());
      more := !stop;
      if more {
        ghost var l1 := Now();
        Act(0.0);
        FollowsTrans(start, l1, Now());
      }
    }
  }

  /** Everything queued before the batches so far. */
  predicate Account(all: seq<nat>, clock: seq<Tick>, batches: nat, sofar: seq<nat>) {
    batches <= |clock| && sofar == all + Arrivals(clock[..batches])
  }

  lemma AccountOn(all: seq<nat>, clock: seq<Tick>, batches: nat, sofar: seq<nat>)
    requires batches < |clock| && Account(all, clock, batches, sofar)
    ensures Account(all, clock, batches + 1, sofar + clock[batches].completions)
  {
    ArrivalsSnoc(clock, batches);
    Regroup(all, Arrivals(clock[..batches]), clock[batches].completions);
  }

  /** Every batch but a last one that ends the run left the flag clear. */
  predicate Flags(before: seq<bool>, batches: nat, more: bool, stops: seq<bool>) {
    && |stops| == |before| + batches && before <= stops
    && (forall k :: |before| <= k < |stops| - (if more then 0 else 1) ==> !stops[k])
    && (!more ==> 0 < batches && stops[|stops| - 1])
  }

  lemma FlagsOn(before: seq<bool>, batches: nat, stops: seq<bool>, more: bool)
    requires Flags(before, batches, true, stops)
    ensures Flags(before, batches + 1, more, stops + [!more])
  {
  }

  /** If nobody cancels, nobody is skipped. */
  lemma AllInvoked(a: Shared, b: Shared)
    requires Follows(a, b) && b.q.ran == Survivors(b.q.popped, b.q.cancelAt)
    requires Requested(b.q, b.w, b.stop, b.asked)
    requires forall k :: CancelReady(k) !in a.script && CancelReady(k) !in a.asked
    ensures b.q.ran == Iota(b.q.popped)
  {
    assert forall k :: k !in b.q.cancelAt;
    assert b.q.cancelAt == map[];
    NobodySkipped(b.q.popped);
  }

  lemma ReadyLaterTrans(a: ReadySide, b: ReadySide, c: ReadySide)
    requires ReadyLater(a, b) && ReadyLater(b, c)
    ensures ReadyLater(a, c)
  {
  }

  lemma Regroup(a: seq<nat>, b: seq<nat>, c: seq<nat>)
    ensures (a + b) + c == a + (b + c)
  {
  }

  /** The completions queued over a run. */
  function Arrivals(clock: seq<Tick>): seq<nat> {
    if clock == [] then [] else clock[0].completions + Arrivals(clock[1..])
  }

  lemma {:induction false} ArrivalsConcat(a: seq<Tick>, b: seq<Tick>)
    ensures Arrivals(a + b) == Arrivals(a) + Arrivals(b)
  {
    if a == [] {
      assert a + b == b;
    } else {
      ArrivalsConcat(a[1..], b);
      var ab := a + b;
      assert ab[0] == a[0] && ab[1..] == a[1..] + b;
      Regroup(a[0].completions, Arrivals(a[1..]), Arrivals(b));
    }
  }

  lemma ArrivalsSnoc(clock: seq<Tick>, i: nat)
    requires i < |clock|
    ensures Arrivals(clock[..i + 1]) == Arrivals(clock[..i]) + clock[i].completions
  {
    ArrivalsConcat(clock[..i], [clock[i]]);
    assert clock[..i] + [clock[i]] == clock[..i + 1];
    assert [clock[i]][1..] == [];
  }

  /** What ran omits exactly the entries cancelled before their turn ... */
  lemma {:induction false} SurvivorsMembers(n: nat, cancelAt: map<nat, nat>, k: nat)
    ensures k in Survivors(n, cancelAt) <==> k < n && !Skipped(cancelAt, k)
  {
    if n != 0 {
      SurvivorsMembers(n - 1, cancelAt, k);
    }
  }

  /** ... and follows push order, so nothing ran twice. */
  lemma {:induction false} SurvivorsOrdered(n: nat, cancelAt: map<nat, nat>, i: nat, j: nat)
    requires i < j < |Survivors(n, cancelAt)|
    ensures Survivors(n, cancelAt)[i] < Survivors(n, cancelAt)[j]
  {
    var p := Survivors(n - 1, cancelAt);
    if j < |p| {
      SurvivorsOrdered(n - 1, cancelAt, i, j);
    } else {
      SurvivorsMembers(n - 1, cancelAt, p[i]);
    }
  }

  /** No turn from the `n0`-th on came before its deadline. */
  predicate InTime(turns: seq<Turn>, n0: nat, now: real) {
    forall k :: n0 <= k < |turns| ==> NotAfter(turns[k].timer.when, now)
  }

  /** The turns are those of `due`, each once, in heap order. */
  ghost predicate SortedRun(turns: seq<Turn>, due: set<Timer>) {
    && (forall i, j :: 0 <= i < j < |turns| ==> Before(turns[i].timer, turns[j].timer))
    && (forall t :: t in due <==> exists i :: 0 <= i < |turns| && turns[i].timer == t)
  }

  /** The turns so far come before everything still due, and together they make up `all`. */
  ghost predicate Progress(turns: seq<Turn>, left: set<Timer>, all: set<Timer>) {
    && (forall i, j :: 0 <= i < j < |turns| ==> Before(turns[i].timer, turns[j].timer))
    && (forall i, t :: 0 <= i < |turns| && t in left ==> Before(turns[i].timer, t))
    && (forall t :: t in all <==> t in left || exists i :: 0 <= i < |turns| && turns[i].timer == t)
  }

  lemma ProgressStep(turns: seq<Turn>, timers: set<Timer>, top: Timer, turn: Turn, after: set<Timer>, now: real, all: set<Timer>)
    requires Progress(turns, Due(timers, now), all)
    requires Least(top, timers) && NotAfter(top.when, now) && turn.timer == top
    requires Due(after, now) == Due(timers - {top}, now)
    ensures Progress(turns + [turn], Due(after, now), all)
  {
    var next := turns + [turn];
    assert top in Due(timers, now);
    forall t
      ensures t in all <==> t in Due(after, now) || exists i :: 0 <= i < |next| && next[i].timer == t
    {
      assert next[|turns|].timer == top;
      if t in Due(timers, now) && t != top {
        assert t in Due(after, now);
      } else if exists i :: 0 <= i < |turns| && turns[i].timer == t {
        var i :| 0 <= i < |turns| && turns[i].timer == t;
        assert next[i].timer == t;
      }
    }
  }

  lemma RoundKeeps(turns: seq<Turn>, n0: nat, timers: set<Timer>, top: Timer,
                   turns': seq<Turn>, timers': set<Timer>, now: real, all: set<Timer>)
    requires n0 <= |turns| && Progress(turns[n0..], Due(timers, now), all)
    requires Least(top, timers) && NotAfter(top.when, now)
    requires |turns'| == |turns| + 1 && turns <= turns' && turns'[|turns|].timer == top
    requires Due(timers', now) == Due(timers - {top}, now)
    ensures Progress(turns'[n0..], Due(timers', now), all)
  {
    ProgressStep(turns[n0..], timers, top, turns'[|turns|], timers', now, all);
    assert turns'[n0..] == turns[n0..] + [turns'[|turns|]];
  }

  /** A popped timer took its turn. */
  predicate Turned(now: real, t: Timer, a: Shared, b: Shared) {
    && b.w.turns == a.w.turns + [Turn(t, t.seq_ !in a.w.cancelAt)]
    && (AllLater(a.script, now) ==> Due(b.w.timers, now) == Due(a.w.timers, now))
    && (|b.script| == |a.script| ==> b.w.timers == a.w.timers)
  }

  lemma RoundDone(now: real, top: Timer, a: Shared, p: Shared, b: Shared)
    requires Least(top, a.w.timers) && NotAfter(top.when, now)
    requires p == a.(w := a.w.(timers := a.w.timers - {top})) && |p.w.timers| < |a.w.timers|
    requires Turned(now, top, p, b) && Within(b.script, p.script)
    ensures Round(now, top, a, b)
  {
  }

  /** One timer took its turn. */
  predicate Round(now: real, top: Timer, a: Shared, b: Shared) {
    && Least(top, a.w.timers) && NotAfter(top.when, now)
    && b.w.turns == a.w.turns + [Turn(top, top.seq_ !in a.w.cancelAt)]
    && (|b.script| < |a.script| || |b.w.timers| < |a.w.timers|)
    && (AllLater(a.script, now) ==> Due(b.w.timers, now) == Due(a.w.timers - {top}, now))
  }

  ghost predicate TurnsSoFar(now: real, a: Shared, all: set<Timer>, b: Shared) {
    && a.w.turns <= b.w.turns
    && InTime(b.w.turns, |a.w.turns|, now)
    && (AllLater(a.script, now) ==> Progress(b.w.turns[|a.w.turns|..], Due(b.w.timers, now), all))
  }

  lemma TurnsGoOn(now: real, a: Shared, all: set<Timer>, b: Shared, top: Timer, c: Shared)
    requires TurnsSoFar(now, a, all, b) && Round(now, top, b, c) && Within(b.script, a.script)
    ensures TurnsSoFar(now, a, all, c)
  {
    if AllLater(a.script, now) {
      TailLater(b.script, a.script, now);
      RoundKeeps(b.w.turns, |a.w.turns|, b.w.timers, top, c.w.turns, c.w.timers, now, all);
    }
  }

  lemma TopNotDue(timers: set<Timer>, top: Timer, now: real)
    requires Numbers(timers) && Least(top, timers) && !NotAfter(top.when, now)
    ensures Due(timers, now) == {}
  {
    forall t | t in timers
      ensures !NotAfter(t.when, now)
    {
      TotalOrder(top, t, top);
    }
  }

  lemma TailLater(a: seq<Effect>, s: seq<Effect>, now: real)
    requires Within(a, s) && AllLater(s, now)
    ensures AllLater(a, now)
  {
  }
}
