/**
 The watcher registry as a value: which slot serves each direction of each descriptor,
 and what registering, replacing, detaching and cancelling do to it.

 A slot is the shared per-registration state; its number stands for its identity, and a
 handle is known by the slot it was created with.
 */
module Watchers {
  import opened Options

  datatype Direction = Reader | Writer

  /**
   cb, drain    a callback / a drain callback is stored
   dead         detached
   holdsFlag    still refers to its handle's cancellation flag
   cancelled    that flag
   */
  datatype Slot = Slot(fd: int, dir: Direction, cb: bool, drain: bool, dead: bool, holdsFlag: bool, cancelled: bool)

  datatype FdRecord = FdRecord(reader: Option<nat>, writer: Option<nat>)

  datatype Registry = Registry(slots: seq<Slot>, fds: map<int, FdRecord>, watchers: int, closed: bool)

  function Get(rec: FdRecord, d: Direction): Option<nat> {
    if d.Reader? then rec.reader else rec.writer
  }

  function Put(rec: FdRecord, d: Direction, x: Option<nat>): FdRecord {
    if d.Reader? then rec.(reader := x) else rec.(writer := x)
  }

  function RecordOf(fds: map<int, FdRecord>, fd: int): FdRecord {
    if fd in fds then fds[fd] else FdRecord(None, None)
  }

  function Entry(r: Registry, fd: int, d: Direction): Option<nat> {
    Get(RecordOf(r.fds, fd), d)
  }

  // ---------------------------------------------------------------------------
  // operations
  // ---------------------------------------------------------------------------

  /** What detaching does to the slot: cancel the handle, forget the callback, keep the drain callback. */
  function Killed(s: Slot): Slot {
    s.(cancelled := s.cancelled || s.holdsFlag, holdsFlag := false, cb := false, dead := true)
  }

  function KilledAt(slots: seq<Slot>, x: Option<nat>): seq<Slot> {
    if x.Some? && x.value < |slots| then slots[x.value := Killed(slots[x.value])] else slots
  }

  /** Register a watcher, replacing the one that serves this direction if there is one. */
  function Add(r: Registry, fd: int, d: Direction, drain: bool): Registry {
    var prev := Entry(r, fd, d);
    Registry(
      KilledAt(r.slots, prev) + [Slot(fd, d, !drain, drain, false, true, false)],
      r.fds[fd := Put(RecordOf(r.fds, fd), d, Some(|r.slots|))],
      r.watchers + (if prev.Some? then 0 else 1),
      r.closed)
  }

  function Detach(r: Registry, fd: int, d: Direction): Registry {
    var prev := Entry(r, fd, d);
    if prev.None? then r
    else
      var rec := Put(RecordOf(r.fds, fd), d, None);
      Registry(
        KilledAt(r.slots, prev),
        if rec == FdRecord(None, None) then r.fds - {fd} else r.fds[fd := rec],
        r.watchers - 1,
        r.closed)
  }

  predicate Polling(r: Registry, fd: int, d: Direction) {
    var x := Entry(r, fd, d);
    x.Some? && x.value < |r.slots| && !r.slots[x.value].dead && (r.slots[x.value].cb || r.slots[x.value].drain)
  }

  /** `FdHandle.cancel()`: flip the flag, then detach whatever serves the handle's direction. */
  function Cancel(r: Registry, id: nat): Registry
    requires id < |r.slots|
  {
    if r.slots[id].cancelled then r
    else Detach(r.(slots := r.slots[id := r.slots[id].(cancelled := true)]), r.slots[id].fd, r.slots[id].dir)
  }

  /**
   The done-callback of a sock_* future: `remove_reader(fd)` unless the handle is cancelled.
   `taken` tells that an open transport owns the descriptor, in which case the removal raises.
   */
  function SockDone(r: Registry, id: nat, taken: bool): Registry
    requires id < |r.slots|
  {
    if r.slots[id].cancelled || taken || r.closed then r
    else Detach(r, r.slots[id].fd, r.slots[id].dir)
  }

  predicate Serves(r: Registry, i: nat) {
    i < |r.slots| && Entry(r, r.slots[i].fd, r.slots[i].dir) == Some(i)
  }

  /** `close()`: every registered slot is detached. */
  function Closed(r: Registry): (c: Registry)
    ensures |c.slots| == |r.slots|
  {
    Registry(
      seq(|r.slots|, i requires 0 <= i < |r.slots| => if Serves(r, i) then Killed(r.slots[i]) else r.slots[i]),
      map[], 0, true)
  }

  datatype Op =
    | AddOp(fd: int, dir: Direction, drain: bool)
    | RemoveOp(fd: int, dir: Direction)
    | CancelOp(id: nat)
    | SockDoneOp(id: nat, taken: bool)
    | CloseOp

  /** One request; registering is refused on a closed loop and for a negative descriptor, and unknown handles do not exist. */
  function Do(r: Registry, op: Op): Registry {
    match op
    case AddOp(fd, d, drain) => if r.closed || fd < 0 || (drain && d.Writer?) then r else Add(r, fd, d, drain)
    case RemoveOp(fd, d) => if r.closed then r else Detach(r, fd, d)
    case CancelOp(id) => if id < |r.slots| then Cancel(r, id) else r
    case SockDoneOp(id, taken) => if id < |r.slots| then SockDone(r, id, taken) else r
    case CloseOp => if r.closed then r else Closed(r)
  }

  function DoAll(r: Registry, ops: seq<Op>): Registry
    decreases |ops|
  {
    if ops == [] then r else DoAll(Do(r, ops[0]), ops[1..])
  }

  function Empty(): Registry {
    Registry([], map[], 0, false)
  }

  // ---------------------------------------------------------------------------
  // invariant
  // ---------------------------------------------------------------------------

  /** The directions that have a watcher. */
  function Occupied(r: Registry): set<(int, Direction)> {
    set fd, d | fd in r.fds && Get(r.fds[fd], d).Some? :: (fd, d)
  }

  predicate SlotOk(r: Registry, i: nat)
    requires i < |r.slots|
  {
    var s := r.slots[i];
    && (!s.dead <==> Serves(r, i))
    && (s.cancelled <==> s.dead)
    && (s.holdsFlag <==> !s.dead)
    && (s.dead ==> !s.cb)
    && (!s.dead ==> s.cb != s.drain)
  }

  predicate EntryOk(r: Registry, fd: int, d: Direction) {
    var x := Entry(r, fd, d);
    x.Some? ==> x.value < |r.slots| && r.slots[x.value].fd == fd && r.slots[x.value].dir == d
  }

  ghost predicate Sound(r: Registry) {
    && (forall i :: 0 <= i < |r.slots| ==> SlotOk(r, i))
    && (forall fd, d :: EntryOk(r, fd, d))
    && (forall fd :: fd in r.fds ==> r.fds[fd] != FdRecord(None, None))
    && r.watchers == |Occupied(r)|
  }

  // ---------------------------------------------------------------------------
  // every operation keeps it
  // ---------------------------------------------------------------------------

  lemma AddEntries(r: Registry, fd: int, d: Direction, drain: bool, fd': int, d': Direction)
    ensures Entry(Add(r, fd, d, drain), fd', d') ==
            if fd' == fd && d' == d then Some(|r.slots|) else Entry(r, fd', d')
  {
  }

  lemma DetachEntries(r: Registry, fd: int, d: Direction, fd': int, d': Direction)
    ensures Entry(Detach(r, fd, d), fd', d') == if fd' == fd && d' == d then None else Entry(r, fd', d')
  {
  }

  lemma AddKeepsSlots(r: Registry, fd: int, d: Direction, drain: bool)
    requires Sound(r)
    ensures var u := Add(r, fd, d, drain);
            && (forall i :: 0 <= i < |u.slots| ==> SlotOk(u, i))
            && (forall f, e :: EntryOk(u, f, e))
  {
    var u := Add(r, fd, d, drain);
    forall i | 0 <= i < |u.slots|
      ensures SlotOk(u, i)
    {
      AddEntries(r, fd, d, drain, u.slots[i].fd, u.slots[i].dir);
      if i < |r.slots| {
        assert SlotOk(r, i) && EntryOk(r, fd, d);
      }
    }
    forall f, e
      ensures EntryOk(u, f, e)
    {
      AddEntries(r, fd, d, drain, f, e);
      assert EntryOk(r, f, e);
    }
  }

  lemma AddKeeps(r: Registry, fd: int, d: Direction, drain: bool)
    requires Sound(r)
    ensures Sound(Add(r, fd, d, drain))
  {
    var u := Add(r, fd, d, drain);
    AddKeepsSlots(r, fd, d, drain);
    forall f, e
      ensures (f, e) in Occupied(u) <==> (f, e) in Occupied(r) + {(fd, d)}
    {
      AddEntries(r, fd, d, drain, f, e);
    }
    assert Occupied(u) == Occupied(r) + {(fd, d)};
  }

  /** Detaching one direction, whatever its flag says: what `cancel()` relies on after flipping the flag. */
  lemma DetachKeepsSlots(r: Registry, fd: int, d: Direction)
    requires Sound(r)
    ensures var u := Detach(r, fd, d);
            && (forall i :: 0 <= i < |u.slots| ==> SlotOk(u, i))
            && (forall f, e :: EntryOk(u, f, e))
  {
    var u := Detach(r, fd, d);
    assert EntryOk(r, fd, d);
    forall i | 0 <= i < |u.slots|
      ensures SlotOk(u, i)
    {
      DetachEntries(r, fd, d, u.slots[i].fd, u.slots[i].dir);
      assert SlotOk(r, i);
    }
    forall f, e
      ensures EntryOk(u, f, e)
    {
      DetachEntries(r, fd, d, f, e);
      assert EntryOk(r, f, e);
    }
  }

  lemma DetachKeeps(r: Registry, fd: int, d: Direction)
    requires Sound(r)
    ensures Sound(Detach(r, fd, d))
  {
    var u := Detach(r, fd, d);
    DetachKeepsSlots(r, fd, d);
    forall f, e
      ensures (f, e) in Occupied(u) <==> (f, e) in Occupied(r) - {(fd, d)}
    {
      DetachEntries(r, fd, d, f, e);
    }
    assert Occupied(u) == Occupied(r) - {(fd, d)};
    if Entry(r, fd, d).Some? {
      assert (fd, d) in Occupied(r);
    }
  }

  /** Flipping the flag first changes nothing: detaching sets it anyway. */
  lemma CancelIsDetach(r: Registry, id: nat)
    requires Sound(r) && id < |r.slots|
    ensures Cancel(r, id) == if r.slots[id].cancelled then r else Detach(r, r.slots[id].fd, r.slots[id].dir)
  {
    assert SlotOk(r, id);
    var s := r.slots[id];
    if !s.cancelled {
      var flipped := r.(slots := r.slots[id := s.(cancelled := true)]);
      assert Entry(flipped, s.fd, s.dir) == Some(id);
      assert KilledAt(flipped.slots, Some(id)) == KilledAt(r.slots, Some(id));
    }
  }

  lemma CloseKeeps(r: Registry)
    requires Sound(r)
    ensures Sound(Closed(r))
  {
    var u := Closed(r);
    forall i | 0 <= i < |u.slots|
      ensures SlotOk(u, i)
    {
      assert SlotOk(r, i);
    }
    assert Occupied(u) == {};
  }

  lemma DoKeeps(r: Registry, op: Op)
    requires Sound(r)
    ensures Sound(Do(r, op))
  {
    match op
    case AddOp(fd, d, drain) => AddKeeps(r, fd, d, drain);
    case RemoveOp(fd, d) => DetachKeeps(r, fd, d);
    case CancelOp(id) =>
      if id < |r.slots| {
        CancelIsDetach(r, id);
        DetachKeeps(r, r.slots[id].fd, r.slots[id].dir);
      }
    case SockDoneOp(id, _) =>
      if id < |r.slots| {
        DetachKeeps(r, r.slots[id].fd, r.slots[id].dir);
      }
    case CloseOp => CloseKeeps(r);
  }

  lemma {:induction false} DoAllKeeps(r: Registry, ops: seq<Op>)
    requires Sound(r)
    ensures Sound(DoAll(r, ops))
    decreases |ops|
  {
    if ops != [] {
      DoKeeps(r, ops[0]);
      DoAllKeeps(Do(r, ops[0]), ops[1..]);
    }
  }

  // ---------------------------------------------------------------------------
  // results, over every sequence of requests
  // ---------------------------------------------------------------------------

  lemma Reachable(ops: seq<Op>)
    ensures Sound(DoAll(Empty(), ops))
  {
    assert Occupied(Empty()) == {};
    DoAllKeeps(Empty(), ops);
  }

  /** A handle is uncancelled exactly while the registry entry of its descriptor and direction is its own slot. */
  lemma HandleIdentity(ops: seq<Op>, id: nat)
    requires id < |DoAll(Empty(), ops).slots|
    ensures var r := DoAll(Empty(), ops); !r.slots[id].cancelled <==> Serves(r, id)
  {
    Reachable(ops);
    assert SlotOk(DoAll(Empty(), ops), id);
  }

  /** The watcher count, the emptiness of records and the polling query agree with the registry. */
  lemma Accounting(ops: seq<Op>, fd: int, d: Direction)
    ensures var r := DoAll(Empty(), ops);
            && r.watchers == |Occupied(r)|
            && (fd in r.fds ==> r.fds[fd].reader.Some? || r.fds[fd].writer.Some?)
            && (Polling(r, fd, d) <==> Entry(r, fd, d).Some?)
  {
    Reachable(ops);
    var r := DoAll(Empty(), ops);
    assert EntryOk(r, fd, d);
    if Entry(r, fd, d).Some? {
      assert SlotOk(r, Entry(r, fd, d).value);
    }
  }

  /** Registering takes over the direction with a new, uncancelled handle; whoever served it before is cancelled. */
  lemma AddTakesOver(r: Registry, fd: int, d: Direction, drain: bool)
    requires Sound(r) && !r.closed && 0 <= fd && (drain ==> d.Reader?)
    ensures var u := Do(r, AddOp(fd, d, drain));
            var id := |r.slots|;
            && |u.slots| == id + 1 && Serves(u, id) && !u.slots[id].cancelled
            && u.slots[id].fd == fd && u.slots[id].dir == d && u.slots[id].drain == drain && u.slots[id].cb == !drain
            && Polling(u, fd, d)
            && (forall i :: 0 <= i < id && Serves(r, i) && r.slots[i].fd == fd && r.slots[i].dir == d ==> u.slots[i].cancelled)
            && (forall i :: 0 <= i < id && (r.slots[i].fd != fd || r.slots[i].dir != d) ==> u.slots[i] == r.slots[i])
  {
    AddEntries(r, fd, d, drain, fd, d);
    assert EntryOk(r, fd, d);
    forall i | 0 <= i < |r.slots| && Serves(r, i) && r.slots[i].fd == fd && r.slots[i].dir == d
      ensures Add(r, fd, d, drain).slots[i].cancelled
    {
      assert SlotOk(r, i);
    }
  }

  /** Removing frees the direction, and cancelling a live handle frees its own. */
  lemma RemovalTakesEffect(r: Registry, fd: int, d: Direction, id: nat)
    requires Sound(r) && !r.closed && id < |r.slots|
    ensures !Polling(Do(r, RemoveOp(fd, d)), fd, d)
    ensures Serves(r, id) && r.slots[id].fd == fd && r.slots[id].dir == d ==> Do(r, RemoveOp(fd, d)).slots[id].cancelled
    ensures var u := Do(r, CancelOp(id)); id < |u.slots| && u.slots[id].cancelled && !Serves(u, id)
  {
    DoKeeps(r, RemoveOp(fd, d));
    DoKeeps(r, CancelOp(id));
    DetachEntries(r, fd, d, fd, d);
    assert SlotOk(r, id);
    CancelIsDetach(r, id);
    CancelFrees(r, id);
  }

  lemma CancelFrees(r: Registry, id: nat)
    requires Sound(r) && id < |r.slots|
    ensures var u := Cancel(r, id); id < |u.slots| && u.slots[id].cancelled && !Serves(u, id)
  {
    CancelIsDetach(r, id);
    assert SlotOk(r, id);
    if !r.slots[id].cancelled {
      DetachEntries(r, r.slots[id].fd, r.slots[id].dir, r.slots[id].fd, r.slots[id].dir);
    }
  }

  /**
   Whatever is requested, a registration keeps its descriptor, its direction and its drain callback: what a
   detached drain watcher has already read is still delivered.
   */
  lemma DrainStays(r: Registry, op: Op, i: nat)
    requires Sound(r) && i < |r.slots|
    ensures var u := Do(r, op);
            && i < |u.slots| && u.slots[i].drain == r.slots[i].drain
            && u.slots[i].fd == r.slots[i].fd && u.slots[i].dir == r.slots[i].dir
  {
  }

  lemma {:induction false} DrainStaysForever(r: Registry, ops: seq<Op>, i: nat)
    requires Sound(r) && i < |r.slots|
    ensures var u := DoAll(r, ops);
            && i < |u.slots| && u.slots[i].drain == r.slots[i].drain
            && u.slots[i].fd == r.slots[i].fd && u.slots[i].dir == r.slots[i].dir
    decreases |ops|
  {
    if ops != [] {
      DrainStays(r, ops[0], i);
      DoKeeps(r, ops[0]);
      DrainStaysForever(Do(r, ops[0]), ops[1..], i);
    }
  }

  /** On a closed loop nothing is registered, and nothing ever is again: every registration is cancelled for good. */
  lemma ClosedForGood(r: Registry, ops: seq<Op>)
    requires Sound(r) && !r.closed
    ensures var u := DoAll(Do(r, CloseOp), ops);
            && u.closed && u.watchers == 0 && u.fds == map[]
            && |u.slots| == |r.slots| && (forall i :: 0 <= i < |u.slots| ==> u.slots[i].cancelled)
  {
    DoKeeps(r, CloseOp);
    CloseEmpties(r);
    StaysClosed(Do(r, CloseOp), ops);
  }

  lemma CloseEmpties(r: Registry)
    requires Sound(r) && !r.closed
    ensures var c := Do(r, CloseOp);
            && c.closed && c.fds == map[] && c.watchers == 0 && (forall i :: 0 <= i < |c.slots| ==> c.slots[i].cancelled)
  {
    var c := Do(r, CloseOp);
    forall i | 0 <= i < |c.slots|
      ensures c.slots[i].cancelled
    {
      assert SlotOk(r, i);
    }
  }

  /** No request changes a closed registry: it has no uncancelled handle left. */
  lemma {:induction false} StaysClosed(c: Registry, ops: seq<Op>)
    requires Sound(c) && c.closed && c.fds == map[]
    ensures DoAll(c, ops) == c
    decreases |ops|
  {
    if ops != [] {
      if ops[0].CancelOp? && ops[0].id < |c.slots| {
        assert SlotOk(c, ops[0].id);
      }
      StaysClosed(Do(c, ops[0]), ops[1..]);
    }
  }

  /** Cancelling a handle, or completing its future, touches no slot but its own. */
  lemma CancelTouchesOwnSlot(ops: seq<Op>, id: nat, taken: bool, other: nat)
    requires var r := DoAll(Empty(), ops); id < |r.slots| && other < |r.slots| && other != id
    ensures var r := DoAll(Empty(), ops);
            && Cancel(r, id).slots[other] == r.slots[other]
            && (Serves(r, other) ==> Serves(Cancel(r, id), other))
            && SockDone(r, id, taken).slots[other] == r.slots[other]
            && (Serves(r, other) ==> Serves(SockDone(r, id, taken), other))
  {
    Reachable(ops);
    var r := DoAll(Empty(), ops);
    CancelIsDetach(r, id);
    assert SlotOk(r, id);
    DetachEntries(r, r.slots[id].fd, r.slots[id].dir, r.slots[other].fd, r.slots[other].dir);
  }

  /**
   A future whose accept was re-registered any number of times leaves one done-callback per
   registration.  When it completes they all run; slots of other registrations stay as they were.
   */
  function AllDone(r: Registry, ids: seq<nat>, taken: bool): Registry
    decreases |ids|
  {
    if ids == [] then r else AllDone(Do(r, SockDoneOp(ids[0], taken)), ids[1..], taken)
  }

  lemma {:induction false} AcceptDoneSparesOthers(r: Registry, ids: seq<nat>, taken: bool, other: nat)
    requires Sound(r) && other < |r.slots| && other !in ids
    ensures var u := AllDone(r, ids, taken);
            && |u.slots| == |r.slots| && u.slots[other] == r.slots[other]
            && (Serves(r, other) <==> Serves(u, other))
    decreases |ids|
  {
    if ids != [] {
      var op := SockDoneOp(ids[0], taken);
      DoKeeps(r, op);
      var u := Do(r, op);
      if ids[0] < |r.slots| {
        assert SlotOk(r, ids[0]);
        DetachEntries(r, r.slots[ids[0]].fd, r.slots[ids[0]].dir, r.slots[other].fd, r.slots[other].dir);
      }
      assert SlotOk(r, other) && SlotOk(u, other);
      AcceptDoneSparesOthers(u, ids[1..], taken, other);
    }
  }

  /** And unless the loop is closed or a transport owns the descriptor, none of its own registrations survives. */
  lemma {:induction false} AcceptDoneRemovesAll(r: Registry, ids: seq<nat>, k: nat)
    requires Sound(r) && !r.closed && k < |ids| && ids[k] < |r.slots|
    ensures var u := AllDone(r, ids, false); ids[k] < |u.slots| && u.slots[ids[k]].cancelled
    decreases |ids|
  {
    var op := SockDoneOp(ids[0], false);
    DoKeeps(r, op);
    var u := Do(r, op);
    if k == 0 {
      assert SlotOk(r, ids[0]);
      assert u.slots[ids[0]].cancelled;
      CancelledStays(u, ids[1..], ids[0]);
    } else {
      AcceptDoneRemovesAll(u, ids[1..], k - 1);
    }
  }

  lemma {:induction false} CancelledStays(r: Registry, ids: seq<nat>, id: nat)
    requires id < |r.slots| && r.slots[id].cancelled
    ensures var u := AllDone(r, ids, false); id < |u.slots| && u.slots[id].cancelled
    decreases |ids|
  {
    if ids != [] {
      CancelledStays(Do(r, SockDoneOp(ids[0], false)), ids[1..], id);
    }
  }

  /** Whatever happens later, a dead slot stays dead and never gets its callback back. */
  lemma DeadStays(r: Registry, op: Op, i: nat)
    requires i < |r.slots| && r.slots[i].dead && !r.slots[i].cb
    ensures i < |Do(r, op).slots| && Do(r, op).slots[i].dead && !Do(r, op).slots[i].cb
  {
  }
}
