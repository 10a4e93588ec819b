/** The registry as the loop keeps it: fields updated in place, each method against the value it computes. */
module FdRegistry {
  import opened Options
  import opened Watchers

  datatype AddResult = Handle(id: nat) | LoopClosed | NegativeFd | OsError

  class LoopRegistry {
    var slots: seq<Slot>
    var fds: map<int, FdRecord>
    var watchers: int
    var closed: bool

    ghost function View(): Registry reads this {
      Registry(slots, fds, watchers, closed)
    }

    constructor ()
      ensures View() == Empty()
    {
      slots, fds, watchers, closed := [], map[], 0, false;
    }

    /** Shared tail of every detachment: cancel the handle, drop the callback, mark the slot dead. */
    method Kill(i: nat)
      requires i < |slots|
      modifies this`slots
      ensures slots == KilledAt(old(slots), Some(i))
    {
      var s := slots[i];
      if s.holdsFlag {
        s := s.(holdsFlag := false);
        s := s.(cancelled := true);
      }
      s := s.(cb := false);
      s := s.(dead := true);
      slots := slots[i := s];
    }

    /** `dupFails` stands for an error of dup(2) or of the reactor registration; nothing has changed by then. */
    method AddWatcher(fd: int, d: Direction, drain: bool, dupFails: bool) returns (r: AddResult)
      requires Sound(View())
      requires drain ==> d.Reader?
      modifies this
      ensures Sound(View())
      ensures if old(closed) then r == LoopClosed && View() == old(View())
              else if fd < 0 then r == NegativeFd && View() == old(View())
              else if dupFails then r == OsError && View() == old(View())
              else r == Handle(|old(slots)|) && View() == Add(old(View()), fd, d, drain)
    {
      if closed {
        return LoopClosed;
      }
      if fd < 0 {
        return NegativeFd;
      }
      if dupFails {
        return OsError;
      }
      AddKeeps(View(), fd, d, drain);
      assert EntryOk(View(), fd, d);
      var id := |slots|;
      var rec := if fd in fds then fds[fd] else FdRecord(None, None);
      var prev := if d.Reader? then rec.reader else rec.writer;
      if prev.Some? {
        Kill(prev.value);
      } else {
        watchers := watchers + 1;
      }
      slots := slots + [Slot(fd, d, !drain, drain, false, true, false)];
      fds := fds[fd := if d.Reader? then rec.(reader := Some(id)) else rec.(writer := Some(id))];
      r := Handle(id);
    }

    method DetachWatcher(fd: int, d: Direction) returns (found: bool)
      requires Sound(View())
      modifies this
      ensures Sound(View())
      ensures View() == Detach(old(View()), fd, d)
      ensures found <==> Entry(old(View()), fd, d).Some?
    {
      DetachKeeps(View(), fd, d);
      assert EntryOk(View(), fd, d);
      found := DetachEntry(fd, d);
    }

    /** The body of `detach_watcher`, which does not look at the cancellation flag. */
    method DetachEntry(fd: int, d: Direction) returns (found: bool)
      requires EntryOk(View(), fd, d)
      modifies this
      ensures View() == Detach(old(View()), fd, d)
      ensures found <==> Entry(old(View()), fd, d).Some?
    {
      if fd !in fds {
        return false;
      }
      var rec := fds[fd];
      var prev := if d.Reader? then rec.reader else rec.writer;
      if prev.None? {
        return false;
      }
      rec := if d.Reader? then rec.(reader := None) else rec.(writer := None);
      Kill(prev.value);
      watchers := watchers - 1;
      if rec.reader.None? && rec.writer.None? {
        fds := fds - {fd};
      } else {
        fds := fds[fd := rec];
      }
      found := true;
    }

    /** `FdHandle.cancel()` of the handle created with slot `id`. */
    method CancelHandle(id: nat) returns (first: bool)
      requires Sound(View()) && id < |slots|
      modifies this
      ensures Sound(View())
      ensures View() == Cancel(old(View()), id)
      ensures first <==> !old(slots)[id].cancelled
      ensures forall j :: 0 <= j < |slots| && j != id ==> slots[j] == old(slots)[j]
    {
      assert SlotOk(View(), id);
      CancelIsDetach(View(), id);
      DetachKeeps(View(), slots[id].fd, slots[id].dir);
      var s := slots[id];
      if s.cancelled {
        return false;
      }
      slots := slots[id := s.(cancelled := true)];
      assert Entry(View(), s.fd, s.dir) == Some(id);
      var _ := DetachEntry(s.fd, s.dir);
      first := true;
    }

    /** Whether a live watcher serves this direction: a plain membership test in every reachable state. */
    method IsPolling(fd: int, d: Direction) returns (p: bool)
      requires Sound(View())
      ensures p <==> (fd, d) in Occupied(View())
    {
      assert EntryOk(View(), fd, d);
      if fd !in fds {
        return false;
      }
      var rec := fds[fd];
      var x := if d.Reader? then rec.reader else rec.writer;
      if x.None? {
        return false;
      }
      var s := slots[x.value];
      assert SlotOk(View(), x.value);
      p := !s.dead && (s.cb || s.drain);
    }

    /** Detach both directions of one descriptor, whose slots are still as they were in `before`. */
    method KillRecord(fd: int, ghost before: Registry)
      requires Sound(before) && fds == before.fds && fd in fds && |slots| == |before.slots|
      requires forall i :: 0 <= i < |slots| && before.slots[i].fd == fd ==> slots[i] == before.slots[i]
      modifies this`slots
      ensures |slots| == |old(slots)|
      ensures forall i :: 0 <= i < |slots| ==>
                slots[i] == if Serves(before, i) && before.slots[i].fd == fd
                            then Killed(before.slots[i]) else old(slots)[i]
    {
      assert EntryOk(before, fd, Reader) && EntryOk(before, fd, Writer);
      if fds[fd].reader.Some? {
        Kill(fds[fd].reader.value);
      }
      if fds[fd].writer.Some? {
        Kill(fds[fd].writer.value);
      }
    }

    /** `close()`: detach every watcher. */
    method AbortAll()
      requires Sound(View()) && !closed
      modifies this
      ensures Sound(View())
      ensures View() == Closed(old(View()))
    {
      ghost var before := View();
      CloseKeeps(before);
      var todo: set<int> := fds.Keys;
      while todo != {}
        invariant fds == before.fds && watchers == before.watchers && closed == before.closed
        invariant todo <= fds.Keys
        invariant |slots| == |before.slots|
        invariant forall i :: 0 <= i < |slots| ==>
                    slots[i] == if Serves(before, i) && before.slots[i].fd !in todo
                                then Killed(before.slots[i]) else before.slots[i]
        decreases |todo|
      {
        var fd := Pick(todo);
        KillRecord(fd, before);
        todo := todo - {fd};
      }
      assert forall i :: 0 <= i < |slots| && Serves(before, i) ==> before.slots[i].fd in before.fds;
      assert slots == Closed(before).slots;
      fds := map[];
      watchers := 0;
      closed := true;
    }
  }

  /** Some element: hash map iteration order is unspecified. */
  method Pick<T(==)>(s: set<T>) returns (x: T)
    requires s != {}
    ensures x in s
  {
    x :| x in s;
  }
}
