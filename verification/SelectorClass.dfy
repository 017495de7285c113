/** struct fdselector of src/selector.c: the table in memory and its derived fields. */
module SelectorClass {
  import opened Bytes
  import opened SelectorModule

  /** struct item; a slot whose fd is FD_UNUSED is free, whatever else it holds. */
  datatype Slot<H> = Slot(fd: int, interest: Interest, handler: Option<H>, data: nat)

  predicate Used<H>(s: Slot<H>) { s.fd != FD_UNUSED }

  /** The table in a block of slots. */
  function Table<H>(slots: seq<Slot<H>>): map<int, Item<H>>
    requires forall i :: 0 <= i < |slots| && Used(slots[i]) ==> slots[i].handler.Some?
  {
    map i | 0 <= i < |slots| && Used(slots[i]) :: Item(slots[i].interest, slots[i].handler.value, slots[i].data)
  }

  /** Slot i, when used, is about descriptor i, below the platform limit, and has handlers. */
  ghost predicate GoodSlots<H>(slots: seq<Slot<H>>) {
    forall i :: 0 <= i < |slots| && Used(slots[i]) ==>
      slots[i].fd == i && i < MAX_SIZE && slots[i].handler.Some?
  }

  ghost predicate IsMax<H>(m: int, items: map<int, Item<H>>) {
    && 0 <= m && (m == 0 || m in items)
    && forall fd :: fd in items ==> fd <= m
  }

  ghost function Readers<H>(items: map<int, Item<H>>): set<int> {
    set fd | fd in items && items[fd].interest.read
  }

  ghost function Writers<H>(items: map<int, Item<H>>): set<int> {
    set fd | fd in items && items[fd].interest.write
  }

  /** The close handlers run when the slots i, i + 1, ... are torn down in order. */
  ghost function CloseCalls<H>(items: map<int, Item<H>>, i: nat, n: nat, hasClose: H -> bool): seq<(int, nat)>
    requires i <= n
    decreases n - i
  {
    if i == n then []
    else
      (if i in items && hasClose(items[i].handler) then [(i as int, items[i].data)] else [])
      + CloseCalls(items, i + 1, n, hasClose)
  }

  /** Tear-down reaches each used item with a close handler exactly once, and nothing else. */
  lemma {:induction false} CloseCallsOnce<H>(
    items: map<int, Item<H>>, i: nat, n: nat, hasClose: H -> bool, fd: int, data: nat)
    requires i <= n
    ensures multiset(CloseCalls(items, i, n, hasClose))[(fd, data)] ==
            if i <= fd < n && fd in items && hasClose(items[fd].handler) && items[fd].data == data then 1 else 0
    decreases n - i
  {
    if i < n {
      CloseCallsOnce(items, i + 1, n, hasClose, fd, data);
      var first: seq<(int, nat)> := if i in items && hasClose(items[i].handler) then [(i as int, items[i].data)] else [];
      var later := CloseCalls(items, i + 1, n, hasClose);
      assert multiset(first + later) == multiset(first) + multiset(later);
      assert multiset(first)[(fd, data)] ==
             if fd == i && i in items && hasClose(items[i].handler) && items[i].data == data then 1 else 0;
    }
  }

  class Selector<H> {
    const hasClose: H -> bool
    var fds: array<Slot<H>>  // of length fd_size; length 0 is the NULL pointer
    var max_fd: int
    var master_r: set<int>
    var master_w: set<int>
    var resolution_jobs: seq<int>
    var closed: seq<(int, nat)>  // history of handle_close calls: descriptor and data

    ghost predicate Valid()
      reads this, fds
    {
      && GoodSlots(fds[..])
      && master_r == Readers(Items()) && master_w == Writers(Items())
      && IsMax(max_fd, Items())
      && (fds.Length > 0 ==> max_fd < fds.Length) && (fds.Length == 0 ==> max_fd == 0)
    }

    function Items(): map<int, Item<H>>
      requires GoodSlots(fds[..])
      reads this, fds
    {
      Table(fds[..])
    }

    constructor (hasClose: H -> bool)
      ensures Valid() && Items() == map[] && fresh(fds) && fds.Length == 0
      ensures resolution_jobs == [] && closed == [] && this.hasClose == hasClose
    {
      this.hasClose := hasClose;
      fds := new Slot<H>[0];
      max_fd, master_r, master_w := 0, {}, {};
      resolution_jobs, closed := [], [];
    }

    /** items_init: the slots from `last` on become free. */
    method ItemsInit(last: nat)
      requires last <= fds.Length
      modifies fds
      ensures forall i :: 0 <= i < last ==> fds[i] == old(fds[i])
      ensures forall i :: last <= i < fds.Length ==> !Used(fds[i])
    {
      var i := last;
      while i < fds.Length
        invariant last <= i <= fds.Length
        invariant forall k :: 0 <= k < last ==> fds[k] == old(fds[k])
        invariant forall k :: last <= k < i ==> !Used(fds[k])
      {
        fds[i] := fds[i].(fd := FD_UNUSED);
        i := i + 1;
      }
    }

    /**
     * ensure_capacity. On success slot n exists, the table never shrinks and
     * keeps every item; on failure nothing changes. `oom` is the allocator's answer.
     */
    method EnsureCapacity(n: nat, oom: bool) returns (status: Status)
      requires Valid()
      modifies this`fds
      ensures Valid() && Items() == old(Items()) && (fds == old(fds) || fresh(fds))
      ensures status == if n < old(fds).Length then Success else if n > MAX_SIZE then MaxFd
                        else if oom then NoMemory else Success
      ensures status.Success? ==> fds.Length > n && fds.Length >= old(fds).Length
      ensures status.Success? && n == MAX_SIZE && old(fds).Length <= n ==> fds.Length == MAX_SIZE + 1
      ensures !status.Success? ==> fds == old(fds)
    {
      if n < fds.Length {
        return Success;
      }
      if n > MAX_SIZE {
        return MaxFd;
      }
      var size := NextCapacity(n);
      if oom {
        return NoMemory;
      }
      Grow(size);
      return Success;
    }

    /** calloc or realloc, then items_init of the new slots. */
    method Grow(size: nat)
      requires Valid() && fds.Length < size
      modifies this`fds
      ensures Valid() && Items() == old(Items()) && fresh(fds) && fds.Length == size
    {
      var old_fds := fds;
      var tmp := new Slot<H>[size](_ => Slot(0, NOOP, None, 0));
      var i := 0;
      while i < old_fds.Length
        invariant 0 <= i <= old_fds.Length
        invariant fds == old_fds && old_fds[..] == old(fds[..])
        invariant forall k :: 0 <= k < i ==> tmp[k] == old_fds[k]
      {
        tmp[i] := old_fds[i];
        i := i + 1;
      }
      fds := tmp;
      ItemsInit(old_fds.Length);
      GrownTable(old_fds[..], fds[..]);
    }

    static lemma GrownTable(before: seq<Slot<H>>, after: seq<Slot<H>>)
      requires GoodSlots(before) && |before| <= |after|
      requires forall k :: 0 <= k < |before| ==> after[k] == before[k]
      requires forall k :: |before| <= k < |after| ==> !Used(after[k])
      ensures GoodSlots(after) && Table(after) == Table(before)
    {
    }

    /** items_update_fdset_for_fd, for the item of a used or just cleared slot. */
    method UpdateFdset(fd: int, used: bool, interest: Interest)
      modifies this`master_r, this`master_w
      ensures master_r == old(master_r) - {fd} + if used && interest.read then {fd} else {}
      ensures master_w == old(master_w) - {fd} + if used && interest.write then {fd} else {}
    {
      master_r := master_r - {fd};
      master_w := master_w - {fd};
      if used {
        if interest.read {
          master_r := master_r + {fd};
        }
        if interest.write {
          master_w := master_w + {fd};
        }
      }
    }

    /** items_max_fd. */
    method ItemsMaxFd() returns (m: int)
      requires GoodSlots(fds[..]) && 0 <= max_fd < fds.Length
      requires forall fd :: fd in Items() ==> fd <= max_fd
      ensures IsMax(m, Items()) && m <= max_fd
    {
      m := 0;
      var i := 0;
      while i <= max_fd
        invariant 0 <= i <= max_fd + 1
        invariant 0 <= m <= max_fd && (m == 0 || m in Items())
        invariant forall fd :: fd in Items() && fd < i ==> fd <= m
      {
        if Used(fds[i]) {
          if fds[i].fd > m {
            m := fds[i].fd;
          }
        }
        i := i + 1;
      }
    }

    /** Writing one slot changes one entry of the table. */
    static lemma PutSlot(before: seq<Slot<H>>, fd: nat, s: Slot<H>)
      requires GoodSlots(before) && fd < |before| && fd < MAX_SIZE
      requires Used(s) ==> s.fd == fd && s.handler.Some?
      ensures GoodSlots(before[fd := s])
      ensures Table(before[fd := s]) ==
              if Used(s) then Table(before)[fd as int := Item(s.interest, s.handler.value, s.data)]
              else Table(before) - {fd as int}
    {
      assert forall i :: 0 <= i < |before| && i != fd ==> before[fd := s][i] == before[i];
    }

    /**
     * selector_register. The growth test asks fd > fd_size where fd == fd_size
     * needs growth too; `stray` says that the code would go on to use a slot
     * behind the table, which is where this method stops.
     */
    method Register(fd: int, handler: Option<H>, interest: Interest, data: nat, oom: bool)
      returns (status: Status, stray: bool)
      requires Valid()
      modifies this, fds
      ensures Valid() && fds.Length >= old(fds).Length && (fds == old(fds) || fresh(fds))
      ensures InvalidFd(fd) || fd <= old(fds).Length ==> fds == old(fds)
      ensures closed == old(closed) && resolution_jobs == old(resolution_jobs)
      ensures stray <==> !InvalidFd(fd) && handler.Some? && fd == old(fds).Length
      ensures if InvalidFd(fd) || handler.None? || stray then status == IllegalArgs && Items() == old(Items())
              else if fd > old(fds).Length && oom then status == NoMemory && Items() == old(Items())
              else (Items(), status) == AfterRegister(old(Items()), fd, Item(interest, handler.value, data))
    {
      if InvalidFd(fd) || handler.None? {
        return IllegalArgs, false;
      }
      if fd > fds.Length {
        status := EnsureCapacity(fd, oom);
        if !status.Success? {
          return status, false;
        }
      }
      if fd >= fds.Length {
        return IllegalArgs, true;
      }
      if Used(fds[fd]) {
        return FdInUse, false;
      }
      Occupy(fd, Slot(fd, interest, handler, data));
      return Success, false;
    }

    /** The registration proper. */
    method Occupy(fd: nat, s: Slot<H>)
      requires Valid() && fd < fds.Length && fd < MAX_SIZE && fd !in Items()
      requires s.fd == fd && s.handler.Some?
      modifies this`max_fd, this`master_r, this`master_w, fds
      ensures Valid() && Items() == old(Items())[fd as int := Item(s.interest, s.handler.value, s.data)]
    {
      ghost var before := fds[..];
      fds[fd] := s;
      assert fds[..] == before[fd := s];
      PutSlot(before, fd, s);
      if fd > max_fd {
        max_fd := fd;
      }
      UpdateFdset(fd, true, s.interest);
    }

    /**
     * selector_unregister_fd. Nothing compares the descriptor with the size of the
     * table; `stray` says that the code would look behind it, where this method stops.
     */
    method Unregister(fd: int) returns (status: Status, stray: bool)
      requires Valid()
      modifies this, fds
      ensures Valid() && fds == old(fds) && resolution_jobs == old(resolution_jobs)
      ensures stray <==> !InvalidFd(fd) && fd >= fds.Length
      ensures (Items(), status) == AfterUnregister(old(Items()), fd)
      ensures closed == old(closed) +
              if status.Success? && hasClose(old(Items())[fd].handler) then [(fd, old(Items())[fd].data)] else []
    {
      if InvalidFd(fd) {
        return IllegalArgs, false;
      }
      if fd >= fds.Length {
        return IllegalArgs, true;
      }
      if !Used(fds[fd]) {
        return IllegalArgs, false;
      }
      if hasClose(fds[fd].handler.value) {
        closed := closed + [(fd, fds[fd].data)];
      }
      Vacate(fd);
      return Success, false;
    }

    /** The removal proper: no interest, no handler, and perhaps a lower maximum. */
    method Vacate(fd: nat)
      requires Valid() && fd < fds.Length && fd in Items()
      modifies this`max_fd, this`master_r, this`master_w, fds
      ensures Valid() && Items() == old(Items()) - {fd as int}
    {
      ghost var before, items := fds[..], Items();
      fds[fd] := fds[fd].(interest := NOOP);
      UpdateFdset(fd, true, NOOP);
      fds[fd] := Slot(FD_UNUSED, NOOP, None, 0);
      assert fds[..] == before[fd := fds[fd]];
      PutSlot(before, fd, fds[fd]);
      assert forall k :: k in Items() ==> k in items && k <= max_fd;
      max_fd := ItemsMaxFd();
    }

    /** selector_set_interest, which does not look at the size of the table either. */
    method SetInterest(fd: int, i: Interest) returns (status: Status, stray: bool)
      requires Valid()
      modifies this`master_r, this`master_w, fds
      ensures Valid()
      ensures stray <==> !InvalidFd(fd) && fd >= fds.Length
      ensures (Items(), status) == AfterSetInterest(old(Items()), fd, i)
    {
      if InvalidFd(fd) {
        return IllegalArgs, false;
      }
      if fd >= fds.Length {
        return IllegalArgs, true;
      }
      if !Used(fds[fd]) {
        return IllegalArgs, false;
      }
      ghost var before := fds[..];
      fds[fd] := fds[fd].(interest := i);
      assert fds[..] == before[fd := fds[fd]];
      PutSlot(before, fd, fds[fd]);
      UpdateFdset(fd, true, i);
      assert forall k :: k in Items() ==> k in old(Items());
      return Success, false;
    }

    /** One turn of the loop of selector_destroy. */
    method DestroySlot(i: nat)
      requires Valid() && i < fds.Length
      modifies this, fds
      ensures Valid() && fds == old(fds)
      ensures Items() == old(Items()) - {i as int}
      ensures closed + CloseCalls(Items(), i + 1, fds.Length, hasClose)
           == old(closed) + CloseCalls(old(Items()), i, fds.Length, hasClose)
    {
      ghost var items := Items();
      if Used(fds[i]) {
        var status, stray := Unregister(i);
      }
      LaterCloseCalls(items, Items(), i + 1, fds.Length);
    }

    /** selector_destroy: every item is unregistered, in slot order. */
    method Destroy()
      requires Valid()
      modifies this, fds
      ensures Valid() && Items() == map[] && fds.Length == 0
      ensures closed == old(closed) + CloseCalls(old(Items()), 0, old(fds).Length, hasClose)
    {
      ghost var n := fds.Length;
      var i := 0;
      while i < fds.Length
        invariant Valid() && fds == old(fds) && 0 <= i <= n == fds.Length
        invariant forall fd :: fd in Items() ==> fd >= i
        invariant closed + CloseCalls(Items(), i, n, hasClose) == old(closed) + CloseCalls(old(Items()), 0, n, hasClose)
      {
        DestroySlot(i);
        i := i + 1;
      }
      assert Items() == map[];
      resolution_jobs := [];
      fds := new Slot<H>[0];
    }

    lemma {:induction false} LaterCloseCalls(a: map<int, Item<H>>, b: map<int, Item<H>>, i: nat, n: nat)
      requires i <= n
      requires forall fd :: i <= fd < n ==> (fd in a <==> fd in b) && (fd in a ==> a[fd] == b[fd])
      ensures CloseCalls(a, i, n, hasClose) == CloseCalls(b, i, n, hasClose)
      decreases n - i
    {
      if i < n {
        LaterCloseCalls(a, b, i + 1, n);
      }
    }

    // The methods below run handlers, which call the selector back. They stop, with
    // `stray`, where the code would look behind the table or into a table that a
    // registration has moved; with a table of full size that never happens.

    /** A handler's call on the selector; the allocator is taken to say yes. */
    method Execute(op: Op<H>) returns (stray: bool)
      requires Valid()
      modifies this, fds
      ensures Valid() && fds.Length >= old(fds).Length && (fds == old(fds) || fresh(fds))
      ensures resolution_jobs == old(resolution_jobs)
      ensures old(fds).Length > MAX_SIZE ==> !stray && fds == old(fds)
      ensures !stray ==> Items() == Apply(old(Items()), op)
    {
      var status: Status;
      match op {
        case Register(fd, item) => status, stray := Register(fd, Some(item.handler), item.interest, item.data, false);
        case Unregister(fd) => status, stray := Unregister(fd);
        case SetInterest(fd, i) => status, stray := SetInterest(fd, i);
      }
    }

    method ExecuteAll(ops: seq<Op<H>>) returns (stray: bool)
      requires Valid()
      modifies this, fds
      ensures Valid() && fds.Length >= old(fds).Length && (fds == old(fds) || fresh(fds))
      ensures resolution_jobs == old(resolution_jobs)
      ensures old(fds).Length > MAX_SIZE ==> !stray && fds == old(fds)
      ensures !stray ==> Items() == ApplyAll(old(Items()), ops)
    {
      stray := false;
      var k := 0;
      while k < |ops|
        invariant 0 <= k <= |ops|
        invariant Valid() && fds.Length >= old(fds).Length && (fds == old(fds) || fresh(fds))
        invariant resolution_jobs == old(resolution_jobs)
        invariant old(fds).Length > MAX_SIZE ==> fds == old(fds)
        invariant ApplyAll(old(Items()), ops) == ApplyAll(Items(), ops[k..])
      {
        stray := Execute(ops[k]);
        if stray {
          return;
        }
        k := k + 1;
      }
    }

    /** Running a handler: `react` stands for its code. */
    method Invoke(log: seq<Call<H>>, fd: int, write: bool, data: nat, react: Reaction<H>)
      returns (log': seq<Call<H>>, stray: bool)
      requires Valid()
      modifies this, fds
      ensures Valid() && fds.Length >= old(fds).Length && (fds == old(fds) || fresh(fds))
      ensures resolution_jobs == old(resolution_jobs)
      ensures old(fds).Length > MAX_SIZE ==> !stray && fds == old(fds)
      ensures !stray ==> Pass(Items(), log') == CallBack(Pass(old(Items()), log), fd, write, data, react)
    {
      var ops := react(log, fd, write);
      ghost var c := Call(fd, write, data, Items(), ops);
      log' := log + [Call(fd, write, data, Items(), ops)];
      stray := ExecuteAll(ops);
    }

    /** The turn of one slot in handle_iteration, which keeps a pointer to the slot across both calls. */
    method HandleSlot(log: seq<Call<H>>, i: nat, ready: Ready, react: Reaction<H>)
      returns (log': seq<Call<H>>, stray: bool)
      requires Valid()
      modifies this, fds
      ensures Valid() && fds.Length >= old(fds).Length && (fds == old(fds) || fresh(fds))
      ensures old(fds).Length > MAX_SIZE && i < old(fds).Length ==> !stray && fds == old(fds)
      ensures !stray ==> Pass(Items(), log') == Visit(Pass(old(Items()), log), i, ready, react)
    {
      if i >= fds.Length {
        return log, true;
      }
      log', stray := log, false;
      if Used(fds[i]) {
        var fd, data, moved := fds[i].fd, fds[i].data, false;
        if fd in ready.readable {
          if fds[i].interest.read {
            var before := fds;
            log', stray := Invoke(log', fd, false, data, react);
            moved := fds != before;
          }
        }
        if i in ready.writable && !stray {
          if moved {
            stray := true;
          } else if Used(fds[i]) && fds[i].interest.write {
            log', stray := Invoke(log', fd, true, data, react);
          }
        }
      }
    }

    /** handle_iteration: the bound is read once, before the first handler runs. */
    method HandleIteration(ready: Ready, react: Reaction<H>) returns (log: seq<Call<H>>, stray: bool)
      requires Valid()
      modifies this, fds
      ensures Valid() && fds.Length >= old(fds).Length
      ensures old(fds).Length > MAX_SIZE ==> !stray && fds == old(fds)
      ensures !stray ==> Pass(Items(), log) == Sweep(old(Items()), old(max_fd) + 1, ready, react)
    {
      var n := max_fd;
      log, stray := [], false;
      var i := 0;
      while i <= n
        invariant 0 <= i <= n + 1
        invariant Valid() && fds.Length >= old(fds).Length && (fds == old(fds) || fresh(fds))
        invariant old(fds).Length > MAX_SIZE ==> fds == old(fds)
        invariant Pass(Items(), log) == Sweep(old(Items()), i, ready, react)
      {
        log, stray := HandleSlot(log, i, ready, react);
        if stray {
          return;
        }
        i := i + 1;
      }
    }

    /** selector_notify_block, with the mutex held: the newest job goes first. */
    method NotifyBlock(fd: int, oom: bool) returns (status: Status)
      modifies this`resolution_jobs
      ensures status == if oom then NoMemory else Success
      ensures resolution_jobs == if oom then old(resolution_jobs) else [fd] + old(resolution_jobs)
    {
      if oom {
        return NoMemory;
      }
      resolution_jobs := [fd] + resolution_jobs;
      return Success;
    }

    ghost predicate JobsInside()
      reads this
    {
      forall k :: 0 <= k < |resolution_jobs| ==> 0 <= resolution_jobs[k] < fds.Length
    }

    /** handle_block_notifications: every queued job once, then the list is empty. */
    method HandleBlockNotifications(react: Reaction<H>) returns (log: seq<Call<H>>, stray: bool)
      requires Valid()
      modifies this, fds
      ensures Valid() && fds.Length >= old(fds).Length
      ensures old(fds).Length > MAX_SIZE ==> fds == old(fds) && (old(JobsInside()) ==> !stray)
      ensures !stray ==>
                resolution_jobs == [] && Pass(Items(), log) == Deliver(old(Items()), old(resolution_jobs), react)
    {
      log, stray := [], false;
      var j := 0;
      while j < |resolution_jobs|
        invariant 0 <= j <= |resolution_jobs| && resolution_jobs == old(resolution_jobs)
        invariant Valid() && fds.Length >= old(fds).Length && (fds == old(fds) || fresh(fds))
        invariant old(fds).Length > MAX_SIZE ==> fds == old(fds)
        invariant Pass(Items(), log) == Deliver(old(Items()), resolution_jobs[..j], react)
      {
        assert resolution_jobs[..j + 1][..j] == resolution_jobs[..j];
        var fd := resolution_jobs[j];
        if fd < 0 || fd >= fds.Length {
          return log, true;
        }
        if Used(fds[fd]) {
          log, stray := Invoke(log, fds[fd].fd, false, fds[fd].data, react);
          if stray {
            return;
          }
        }
        j := j + 1;
      }
      assert resolution_jobs[..j] == resolution_jobs;
      resolution_jobs := [];
    }
  }
}
