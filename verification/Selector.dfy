/** src/selector.c: the table of registered descriptors and its dispatch loop. */
module SelectorModule {
  import opened Bytes

  /** ITEMS_MAX_SIZE, that is FD_SETSIZE. */
  const MAX_SIZE: nat := 1024
  const FD_UNUSED: int := -1

  datatype Interest = Interest(read: bool, write: bool)

  const NOOP := Interest(false, false)
  const READ := Interest(true, false)
  const WRITE := Interest(false, true)

  datatype Status = Success | NoMemory | MaxFd | IllegalArgs | FdInUse

  /** What is registered for a descriptor. H stands for the handler tables. */
  datatype Item<H> = Item(interest: Interest, handler: H, data: nat)

  predicate InvalidFd(fd: int) { fd < 0 || fd >= MAX_SIZE }

  // ----- the table as a map from used descriptors to items

  function AfterRegister<H>(items: map<int, Item<H>>, fd: int, item: Item<H>): (map<int, Item<H>>, Status) {
    if InvalidFd(fd) then (items, IllegalArgs)
    else if fd in items then (items, FdInUse)
    else (items[fd := item], Success)
  }

  function AfterUnregister<H>(items: map<int, Item<H>>, fd: int): (map<int, Item<H>>, Status) {
    if InvalidFd(fd) || fd !in items then (items, IllegalArgs) else (items - {fd}, Success)
  }

  function AfterSetInterest<H>(items: map<int, Item<H>>, fd: int, i: Interest): (map<int, Item<H>>, Status) {
    if InvalidFd(fd) || fd !in items then (items, IllegalArgs)
    else (items[fd := items[fd].(interest := i)], Success)
  }

  /** Calls a handler may make on the selector. */
  datatype Op<H> =
    | Register(fd: int, item: Item<H>)
    | Unregister(fd: int)
    | SetInterest(fd: int, interest: Interest)

  function Apply<H>(items: map<int, Item<H>>, op: Op<H>): map<int, Item<H>> {
    match op
    case Register(fd, item) => AfterRegister(items, fd, item).0
    case Unregister(fd) => AfterUnregister(items, fd).0
    case SetInterest(fd, i) => AfterSetInterest(items, fd, i).0
  }

  function ApplyAll<H>(items: map<int, Item<H>>, ops: seq<Op<H>>): map<int, Item<H>>
    decreases |ops|
  {
    if ops == [] then items else ApplyAll(Apply(items, ops[0]), ops[1..])
  }

  /** Descriptors stay below the platform limit through any calls. */
  ghost predicate Bounded<H>(items: map<int, Item<H>>) {
    forall fd :: fd in items ==> 0 <= fd < MAX_SIZE
  }

  lemma {:induction false} ApplyAllBounded<H>(items: map<int, Item<H>>, ops: seq<Op<H>>)
    requires Bounded(items)
    ensures Bounded(ApplyAll(items, ops))
    decreases |ops|
  {
    if ops != [] {
      ApplyAllBounded(Apply(items, ops[0]), ops[1..]);
    }
  }

  // ----- capacity arithmetic

  function Pow2(n: nat): (p: nat)
    ensures p > 0
  {
    if n == 0 then 1 else 2 * Pow2(n - 1)
  }

  ghost predicate IsLeastPowerAbove(p: nat, n: nat) {
    && n < p
    && (exists k: nat :: p == Pow2(k))
    && (forall k: nat :: Pow2(k) > n ==> p <= Pow2(k))
  }

  lemma {:induction false} Pow2Monotone(j: nat, k: nat)
    requires j <= k
    ensures Pow2(j) <= Pow2(k)
    decreases k
  {
    if j < k {
      Pow2Monotone(j, k - 1);
    }
  }

  /** Where the shift loop of next_capacity stands after `bits` turns. */
  ghost predicate Shifted(tmp: nat, bits: nat, n: nat) {
    && tmp * Pow2(bits) <= n < (tmp + 1) * Pow2(bits)
    && (bits > 0 ==> Pow2(bits - 1) <= n)
  }

  /** One turn of the loop on a product, without powers. */
  lemma Halve(tmp: nat, p: nat, n: nat)
    requires tmp > 0 && tmp * p <= n < (tmp + 1) * p
    ensures (tmp / 2) * (2 * p) <= n < (tmp / 2 + 1) * (2 * p) && p <= n
  {
    var h := tmp / 2;
    assert p <= tmp * p;
    assert h * (2 * p) == (2 * h) * p && (h + 1) * (2 * p) == (2 * h + 2) * p;
    if tmp == 2 * h {
      assert (2 * h + 2) * p == (tmp + 1) * p + p;
    } else {
      assert tmp == 2 * h + 1;
      assert tmp * p == (2 * h) * p + p;
    }
  }

  lemma ShiftOnce(tmp: nat, bits: nat, n: nat)
    requires Shifted(tmp, bits, n) && tmp > 0
    ensures Shifted(tmp / 2, bits + 1, n)
  {
    Halve(tmp, Pow2(bits), n);
  }

  lemma ShiftedOut(bits: nat, n: nat)
    requires Shifted(0, bits, n)
    ensures IsLeastPowerAbove(Pow2(bits), n)
  {
    hide Pow2;
    forall k: nat | Pow2(k) > n
      ensures Pow2(bits) <= Pow2(k)
    {
      if k < bits {
        Pow2Monotone(k, bits - 1);
      } else {
        Pow2Monotone(bits, k);
      }
    }
  }

  /** next_capacity: one more than the least power of two above n, capped at the platform limit. */
  method NextCapacity(n: nat) returns (r: nat)
    ensures exists p: nat :: IsLeastPowerAbove(p, n) && r == 1 + if p > MAX_SIZE then MAX_SIZE else p
    ensures n <= MAX_SIZE ==> n < r <= MAX_SIZE + 1
    ensures n >= MAX_SIZE ==> r == MAX_SIZE + 1
  {
    var bits: nat := 0;
    var tmp: nat := n;
    while tmp != 0
      invariant Shifted(tmp, bits, n)
      decreases tmp
    {
      ShiftOnce(tmp, bits, n);
      tmp := tmp / 2;
      bits := bits + 1;
    }
    ShiftedOut(bits, n);
    tmp := Pow2(bits);  // 1UL << bits
    if tmp > MAX_SIZE {
      tmp := MAX_SIZE;
    }
    return tmp + 1;
  }

  // ----- dispatch: what one iteration does, for handlers that may call the selector back

  /** A callback the loop made: the table it found and the calls it made on the selector. */
  datatype Call<H> = Call(fd: int, write: bool, data: nat, seen: map<int, Item<H>>, ops: seq<Op<H>>)

  /** The table as the callback left it. */
  function Left<H>(c: Call<H>): map<int, Item<H>> { ApplyAll(c.seen, c.ops) }

  /** Any handler: what it does to the selector may depend on everything that happened before. */
  type Reaction<!H> = (seq<Call<H>>, int, bool) -> seq<Op<H>>

  /** The ready bits pselect left in slave_r and slave_w. */
  datatype Ready = Ready(readable: set<int>, writable: set<int>)

  /** A table and the calls made so far in the iteration. */
  datatype Pass<H> = Pass(items: map<int, Item<H>>, log: seq<Call<H>>)

  function CallBack<H>(p: Pass<H>, fd: int, write: bool, data: nat, react: Reaction<H>): Pass<H> {
    var c := Call(fd, write, data, p.items, react(p.log, fd, write));
    Pass(Left(c), p.log + [c])
  }

  /** The turn of slot i: the key is filled once, before the read callback. */
  function Visit<H>(p: Pass<H>, i: int, ready: Ready, react: Reaction<H>): Pass<H> {
    if i !in p.items then p
    else
      var data := p.items[i].data;
      var q := if i in ready.readable && p.items[i].interest.read then CallBack(p, i, false, data, react) else p;
      if i in ready.writable && i in q.items && q.items[i].interest.write then CallBack(q, i, true, data, react) else q
  }

  /** handle_iteration over slots 0 .. n - 1. */
  function Sweep<H>(items: map<int, Item<H>>, n: nat, ready: Ready, react: Reaction<H>): Pass<H> {
    if n == 0 then Pass(items, []) else Visit(Sweep(items, n - 1, ready, react), n - 1, ready, react)
  }

  /** Position of a call in the order slot 0 read, slot 0 write, slot 1 read, ... */
  function Rank<H>(c: Call<H>): int { 2 * c.fd + if c.write then 1 else 0 }

  /** The call is on an item in use, for an event it is interested in and whose ready bit was set. */
  ghost predicate Justified<H>(c: Call<H>, ready: Ready) {
    && c.fd in c.seen
    && (if c.write then c.seen[c.fd].interest.write && c.fd in ready.writable
        else c.seen[c.fd].interest.read && c.fd in ready.readable && c.data == c.seen[c.fd].data)
  }

  /**
   * Every call so far is justified, calls come in strictly increasing rank below
   * `bound`, and each finds exactly what its predecessor left.
   */
  ghost predicate Sound<H>(items: map<int, Item<H>>, p: Pass<H>, bound: int, ready: Ready) {
    InOrder(p.log, bound, ready) && Linked(items, p)
  }

  ghost predicate InOrder<H>(log: seq<Call<H>>, bound: int, ready: Ready) {
    && (forall k :: 0 <= k < |log| ==> 0 <= Rank(log[k]) < bound && Justified(log[k], ready))
    && (forall j, k :: 0 <= j < k < |log| ==> Rank(log[j]) < Rank(log[k]))
  }

  ghost predicate Linked<H>(items: map<int, Item<H>>, p: Pass<H>) {
    && (forall k :: 0 <= k < |p.log| ==> p.log[k].seen == Found(items, p.log, k))
    && p.items == Found(items, p.log, |p.log|)
  }

  /** The table as call k finds it. */
  ghost function Found<H>(items: map<int, Item<H>>, log: seq<Call<H>>, k: nat): map<int, Item<H>>
    requires k <= |log|
  {
    if k == 0 then items else Left(log[k - 1])
  }

  lemma SoundStart<H>(items: map<int, Item<H>>, ready: Ready)
    ensures Sound(items, Pass(items, []), 0, ready)
  {
  }

  lemma InOrderSnoc<H>(log: seq<Call<H>>, c: Call<H>, bound: int, ready: Ready)
    requires InOrder(log, bound, ready) && bound <= Rank(c) && 0 <= Rank(c) && Justified(c, ready)
    ensures InOrder(log + [c], Rank(c) + 1, ready)
  {
    hide Justified;
  }

  lemma LinkedSnoc<H>(items: map<int, Item<H>>, p: Pass<H>, c: Call<H>)
    requires Linked(items, p) && c.seen == p.items
    ensures Linked(items, Pass(Left(c), p.log + [c]))
  {
    hide Left;
    var log := p.log + [c];
    forall k | 0 <= k < |log|
      ensures log[k].seen == Found(items, log, k)
    {
      if k < |p.log| {
        assert Found(items, log, k) == Found(items, p.log, k);
      }
    }
  }

  lemma SoundSnoc<H>(items: map<int, Item<H>>, p: Pass<H>, c: Call<H>, bound: int, ready: Ready)
    requires Sound(items, p, bound, ready)
    requires bound <= Rank(c) && 0 <= Rank(c) && Justified(c, ready) && c.seen == p.items
    ensures Sound(items, Pass(Left(c), p.log + [c]), Rank(c) + 1, ready)
  {
    hide InOrder, Linked;
    InOrderSnoc(p.log, c, bound, ready);
    LinkedSnoc(items, p, c);
  }

  lemma SoundLater<H>(items: map<int, Item<H>>, p: Pass<H>, bound: int, later: int, ready: Ready)
    requires Sound(items, p, bound, ready) && bound <= later
    ensures Sound(items, p, later, ready)
  {
  }

  lemma VisitIsSound<H>(items: map<int, Item<H>>, p: Pass<H>, i: nat, ready: Ready, react: Reaction<H>)
    requires Sound(items, p, 2 * i, ready)
    ensures Sound(items, Visit(p, i, ready, react), 2 * i + 2, ready)
  {
    hide Sound;
    SoundLater(items, p, 2 * i, 2 * i + 2, ready);
    if i in p.items {
      var data := p.items[i].data;
      var q := p;
      SoundLater(items, p, 2 * i, 2 * i + 1, ready);
      if i in ready.readable && p.items[i].interest.read {
        var c := Call(i, false, data, p.items, react(p.log, i, false));
        SoundSnoc(items, p, c, 2 * i, ready);
        q := Pass(Left(c), p.log + [c]);
      }
      SoundLater(items, q, 2 * i + 1, 2 * i + 2, ready);
      if i in ready.writable && i in q.items && q.items[i].interest.write {
        SoundSnoc(items, q, Call(i, true, data, q.items, react(q.log, i, true)), 2 * i + 1, ready);
      }
    }
  }

  /**
   * Dispatch soundness. Whatever the handlers do, one iteration makes at most
   * one read and then one write call per slot, in slot order, each justified by
   * the table as it was at that moment, and the table moves only by the
   * handlers' own calls.
   */
  lemma {:induction false} SweepIsSound<H>(items: map<int, Item<H>>, n: nat, ready: Ready, react: Reaction<H>)
    ensures Sound(items, Sweep(items, n, ready, react), 2 * n, ready)
  {
    hide Sound, Visit, ApplyAll;
    if n == 0 {
      SoundStart(items, ready);
    } else {
      SweepIsSound(items, n - 1, ready, react);
      VisitIsSound(items, Sweep(items, n - 1, ready, react), n - 1, ready, react);
    }
  }

  /** The table as the last call of lower rank left it. */
  ghost function Before<H>(items: map<int, Item<H>>, log: seq<Call<H>>, rank: int): map<int, Item<H>>
    decreases |log|
  {
    if log == [] then items
    else if Rank(log[|log| - 1]) < rank then Left(log[|log| - 1])
    else Before(items, log[..|log| - 1], rank)
  }

  /** The call of this rank was made, with the data its slot had. */
  ghost predicate Made<H>(log: seq<Call<H>>, rank: int, data: nat) {
    exists k :: 0 <= k < |log| && Rank(log[k]) == rank && log[k].data == data
  }

  /** Slot i is used when its turn comes, for a handler that wants the event, and the event is there. */
  ghost predicate Owed<H>(items: map<int, Item<H>>, log: seq<Call<H>>, i: nat, write: bool, ready: Ready) {
    var table := Before(items, log, if write then 2 * i + 1 else 2 * i);
    && i in table
    && if write then table[i].interest.write && i in ready.writable else table[i].interest.read && i in ready.readable
  }

  lemma BeforeSnoc<H>(items: map<int, Item<H>>, log: seq<Call<H>>, c: Call<H>, rank: int, data: nat)
    requires Rank(c) >= rank
    ensures Before(items, log + [c], rank) == Before(items, log, rank)
    ensures Rank(c) > rank ==> (Made(log + [c], rank, data) <==> Made(log, rank, data))
  {
    assert (log + [c])[..|log|] == log;
    if k :| 0 <= k < |log| && Rank(log[k]) == rank && log[k].data == data {
      assert Rank((log + [c])[k]) == rank;
    }
  }

  /** Where every call made so far has a lower rank, the table is the one reached. */
  lemma BeforeAll<H>(items: map<int, Item<H>>, p: Pass<H>, bound: int, ready: Ready, data: nat)
    requires Sound(items, p, bound, ready)
    ensures Before(items, p.log, bound) == p.items && forall rank: int :: rank >= bound ==> !Made(p.log, rank, data)
  {
    hide Left, Justified;
  }

  /** A turn of another slot, which comes later, changes neither what was owed nor what was made. */
  lemma VisitElsewhere<H>(
    items: map<int, Item<H>>, p: Pass<H>, i: nat, ready: Ready, react: Reaction<H>, rank: int, data: nat)
    requires rank < 2 * i
    ensures var q := Visit(p, i, ready, react);
            Before(items, q.log, rank) == Before(items, p.log, rank) && (Made(q.log, rank, data) <==> Made(p.log, rank, data))
  {
    hide Before, Made, Left;
    if i in p.items {
      var d, q := p.items[i].data, p;
      if i in ready.readable && p.items[i].interest.read {
        q := CallBack(p, i, false, d, react);
        BeforeSnoc(items, p.log, q.log[|p.log|], rank, data);
      }
      if i in ready.writable && i in q.items && q.items[i].interest.write {
        BeforeSnoc(items, q.log, CallBack(q, i, true, d, react).log[|q.log|], rank, data);
      }
    }
  }

  lemma MadeLast<H>(log: seq<Call<H>>, c: Call<H>)
    ensures Made(log + [c], Rank(c), c.data)
  {
    assert (log + [c])[|log|] == c;
  }

  lemma MadeStays<H>(log: seq<Call<H>>, c: Call<H>, rank: int, data: nat)
    requires Made(log, rank, data)
    ensures Made(log + [c], rank, data)
  {
    var k :| 0 <= k < |log| && Rank(log[k]) == rank && log[k].data == data;
    assert (log + [c])[k] == log[k];
  }

  /** The read half of the turn of slot i, then its write half. */
  lemma VisitOwes<H>(items: map<int, Item<H>>, p: Pass<H>, i: nat, ready: Ready, react: Reaction<H>, data: nat)
    requires Sound(items, p, 2 * i, ready) && (i in p.items ==> data == p.items[i].data)
    ensures var q := Visit(p, i, ready, react);
            && (Owed(items, q.log, i, false, ready) <==> Made(q.log, 2 * i, data))
            && (Owed(items, q.log, i, true, ready) <==> Made(q.log, 2 * i + 1, data))
            && Before(items, q.log, 2 * i) == p.items
  {
    hide Sound, Before, Made, Left;
    BeforeAll(items, p, 2 * i, ready, data);
    SoundLater(items, p, 2 * i, 2 * i + 1, ready);
    BeforeAll(items, p, 2 * i + 1, ready, data);
    if i in p.items {
      var q := p;
      if i in ready.readable && p.items[i].interest.read {
        var c := Call(i, false, data, p.items, react(p.log, i, false));
        q := Pass(Left(c), p.log + [c]);
        BeforeSnoc(items, p.log, c, 2 * i, data);
        MadeLast(p.log, c);
        assert Justified(c, ready);
        SoundSnoc(items, p, c, 2 * i, ready);
        BeforeAll(items, q, 2 * i + 1, ready, data);
      }
      if i in ready.writable && i in q.items && q.items[i].interest.write {
        var c := Call(i, true, data, q.items, react(q.log, i, true));
        BeforeSnoc(items, q.log, c, 2 * i + 1, data);
        BeforeSnoc(items, q.log, c, 2 * i, data);
        MadeLast(q.log, c);
      }
    }
  }

  /** The data of slot i when its turn began. */
  ghost function DataAt<H>(items: map<int, Item<H>>, log: seq<Call<H>>, i: nat): nat {
    if i in Before(items, log, 2 * i) then Before(items, log, 2 * i)[i].data else 0
  }

  /**
   * Nobody is passed over, and nobody is called for nothing. Whatever the handlers
   * do, slot i gets its read call exactly if, as the calls before it left the
   * table, it is in use, wants reading and is readable; and then its write call
   * exactly if, as the calls up to then left the table, it is in use, wants
   * writing and is writable; both with the data the slot had when its turn began.
   */
  lemma {:induction false} SweepMakesEveryCall<H>(
    items: map<int, Item<H>>, n: nat, ready: Ready, react: Reaction<H>, i: nat)
    requires i < n
    ensures var log := Sweep(items, n, ready, react).log;
            && (Owed(items, log, i, false, ready) <==> Made(log, 2 * i, DataAt(items, log, i)))
            && (Owed(items, log, i, true, ready) <==> Made(log, 2 * i + 1, DataAt(items, log, i)))
    decreases n
  {
    hide Sound, Visit, Before, Made, ApplyAll;
    var p := Sweep(items, n - 1, ready, react);
    SweepIsSound(items, n - 1, ready, react);
    if i == n - 1 {
      var data := if i in p.items then p.items[i].data else 0;
      VisitOwes(items, p, i, ready, react, data);
    } else {
      SweepMakesEveryCall(items, n - 1, ready, react, i);
      var data := DataAt(items, p.log, i);
      VisitElsewhere(items, p, n - 1, ready, react, 2 * i, data);
      VisitElsewhere(items, p, n - 1, ready, react, 2 * i + 1, data);
    }
  }

  ghost predicate Registers<H>(ops: seq<Op<H>>, fd: int) {
    exists k :: 0 <= k < |ops| && ops[k].Register? && ops[k].fd == fd
  }

  lemma {:induction false} OnlyRegisterAdds<H>(items: map<int, Item<H>>, ops: seq<Op<H>>, fd: int)
    requires fd !in items && !Registers(ops, fd)
    ensures fd !in ApplyAll(items, ops)
    decreases |ops|
  {
    if ops != [] {
      assert !(ops[0].Register? && ops[0].fd == fd);
      assert forall k :: 0 <= k < |ops[1..]| ==> ops[1..][k] == ops[k + 1];
      OnlyRegisterAdds(Apply(items, ops[0]), ops[1..], fd);
    }
  }

  lemma SoundFinds<H>(items: map<int, Item<H>>, p: Pass<H>, bound: int, ready: Ready, k: nat)
    requires Sound(items, p, bound, ready) && 0 < k < |p.log|
    ensures p.log[k].seen == Left(p.log[k - 1])
  {
    hide Left, InOrder;
    assert p.log[k].seen == Found(items, p.log, k);
  }

  lemma {:induction false} StaysOut<H>(
    items: map<int, Item<H>>, p: Pass<H>, bound: int, ready: Ready, fd: int, j: nat, k: nat)
    requires Sound(items, p, bound, ready) && j < k < |p.log|
    requires fd !in Left(p.log[j])
    requires forall t :: j < t < k ==> !Registers(p.log[t].ops, fd)
    ensures fd !in p.log[k].seen
    decreases k
  {
    hide ApplyAll, Sound;
    SoundFinds(items, p, bound, ready, k);
    if k > j + 1 {
      StaysOut(items, p, bound, ready, fd, j, k - 1);
      OnlyRegisterAdds(p.log[k - 1].seen, p.log[k - 1].ops, fd);
    }
  }

  /**
   * A descriptor that is out of the table once call j returns, and that no
   * later handler registers again, gets no further callback in the iteration.
   */
  lemma NoCallAfterUnregister<H>(
    items: map<int, Item<H>>, n: nat, ready: Ready, react: Reaction<H>, fd: int, j: nat, k: nat)
    requires j < k < |Sweep(items, n, ready, react).log|
    requires fd !in Left(Sweep(items, n, ready, react).log[j])
    requires forall t :: j < t < k ==> !Registers(Sweep(items, n, ready, react).log[t].ops, fd)
    ensures Sweep(items, n, ready, react).log[k].fd != fd
  {
    SweepIsSound(items, n, ready, react);
    StaysOut(items, Sweep(items, n, ready, react), 2 * n, ready, fd, j, k);
  }

  /** handle_block_notifications over the queued jobs, in list order. */
  function Deliver<H>(items: map<int, Item<H>>, jobs: seq<int>, react: Reaction<H>): Pass<H> {
    if jobs == [] then Pass(items, [])
    else
      var p, fd := Deliver(items, jobs[..|jobs| - 1], react), jobs[|jobs| - 1];
      if fd in p.items then CallBack(p, fd, false, p.items[fd].data, react) else p
  }

  function Fds<H>(log: seq<Call<H>>): seq<int> {
    if log == [] then [] else Fds(log[..|log| - 1]) + [log[|log| - 1].fd]
  }

  lemma FdsSnoc<H>(log: seq<Call<H>>, c: Call<H>)
    ensures Fds(log + [c]) == Fds(log) + [c.fd]
  {
    assert (log + [c])[..|log|] == log;
  }

  lemma DeliverStep<H>(items: map<int, Item<H>>, jobs: seq<int>, fd: int, react: Reaction<H>)
    ensures var p := Deliver(items, jobs, react);
            Fds(Deliver(items, jobs + [fd], react).log) == Fds(p.log) + if fd in p.items then [fd] else []
  {
    hide Fds, ApplyAll;
    assert (jobs + [fd])[..|jobs|] == jobs;
    var p := Deliver(items, jobs, react);
    if fd in p.items {
      FdsSnoc(p.log, Call(fd, false, p.items[fd].data, p.items, react(p.log, fd, false)));
    }
  }

  /** A drain calls back for no descriptor more often than it was queued. */
  lemma {:induction false} DeliveredAtMostOnce<H>(items: map<int, Item<H>>, jobs: seq<int>, react: Reaction<H>)
    ensures multiset(Fds(Deliver(items, jobs, react).log)) <= multiset(jobs)
  {
    if jobs != [] {
      var n := |jobs| - 1;
      assert jobs == jobs[..n] + [jobs[n]];
      DeliveredAtMostOnce(items, jobs[..n], react);
      DeliverStep(items, jobs[..n], jobs[n], react);
      hide Deliver, Fds;
    }
  }

  /** It calls back for exactly the queued jobs, in order, when no handler takes a queued descriptor out. */
  lemma {:induction false} DeliveredExactly<H>(items: map<int, Item<H>>, jobs: seq<int>, react: Reaction<H>)
    requires forall k :: 0 <= k < |jobs| ==> jobs[k] in Deliver(items, jobs[..k], react).items
    ensures Fds(Deliver(items, jobs, react).log) == jobs
  {
    if jobs != [] {
      var n := |jobs| - 1;
      forall k | 0 <= k < n
        ensures jobs[..n][k] in Deliver(items, jobs[..n][..k], react).items
      {
        assert jobs[..n][..k] == jobs[..k];
      }
      DeliveredExactly(items, jobs[..n], react);
      assert jobs == jobs[..n] + [jobs[n]];
      DeliverStep(items, jobs[..n], jobs[n], react);
    }
  }
}
