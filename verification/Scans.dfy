/** The two models of dispatch are one: a scan of the process is a sweep of the selector. */
module Scans {
  import opened Bytes
  import opened SelectorModule
  import opened Session
  import opened Management
  import opened World
  import opened WorldInvariant
  import opened Handoff
  import opened Accounts
  import opened Safety
  import opened Theorems
  import Stm

  // ----- what a callback did to the table, as calls on the selector

  /** The calls that take slot fd from one table to another. */
  function ChangeAt(from: map<int, Item<Kind>>, to: map<int, Item<Kind>>, fd: nat): seq<Op<Kind>> {
    if fd in from then
      if fd !in to then [Unregister(fd)]
      else if from[fd] == to[fd] then []
      else if from[fd].(interest := to[fd].interest) == to[fd] then [Op.SetInterest(fd, to[fd].interest)]
      else [Unregister(fd), Register(fd, to[fd])]
    else if fd in to then [Register(fd, to[fd])]
    else []
  }

  /** The slots from fd on. */
  function ChangesFrom(from: map<int, Item<Kind>>, to: map<int, Item<Kind>>, fd: nat): seq<Op<Kind>>
    decreases MAX_SIZE - fd
  {
    if fd >= MAX_SIZE then [] else ChangeAt(from, to, fd) + ChangesFrom(from, to, fd + 1)
  }

  lemma {:induction false} ApplyBoth(items: map<int, Item<Kind>>, first: seq<Op<Kind>>, second: seq<Op<Kind>>)
    ensures ApplyAll(items, first + second) == ApplyAll(ApplyAll(items, first), second)
    decreases |first|
  {
    if first == [] {
      assert first + second == second;
    } else {
      assert (first + second)[1..] == first[1..] + second;
      ApplyBoth(Apply(items, first[0]), first[1..], second);
    }
  }

  /** A table on its way: changed below fd, not yet from fd on. */
  ghost predicate Halfway(
    from: map<int, Item<Kind>>, to: map<int, Item<Kind>>, fd: int, items: map<int, Item<Kind>>)
  {
    forall x :: if x < fd then (x in items <==> x in to) && (x in items ==> items[x] == to[x])
                else (x in items <==> x in from) && (x in items ==> items[x] == from[x])
  }

  lemma SlotChanges(from: map<int, Item<Kind>>, to: map<int, Item<Kind>>, fd: nat, items: map<int, Item<Kind>>)
    requires Halfway(from, to, fd, items) && fd < MAX_SIZE
    ensures Halfway(from, to, fd + 1, ApplyAll(items, ChangeAt(from, to, fd)))
  {
    var ops := ChangeAt(from, to, fd);
    if |ops| == 1 {
      assert ApplyAll(items, ops) == Apply(items, ops[0]);
    } else if |ops| == 2 {
      assert ops == [ops[0]] + [ops[1]];
      ApplyBoth(items, [ops[0]], [ops[1]]);
    }
  }

  lemma {:induction false} ChangesLead(
    from: map<int, Item<Kind>>, to: map<int, Item<Kind>>, fd: nat, items: map<int, Item<Kind>>)
    requires Bounded(from) && Bounded(to) && Halfway(from, to, fd, items)
    ensures ApplyAll(items, ChangesFrom(from, to, fd)) == to
    decreases MAX_SIZE - fd
  {
    if fd < MAX_SIZE {
      var ops, more := ChangeAt(from, to, fd), ChangesFrom(from, to, fd + 1);
      SlotChanges(from, to, fd, items);
      ApplyBoth(items, ops, more);
      hide Halfway, ChangeAt, ApplyAll;
      ChangesLead(from, to, fd + 1, ApplyAll(items, ops));
    } else {
      forall x
        ensures x in items <==> x in to
        ensures x in items && x in to ==> items[x] == to[x]
      {
      }
      assert items == to;
    }
  }

  function Changes(from: map<int, Item<Kind>>, to: map<int, Item<Kind>>): seq<Op<Kind>> { ChangesFrom(from, to, 0) }

  /** Whatever a callback did to the table, these calls on the selector do it too. */
  lemma ChangesDo(from: map<int, Item<Kind>>, to: map<int, Item<Kind>>)
    requires Bounded(from) && Bounded(to)
    ensures ApplyAll(from, Changes(from, to)) == to
  {
    ChangesLead(from, to, 0, from);
  }

  // ----- the calls of a run

  /** The main thread is in handle_iteration. */
  predicate Scanning(p: Place) { p.Scan? || p.ScanWrite? }

  /** The step calls a handler of the scan. */
  ghost predicate Calls(w: World, act: Action) {
    || (act.Read? && w.place.Scan? && w.place.i <= w.place.n && w.place.i in w.items
        && w.place.i in w.place.ready.readable && w.items[w.place.i].interest.read)
    || (act.Write? && w.place.ScanWrite? && w.place.i in w.items
        && w.place.i in w.place.ready.writable && w.items[w.place.i].interest.write)
  }

  ghost function CallOf(w: World, act: Action, w': World): Call<Kind>
    requires Calls(w, act)
  {
    Call(w.place.i, act.Write?, if act.Write? then w.place.data else w.items[w.place.i].data, w.items,
         Changes(w.items, w'.items))
  }

  /** The calls made between two moments of a run. */
  ghost function CallsMade(ws: seq<World>, acts: seq<Action>, a: nat, b: nat): seq<Call<Kind>>
    requires a <= b <= |acts| && |ws| == |acts| + 1
    decreases b - a
  {
    if a == b then []
    else
      CallsMade(ws, acts, a, b - 1)
      + if Calls(ws[b - 1], acts[b - 1]) then [CallOf(ws[b - 1], acts[b - 1], ws[b])] else []
  }

  lemma {:induction false} CallsGrow(ws: seq<World>, acts: seq<Action>, a: nat, k: nat, b: nat)
    requires a <= k <= b <= |acts| && |ws| == |acts| + 1
    ensures CallsMade(ws, acts, a, k) <= CallsMade(ws, acts, a, b)
    decreases b - k
  {
    if k < b {
      CallsGrow(ws, acts, a, k, b - 1);
    }
  }

  /** Handlers that do what was done in this log, call by call. */
  ghost function Replay(log: seq<Call<Kind>>): Reaction<Kind> {
    (before: seq<Call<Kind>>, fd: int, write: bool) => if |before| < |log| then log[|before|].ops else []
  }

  /** A whole scan after select number a - 1, other threads' steps included. */
  ghost predicate WholeScan(ws: seq<World>, acts: seq<Action>, a: nat, b: nat) {
    && |ws| == |acts| + 1 && 0 < a <= b <= |acts| && InRun(ws, acts, b) && acts[a - 1].Select?
    && (forall k :: a <= k <= b ==> Scanning(ws[k].place))
    && ws[b].place.Scan? && ws[b].place.i > ws[b].place.n
  }

  /** Where the scan stands, in terms of the sweep. */
  ghost predicate Stands(
    items: map<int, Item<Kind>>, n: int, ready: Ready, react: Reaction<Kind>, w: World, log: seq<Call<Kind>>)
  {
    Scanning(w.place) && w.place.n == n && w.place.ready == ready
    && var p := Sweep(items, w.place.i, ready, react);
       if w.place.Scan? then w.place.i <= n + 1 && p == Pass(w.items, log)
       else
         && w.place.i <= n && w.place.i in p.items && w.place.data == p.items[w.place.i].data
         && Pass(w.items, log) ==
            if w.place.i in ready.readable && p.items[w.place.i].interest.read
            then CallBack(p, w.place.i, false, w.place.data, react) else p
  }

  lemma CallReplayed(w: World, act: Action, w': World, log: seq<Call<Kind>>, all: seq<Call<Kind>>)
    requires Calls(w, act) && Bounded(w.items) && Bounded(w'.items) && log + [CallOf(w, act, w')] <= all
    ensures var c := CallOf(w, act, w');
            CallBack(Pass(w.items, log), c.fd, c.write, c.data, Replay(all)) == Pass(w'.items, log + [c])
  {
    ChangesDo(w.items, w'.items);
    hide Changes;
    assert all[|log|] == CallOf(w, act, w');
  }

  lemma ReadStands(
    items: map<int, Item<Kind>>, n: int, ready: Ready, w: World, a: Input, log: seq<Call<Kind>>, all: seq<Call<Kind>>)
    requires Stands(items, n, ready, Replay(all), w, log) && w.place.Scan? && w.place.i <= n
    requires Bounded(w.items) && Bounded(ReadHalf(w, a).items)
    requires Calls(w, Read(a)) ==> log + [CallOf(w, Read(a), ReadHalf(w, a))] <= all
    ensures Stands(items, n, ready, Replay(all), ReadHalf(w, a),
                   log + if Calls(w, Read(a)) then [CallOf(w, Read(a), ReadHalf(w, a))] else [])
  {
    hide Invoke, Replay, Changes, Bounded, CallBack;
    var i, p := w.place.i, Sweep(items, w.place.i, ready, Replay(all));
    assert log + [] == log;
    if i !in w.items {
      assert Sweep(items, i + 1, ready, Replay(all)) == Visit(p, i, ready, Replay(all));
    } else if Calls(w, Read(a)) {
      CallReplayed(w, Read(a), ReadHalf(w, a), log, all);
    }
  }

  lemma WriteStands(
    items: map<int, Item<Kind>>, n: int, ready: Ready, w: World, a: Input, log: seq<Call<Kind>>, all: seq<Call<Kind>>)
    requires Stands(items, n, ready, Replay(all), w, log) && w.place.ScanWrite?
    requires Bounded(w.items) && Bounded(WriteHalf(w, a).items)
    requires Calls(w, Write(a)) ==> log + [CallOf(w, Write(a), WriteHalf(w, a))] <= all
    ensures Stands(items, n, ready, Replay(all), WriteHalf(w, a),
                   log + if Calls(w, Write(a)) then [CallOf(w, Write(a), WriteHalf(w, a))] else [])
  {
    hide Invoke, Replay, Changes, Bounded, CallBack;
    var i, p := w.place.i, Sweep(items, w.place.i, ready, Replay(all));
    assert log + [] == log;
    assert Sweep(items, i + 1, ready, Replay(all)) == Visit(p, i, ready, Replay(all));
    if Calls(w, Write(a)) {
      CallReplayed(w, Write(a), WriteHalf(w, a), log, all);
    }
  }

  lemma StepStands(
    items: map<int, Item<Kind>>, n: int, ready: Ready, w: World, act: Action, log: seq<Call<Kind>>, all: seq<Call<Kind>>)
    requires Stands(items, n, ready, Replay(all), w, log) && Enabled(w, act) && Scanning(Effect(w, act).place)
    requires Bounded(w.items) && Bounded(Effect(w, act).items)
    requires Calls(w, act) ==> log + [CallOf(w, act, Effect(w, act))] <= all
    ensures Stands(items, n, ready, Replay(all), Effect(w, act),
                   log + if Calls(w, act) then [CallOf(w, act, Effect(w, act))] else [])
  {
    assert w.place.n == n;
    hide ReadHalf, WriteHalf, Replay, Changes, Bounded, Stands;
    match act
    case Read(a) =>
      if w.place.i > n {
        ScanOver(w, a);
      } else {
        ReadStands(items, n, ready, w, a, log, all);
      }
    case Write(a) => WriteStands(items, n, ready, w, a, log, all);
    case ThreadResolves(t, addresses) => ThreadStands(items, n, ready, Replay(all), w, Effect(w, act), log);
    case ThreadNotifies(t, memory) => ThreadStands(items, n, ready, Replay(all), w, Effect(w, act), log);
    case _ =>
  }

  /** Resolver threads neither move the scan nor touch the table. */
  lemma ThreadStands(
    items: map<int, Item<Kind>>, n: int, ready: Ready, react: Reaction<Kind>, w: World, w': World, log: seq<Call<Kind>>)
    requires Stands(items, n, ready, react, w, log) && w'.place == w.place && w'.items == w.items
    ensures Stands(items, n, ready, react, w', log + [])
  {
    hide Sweep, CallBack;
    assert log + [] == log;
  }

  lemma ScanOver(w: World, a: Input)
    requires w.place.Scan? && w.place.i > w.place.n
    ensures ReadHalf(w, a).place.Drain?
  {
  }

  lemma TableBounded(ws: seq<World>, acts: seq<Action>, k: nat, b: nat)
    requires InRun(ws, acts, b) && k <= b
    ensures Bounded(ws[k].items) && (k < b ==> Enabled(ws[k], acts[k]) && ws[k + 1] == Effect(ws[k], acts[k]))
  {
    hide Effect, Enabled, Initial;
    Reachable(ws, acts, k);
    hide Handed, Accounted, ItemsOk, Apart, ConnsOk;
  }

  lemma {:induction false} ScanStands(ws: seq<World>, acts: seq<Action>, a: nat, k: nat, b: nat)
    requires WholeScan(ws, acts, a, b) && a <= k <= b
    ensures var all := CallsMade(ws, acts, a, b);
            Stands(ws[a].items, LargestFd(ws[a].items, MAX_SIZE), acts[a - 1].ready, Replay(all), ws[k],
                   CallsMade(ws, acts, a, k))
    decreases k
  {
    hide InRun, Effect, Enabled, Stands, Replay, Calls, CallOf, Bounded, LargestFd;
    var all := CallsMade(ws, acts, a, b);
    if k == a {
      TableBounded(ws, acts, a - 1, b);
      SelectStands(ws[a - 1], acts[a - 1], Replay(all));
    } else {
      ScanStands(ws, acts, a, k - 1, b);
      TableBounded(ws, acts, k - 1, b);
      TableBounded(ws, acts, k, b);
      CallsGrow(ws, acts, a, k, b);
      assert Scanning(ws[k].place);
      StepStands(ws[a].items, LargestFd(ws[a].items, MAX_SIZE), acts[a - 1].ready, ws[k - 1], acts[k - 1],
                 CallsMade(ws, acts, a, k - 1), all);
    }
  }

  lemma SelectStands(w: World, act: Action, react: Reaction<Kind>)
    requires Enabled(w, act) && act.Select?
    ensures var w' := Effect(w, act);
            Stands(w'.items, LargestFd(w'.items, MAX_SIZE), act.ready, react, w', [])
  {
    ScanBound(w.items, MAX_SIZE);
  }

  /**
   * A whole scan of any run, with resolver threads acting in between, is a sweep
   * of the selector, for handlers that make the calls these handlers made: same
   * calls in the same order, same table at the end. So what is proved of every
   * sweep, and of the loop over memory, holds of every scan.
   */
  lemma ScanIsSweep(ws: seq<World>, acts: seq<Action>, a: nat, b: nat) returns (react: Reaction<Kind>)
    requires WholeScan(ws, acts, a, b)
    ensures Sweep(ws[a].items, LargestFd(ws[a].items, MAX_SIZE) + 1, acts[a - 1].ready, react)
         == Pass(ws[b].items, CallsMade(ws, acts, a, b))
  {
    hide *;
    ScanEnds(ws, acts, a, b);
    var all := CallsMade(ws, acts, a, b);
    react := Replay(all);
    ScanStands(ws, acts, a, b, b);
    EndStands(ws[a].items, LargestFd(ws[a].items, MAX_SIZE), acts[a - 1].ready, react, ws[b], all);
  }

  lemma ScanEnds(ws: seq<World>, acts: seq<Action>, a: nat, b: nat)
    requires WholeScan(ws, acts, a, b)
    ensures |ws| == |acts| + 1 && 0 < a <= b <= |acts| && acts[a - 1].Select?
    ensures ws[b].place.Scan? && ws[b].place.i > ws[b].place.n
  {
    hide InRun;
  }

  lemma EndStands(items: map<int, Item<Kind>>, n: nat, ready: Ready, react: Reaction<Kind>, w: World, log: seq<Call<Kind>>)
    requires Stands(items, n, ready, react, w, log) && w.place.Scan? && w.place.i > w.place.n
    ensures Sweep(items, n + 1, ready, react) == Pass(w.items, log)
  {
    hide Sweep, LargestFd;
  }

  // ----- the drain

  /** The job handled in this step, if it handles one. */
  ghost function JobTaken(w: World, act: Action): seq<int> {
    if act.Block? && w.place.Drain? && w.place.rest != [] then [w.place.rest[0]] else []
  }

  /** The descriptors of the jobs handled between two moments of a run. */
  ghost function JobsTaken(ws: seq<World>, acts: seq<Action>, a: nat, b: nat): seq<int>
    requires a <= b <= |acts| && |ws| == |acts| + 1
    decreases b - a
  {
    if a == b then [] else JobsTaken(ws, acts, a, b - 1) + JobTaken(ws[b - 1], acts[b - 1])
  }

  /** A step of a drain: the first job is taken, or there is none left and the drain is over, or a thread acts. */
  lemma DrainStep(w: World, act: Action)
    requires Enabled(w, act) && w.place.Drain?
    ensures var w' := Effect(w, act);
            if act.Block? && w.place.rest != [] then w'.place == Drain(w.place.rest[1..])
            else if act.Block? then w'.place == Idle
            else w'.place == w.place
  {
    hide Invoke;
    if act.Block? && w.place.rest != [] {
      var fd, w1 := w.place.rest[0], w.(place := Drain(w.place.rest[1..]));
      if fd in w1.items {
        InvokePlace(w1, fd, w1.items[fd].handler, w1.items[fd].data, Stm.BlockReady, act.input);
      }
    }
  }

  lemma InvokePlace(w: World, key: int, kind: Kind, data: nat, e: Stm.Event, a: Input)
    ensures Invoke(w, key, kind, data, e, a).place == w.place
  {
    hide Dispatch, MngCallback, MngJump, AfterSetInterest, AfterRegister;
  }

  /** What a drain has still to handle. */
  ghost function Rest(w: World): seq<int> { if w.place.Drain? then w.place.rest else [] }

  lemma DrainShrinks(ws: seq<World>, acts: seq<Action>, k: nat)
    requires Run(ws, acts) && k < |acts| && ws[k].place.Drain? && ws[k + 1].place.Drain?
    ensures Rest(ws[k]) == JobTaken(ws[k], acts[k]) + Rest(ws[k + 1])
  {
    hide Effect, Enabled, Initial;
    assert Enabled(ws[k], acts[k]) && ws[k + 1] == Effect(ws[k], acts[k]);
    DrainStep(ws[k], acts[k]);
  }

  /** No state between the two is outside a drain. */
  ghost predicate Draining(ws: seq<World>, a: nat, b: nat) {
    a <= b < |ws| && forall k :: a <= k <= b ==> ws[k].place.Drain?
  }

  lemma DrainingOne(ws: seq<World>, a: nat, b: nat)
    requires Draining(ws, a, b) && a < b
    ensures Draining(ws, a, b - 1) && ws[b - 1].place.Drain? && ws[b].place.Drain?
  {
  }

  lemma {:induction false} DrainTakes(ws: seq<World>, acts: seq<Action>, a: nat, b: nat)
    requires Run(ws, acts) && a <= b <= |acts| && |ws| == |acts| + 1 && Draining(ws, a, b)
    ensures Rest(ws[a]) == JobsTaken(ws, acts, a, b) + Rest(ws[b])
    decreases b - a
  {
    hide *;
    if a < b {
      DrainingOne(ws, a, b);
      DrainTakes(ws, acts, a, b - 1);
      DrainShrinks(ws, acts, b - 1);
      JobsTakenLast(ws, acts, a, b);
      Taken(Rest(ws[a]), JobsTaken(ws, acts, a, b - 1), Rest(ws[b - 1]), JobTaken(ws[b - 1], acts[b - 1]), Rest(ws[b]));
    } else {
      NoJobsTaken(ws, acts, a);
    }
  }

  lemma JobsTakenLast(ws: seq<World>, acts: seq<Action>, a: nat, b: nat)
    requires a < b <= |acts| && |ws| == |acts| + 1
    ensures JobsTaken(ws, acts, a, b) == JobsTaken(ws, acts, a, b - 1) + JobTaken(ws[b - 1], acts[b - 1])
  {
    hide JobTaken;
  }

  lemma NoJobsTaken(ws: seq<World>, acts: seq<Action>, a: nat)
    requires a <= |acts| && |ws| == |acts| + 1
    ensures JobsTaken(ws, acts, a, a) + Rest(ws[a]) == Rest(ws[a])
  {
  }

  lemma Taken(all: seq<int>, taken: seq<int>, left: seq<int>, one: seq<int>, rest: seq<int>)
    requires all == taken + left && left == one + rest
    ensures all == taken + one + rest
  {
  }

  /**
   * A drain handles every job that was queued when it began, each once and in the
   * order of the list, before the main thread selects again.
   */
  lemma DrainIsComplete(ws: seq<World>, acts: seq<Action>, a: nat, b: nat)
    requires Run(ws, acts) && 0 < a < b <= |acts| && !ws[a - 1].place.Drain? && !ws[b].place.Drain?
    requires forall k :: a <= k < b ==> ws[k].place.Drain?
    ensures JobsTaken(ws, acts, a, b) == ws[a - 1].jobs && ws[a].jobs == [] && ws[b].place.Idle?
  {
    hide Effect, Enabled, Initial;
    assert Enabled(ws[a - 1], acts[a - 1]) && ws[a] == Effect(ws[a - 1], acts[a - 1]);
    assert Enabled(ws[b - 1], acts[b - 1]) && ws[b] == Effect(ws[b - 1], acts[b - 1]);
    DrainBegins(ws[a - 1], acts[a - 1]);
    DrainTakes(ws, acts, a, b - 1);
    DrainStep(ws[b - 1], acts[b - 1]);
  }

  /** Only two steps begin a drain, and both take the whole list. */
  lemma DrainBegins(w: World, act: Action)
    requires Enabled(w, act) && !w.place.Drain? && Effect(w, act).place.Drain?
    ensures Effect(w, act).place.rest == w.jobs && Effect(w, act).jobs == []
  {
    hide Invoke;
  }

  /** Each job reaches the session that waits for it, as its block event. */
  lemma JobDelivered(ws: seq<World>, acts: seq<Action>, k: nat) returns (id: nat)
    requires Run(ws, acts) && k < |acts| && acts[k].Block? && ws[k].place.Drain? && ws[k].place.rest != []
    ensures var fd := ws[k].place.rest[0];
            && id < |ws[k].conns| == |ws[k + 1].conns| && Waits(ws[k].conns[id]) && ws[k].conns[id].s.clientFd == fd
            && ws[k + 1].conns[id] == Proxy(Dispatch(ContextOf(ws[k], id), fd, Stm.BlockReady, acts[k].input.socks).s)
            && forall i :: 0 <= i < |ws[k].conns| && i != id ==> ws[k + 1].conns[i] == ws[k].conns[i]
  {
    var w, fd := ws[k], ws[k].place.rest[0];
    BlockCallsOnlyWaiting(ws, acts, k);
    id := w.items[fd].data;
    assert ws[k + 1] == Effect(w, acts[k]);
    hide Run, Dispatch;
    BlockInvokes(w, acts[k].input, id);
  }

  lemma BlockInvokes(w: World, a: Input, id: nat)
    requires w.place.Drain? && w.place.rest != [] && id < |w.conns| && w.conns[id].Proxy?
    requires var fd := w.place.rest[0]; fd in w.items && w.items[fd].handler.SocksSession? && w.items[fd].data == id
    ensures var c := Dispatch(ContextOf(w, id), w.place.rest[0], Stm.BlockReady, a.socks);
            DrainOne(w, a).conns == w.conns[id := Proxy(c.s)]
  {
    hide Dispatch;
    var w1 := w.(place := Drain(w.place.rest[1..]));
    assert ContextOf(w1, id) == ContextOf(w, id);
  }

  /** The descriptors of the notifications that got through between two moments of a run, the last one first. */
  ghost function Notified(acts: seq<Action>, a: nat, b: nat): seq<int>
    requires a <= b <= |acts|
    decreases b - a
  {
    if a == b then []
    else (if acts[b - 1].ThreadNotifies? && acts[b - 1].memory then [acts[b - 1].t.fd] else []) + Notified(acts, a, b - 1)
  }

  lemma StepQueues(w: World, act: Action)
    requires Enabled(w, act) && !w.place.Drain? && !Effect(w, act).place.Drain?
    ensures Effect(w, act).jobs == (if act.ThreadNotifies? && act.memory then [act.t.fd] else []) + w.jobs
  {
    hide Invoke;
    if w.place.Scan? && act.Read? && w.place.i in w.items {
      InvokeQueue(w, w.place.i, w.items[w.place.i].handler, w.items[w.place.i].data, Stm.ReadReady, act.input);
    } else if w.place.ScanWrite? && act.Write? && w.place.i in w.items {
      InvokeQueue(w, w.place.i, w.items[w.place.i].handler, w.place.data, Stm.WriteReady, act.input);
    }
  }

  lemma InvokeQueue(w: World, key: int, kind: Kind, data: nat, e: Stm.Event, a: Input)
    ensures Invoke(w, key, kind, data, e, a).jobs == w.jobs
  {
    hide Dispatch, MngCallback, MngJump, AfterSetInterest, AfterRegister;
  }

  /** Until the next drain, the list holds every notification that got through since, the last one first. */
  lemma {:induction false} JobsAreStacked(ws: seq<World>, acts: seq<Action>, a: nat, b: nat)
    requires Run(ws, acts) && a <= b <= |acts| && ws[a].jobs == [] && forall k :: a <= k <= b ==> !ws[k].place.Drain?
    ensures ws[b].jobs == Notified(acts, a, b)
    decreases b - a
  {
    hide Effect, Enabled, Initial;
    if a < b {
      JobsAreStacked(ws, acts, a, b - 1);
      assert Enabled(ws[b - 1], acts[b - 1]) && ws[b] == Effect(ws[b - 1], acts[b - 1]);
      StepQueues(ws[b - 1], acts[b - 1]);
    }
  }
}
