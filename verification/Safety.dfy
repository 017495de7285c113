/** Every step of the process keeps the invariant; what follows for every run. */
module Safety {
  import opened Bytes
  import opened SelectorModule
  import opened Session
  import opened SessionInvariant
  import opened Management
  import opened World
  import opened WorldInvariant
  import opened Handoff
  import opened Accounts
  import Fifo
  import Stm
  import R = RequestParser

  /** Between the halves of a slot's turn, the key still points at the item's own data. */
  ghost predicate PlaceOk(w: World) {
    w.place.ScanWrite? ==> (w.place.i in w.items ==> w.items[w.place.i].data == w.place.data)
  }

  ghost predicate Kernel(w: World, served: int) {
    Structure(w) && Handed(w, served) && Accounted(w.metrics, w.conns)
  }

  ghost predicate Inv(w: World) { Kernel(w, -1) && PlaceOk(w) }

  /** The outcome of a callback made with key `key` and data `data`. */
  ghost predicate Safe(w: World, w': World, key: int, data: nat) {
    w'.honest ==>
      && w'.anomalies <= {ReplyTooBig}
      && (w'.anomalies == {} ==>
            Kernel(w', -1) && w'.place == w.place && (key in w'.items ==> w'.items[key].data == data))
  }

  // ----- callbacks

  /** One connection changed, threads and counters moved accordingly: the kernel holds again. */
  lemma KernelChanges(w: World, w': World, id: nat, n: Conn, served: int)
    requires Kernel(w, served) && Changed(w, w', id, n) && id < |w'.conns| && ConnOk(w', id)
    requires served == -1 || served == id
    requires Started(w, w', id, n) && Booked(w.metrics, w'.metrics, w.conns, id, n)
    ensures Kernel(w', -1)
  {
    hide Structure, Touched, Handed, Accounted, Booked;
    ChangeKeeps(w, w', id, n);
    ChangeHands(w, w', id, n, served);
    ChangeAccounts(w.metrics, w'.metrics, w.conns, id, n);
  }

  lemma ServedBooks(w: World, id: nat, c': Context)
    requires id < |w.conns| && IsLive(w.conns[id]) && Good(ContextOf(w, id)) && Served(ContextOf(w, id), c')
    ensures Booked(w.metrics, c'.metrics, w.conns, id, Proxy(c'.s))
  {
    hide Owning, InterestsFit, Framed;
  }

  lemma ServedStarts(w: World, id: nat, c': Context, served: int)
    requires id < |w.conns| && IsLive(w.conns[id]) && Served(ContextOf(w, id), c') && Balanced(w, served)
    requires served == id || !Waits(w.conns[id])
    ensures Started(w, Back(w, id, c'), id, Proxy(c'.s))
  {
    hide Good, Framed, Ended;
    assert Tokens(w, id, w.conns[id].s.clientFd) == 0;
  }

  lemma SessionStep(w: World, id: nat, key: int, e: Stm.Event, a: Answers, served: int)
    requires Kernel(w, served) && w.honest && w.anomalies == {}
    requires id < |w.conns| && IsLive(w.conns[id]) && Deliverable(ContextOf(w, id), key, e)
    requires if e.BlockReady? then served == id else served == -1
    ensures Safe(w, Back(w, id, Dispatch(ContextOf(w, id), key, e, a)), key, id)
  {
    hide Good, Served, Dispatch, Touched, Changed, Booked, Started, Accounted, ItemsOk, Apart, Table;
    var c := ContextOf(w, id);
    assert Good(c) by { assert ConnOk(w, id); }
    DispatchServes(c, key, e, a);
    var c' := Dispatch(c, key, e, a);
    if c'.honest && c'.anomalies == {} {
      HandlerExists(c, key, e);
      SessionChanges(w, id, c');
      ServedBooks(w, id, c');
      ServedStarts(w, id, c', served);
      KernelChanges(w, Back(w, id, c'), id, Proxy(c'.s), served);
      KeyStays(w, id, c', key);
    }
  }

  /** The key's descriptor, if still registered, still belongs to the session. */
  lemma KeyStays(w: World, id: nat, c': Context, key: int)
    requires id < |w.conns| && IsLive(w.conns[id]) && Good(ContextOf(w, id)) && Changed(w, Back(w, id, c'), id, Proxy(c'.s))
    requires key == w.conns[id].s.clientFd || key == w.conns[id].s.originFd
    ensures key in c'.items ==> c'.items[key].data == id
  {
    hide InterestsFit;
    assert key in w.items && key != -1 ==> key in HeldBefore(w.conns, id);
  }

  lemma AcceptStep(w: World, a: Accept, kind: Kind, n: Conn, allowed: bool, key: int, data: nat)
    requires Kernel(w, -1) && w.honest && w.anomalies == {} && KindOf(n) == kind && (a.fd != -1 ==> Holds(n) == {a.fd})
    requires n.Proxy? ==> n == Proxy(New(a.fd, w.config.bufferSize))
    requires n.Admin? ==> n == Admin(MngNew(a.fd))
    requires key in w.items && w.items[key].data == data
    ensures Safe(w, AcceptAs(w, a, kind, n, allowed), key, data)
  {
    hide ItemsOk, Apart, ConnsOk, Accounted, Changed, Booked, Started, Handed;
    var w' := AcceptAs(w, a, kind, n, allowed);
    if w'.conns == w.conns {
      KernelSame(w, w');
    } else if w'.honest {
      AcceptedOk(w, w', a.fd, kind, n);
      QuietStarts(w, w', |w.conns|, n);
      KernelChanges(w, w', |w.conns|, n, -1);
    }
  }

  lemma KernelSame(w: World, w': World)
    requires Kernel(w, -1)
    requires w'.conns == w.conns && w'.items == w.items && w'.open == w.open && w'.passive == w.passive
    requires w'.asking == w.asking && w'.telling == w.telling && w'.lost == w.lost && Queued(w') == Queued(w)
    requires w'.metrics == w.metrics
    ensures Kernel(w', -1)
  {
    hide Structure, Handed, Accounted;
    StructureSame(w, w');
    MoveHands(w, w', -1);
  }

  lemma MngStep(w: World, id: nat, key: int, e: Stm.Event, a: MngAnswers)
    requires Kernel(w, -1) && w.honest && w.anomalies == {}
    requires id < |w.conns| && w.conns[id].Admin? && w.conns[id].m.live && key == w.conns[id].m.clientFd
    requires e.ReadReady? ==> MngInterest(w.conns[id].m.state).read
    requires e.WriteReady? ==> MngInterest(w.conns[id].m.state).write
    requires !e.BlockReady?
    ensures Safe(w, MngEvent(w, id, key, e, a), key, id)
  {
    hide Structure, Accounted, Touched, ConnOk, Balanced, ThreadsOk, JobsOk;
    var w' := MngEvent(w, id, key, e, a);
    MngChanges(w, id, key, e, a);
    var n := w'.conns[id];
    MngQuiet(w, id, key, e, a);
    QuietStarts(w, w', id, n);
    KernelChanges(w, w', id, n, -1);
    assert key in w'.items ==> w'.items[key].data == id by {
      assert Touched(w.items, w.open, w'.items, w'.open, id, KindOf(n), HeldBefore(w.conns, id), Holds(n));
      MngKey(w, w', id, n, key);
    }
  }

  lemma MngKey(w: World, w': World, id: nat, n: Conn, key: int)
    requires Changed(w, w', id, n) && key in HeldBefore(w.conns, id)
    ensures key in w'.items ==> w'.items[key].data == id
  {
  }

  ghost predicate SameLedger(w: World, w': World) {
    && w'.place == w.place && w'.jobs == w.jobs && w'.metrics == w.metrics
    && w'.asking == w.asking && w'.telling == w.telling && w'.lost == w.lost
  }

  /** A management session starts no thread and moves no counter. */
  lemma MngQuiet(w: World, id: nat, key: int, e: Stm.Event, a: MngAnswers)
    requires id < |w.conns| && w.conns[id].Admin?
    ensures var w' := MngEvent(w, id, key, e, a);
            SameLedger(w, w') && |w'.conns| == |w.conns| && w'.conns[id].Admin?
  {
  }

  lemma QuietStarts(w: World, w': World, id: nat, n: Conn)
    requires SameLedger(w, w') && (id < |w.conns| ==> w.conns[id].Admin?) && id <= |w.conns|
    requires n.Admin? || (n.s.relay == NO_RELAY && !n.s.connected && !n.s.ended && n.s.state.HelloRead? && id == |w.conns|)
    ensures Started(w, w', id, n) && Booked(w.metrics, w'.metrics, w.conns, id, n)
  {
  }

  /** What the table says about an item whose callback is about to run. */
  ghost predicate Due(w: World, key: int, e: Stm.Event, served: int) {
    && key in w.items
    && match e
       case ReadReady => w.items[key].interest.read && served == -1
       case WriteReady => w.items[key].interest.write && served == -1
       case BlockReady => JobOk(w.items, w.conns, key) && Waits(w.conns[w.items[key].data]) && served == w.items[key].data
  }

  lemma DeliverKeeps(w: World, key: int, e: Stm.Event, a: Input, served: int)
    requires Kernel(w, served) && w.honest && w.anomalies == {} && Due(w, key, e, served)
    ensures Safe(w, Invoke(w, key, w.items[key].handler, w.items[key].data, e, a), key, w.items[key].data)
  {
    hide Apart, Table, Handed, Accounted, Safe;
    var item := w.items[key];
    assert ItemOk(item, key, w.passive, w.conns);
    match item.handler
    case SocksPassive =>
      AcceptStep(w, a.accept, SocksSession, Proxy(New(a.accept.fd, w.config.bufferSize)),
                 MAX_CONNECTIONS - 1 >= w.metrics.current, key, item.data);
    case MngPassive =>
      AcceptStep(w, a.accept, MngSession, Admin(MngNew(a.accept.fd)),
                 MAX_CONNECTIONS >= w.metrics.current, key, item.data);
    case SocksSession =>
      SessionStep(w, item.data, key, e, a.socks, served);
    case MngSession =>
      assert ConnOk(w, item.data);
      MngStep(w, item.data, key, e, a.mng);
  }

  // ----- steps

  ghost predicate Stepped(w': World) {
    w'.honest ==> w'.anomalies <= {ReplyTooBig} && (w'.anomalies == {} ==> Inv(w'))
  }

  lemma InitialKeeps(w: World)
    requires Initial(w)
    ensures Inv(w)
  {
  }

  lemma ReadHalfKeeps(w: World, a: Input)
    requires Inv(w) && w.honest && w.anomalies == {} && w.place.Scan?
    ensures Stepped(ReadHalf(w, a))
  {
    hide Structure, Handed, Accounted, Invoke;
    var p, w' := w.place, ReadHalf(w, a);
    if p.i > p.n {
      KernelDrains(w);
    } else if p.i !in w.items || !(p.i in p.ready.readable && w.items[p.i].interest.read) {
      KernelSame(w, w');
    } else {
      var item := w.items[p.i];
      DeliverKeeps(w, p.i, Stm.ReadReady, a, -1);
      var w1 := Invoke(w, p.i, item.handler, item.data, Stm.ReadReady, a);
      if w1.honest && w1.anomalies == {} {
        KernelSame(w1, w');
      }
    }
  }

  lemma KernelDrains(w: World)
    requires Kernel(w, -1) && !w.place.Drain?
    ensures Kernel(StartDrain(w), -1)
  {
    hide Structure, Handed, Accounted;
    StructureSame(w, StartDrain(w));
    DrainStarts(w);
  }

  lemma WriteHalfKeeps(w: World, a: Input)
    requires Inv(w) && w.honest && w.anomalies == {} && w.place.ScanWrite?
    ensures Stepped(WriteHalf(w, a))
  {
    hide Structure, Handed, Accounted, Invoke;
    var p, w' := w.place, WriteHalf(w, a);
    if p.i in p.ready.writable && p.i in w.items && w.items[p.i].interest.write {
      DeliverKeeps(w, p.i, Stm.WriteReady, a, -1);
      var w1 := Invoke(w, p.i, w.items[p.i].handler, p.data, Stm.WriteReady, a);
      if w1.honest && w1.anomalies == {} {
        KernelSame(w1, w');
      }
    } else {
      KernelSame(w, w');
    }
  }

  lemma DrainOneKeeps(w: World, a: Input)
    requires Inv(w) && w.honest && w.anomalies == {} && w.place.Drain?
    ensures Stepped(DrainOne(w, a))
  {
    hide Structure, Handed, Accounted, Invoke;
    if w.place.rest == [] {
      KernelSame(w, DrainOne(w, a));
    } else {
      var fd, w1 := w.place.rest[0], w.(place := Drain(w.place.rest[1..]));
      TakeJob(w, w1);
      StructureSame(w, w1);
      DeliverKeeps(w1, fd, Stm.BlockReady, a, w1.items[fd].data);
    }
  }

  lemma ThreadStepKeeps(w: World, act: Action)
    requires Inv(w) && w.honest && Enabled(w, act) && (act.ThreadResolves? || act.ThreadNotifies?)
    ensures Stepped(Effect(w, act))
  {
    hide Structure, Handed, Accounted, ReadHalf, WriteHalf, DrainOne;
    match act
    case ThreadResolves(t, n) =>
      ResolveKeeps(w, t, n);
      ResolveBooks(w, t, n);
    case ThreadNotifies(t, memory) =>
      NotifyKeeps(w, t, memory);
      StructureSame(w, Notify(w, t, memory));
  }

  lemma SelectKeeps(w: World, ready: Ready)
    requires Inv(w) && w.honest && w.anomalies == {} && w.place.Idle?
    ensures Stepped(Wake(w, ready)) && Stepped(StartDrain(w))
  {
    KernelSame(w, Wake(w, ready));
    KernelDrains(w);
    hide Structure, Handed, Accounted, LargestFd;
  }

  lemma StepKeeps(w: World, act: Action)
    requires Inv(w) && w.honest && Enabled(w, act)
    ensures Stepped(Effect(w, act))
  {
    hide Inv, Stepped, ReadHalf, WriteHalf, DrainOne, Wake, StartDrain, Resolve, Notify;
    match act
    case Select(ready) => SelectKeeps(w, ready);
    case Interrupt => SelectKeeps(w, Ready({}, {}));
    case Read(a) => ReadHalfKeeps(w, a);
    case Write(a) => WriteHalfKeeps(w, a);
    case Block(a) => DrainOneKeeps(w, a);
    case _ => ThreadStepKeeps(w, act);
  }

  lemma ResolveBooks(w: World, t: Thread, n: nat)
    requires t.id < |w.conns| && IsLive(w.conns[t.id]) && Accounted(w.metrics, w.conns)
    ensures Accounted(w.metrics, Resolve(w, t, n).conns)
  {
    ChangeAccounts(w.metrics, w.metrics, w.conns, t.id, Resolve(w, t, n).conns[t.id]);
  }

  // ----- runs

  /**
   * Every reachable state. With an honest operating system no run reaches an
   * event without a handler, a descriptor registered twice or a refused
   * interest; the one abort left is a reply that outgrows its buffer, and until
   * it happens the whole invariant holds.
   */
  lemma {:induction false} RunKeeps(ws: seq<World>, acts: seq<Action>)
    requires Run(ws, acts)
    ensures Stepped(ws[|acts|])
    decreases |acts|
  {
    hide Inv, Effect, Enabled, Initial;
    var n := |acts|;
    if n == 0 {
      InitialKeeps(ws[0]);
      assert ws[0].anomalies == {} by { InitialClean(ws[0]); }
    } else {
      RunPrefix(ws, acts, n - 1);
      RunKeeps(ws[..n], acts[..n - 1]);
      assert Enabled(ws[n - 1], acts[n - 1]) && ws[n] == Effect(ws[n - 1], acts[n - 1]);
      EnabledClean(ws[n - 1], acts[n - 1]);
      StepKeeps(ws[n - 1], acts[n - 1]);
    }
  }

  lemma InitialClean(w: World)
    requires Initial(w)
    ensures w.anomalies == {}
  {
  }

  lemma EnabledClean(w: World, act: Action)
    requires Enabled(w, act)
    ensures w.anomalies == {}
  {
  }

  lemma RunPrefix(ws: seq<World>, acts: seq<Action>, n: nat)
    requires Run(ws, acts) && n <= |acts|
    ensures Run(ws[..n + 1], acts[..n])
  {
  }

  /** Any state of a run, up to a fatal one. */
  lemma Reachable(ws: seq<World>, acts: seq<Action>, k: nat)
    requires Run(ws, acts) && k <= |acts|
    ensures ws[k].anomalies <= {ReplyTooBig}
    ensures ws[k].anomalies == {} ==> Inv(ws[k])
    ensures k < |acts| ==> ws[k].anomalies == {}
  {
    hide Inv, Effect, Initial;
    RunPrefix(ws, acts, k);
    RunKeeps(ws[..k + 1], acts[..k]);
  }
}
