/**
 * The whole process: the selector loop of src/selector.c over any number of
 * SOCKS sessions, management sessions (src/mng.c, src/mng_handler.c) and
 * resolver threads. A step is one callback, one turn of a loop, or one action
 * of a thread; whatever the operating system decides is an input.
 */
module World {
  import opened Bytes
  import opened SelectorModule
  import opened Session
  import opened Management
  import Stm
  import R = RequestParser

  // ----- the process

  datatype Conn = Proxy(s: Session) | Admin(m: Mng)

  /** Where the main thread is; ScanWrite is between the read and the write half of a slot's turn. */
  datatype Place =
    | Idle
    | Scan(i: nat, n: int, ready: Ready)
    | ScanWrite(i: nat, n: int, ready: Ready, data: nat)
    | Drain(rest: seq<int>)

  datatype World = World(
    items: map<int, Item<Kind>>, open: set<int>, passive: set<int>,
    conns: seq<Conn>,  // every session ever accepted, by identity
    config: Config, metrics: Metrics,
    asking: multiset<Thread>,   // threads inside getaddrinfo
    telling: multiset<Thread>,  // threads about to call selector_notify_block
    lost: multiset<Thread>,     // notifications the allocator refused
    jobs: seq<int>, place: Place,
    anomalies: set<Anomaly>, honest: bool)

  datatype Accept = Accept(fd: int, memory: bool, nonBlocking: bool)

  /** The operating system's answers for one callback. */
  datatype Input = Input(socks: Answers, mng: MngAnswers, accept: Accept)

  const MAX_CONNECTIONS := 508

  // ----- callbacks

  function ContextOf(w: World, id: nat): Context
    requires id < |w.conns| && w.conns[id].Proxy?
  {
    Context(id, w.conns[id].s, w.items, w.open, w.config, w.metrics, w.asking, w.anomalies, w.honest)
  }

  function Back(w: World, id: nat, c: Context): World
    requires id < |w.conns|
  {
    w.(conns := w.conns[id := Proxy(c.s)], items := c.items, open := c.open, metrics := c.metrics,
       asking := c.threads, anomalies := c.anomalies, honest := c.honest)
  }

  function Wrong(w: World, a: Anomaly): World { w.(anomalies := w.anomalies + {a}) }

  /** The common part of the two accept callbacks, after the connection limit was checked. */
  function AcceptAs(w: World, a: Accept, kind: Kind, conn: Conn, allowed: bool): World {
    if a.fd == -1 then w
    else
      var w1 := w.(honest := w.honest && a.fd >= 0 && a.fd !in w.open);
      if !a.memory || !allowed || !a.nonBlocking then w1  // the new descriptor is closed again
      else
        var (items, status) := AfterRegister(w1.items, a.fd, Item(READ, kind, |w1.conns|));
        if status.FdInUse? then Wrong(w1, FdAlreadyRegistered)
        else if !status.Success? then w1
        else w1.(items := items, open := w1.open + {a.fd}, conns := w1.conns + [conn])
  }

  /** socks5_passive_accept. */
  function SocksAccept(w: World, a: Accept): World {
    AcceptAs(w, a, SocksSession, Proxy(New(a.fd, w.config.bufferSize)), MAX_CONNECTIONS - 1 >= w.metrics.current)
  }

  /** mng_passive_accept. */
  function MngAccept(w: World, a: Accept): World {
    AcceptAs(w, a, MngSession, Admin(MngNew(a.fd)), MAX_CONNECTIONS >= w.metrics.current)
  }

  /** The session's turn is over: it goes on, or mng_done gives up its descriptor. */
  function MngSettle(w: World, id: nat, t: Turn): World
    requires id < |w.conns|
  {
    var m := MngJump(t.m, t.next);
    if IsFinal(t.next) then
      w.(conns := w.conns[id := Admin(m.(live := false))], items := w.items - {m.clientFd}, open := w.open - {m.clientFd})
    else w.(conns := w.conns[id := Admin(m)])
  }

  /** mng_read, mng_write and mng_block over the engine. */
  function MngEvent(w: World, id: nat, key: int, e: Stm.Event, a: MngAnswers): World
    requires id < |w.conns| && w.conns[id].Admin?
  {
    var m := w.conns[id].m;
    if !Stm.Handles(MngDefinition(m.state), e) then Wrong(w, MissingHandler)
    else
      var t := MngCallback(m, w.config, w.metrics, a);
      var (items, status) := if t.want.Some? then AfterSetInterest(w.items, key, t.want.value) else (w.items, Success);
      var w1 := w.(items := items, config := t.config, honest := w.honest && t.honest);
      if !status.Success? then Wrong(w1, InterestRefused) else MngSettle(w1, id, t)
  }

  /** A callback through the handler table of an item; `data` is the key's. */
  function Invoke(w: World, key: int, kind: Kind, data: nat, e: Stm.Event, a: Input): World {
    match kind
    case SocksPassive => if e.ReadReady? then SocksAccept(w, a.accept) else Wrong(w, MissingHandler)
    case MngPassive => if e.ReadReady? then MngAccept(w, a.accept) else Wrong(w, MissingHandler)
    case SocksSession =>
      if data < |w.conns| && w.conns[data].Proxy? then Back(w, data, Dispatch(ContextOf(w, data), key, e, a.socks))
      else Wrong(w, MissingHandler)
    case MngSession =>
      if data < |w.conns| && w.conns[data].Admin? then MngEvent(w, data, key, e, a.mng)
      else Wrong(w, MissingHandler)
  }

  // ----- the loops of selector_select

  function LargestFd(items: map<int, Item<Kind>>, below: nat): nat {
    if below == 0 then 0 else if below - 1 in items then below - 1 else LargestFd(items, below - 1)
  }

  /** pselect returned with ready descriptors, or was interrupted by a signal. */
  function Wake(w: World, ready: Ready): World { w.(place := Scan(0, LargestFd(w.items, MAX_SIZE), ready)) }

  /** The mutex is taken and the list of jobs walked. */
  function StartDrain(w: World): World { w.(place := Drain(w.jobs), jobs := []) }

  function ReadHalf(w: World, a: Input): World
    requires w.place.Scan?
  {
    var p := w.place;
    if p.i > p.n then StartDrain(w)
    else if p.i !in w.items then w.(place := Scan(p.i + 1, p.n, p.ready))
    else
      var item := w.items[p.i];
      var w1 := if p.i in p.ready.readable && item.interest.read
                then Invoke(w, p.i, item.handler, item.data, Stm.ReadReady, a) else w;
      w1.(place := ScanWrite(p.i, p.n, p.ready, item.data))
  }

  function WriteHalf(w: World, a: Input): World
    requires w.place.ScanWrite?
  {
    var p := w.place;
    var w1 := if p.i in p.ready.writable && p.i in w.items && w.items[p.i].interest.write
              then Invoke(w, p.i, w.items[p.i].handler, p.data, Stm.WriteReady, a) else w;
    w1.(place := Scan(p.i + 1, p.n, p.ready))
  }

  function DrainOne(w: World, a: Input): World
    requires w.place.Drain?
  {
    if w.place.rest == [] then w.(place := Idle)
    else
      var fd, rest := w.place.rest[0], w.place.rest[1..];
      var w1 := w.(place := Drain(rest));
      if fd in w1.items then Invoke(w1, fd, w1.items[fd].handler, w1.items[fd].data, Stm.BlockReady, a) else w1
  }

  // ----- resolver threads

  /** getaddrinfo returned n addresses (0 on failure) and the thread stored them. */
  function Resolve(w: World, t: Thread, n: nat): World
    requires t.id < |w.conns| && w.conns[t.id].Proxy?
  {
    var s := w.conns[t.id].s;
    w.(conns := w.conns[t.id := Proxy(s.(resolution := Resolution(n, 0, s.resolution.attempts)))],
       asking := w.asking - multiset{t}, telling := w.telling + multiset{t})
  }

  /** selector_notify_block. */
  function Notify(w: World, t: Thread, memory: bool): World {
    if memory then w.(telling := w.telling - multiset{t}, jobs := [t.fd] + w.jobs)
    else w.(telling := w.telling - multiset{t}, lost := w.lost + multiset{t})
  }

  // ----- steps and runs

  datatype Action =
    | Select(ready: Ready)
    | Interrupt
    | Read(input: Input)
    | Write(input: Input)
    | Block(input: Input)
    | ThreadResolves(t: Thread, n: nat)
    | ThreadNotifies(t: Thread, memory: bool)

  /** A dead process takes no step; the mutex keeps notifications out of a drain. */
  ghost predicate Enabled(w: World, act: Action) {
    && w.anomalies == {}
    && match act
       case Select(_) => w.place.Idle?
       case Interrupt => w.place.Idle?
       case Read(_) => w.place.Scan?
       case Write(_) => w.place.ScanWrite?
       case Block(_) => w.place.Drain?
       case ThreadResolves(t, _) => t in w.asking
       case ThreadNotifies(t, _) => t in w.telling && !w.place.Drain?
  }

  function Effect(w: World, act: Action): World {
    match act
    case Select(ready) => Wake(w, ready)
    case Interrupt => StartDrain(w)
    case Read(a) => if w.place.Scan? then ReadHalf(w, a) else w
    case Write(a) => if w.place.ScanWrite? then WriteHalf(w, a) else w
    case Block(a) => if w.place.Drain? then DrainOne(w, a) else w
    case ThreadResolves(t, n) => if t.id < |w.conns| && w.conns[t.id].Proxy? then Resolve(w, t, n) else w
    case ThreadNotifies(t, memory) => Notify(w, t, memory)
  }

  /** main before the first selector_select: only the listening sockets are registered. */
  ghost predicate Initial(w: World) {
    && w.conns == [] && w.jobs == [] && w.place.Idle?
    && w.asking == w.telling == w.lost == multiset{}
    && w.metrics == Metrics(0, 0, 0, 0) && w.anomalies == {} && w.honest
    && w.passive <= w.open && (forall fd :: fd in w.open ==> 0 <= fd)
    && (forall fd :: fd in w.items ==>
          && fd in w.passive && fd < MAX_SIZE && w.items[fd].interest == READ
          && (w.items[fd].handler.SocksPassive? || w.items[fd].handler.MngPassive?))
  }

  /** A run of the process under an operating system that keeps its side. */
  ghost predicate Run(ws: seq<World>, acts: seq<Action>) {
    && |ws| == |acts| + 1 && Initial(ws[0])
    && (forall k :: 0 <= k < |acts| ==> Enabled(ws[k], acts[k]) && ws[k + 1] == Effect(ws[k], acts[k]))
    && (forall k :: 0 <= k < |ws| ==> ws[k].honest)
  }
}
