/** Who owns which descriptor, in every reachable state of the process. */
module WorldInvariant {
  import opened SelectorModule
  import opened Session
  import opened SessionInvariant
  import opened Management
  import opened World
  import Fifo
  import SelectorClass
  import Stm

  // ----- the invariant

  /** The descriptors a connection holds open. */
  ghost function Holds(n: Conn): set<int> {
    match n
    case Proxy(s) => if s.live then {s.clientFd, s.originFd} - {-1} else {}
    case Admin(m) => if m.live then {m.clientFd} else {}
  }

  ghost function KindOf(n: Conn): Kind { if n.Proxy? then SocksSession else MngSession }

  ghost predicate Table(items: map<int, Item<Kind>>, open: set<int>, passive: set<int>) {
    && (forall fd :: fd in items ==> 0 <= fd < MAX_SIZE && fd in open)
    && (forall fd :: fd in open ==> 0 <= fd)
    && passive <= open
  }

  /** A registered descriptor is a listening socket or is held by the live connection it points at. */
  ghost predicate ItemOk(item: Item<Kind>, fd: int, passive: set<int>, conns: seq<Conn>) {
    if item.handler.SocksPassive? || item.handler.MngPassive? then fd in passive && item.interest == READ
    else item.data < |conns| && KindOf(conns[item.data]) == item.handler && fd in Holds(conns[item.data])
  }

  ghost predicate ItemsOk(items: map<int, Item<Kind>>, passive: set<int>, conns: seq<Conn>) {
    forall fd :: fd in items ==> ItemOk(items[fd], fd, passive, conns)
  }

  /** No descriptor has two holders. */
  ghost predicate Apart(conns: seq<Conn>, open: set<int>, passive: set<int>) {
    && (forall i :: 0 <= i < |conns| ==> Holds(conns[i]) <= open - passive)
    && (forall i, j :: 0 <= i < j < |conns| ==> Holds(conns[i]) !! Holds(conns[j]))
  }

  ghost predicate AdminFits(items: map<int, Item<Kind>>, id: nat, m: Mng) {
    && m.clientFd in items && items[m.clientFd] == Item(MngInterest(m.state), MngSession, id)
    && !IsFinal(m.state)
  }

  ghost predicate ConnOk(w: World, id: nat)
    requires id < |w.conns|
  {
    match w.conns[id]
    case Proxy(s) => if s.live then Good(ContextOf(w, id)) else Ended(s)
    case Admin(m) => m.live ==> AdminFits(w.items, id, m)
  }

  ghost predicate ConnsOk(w: World) {
    forall id :: 0 <= id < |w.conns| ==> ConnOk(w, id)
  }

  ghost predicate Structure(w: World) {
    && Table(w.items, w.open, w.passive)
    && ItemsOk(w.items, w.passive, w.conns)
    && Apart(w.conns, w.open, w.passive)
    && ConnsOk(w)
  }

  /** The bound of a scan is the max_fd that the selector keeps: no registered descriptor is left out. */
  lemma {:induction false} ScanBound(items: map<int, Item<Kind>>, below: nat)
    ensures var m := LargestFd(items, below);
            0 <= m && (m == 0 || m in items) && forall fd :: fd in items && 0 <= fd < below ==> fd <= m
    decreases below
  {
    if below > 0 {
      ScanBound(items, below - 1);
    }
  }

  lemma ScanCoversTable(items: map<int, Item<Kind>>)
    requires Bounded(items)
    ensures SelectorClass.IsMax(LargestFd(items, MAX_SIZE), items)
  {
    ScanBound(items, MAX_SIZE);
  }

  // ----- one connection changes

  /** Connection `id` gave up the descriptors `before`, now holds `mine`, and left all others alone. */
  ghost predicate Touched(
    items: map<int, Item<Kind>>, open: set<int>, items': map<int, Item<Kind>>, open': set<int>,
    id: nat, kind: Kind, before: set<int>, mine: set<int>)
  {
    && open' == (open - before) + mine && mine !! (open - before)
    && (forall fd :: fd in mine ==> 0 <= fd && (fd in items' ==> fd < MAX_SIZE))
    && (forall fd :: fd in items' && (fd in before || fd in mine) ==>
          fd in mine && items'[fd].handler == kind && items'[fd].data == id)
    && (forall fd :: fd !in before && fd !in mine ==>
          (fd in items' <==> fd in items) && (fd in items ==> items'[fd] == items[fd]))
  }

  /** The list of connections with entry `id` replaced, or appended. */
  ghost function Updated(conns: seq<Conn>, id: nat, n: Conn): seq<Conn>
    requires id <= |conns|
  {
    if id < |conns| then conns[id := n] else conns + [n]
  }

  ghost function HeldBefore(conns: seq<Conn>, id: nat): set<int> {
    if id < |conns| then Holds(conns[id]) else {}
  }

  ghost predicate Changed(w: World, w': World, id: nat, n: Conn) {
    && id <= |w.conns| && w'.conns == Updated(w.conns, id, n) && w'.passive == w.passive
    && (id < |w.conns| ==> KindOf(w.conns[id]) == KindOf(n))
    && Touched(w.items, w.open, w'.items, w'.open, id, KindOf(n), HeldBefore(w.conns, id), Holds(n))
  }

  lemma TableKept(w: World, w': World, id: nat, n: Conn)
    requires Structure(w) && Changed(w, w', id, n)
    ensures Table(w'.items, w'.open, w'.passive)
  {
    hide ConnsOk;
  }

  lemma ItemsKept(w: World, w': World, id: nat, n: Conn)
    requires Structure(w) && Changed(w, w', id, n)
    ensures ItemsOk(w'.items, w'.passive, w'.conns)
  {
    hide ConnsOk, Holds;
    forall fd | fd in w'.items
      ensures ItemOk(w'.items[fd], fd, w'.passive, w'.conns)
    {
      assert fd in w.items ==> ItemOk(w.items[fd], fd, w.passive, w.conns);
    }
  }

  lemma ApartKept(w: World, w': World, id: nat, n: Conn)
    requires Structure(w) && Changed(w, w', id, n)
    ensures Apart(w'.conns, w'.open, w'.passive)
  {
    hide ConnsOk, Holds, ItemsOk;
  }

  /** A good session stays good when somebody else changes. */
  lemma Undisturbed(c: Context, c': Context, id: nat, kind: Kind, before: set<int>, mine: set<int>)
    requires Good(c) && c'.id == c.id && c'.s == c.s && id != c.id
    requires Touched(c.items, c.open, c'.items, c'.open, id, kind, before, mine)
    requires Holds(Proxy(c.s)) !! before && Holds(Proxy(c.s)) <= c.open
    ensures Good(c')
  {
    forall fd | IsOwn(c'.items, c.id, fd)
      ensures IsOwn(c.items, c.id, fd)
    {
    }
  }

  lemma OthersKept(w: World, w': World, id: nat, n: Conn, j: nat)
    requires Structure(w) && Changed(w, w', id, n) && j < |w.conns| && j != id
    ensures ConnOk(w', j)
  {
    hide ItemsOk, Table, Good;
    assert ConnOk(w, j);
    assert Holds(w.conns[j]) !! HeldBefore(w.conns, id);
    if w.conns[j].Proxy? && w.conns[j].s.live {
      Undisturbed(ContextOf(w, j), ContextOf(w', j), id, KindOf(n), HeldBefore(w.conns, id), Holds(n));
    }
  }

  /** If the connection that changed is in order, so is the whole table. */
  lemma ChangeKeeps(w: World, w': World, id: nat, n: Conn)
    requires Structure(w) && Changed(w, w', id, n) && ConnOk(w', id)
    ensures Structure(w')
  {
    TableKept(w, w', id, n);
    ItemsKept(w, w', id, n);
    ApartKept(w, w', id, n);
    forall j: nat | j < |w'.conns|
      ensures ConnOk(w', j)
    {
      if j != id {
        OthersKept(w, w', id, n, j);
      }
    }
  }

  /** Steps that touch neither connections nor the table. */
  lemma StructureSame(w: World, w': World)
    requires Structure(w)
    requires w'.conns == w.conns && w'.items == w.items && w'.open == w.open && w'.passive == w.passive
    ensures Structure(w')
  {
    hide ItemsOk, Table, Apart;
    forall j: nat | j < |w'.conns|
      ensures ConnOk(w', j)
    {
      assert ConnOk(w, j);
    }
  }

  // ----- a SOCKS session changes

  lemma FrameTouches(c: Context, c': Context)
    requires Good(c) && Good(c') && c'.id == c.id && Framed(c, c')
    ensures Touched(c.items, c.open, c'.items, c'.open, c.id, SocksSession, Holds(Proxy(c.s)), Holds(Proxy(c'.s)))
  {
    hide InterestsFit;
    var before, mine := Holds(Proxy(c.s)), Holds(Proxy(c'.s));
    assert -1 !in c.open && -1 !in c'.open;
    forall fd
      ensures fd in c'.open <==> fd in (c.open - before) + mine
    {
      assert fd in c'.open - {c'.s.originFd} <==> fd in c.open - {c.s.originFd};
    }
  }

  lemma EndTouches(c: Context, c': Context)
    requires Good(c) && !c'.s.live
    requires c'.open == c.open - {c.s.clientFd, c.s.originFd} && c'.items == c.items - {c.s.clientFd, c.s.originFd}
    ensures Touched(c.items, c.open, c'.items, c'.open, c.id, SocksSession, Holds(Proxy(c.s)), Holds(Proxy(c'.s)))
  {
    hide InterestsFit;
    assert -1 !in c.open;
  }

  lemma SessionChanges(w: World, id: nat, c': Context)
    requires Structure(w) && id < |w.conns| && w.conns[id].Proxy? && w.conns[id].s.live
    requires Served(ContextOf(w, id), c')
    ensures var w' := Back(w, id, c');
            id < |w'.conns| && Changed(w, w', id, Proxy(c'.s)) && ConnOk(w', id)
  {
    hide Good, Ended, Framed, ItemsOk, Table, Apart, Touched;
    var c, w' := ContextOf(w, id), Back(w, id, c');
    assert ConnOk(w, id);
    if c'.s.live {
      FrameTouches(c, c');
      SameGood(c', ContextOf(w', id));
    } else {
      EndTouches(c, c');
    }
  }

  /** Being in order is a matter of the session and the table alone. */
  lemma SameGood(c: Context, c': Context)
    requires c'.id == c.id && c'.s == c.s && c'.items == c.items && c'.open == c.open
    ensures Good(c') == Good(c)
  {
  }

  // ----- a management session changes

  lemma AdminOk(w: World, id: nat)
    requires Structure(w) && id < |w.conns| && w.conns[id].Admin? && w.conns[id].m.live
    ensures AdminFits(w.items, id, w.conns[id].m)
    ensures var fd := w.conns[id].m.clientFd; 0 <= fd < MAX_SIZE && fd in w.open
  {
    hide ItemsOk, Apart;
    assert ConnOk(w, id);
  }

  /** What a management callback leaves: the session goes on with the interest of its state, or it is gone. */
  ghost predicate MngOutcome(w: World, w': World, id: nat, key: int)
    requires id < |w.conns| && w.conns[id].Admin? && key in w.items
  {
    && id < |w'.conns| && w'.conns[id].Admin? && w'.conns == w.conns[id := w'.conns[id]]
    && w'.conns[id].m.clientFd == w.conns[id].m.clientFd
    && w'.passive == w.passive && w'.anomalies == w.anomalies
    && var m' := w'.conns[id].m;
       if m'.live then
         && w'.items == w.items[key := w.items[key].(interest := MngInterest(m'.state))] && w'.open == w.open
         && !IsFinal(m'.state)
       else w'.items == w.items - {key} && w'.open == w.open - {key}
  }

  /** The interest of a state lets only events through that it has a callback for. */
  lemma Awaited(m: Mng, e: Stm.Event)
    requires !IsFinal(m.state) && !e.BlockReady?
    requires e.ReadReady? ==> MngInterest(m.state).read
    requires e.WriteReady? ==> MngInterest(m.state).write
    ensures Stm.Handles(MngDefinition(m.state), e)
  {
  }

  lemma SettleHas(w: World, w1: World, id: nat, key: int, t: Turn)
    requires id < |w.conns| && w.conns[id].Admin? && w.conns[id].m.live && key == w.conns[id].m.clientFd && key in w.items
    requires t.m.clientFd == key && t.m.live && t.m.state == w.conns[id].m.state
    requires w1 == w.(items := w1.items, config := w1.config, honest := w1.honest)
    requires w1.items - {key} == w.items - {key}
    requires IsFinal(t.next) || w1.items == w.items[key := w.items[key].(interest := MngInterest(t.next))]
    ensures MngOutcome(w, MngSettle(w1, id, t), id, key)
  {
    hide MngInterest;
  }

  lemma MngHas(w: World, id: nat, key: int, e: Stm.Event, a: MngAnswers)
    requires id < |w.conns| && w.conns[id].Admin? && w.conns[id].m.live && key == w.conns[id].m.clientFd
    requires AdminFits(w.items, id, w.conns[id].m) && 0 <= key < MAX_SIZE
    requires e.ReadReady? ==> MngInterest(w.conns[id].m.state).read
    requires e.WriteReady? ==> MngInterest(w.conns[id].m.state).write
    requires !e.BlockReady?
    ensures MngOutcome(w, MngEvent(w, id, key, e, a), id, key)
  {
    var m := w.conns[id].m;
    Awaited(m, e);
    TurnWants(m, w.config, w.metrics, a);
    hide MngCallback, MngDefinition, MngInterest, MngSettle;
    var t := MngCallback(m, w.config, w.metrics, a);
    var items := if t.want.Some? then w.items[key := w.items[key].(interest := t.want.value)] else w.items;
    assert w.items[key := w.items[key].(interest := MngInterest(m.state))] == w.items;
    SettleHas(w, w.(items := items, config := t.config, honest := w.honest && t.honest), id, key, t);
  }

  /** Such an outcome touches nobody else. */
  lemma OutcomeTouches(w: World, w': World, id: nat, key: int)
    requires id < |w.conns| && w.conns[id].Admin? && w.conns[id].m.live && key == w.conns[id].m.clientFd && key in w.items
    requires AdminFits(w.items, id, w.conns[id].m) && 0 <= key < MAX_SIZE && key in w.open
    requires MngOutcome(w, w', id, key)
    ensures Touched(w.items, w.open, w'.items, w'.open, id, MngSession, Holds(w.conns[id]), Holds(w'.conns[id]))
  {
    hide MngInterest;
    assert w.open == w.open - {key} + {key};
  }

  lemma MngChanges(w: World, id: nat, key: int, e: Stm.Event, a: MngAnswers)
    requires Structure(w) && id < |w.conns| && w.conns[id].Admin? && w.conns[id].m.live && key == w.conns[id].m.clientFd
    requires e.ReadReady? ==> MngInterest(w.conns[id].m.state).read
    requires e.WriteReady? ==> MngInterest(w.conns[id].m.state).write
    requires !e.BlockReady?
    ensures var w' := MngEvent(w, id, key, e, a);
            && id < |w'.conns| && Changed(w, w', id, w'.conns[id]) && ConnOk(w', id)
            && w'.anomalies == w.anomalies
  {
    AdminOk(w, id);
    MngHas(w, id, key, e, a);
    hide Structure, MngEvent, Touched, MngInterest;
    OutcomeTouches(w, MngEvent(w, id, key, e, a), id, key);
  }

  // ----- a connection is accepted

  lemma AcceptedOk(w: World, w': World, fd: int, kind: Kind, n: Conn)
    requires Structure(w) && 0 <= fd < MAX_SIZE && fd !in w.open && KindOf(n) == kind && Holds(n) == {fd}
    requires n.Proxy? ==> n == Proxy(New(fd, w.config.bufferSize))
    requires n.Admin? ==> n == Admin(MngNew(fd))
    requires w'.conns == w.conns + [n] && w'.passive == w.passive
    requires w'.items == w.items[fd := Item(READ, kind, |w.conns|)] && w'.open == w.open + {fd}
    ensures Changed(w, w', |w.conns|, n) && ConnOk(w', |w.conns|)
  {
    hide Apart, ConnsOk;
    assert Touched(w.items, w.open, w'.items, w'.open, |w.conns|, kind, {}, {fd});
    forall g | IsOwn(w'.items, |w.conns|, g)
      ensures g == fd
    {
      assert g in w.items ==> ItemOk(w.items[g], g, w.passive, w.conns);
    }
  }
}
