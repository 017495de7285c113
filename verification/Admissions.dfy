/** Which connections the two listening sockets take in, and what a session starts as. */
module Admissions {
  import opened Bytes
  import opened SelectorModule
  import opened Session
  import opened SessionInvariant
  import opened Management
  import opened World
  import opened WorldInvariant
  import opened Handoff
  import opened Accounts
  import opened Safety
  import opened AuthGate
  import opened Theorems
  import Fifo
  import Stm

  /** In this step the handler of a listening socket of this kind is called. */
  ghost predicate Knocks(w: World, act: Action, kind: Kind) {
    && act.Read? && w.place.Scan? && w.place.i <= w.place.n && w.place.i in w.items
    && w.place.i in w.place.ready.readable && w.items[w.place.i].interest.read && w.items[w.place.i].handler == kind
  }

  /** Connections that count: those made to an origin, less those that ended. */
  ghost function Connections(w: World): int { Sum(w.conns, Connects()) - Sum(w.conns, Ends()) }

  /** Nothing was taken in: no session, no descriptor, no item more. */
  ghost predicate TurnsAway(w: World, w': World) { w'.conns == w.conns && w'.items == w.items && w'.open == w.open }

  /** One more session, which holds fd and is watched for reading on its behalf. */
  ghost predicate TakesIn(w: World, w': World, fd: int, kind: Kind) {
    && |w'.conns| == |w.conns| + 1 && w'.conns[..|w.conns|] == w.conns && fd !in w.open
    && w'.items == w.items[fd := Item(Interest(true, false), kind, |w.conns|)] && w'.open == w.open + {fd}
  }

  /** What accept brought can be served: a descriptor with a slot in the table, non-blocking, with memory for its session. */
  ghost predicate Servable(a: Accept) { a.fd != -1 && a.fd < 1024 && a.nonBlocking && a.memory }

  lemma AcceptTakes(w: World, a: Accept, kind: Kind, n: Conn, allowed: bool)
    requires (forall fd :: fd in w.items ==> fd in w.open) && AcceptAs(w, a, kind, n, allowed).honest
    ensures var w' := AcceptAs(w, a, kind, n, allowed);
            if Servable(a) && allowed then TakesIn(w, w', a.fd, kind) && w'.conns[|w.conns|] == n else TurnsAway(w, w')
  {
  }

  lemma KnockHeard(w: World, act: Action, kind: Kind)
    requires Knocks(w, act, kind) && (kind.SocksPassive? || kind.MngPassive?)
    ensures var w1, w' := if kind.SocksPassive? then SocksAccept(w, act.input.accept) else MngAccept(w, act.input.accept),
                          Effect(w, act);
            w'.conns == w1.conns && w'.items == w1.items && w'.open == w1.open && w'.honest == w1.honest
  {
    hide SocksAccept, MngAccept;
  }

  lemma StepFacts(ws: seq<World>, acts: seq<Action>, k: nat)
    requires Run(ws, acts) && k < |acts|
    ensures ws[k + 1] == Effect(ws[k], acts[k]) && ws[k + 1].honest
    ensures ws[k].metrics.current == Connections(ws[k]) && forall fd :: fd in ws[k].items ==> fd in ws[k].open
  {
    assert Enabled(ws[k], acts[k]);
    Reachable(ws, acts, k);
    hide Effect, Initial, Handed, ItemsOk, Apart, ConnsOk, Sum, Connects, Ends, FromClient, ToClient;
  }

  /**
   * A client is taken in exactly if it can be served and at most 507 connections
   * count. Its session starts with the hello and two empty buffers of the size
   * configured at that moment. Otherwise nothing changes.
   */
  lemma ClientAdmitted(ws: seq<World>, acts: seq<Action>, k: nat)
    requires Run(ws, acts) && k < |acts| && Knocks(ws[k], acts[k], SocksPassive)
    ensures var w, w', a := ws[k], ws[k + 1], acts[k].input.accept;
            if Servable(a) && Connections(w) <= 507 then
              && TakesIn(w, w', a.fd, SocksSession) && IsLive(w'.conns[|w.conns|])
              && var s := w'.conns[|w.conns|].s;
                 && s.state.HelloRead? && s.clientFd == a.fd && s.originFd == -1 && !s.connected
                 && s.rb == s.wb == Fifo.View(w.config.bufferSize, 0, [])
            else TurnsAway(w, w')
  {
    var w, a := ws[k], acts[k].input.accept;
    StepFacts(ws, acts, k);
    KnockHeard(w, acts[k], SocksPassive);
    hide Run, Effect, Connections, Knocks;
    AcceptTakes(w, a, SocksSession, Proxy(New(a.fd, w.config.bufferSize)), MAX_CONNECTIONS - 1 >= w.metrics.current);
    hide AcceptAs;
  }

  /** A manager is taken in exactly if it can be served and at most 508 connections count; it starts with the login. */
  lemma ManagerAdmitted(ws: seq<World>, acts: seq<Action>, k: nat)
    requires Run(ws, acts) && k < |acts| && Knocks(ws[k], acts[k], MngPassive)
    ensures var w, w', a := ws[k], ws[k + 1], acts[k].input.accept;
            if Servable(a) && Connections(w) <= 508 then
              && TakesIn(w, w', a.fd, MngSession) && w'.conns[|w.conns|].Admin?
              && var m := w'.conns[|w.conns|].m;
                 && m.live && m.state.ConnectRead? && m.clientFd == a.fd
                 && m.desk.rb == m.desk.wb == Fifo.View(4096, 0, [])
            else TurnsAway(w, w')
  {
    var w, a := ws[k], acts[k].input.accept;
    StepFacts(ws, acts, k);
    KnockHeard(w, acts[k], MngPassive);
    hide Run, Effect, Connections, Knocks;
    AcceptTakes(w, a, MngSession, Admin(MngNew(a.fd)), MAX_CONNECTIONS >= w.metrics.current);
    hide AcceptAs;
  }
}
