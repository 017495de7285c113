/** What holds of every state of every run, in the terms of the program's own promises. */
module Theorems {
  import opened Bytes
  import opened SelectorModule
  import opened Session
  import opened SessionInvariant
  import opened Management
  import opened World
  import opened WorldInvariant
  import opened Handoff
  import opened Accounts
  import opened Safety
  import Fifo
  import Stm
  import R = RequestParser

  /** State k of a run, before anything fatal. */
  ghost predicate InRun(ws: seq<World>, acts: seq<Action>, k: nat) {
    Run(ws, acts) && k <= |acts| && ws[k].anomalies == {}
  }

  // ----- interests and handlers

  /** The state of whoever a descriptor is registered for can handle the event. */
  ghost predicate CanHandle(w: World, fd: int, e: Stm.Event)
    requires fd in w.items && ItemOk(w.items[fd], fd, w.passive, w.conns)
  {
    match w.items[fd].handler
    case SocksSession => Stm.Handles(Definition(w.conns[w.items[fd].data].s.state), e)
    case MngSession => Stm.Handles(MngDefinition(w.conns[w.items[fd].data].m.state), e)
    case _ => e.ReadReady?
  }

  ghost predicate Handleable(w: World, fd: int)
    requires fd in w.items && ItemOk(w.items[fd], fd, w.passive, w.conns)
  {
    && (w.items[fd].interest.read ==> CanHandle(w, fd, Stm.ReadReady))
    && (w.items[fd].interest.write ==> CanHandle(w, fd, Stm.WriteReady))
  }

  lemma ItemHandleable(w: World, fd: int)
    requires Structure(w) && fd in w.items
    ensures ItemOk(w.items[fd], fd, w.passive, w.conns) && Handleable(w, fd)
  {
    hide Apart, Table, Owning, DataFits;
    assert ItemOk(w.items[fd], fd, w.passive, w.conns);
    if w.items[fd].handler.SocksSession? || w.items[fd].handler.MngSession? {
      assert ConnOk(w, w.items[fd].data);
    }
  }

  /** Whatever ready bits a select left, every event that will be dispatched has a handler. */
  lemma InterestsAreHandleable(ws: seq<World>, acts: seq<Action>, k: nat, fd: int)
    requires InRun(ws, acts, k) && fd in ws[k].items
    ensures ItemOk(ws[k].items[fd], fd, ws[k].passive, ws[k].conns) && Handleable(ws[k], fd)
  {
    Reachable(ws, acts, k);
    hide Structure, Handed, Accounted;
    ItemHandleable(ws[k], fd);
  }

  // ----- descriptors

  /** A registered descriptor is open, and if it is not a listening one it has exactly one live holder. */
  lemma OneHolder(ws: seq<World>, acts: seq<Action>, k: nat, fd: int)
    requires InRun(ws, acts, k) && fd in ws[k].items
    ensures fd in ws[k].open && 0 <= fd < MAX_SIZE
    ensures fd !in ws[k].passive ==>
              && ws[k].items[fd].data < |ws[k].conns|
              && forall i: nat :: i < |ws[k].conns| ==> (fd in Holds(ws[k].conns[i]) <==> i == ws[k].items[fd].data)
  {
    Reachable(ws, acts, k);
    var w := ws[k];
    hide ConnsOk, Holds, Handed, Accounted, Run;
    assert ItemOk(w.items[fd], fd, w.passive, w.conns);
    if fd !in w.passive {
      forall i: nat | i < |w.conns| && i != w.items[fd].data
        ensures fd !in Holds(w.conns[i])
      {
        assert Holds(w.conns[i]) !! Holds(w.conns[w.items[fd].data]);
      }
    }
  }

  /** Ended sessions hold nothing, and what live ones hold is open and disjoint. */
  lemma NothingShared(ws: seq<World>, acts: seq<Action>, k: nat, i: nat, j: nat)
    requires InRun(ws, acts, k) && i < j < |ws[k].conns|
    ensures Holds(ws[k].conns[i]) !! Holds(ws[k].conns[j])
    ensures Holds(ws[k].conns[i]) <= ws[k].open
  {
    Reachable(ws, acts, k);
    hide ConnsOk, ItemsOk, Holds, Handed, Accounted, Run;
  }

  // ----- the resolver

  /**
   * Exactly-once handoff. A live session waits in REQUEST_RESOLV if and only if
   * exactly one of these exists for it: a thread still resolving, one about to
   * notify, a queued job, or a notification for which no memory was left.
   */
  lemma HandoffExactlyOnce(ws: seq<World>, acts: seq<Action>, k: nat, id: nat)
    requires InRun(ws, acts, k) && id < |ws[k].conns| && IsLive(ws[k].conns[id])
    ensures Tokens(ws[k], id, ws[k].conns[id].s.clientFd) == if ws[k].conns[id].s.state.RequestResolv? then 1 else 0
  {
    Reachable(ws, acts, k);
    hide Structure, Accounted, Run, Tokens;
  }

  /** No result goes astray: every thread and every job is for a live session that waits for it. */
  lemma NobodyElseIsTold(ws: seq<World>, acts: seq<Action>, k: nat)
    requires InRun(ws, acts, k)
    ensures forall t :: t in ws[k].asking || t in ws[k].telling || t in ws[k].lost ==>
              ThreadOk(ws[k].conns, t) && Waits(ws[k].conns[t.id])
    ensures forall fd :: fd in Queued(ws[k]) ==>
              JobOk(ws[k].items, ws[k].conns, fd) && Waits(ws[k].conns[ws[k].items[fd].data])
  {
    Reachable(ws, acts, k);
    var w := ws[k];
    hide Structure, Accounted, Run;
    forall t | t in w.asking || t in w.telling || t in w.lost
      ensures ThreadOk(w.conns, t) && Waits(w.conns[t.id])
    {
      assert ThreadOk(w.conns, t);
      assert Tokens(w, t.id, t.fd) >= 1;
    }
    forall fd | fd in Queued(w)
      ensures JobOk(w.items, w.conns, fd) && Waits(w.conns[w.items[fd].data])
    {
      assert JobOk(w.items, w.conns, fd);
      assert Tokens(w, w.items[fd].data, fd) >= 1;
    }
  }

  /** Every job the drain takes finds its descriptor registered for the session that waits for it. */
  lemma BlockCallsOnlyWaiting(ws: seq<World>, acts: seq<Action>, k: nat)
    requires Run(ws, acts) && k < |acts| && acts[k].Block? && ws[k].place.rest != []
    ensures var fd := ws[k].place.rest[0];
            && fd in ws[k].items && ws[k].items[fd].handler.SocksSession?
            && ws[k].items[fd].data < |ws[k].conns| && Waits(ws[k].conns[ws[k].items[fd].data])
            && ws[k].conns[ws[k].items[fd].data].s.clientFd == fd
  {
    Reachable(ws, acts, k);
    assert Enabled(ws[k], acts[k]);
    hide Structure, Accounted, Run, Effect;
    TakeJob(ws[k], ws[k].(place := Drain(ws[k].place.rest[1..])));
  }

  // ----- the relay

  ghost predicate Relayed(s: Session) { (s.live && s.state.Copy?) || s.ended }

  lemma RelayedFits(w: World, id: nat)
    requires Structure(w) && id < |w.conns| && w.conns[id].Proxy? && Relayed(w.conns[id].s)
    ensures RelayFits(w.conns[id].s) && w.conns[id].s.connected
  {
    hide Apart, Table, ItemsOk, Owning, InterestsFit, RelayFits;
    assert ConnOk(w, id);
  }

  /** What a peer got is a prefix of what was there for it, and the rest is what still waits. */
  ghost predicate Faithful(left: seq<byte>, received: seq<byte>, sent: seq<byte>, waiting: seq<byte>) {
    left + received == sent + waiting && sent <= left + received
  }

  /** The relay's own accounts, for every session relaying or done relaying. */
  lemma RelayEquations(ws: seq<World>, acts: seq<Action>, k: nat, id: nat)
    requires InRun(ws, acts, k) && id < |ws[k].conns| && ws[k].conns[id].Proxy? && Relayed(ws[k].conns[id].s)
    ensures var s := ws[k].conns[id].s;
            && Faithful(s.relay.leftUp, s.relay.fromClient, s.relay.toOrigin, s.rb.contents)
            && Faithful(s.relay.leftDown, s.relay.fromOrigin, s.relay.toClient, s.wb.contents)
  {
    Reachable(ws, acts, k);
    hide Structure, Handed, Accounted, Run;
    RelayedFits(ws[k], id);
  }

  /** Each side is watched for exactly what it can do, and in each direction something can be done. */
  ghost predicate Watched(items: map<int, Item<Kind>>, s: Session) {
    && s.clientFd in items && s.originFd in items && s.clientFd != s.originFd
    && (items[s.clientFd].interest.read <==> Fifo.CanWrite(s.rb))
    && (items[s.originFd].interest.write <==> Fifo.CanRead(s.rb))
    && (items[s.originFd].interest.read <==> Fifo.CanWrite(s.wb))
    && (items[s.clientFd].interest.write <==> Fifo.CanRead(s.wb))
    && (s.rb.capacity > 0 ==>
          && (items[s.clientFd].interest.read || items[s.originFd].interest.write)
          && (items[s.originFd].interest.read || items[s.clientFd].interest.write))
  }

  /** A resolver result is on its way. */
  ghost predicate Expected(w: World, id: nat, s: Session) {
    var t := Thread(id, s.clientFd);
    t in w.asking || t in w.telling || s.clientFd in Queued(w)
  }

  // ----- counters

  /** The counters are what the sessions did: connections made, ended, and octets from and to clients. */
  lemma CountersAddUp(ws: seq<World>, acts: seq<Action>, k: nat)
    requires InRun(ws, acts, k)
    ensures var m, conns := ws[k].metrics, ws[k].conns;
            && m.historic - m.current == Sum(conns, Ends())
            && 0 <= Sum(conns, Relays()) <= m.current <= m.historic
            && m.sent == Sum(conns, FromClient()) && m.received == Sum(conns, ToClient())
  {
    Reachable(ws, acts, k);
    hide Structure, Handed, Run, Sum;
    CurrentCoversRelays(ws[k]);
    EndsCount(ws[k].conns);
  }

  lemma EndsCount(conns: seq<Conn>)
    ensures 0 <= Sum(conns, Ends())
  {
    var none := (n: Conn) => 0;
    SumMonotone(conns, none, Ends());
    SumMinus(conns, none, none, none);
  }

  // ----- retries

  /** However connects fail, across recursion and events, no more are made than there are addresses. */
  lemma RetriesBounded(ws: seq<World>, acts: seq<Action>, k: nat, id: nat)
    requires InRun(ws, acts, k) && id < |ws[k].conns| && ws[k].conns[id].Proxy?
    ensures var r := ws[k].conns[id].s.resolution;
            r.attempts <= if r.addresses > 1 then r.addresses else 1
  {
    Reachable(ws, acts, k);
    hide Run, Handed, Accounted;
    assert ConnOk(ws[k], id);
  }
}
