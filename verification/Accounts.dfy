/** The counters of src/metrics.c as sums over every session ever accepted. */
module Accounts {
  import opened SelectorModule
  import opened Session
  import opened SessionInvariant
  import opened World
  import opened WorldInvariant

  ghost function Sum(conns: seq<Conn>, f: Conn -> int): int {
    if conns == [] then 0 else Sum(conns[..|conns| - 1], f) + f(conns[|conns| - 1])
  }

  lemma SumSnoc(conns: seq<Conn>, n: Conn, f: Conn -> int)
    ensures Sum(conns + [n], f) == Sum(conns, f) + f(n)
  {
    assert (conns + [n])[..|conns|] == conns;
  }

  lemma {:induction false} SumUpdate(conns: seq<Conn>, id: nat, n: Conn, f: Conn -> int)
    requires id < |conns|
    ensures Sum(conns[id := n], f) == Sum(conns, f) - f(conns[id]) + f(n)
    decreases |conns|
  {
    var last := |conns| - 1;
    if id == last {
      assert conns[id := n][..last] == conns[..last];
    } else {
      assert conns[id := n][..last] == conns[..last][id := n];
      SumUpdate(conns[..last], id, n, f);
    }
  }

  lemma {:induction false} SumMonotone(conns: seq<Conn>, f: Conn -> int, g: Conn -> int)
    requires forall n :: n in conns ==> f(n) <= g(n)
    ensures Sum(conns, f) <= Sum(conns, g)
    decreases |conns|
  {
    if conns != [] {
      var last := |conns| - 1;
      assert forall n :: n in conns[..last] ==> n in conns;
      SumMonotone(conns[..last], f, g);
    }
  }

  lemma {:induction false} SumMinus(conns: seq<Conn>, f: Conn -> int, g: Conn -> int, h: Conn -> int)
    requires forall n :: n in conns ==> h(n) == f(n) - g(n)
    ensures Sum(conns, h) == Sum(conns, f) - Sum(conns, g)
    decreases |conns|
  {
    if conns != [] {
      var last := |conns| - 1;
      assert forall n :: n in conns[..last] ==> n in conns;
      SumMinus(conns[..last], f, g, h);
    }
  }

  // ----- what is counted

  ghost function Connects(): Conn -> int { (n: Conn) => if n.Proxy? && n.s.connected then 1 else 0 }

  ghost function Ends(): Conn -> int { (n: Conn) => if n.Proxy? && n.s.ended then 1 else 0 }

  ghost function FromClient(): Conn -> int { (n: Conn) => if n.Proxy? then |n.s.relay.fromClient| else 0 }

  ghost function ToClient(): Conn -> int { (n: Conn) => if n.Proxy? then |n.s.relay.toClient| else 0 }

  /** Sessions now relaying. */
  ghost function Relays(): Conn -> int { (n: Conn) => if n.Proxy? && n.s.live && n.s.state.Copy? then 1 else 0 }

  ghost predicate Accounted(m: Metrics, conns: seq<Conn>) {
    && m.historic == Sum(conns, Connects())
    && m.current == Sum(conns, Connects()) - Sum(conns, Ends())
    && m.sent == Sum(conns, FromClient())
    && m.received == Sum(conns, ToClient())
  }

  ghost function Was(conns: seq<Conn>, id: nat, f: Conn -> int): int { if id < |conns| then f(conns[id]) else 0 }

  /** The counters move by what the connection that changed contributes. */
  ghost predicate Booked(m: Metrics, m': Metrics, conns: seq<Conn>, id: nat, n: Conn) {
    && m'.historic - m.historic == Connects()(n) - Was(conns, id, Connects())
    && m'.current - m.current == Connects()(n) - Was(conns, id, Connects()) - (Ends()(n) - Was(conns, id, Ends()))
    && m'.sent - m.sent == FromClient()(n) - Was(conns, id, FromClient())
    && m'.received - m.received == ToClient()(n) - Was(conns, id, ToClient())
  }

  lemma SumUpdated(conns: seq<Conn>, id: nat, n: Conn, f: Conn -> int)
    requires id <= |conns|
    ensures Sum(Updated(conns, id, n), f) == Sum(conns, f) + f(n) - Was(conns, id, f)
  {
    if id < |conns| {
      SumUpdate(conns, id, n, f);
    } else {
      SumSnoc(conns, n, f);
    }
  }

  lemma ChangeAccounts(m: Metrics, m': Metrics, conns: seq<Conn>, id: nat, n: Conn)
    requires id <= |conns| && Accounted(m, conns) && Booked(m, m', conns, id, n)
    ensures Accounted(m', Updated(conns, id, n))
  {
    hide Connects, Ends, FromClient, ToClient, Was, Sum, Updated;
    SumUpdated(conns, id, n, Connects());
    SumUpdated(conns, id, n, Ends());
    SumUpdated(conns, id, n, FromClient());
    SumUpdated(conns, id, n, ToClient());
  }

  /**
   * Historic less current is the number of sessions that ended while relaying, and
   * current is at least the number relaying now, so it is never negative.
   */
  lemma CurrentCoversRelays(w: World)
    requires Structure(w) && Accounted(w.metrics, w.conns)
    ensures w.metrics.historic - w.metrics.current == Sum(w.conns, Ends())
    ensures 0 <= Sum(w.conns, Relays()) <= w.metrics.current
  {
    var going := (n: Conn) => Connects()(n) - Ends()(n);
    var none := (n: Conn) => 0;
    forall n | n in w.conns
      ensures none(n) <= Relays()(n) <= going(n)
    {
      hide ItemsOk, Apart, Table, Owning, InterestsFit;
      var id :| 0 <= id < |w.conns| && w.conns[id] == n;
      assert ConnOk(w, id);
    }
    SumMonotone(w.conns, Relays(), going);
    SumMonotone(w.conns, none, Relays());
    SumMinus(w.conns, Connects(), Ends(), going);
    SumMinus(w.conns, none, none, none);
  }
}
