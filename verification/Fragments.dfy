/** Pieces of runs: how one event is brought to a callback by a whole turn of selector_select. */
module Fragments {
  import opened Bytes
  import opened SelectorModule
  import opened Session
  import opened Management
  import opened World
  import opened WorldInvariant
  import Stm

  // ----- pieces of runs

  /** Steps of the process from w to w', under an operating system that keeps its side, with one configuration. */
  ghost predicate Fragment(ws: seq<World>, acts: seq<Action>, w: World, w': World) {
    && |ws| == |acts| + 1 && ws[0] == w && ws[|acts|] == w'
    && (forall k :: 0 <= k < |acts| ==> Enabled(ws[k], acts[k]) && ws[k + 1] == Effect(ws[k], acts[k]))
    && (forall k :: 0 <= k < |ws| ==> ws[k].honest && ws[k].config == w.config)
  }

  ghost predicate Leads(w: World, w': World) { exists ws, acts :: Fragment(ws, acts, w, w') }

  lemma LeadsNowhere(w: World)
    requires w.honest
    ensures Leads(w, w)
  {
    assert Fragment([w], [], w, w);
  }

  lemma LeadsOn(w: World, act: Action)
    requires w.honest && Enabled(w, act) && Effect(w, act).honest && Effect(w, act).config == w.config
    ensures Leads(w, Effect(w, act))
  {
    hide Effect, Enabled;
    assert Fragment([w, Effect(w, act)], [act], w, Effect(w, act));
  }

  lemma FragmentsJoin(ws: seq<World>, acts: seq<Action>, ws': seq<World>, acts': seq<Action>, w: World, w1: World, w2: World)
    requires Fragment(ws, acts, w, w1) && Fragment(ws', acts', w1, w2)
    ensures Leads(w, w2)
  {
    hide Effect, Enabled;
    var all, done := ws + ws'[1..], acts + acts';
    assert ws[|acts|].config == w.config;
    forall k | 0 <= k < |all|
      ensures all[k].honest && all[k].config == w.config
      ensures k >= |acts| ==> all[k] == ws'[k - |acts|]
    {
    }
    forall k | 0 <= k < |done|
      ensures Enabled(all[k], done[k]) && all[k + 1] == Effect(all[k], done[k])
    {
      if k < |acts| {
        assert all[k] == ws[k] && all[k + 1] == ws[k + 1];
      } else {
        assert all[k] == ws'[k - |acts|] && all[k + 1] == ws'[k + 1 - |acts|] && done[k] == acts'[k - |acts|];
      }
    }
    assert Fragment(all, done, w, w2);
  }

  lemma LeadsThrough(w: World, w1: World, w2: World)
    requires Leads(w, w1) && Leads(w1, w2)
    ensures Leads(w, w2)
  {
    hide Fragment;
    var ws, acts :| Fragment(ws, acts, w, w1);
    var ws', acts' :| Fragment(ws', acts', w1, w2);
    FragmentsJoin(ws, acts, ws', acts', w, w1, w2);
  }

  /** A fragment from an initial state is a run. */
  lemma LeadsToRun(w: World, w': World) returns (ws: seq<World>, acts: seq<Action>)
    requires Initial(w) && Leads(w, w')
    ensures Run(ws, acts) && ws[|acts|] == w' && forall k :: 0 <= k < |ws| ==> ws[k].config == w.config
  {
    hide Effect, Enabled, Initial;
    ws, acts :| Fragment(ws, acts, w, w');
  }

  // ----- one turn of selector_select for one event

  lemma AcceptAsAnywhere(w: World, p: Place, a: Accept, kind: Kind, n: Conn, allowed: bool)
    ensures AcceptAs(w.(place := p), a, kind, n, allowed) == AcceptAs(w, a, kind, n, allowed).(place := p)
  {
    hide AfterRegister;
  }

  lemma AcceptAnywhere(w: World, p: Place, a: Accept)
    ensures SocksAccept(w.(place := p), a) == SocksAccept(w, a).(place := p)
    ensures MngAccept(w.(place := p), a) == MngAccept(w, a).(place := p)
  {
    hide AcceptAs, New, MngNew;
    AcceptAsAnywhere(w, p, a, SocksSession, Proxy(New(a.fd, w.config.bufferSize)), MAX_CONNECTIONS - 1 >= w.metrics.current);
    AcceptAsAnywhere(w, p, a, MngSession, Admin(MngNew(a.fd)), MAX_CONNECTIONS >= w.metrics.current);
  }

  lemma SettleAnywhere(w: World, p: Place, id: nat, t: Turn)
    requires id < |w.conns|
    ensures MngSettle(w.(place := p), id, t) == MngSettle(w, id, t).(place := p)
  {
    hide MngJump;
  }

  lemma EventAnywhere(w: World, p: Place, id: nat, key: int, e: Stm.Event, a: MngAnswers)
    requires id < |w.conns| && w.conns[id].Admin?
    ensures MngEvent(w.(place := p), id, key, e, a) == MngEvent(w, id, key, e, a).(place := p)
  {
    hide MngCallback, MngJump, MngDefinition, AfterSetInterest, MngSettle;
    var t := MngCallback(w.conns[id].m, w.config, w.metrics, a);
    var items := if t.want.Some? then AfterSetInterest(w.items, key, t.want.value).0 else w.items;
    SettleAnywhere(w.(items := items, config := t.config, honest := w.honest && t.honest), p, id, t);
  }

  /** A callback does not see where the main thread is. */
  lemma InvokeAnywhere(w: World, p: Place, key: int, kind: Kind, data: nat, e: Stm.Event, a: Input)
    ensures Invoke(w.(place := p), key, kind, data, e, a) == Invoke(w, key, kind, data, e, a).(place := p)
  {
    hide Dispatch, MngEvent, SocksAccept, MngAccept;
    AcceptAnywhere(w, p, a.accept);
    if kind.SocksSession? && data < |w.conns| && w.conns[data].Proxy? {
      assert ContextOf(w.(place := p), data) == ContextOf(w, data);
    }
    if kind.MngSession? && data < |w.conns| && w.conns[data].Admin? {
      EventAnywhere(w, p, data, key, e, a.mng);
    }
  }

  /** The scan passes over slots that are not ready. */
  lemma {:induction false} ScanPasses(w: World, i: nat, j: nat, n: int, ready: Ready, a: Input)
    requires w.honest && w.anomalies == {} && w.place == Scan(i, n, ready) && i <= j <= n + 1
    requires forall fd :: i <= fd < j ==> fd !in ready.readable && fd !in ready.writable
    ensures Leads(w, w.(place := Scan(j, n, ready)))
    decreases j - i
  {
    hide Leads;
    if i == j {
      LeadsNowhere(w);
    } else {
      var w1 := w.(place := Scan(i + 1, n, ready));
      PassesOne(w, i, n, ready, a);
      ScanPasses(w1, i + 1, j, n, ready, a);
      LeadsThrough(w, w1, w.(place := Scan(j, n, ready)));
    }
  }

  lemma PassesOne(w: World, i: nat, n: int, ready: Ready, a: Input)
    requires w.honest && w.anomalies == {} && w.place == Scan(i, n, ready) && i <= n
    requires i !in ready.readable && i !in ready.writable
    ensures Leads(w, w.(place := Scan(i + 1, n, ready)))
  {
    hide Leads, Invoke;
    LeadsOn(w, Read(a));
    if i in w.items {
      var w1 := w.(place := ScanWrite(i, n, ready, w.items[i].data));
      assert Effect(w, Read(a)) == w1;
      LeadsOn(w1, Write(a));
      assert Effect(w1, Write(a)) == w.(place := Scan(i + 1, n, ready));
      LeadsThrough(w, w1, w.(place := Scan(i + 1, n, ready)));
    } else {
      assert Effect(w, Read(a)) == w.(place := Scan(i + 1, n, ready));
    }
  }

  function OnlyReady(fd: int, e: Stm.Event): Ready {
    if e.ReadReady? then Ready({fd}, {}) else Ready({}, {fd})
  }

  /** An idle process in which descriptor fd is watched for the event, and what its callback makes of it. */
  ghost predicate Awaits(w: World, fd: int, e: Stm.Event) {
    && w.place.Idle? && w.honest && w.anomalies == {} && w.jobs == []
    && 0 <= fd < MAX_SIZE && fd in w.items && !e.BlockReady?
    && (if e.ReadReady? then w.items[fd].interest.read else w.items[fd].interest.write)
  }

  ghost function After(w: World, fd: int, e: Stm.Event, a: Input): World
    requires fd in w.items
  {
    Invoke(w, fd, w.items[fd].handler, w.items[fd].data, e, a)
  }

  /** Where the main thread stands when the callback has returned. */
  function PlaceAfter(w: World, fd: nat, e: Stm.Event): Place
    requires fd in w.items
  {
    var n := LargestFd(w.items, MAX_SIZE);
    if e.ReadReady? then ScanWrite(fd, n, OnlyReady(fd, e), w.items[fd].data) else Scan(fd + 1, n, OnlyReady(fd, e))
  }

  lemma SelectReaches(w: World, fd: nat, e: Stm.Event, a: Input)
    requires Awaits(w, fd, e)
    ensures fd <= LargestFd(w.items, MAX_SIZE)
    ensures Leads(w, w.(place := Scan(fd, LargestFd(w.items, MAX_SIZE), OnlyReady(fd, e))))
  {
    hide Leads;
    ScanBound(w.items, MAX_SIZE);
    var n, ready := LargestFd(w.items, MAX_SIZE), OnlyReady(fd, e);
    var w1 := w.(place := Scan(0, n, ready));
    LeadsOn(w, Select(ready));
    assert Effect(w, Select(ready)) == w1;
    ScanPasses(w1, 0, fd, n, ready, a);
    LeadsThrough(w, w1, w.(place := Scan(fd, n, ready)));
  }

  lemma ReadReaches(w: World, fd: nat, n: int, a: Input)
    requires Awaits(w, fd, Stm.ReadReady) && fd <= n
    requires var w1 := After(w, fd, Stm.ReadReady, a); w1.honest && w1.config == w.config
    ensures var ready := OnlyReady(fd, Stm.ReadReady);
            Leads(w.(place := Scan(fd, n, ready)),
                  After(w, fd, Stm.ReadReady, a).(place := ScanWrite(fd, n, ready, w.items[fd].data)))
  {
    hide Leads, Invoke;
    var ready := OnlyReady(fd, Stm.ReadReady);
    var w0 := w.(place := Scan(fd, n, ready));
    InvokeAnywhere(w, w0.place, fd, w.items[fd].handler, w.items[fd].data, Stm.ReadReady, a);
    LeadsOn(w0, Read(a));
  }

  lemma WriteReaches(w: World, fd: nat, n: int, a: Input)
    requires Awaits(w, fd, Stm.WriteReady) && fd <= n
    requires var w1 := After(w, fd, Stm.WriteReady, a); w1.honest && w1.config == w.config
    ensures var ready := OnlyReady(fd, Stm.WriteReady);
            Leads(w.(place := Scan(fd, n, ready)),
                  After(w, fd, Stm.WriteReady, a).(place := Scan(fd + 1, n, ready)))
  {
    hide Leads, Invoke;
    var ready, data := OnlyReady(fd, Stm.WriteReady), w.items[fd].data;
    var w0, w1 := w.(place := Scan(fd, n, ready)), w.(place := ScanWrite(fd, n, ready, data));
    LeadsOn(w0, Read(a));
    assert Effect(w0, Read(a)) == w1;
    InvokeAnywhere(w, w1.place, fd, w.items[fd].handler, data, Stm.WriteReady, a);
    LeadsOn(w1, Write(a));
    LeadsThrough(w0, w1, Effect(w1, Write(a)));
  }

  /** Some select reports the event and the scan brings it to its callback. */
  lemma EventReaches(w: World, fd: nat, e: Stm.Event, a: Input)
    requires Awaits(w, fd, e)
    requires After(w, fd, e, a).honest && After(w, fd, e, a).config == w.config
    ensures Leads(w, After(w, fd, e, a).(place := PlaceAfter(w, fd, e)))
  {
    hide Leads, After, LargestFd;
    SelectReaches(w, fd, e, a);
    var n := LargestFd(w.items, MAX_SIZE);
    if e.ReadReady? {
      ReadReaches(w, fd, n, a);
    } else {
      WriteReaches(w, fd, n, a);
    }
    LeadsThrough(w, w.(place := Scan(fd, n, OnlyReady(fd, e))), After(w, fd, e, a).(place := PlaceAfter(w, fd, e)));
  }

  /** The rest of the turn, when nothing else is ready and no job is queued. */
  lemma TurnEnds(w: World, i: nat, n: int, ready: Ready, a: Input)
    requires w.honest && w.anomalies == {} && w.jobs == [] && w.place == Scan(i, n, ready) && i <= n + 1
    requires forall fd :: i <= fd <= n ==> fd !in ready.readable && fd !in ready.writable
    ensures Leads(w, w.(place := Idle))
  {
    hide Leads, Invoke;
    ScanPasses(w, i, n + 1, n, ready, a);
    var w1, w2 := w.(place := Scan(n + 1, n, ready)), w.(place := Drain([]));
    LeadsOn(w1, Read(a));
    assert Effect(w1, Read(a)) == w2;
    LeadsOn(w2, Block(a));
    assert Effect(w2, Block(a)) == w.(place := Idle);
    LeadsThrough(w, w1, w2);
    LeadsThrough(w, w2, w.(place := Idle));
  }

  /** A whole turn for one event: afterwards the process is idle again. */
  lemma TurnServes(w: World, fd: nat, e: Stm.Event, a: Input)
    requires Awaits(w, fd, e)
    requires var w1 := After(w, fd, e, a); w1.honest && w1.config == w.config && w1.anomalies == {} && w1.jobs == []
    ensures Leads(w, After(w, fd, e, a).(place := Idle))
  {
    hide Leads, After, Invoke;
    EventReaches(w, fd, e, a);
    SelectReaches(w, fd, e, a);
    var n, ready, w1 := LargestFd(w.items, MAX_SIZE), OnlyReady(fd, e), After(w, fd, e, a);
    var w2 := w1.(place := Scan(fd + 1, n, ready));
    if e.ReadReady? {
      var w3 := w1.(place := PlaceAfter(w, fd, e));
      LeadsOn(w3, Write(a));
      assert Effect(w3, Write(a)) == w2;
      LeadsThrough(w, w3, w2);
    }
    TurnEnds(w2, fd + 1, n, ready, a);
    LeadsThrough(w, w2, w1.(place := Idle));
  }
}
