/** How often socks5_close frees a session, and whether anything touches it afterwards, over whole runs. */
module Memory {
  import opened Bytes
  import opened SelectorModule
  import opened Session
  import opened SessionInvariant
  import opened Management
  import opened World
  import opened WorldInvariant
  import opened Handoff
  import opened Accounts
  import opened Safety
  import opened AuthGate
  import Fifo
  import Stm
  import H = HelloParser
  import A = AuthParser
  import R = RequestParser

  // ----- the law

  /** While the session is served: the second registered origin given up frees it under the callback. */
  ghost predicate InUse(h: Heap) {
    && h.toFree == (if h.givenUp > 0 then 1 else 0)
    && h.frees == (if h.givenUp > 1 then h.givenUp - 1 else 0)
    && (h.stale <==> h.givenUp > 1)
  }

  /** Once it was torn down: freed exactly once, and never touched again. */
  ghost predicate Clean(h: Heap) { h.frees == 1 && !h.stale }

  /** Exactly the sessions that are freed properly, and exactly those that never are. */
  ghost predicate Released(h: Heap, origin: int) {
    && (Clean(h) <==> if origin == -1 then h.givenUp <= 1 else h.givenUp + (if h.watched then 1 else 0) == 1)
    && (h.frees == 0 <==> origin != -1 && h.givenUp == 0 && !h.watched)
  }

  ghost predicate Lawful(s: Session) {
    if s.live then InUse(s.heap) else Final(s.state) && Released(s.heap, s.originFd)
  }

  lemma GiveUpLawful(h: Heap, origin: int, registered: bool)
    requires InUse(h) && origin != -1
    ensures InUse(GiveUp(h, origin, registered))
  {
  }

  lemma TearDownReleases(h: Heap, origin: int, registered: bool)
    requires InUse(h) && (registered ==> origin != -1)
    ensures Released(TearDown(h, origin, true, registered), origin)
  {
  }

  // ----- callbacks

  lemma {:induction false} ConnectUses(c: Context, a: Answers, k: nat)
    requires InUse(c.s.heap)
    ensures InUse(RequestConnect(c, a, k).c.s.heap)
    decreases c.s.resolution.addresses - c.s.resolution.current
  {
    hide R.Reply, SetInterestOf, RegisterOrigin, InUse, DropOrigin, OpenOrigin;
    var socket := SocketAt(a, k);
    OpenUses(c, socket);
    if socket.fd != -1 && socket.nonBlocking && socket.connect.Refused? {
      var e := socket.connect.error;
      var c2 := WithStatus(Doubt(OpenOrigin(DropOrigin(c), socket), e != R.NoError), R.ErrnoToSocks(e));
      if HasNext(c2.s.resolution) {
        ConnectUses(Advance(c2), a, k + 1);
      }
    }
  }

  lemma OpenUses(c: Context, k: Socket)
    requires InUse(c.s.heap)
    ensures var c1 := OpenOrigin(DropOrigin(c), k);
            && InUse(c1.s.heap) && c1.s.resolution.addresses == c.s.resolution.addresses
            && c1.s.resolution.current == c.s.resolution.current
  {
    if c.s.originFd != -1 {
      GiveUpLawful(c.s.heap, c.s.originFd, AfterUnregister(c.items, c.s.originFd).1.Success?);
    }
    hide InUse, GiveUp, AfterUnregister;
  }

  /** Callbacks that open no socket leave the memory alone. */
  lemma HelloReadUses(c: Context, key: int, r: Recv)
    ensures OnHelloRead(c, key, r).c.s.heap == c.s.heap
  {
    hide H.Parse, SetInterestOf, H.Reply;
  }

  lemma HelloWriteUses(c: Context, key: int, n: int)
    ensures OnHelloWrite(c, key, n).c.s.heap == c.s.heap
  {
    hide SetInterestOf, Fifo.Take;
  }

  lemma AuthWriteUses(c: Context, key: int, n: int)
    ensures OnAuthWrite(c, key, n).c.s.heap == c.s.heap
  {
    hide SetInterestOf, Fifo.Take;
  }

  lemma RequestWriteUses(c: Context, n: int)
    ensures OnRequestWrite(c, n).c.s.heap == c.s.heap
  {
    hide SetInterestOf, Fifo.Take;
  }

  lemma AuthReadUses(c: Context, key: int, a: Answers)
    ensures OnAuthRead(c, key, a.recv).c.s.heap == c.s.heap
  {
    hide A.Parse, AnswerCredentials;
    if !a.recv.Failed? {
      var c1 := TakeCredentials(Receive(c, a.recv));
      if A.IsDone(c1.s.auth) {
        AnswerJudges(c1, key);
      }
    }
  }

  lemma RequestReadUses(c: Context, key: int, a: Answers)
    requires InUse(c.s.heap)
    ensures InUse(OnRequestRead(c, key, a).c.s.heap)
  {
    hide R.Parse, RequestConnect, SetInterestOf, InUse;
    if !a.recv.Failed? {
      ConnectUses(TakeRequest(Receive(c, a.recv)), a, 0);
    }
  }

  lemma ConnectingUses(c: Context, key: int, a: Answers)
    requires InUse(c.s.heap)
    ensures InUse(OnConnecting(c, key, a).c.s.heap)
    ensures InUse(OnResolved(c, a).c.s.heap)
  {
    hide ReportConnection, RequestConnect, InUse;
    ConnectUses(if c.s.resolution.addresses == 0 then WithStatus(c, R.GENERAL_FAILURE) else c, a, 0);
    match a.soError
    case Unknown => ReportSame(WithStatus(c, R.GENERAL_FAILURE), key);
    case Known(e) =>
      var c1 := if e == R.NoError then OnConnected(c, key) else WithStatus(c, R.ErrnoToSocks(e));
      ReportSame(c1, key);
      ConnectUses(Advance(c1), a, 0);
  }

  lemma CallbackUses(c: Context, key: int, e: Stm.Event, a: Answers)
    requires InUse(c.s.heap)
    ensures InUse(Callback(c, key, e, a).c.s.heap)
  {
    hide InUse, OnHelloRead, OnHelloWrite, OnAuthRead, OnAuthWrite, OnRequestRead, OnResolved, OnConnecting, OnRequestWrite;
    hide OnCopyRead, OnCopyWrite;
    match c.s.state
    case HelloRead => HelloReadUses(c, key, a.recv);
    case HelloWrite => HelloWriteUses(c, key, a.sent);
    case AuthRead => AuthReadUses(c, key, a);
    case AuthWrite => AuthWriteUses(c, key, a.sent);
    case RequestRead => RequestReadUses(c, key, a);
    case RequestResolv => ConnectingUses(c, key, a);
    case RequestConnecting => ConnectingUses(c, key, a);
    case RequestWrite => RequestWriteUses(c, a.sent);
    case _ =>
  }

  lemma DispatchLawful(c: Context, key: int, e: Stm.Event, a: Answers)
    requires Good(c) && Deliverable(c, key, e) && c.anomalies == {} && c.honest && Lawful(c.s)
    ensures var c' := Dispatch(c, key, e, a);
            c'.honest && c'.anomalies == {} ==> Lawful(c'.s)
  {
    HandlerExists(c, key, e);
    CallbackKeeps(c, key, e, a);
    hide Callback, InUse, Deliverable, Owning, InterestsFit, Kept, Finish, Jump, Lawful;
    var n := Callback(c, key, e, a);
    assert InUse(c.s.heap) by { LiveInUse(c.s); }
    CallbackUses(c, key, e, a);
    if Dispatch(c, key, e, a).honest && Dispatch(c, key, e, a).anomalies == {} {
      KeptStays(c, n);
      if Final(n.st) {
        FinishLawful(n);
      } else {
        JumpLawful(n);
      }
    }
  }

  lemma LiveInUse(s: Session)
    requires s.live && Lawful(s)
    ensures InUse(s.heap)
  {
  }

  /** What a callback leaves of the session's client and its life. */
  lemma KeptStays(c: Context, n: Next)
    requires Kept(c, n) && (if Final(n.st) then Finish(Jump(n)) else Jump(n)).honest
    requires (if Final(n.st) then Finish(Jump(n)) else Jump(n)).anomalies == {}
    ensures n.c.s.clientFd != -1 && n.c.s.clientFd in n.c.items && (Final(n.st) || Jump(n).s.live)
  {
    hide InterestsFit, Framed, Counted, TearDown;
  }

  lemma JumpLawful(n: Next)
    requires InUse(n.c.s.heap) && Jump(n).s.live
    ensures Lawful(Jump(n).s)
  {
  }

  lemma FinishLawful(n: Next)
    requires InUse(n.c.s.heap) && Final(n.st) && n.c.s.clientFd != -1 && n.c.s.clientFd in n.c.items
    ensures Lawful(Finish(Jump(n)).s)
  {
    hide InUse, TearDown, Released;
    var c := n.c;
    TearDownReleases(c.s.heap, c.s.originFd, c.s.originFd != -1 && c.s.originFd in c.items && c.s.originFd != c.s.clientFd);
  }

  // ----- runs

  ghost predicate AllLawful(conns: seq<Conn>) {
    forall id :: 0 <= id < |conns| && conns[id].Proxy? ==> Lawful(conns[id].s)
  }

  ghost predicate StillLawful(w: World) { w.honest && w.anomalies == {} ==> AllLawful(w.conns) }

  lemma SessionLawful(w: World, id: nat, key: int, e: Stm.Event, a: Answers)
    requires AllLawful(w.conns) && w.honest && w.anomalies == {} && id < |w.conns| && IsLive(w.conns[id])
    requires Good(ContextOf(w, id)) && Deliverable(ContextOf(w, id), key, e)
    ensures StillLawful(Back(w, id, Dispatch(ContextOf(w, id), key, e, a)))
  {
    hide Dispatch, Good, Deliverable, Lawful;
    DispatchLawful(ContextOf(w, id), key, e, a);
  }

  lemma AcceptLawful(w: World, a: Accept)
    requires AllLawful(w.conns)
    ensures StillLawful(SocksAccept(w, a)) && StillLawful(MngAccept(w, a))
  {
    hide SocksAccept, MngAccept;
    AcceptsMake(w, a);
  }

  lemma MngLawful(w: World, id: nat, key: int, e: Stm.Event, a: MngAnswers)
    requires AllLawful(w.conns) && id < |w.conns| && w.conns[id].Admin?
    ensures StillLawful(MngEvent(w, id, key, e, a))
  {
    hide MngEvent, Lawful;
    EventElsewhere(w, id, key, e, a);
  }

  lemma InvokeLawful(w: World, key: int, e: Stm.Event, a: Input, served: int)
    requires Kernel(w, served) && Due(w, key, e, served) && AllLawful(w.conns) && w.honest && w.anomalies == {}
    ensures StillLawful(Invoke(w, key, w.items[key].handler, w.items[key].data, e, a))
  {
    hide Apart, Table, Handed, Accounted, Good, Dispatch, MngEvent, Lawful, SocksAccept, MngAccept;
    var item := w.items[key];
    assert ItemOk(item, key, w.passive, w.conns);
    match item.handler
    case SocksPassive => AcceptLawful(w, a.accept);
    case MngPassive => AcceptLawful(w, a.accept);
    case SocksSession =>
      assert ConnOk(w, item.data);
      SessionLawful(w, item.data, key, e, a.socks);
    case MngSession => MngLawful(w, item.data, key, e, a.mng);
  }

  lemma StepLawful(w: World, act: Action)
    requires Inv(w) && w.honest && Enabled(w, act) && AllLawful(w.conns)
    ensures StillLawful(Effect(w, act))
  {
    hide Structure, Handed, Accounted, Invoke, Lawful;
    match act
    case Read(a) =>
      if w.place.i in w.items && w.items[w.place.i].interest.read {
        InvokeLawful(w, w.place.i, Stm.ReadReady, a, -1);
      }
    case Write(a) =>
      if w.place.i in w.items && w.items[w.place.i].interest.write {
        InvokeLawful(w, w.place.i, Stm.WriteReady, a, -1);
      }
    case Block(a) =>
      if w.place.rest != [] {
        var fd, w1 := w.place.rest[0], w.(place := Drain(w.place.rest[1..]));
        TakeJob(w, w1);
        StructureSame(w, w1);
        InvokeLawful(w1, fd, Stm.BlockReady, a, w1.items[fd].data);
      }
    case ThreadResolves(t, n) =>
      if t.id < |w.conns| && w.conns[t.id].Proxy? {
        ResolveLawful(w, t, n);
      }
    case _ =>
  }

  lemma ResolveLawful(w: World, t: Thread, n: nat)
    requires AllLawful(w.conns) && t.id < |w.conns| && w.conns[t.id].Proxy?
    ensures AllLawful(Resolve(w, t, n).conns)
  {
  }

  lemma {:induction false} RunLawful(ws: seq<World>, acts: seq<Action>, k: nat)
    requires Run(ws, acts) && k <= |acts|
    ensures StillLawful(ws[k])
  {
    hide Inv, Effect, Enabled, Initial, Lawful;
    if k == 0 {
      NoConns(ws[0]);
    } else {
      RunLawful(ws, acts, k - 1);
      Reachable(ws, acts, k - 1);
      assert Enabled(ws[k - 1], acts[k - 1]) && ws[k] == Effect(ws[k - 1], acts[k - 1]);
      StepLawful(ws[k - 1], acts[k - 1]);
    }
  }

  /**
   * Freed exactly once. A session that was torn down was freed once, and never
   * touched after that, if and only if: with no origin socket at the end, at most
   * one registered origin had been given up on a retry; with one, exactly one of
   * these two holds: an origin was given up, or the last one was still registered.
   * It is never freed exactly when its origin socket was never registered. A
   * session still served is freed under its callbacks from the second origin
   * given up on.
   */
  lemma FreedOnceIff(ws: seq<World>, acts: seq<Action>, k: nat, id: nat)
    requires Run(ws, acts) && k <= |acts| && ws[k].anomalies == {} && IsProxy(ws[k], id)
    ensures var s := ws[k].conns[id].s;
            if s.live then (s.heap.frees > 0 <==> s.heap.givenUp > 1) && (s.heap.stale <==> s.heap.givenUp > 1)
            else
              && (Clean(s.heap) <==>
                  if s.originFd == -1 then s.heap.givenUp <= 1 else s.heap.givenUp + (if s.heap.watched then 1 else 0) == 1)
              && (s.heap.frees == 0 <==> s.originFd != -1 && s.heap.givenUp == 0 && !s.heap.watched)
  {
    RunLawful(ws, acts, k);
  }
}
