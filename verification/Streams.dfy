/**
 * What recv delivered and send took over a whole run, read off the run's actions
 * alone; and what the peers of a relay got in terms of that.
 */
module Streams {
  import opened Bytes
  import opened SelectorModule
  import opened Session
  import opened SessionInvariant
  import opened World
  import opened WorldInvariant
  import opened Handoff
  import opened Accounts
  import opened Safety
  import opened AuthGate
  import opened Scans
  import opened Theorems
  import opened Transcript
  import opened Wakeups
  import Fifo
  import Stm
  import H = HelloParser
  import A = AuthParser
  import R = RequestParser

  // ----- the streams of a run

  /** The step calls a read or write handler of session `id`. */
  ghost predicate OwnCall(w: World, act: Action, id: nat) {
    && IsProxy(w, id) && Calls(w, act) && w.items[w.place.i].handler.SocksSession?
    && (if act.Write? then w.place.data else w.items[w.place.i].data) == id
  }

  /** The descriptor is the client's, or it is the origin's; octets of the relay alone, or all. */
  datatype Line = Line(client: bool, relay: bool)

  ghost predicate OnLine(w: World, act: Action, id: nat, line: Line) {
    && OwnCall(w, act, id) && (w.place.i == w.conns[id].s.clientFd <==> line.client)
    && (line.relay ==> w.conns[id].s.state.Copy?)
  }

  /** What recv delivers to the session in this step. */
  ghost function Delivers(w: World, act: Action, id: nat, line: Line): seq<byte> {
    if OnLine(w, act, id, line) && act.Read? && act.input.socks.recv.Got? then act.input.socks.recv.octets else []
  }

  /** How many octets send takes from the session in this step. */
  ghost function Takes(w: World, act: Action, id: nat, line: Line): nat {
    if OnLine(w, act, id, line) && act.Write? && act.input.socks.sent > 0 then act.input.socks.sent else 0
  }

  /** All octets recv delivered before step k, in order. */
  ghost function Received(ws: seq<World>, acts: seq<Action>, id: nat, k: nat, line: Line): seq<byte>
    requires k <= |acts| < |ws|
  {
    if k == 0 then [] else Received(ws, acts, id, k - 1, line) + Delivers(ws[k - 1], acts[k - 1], id, line)
  }

  /** The number of octets send took before step k. */
  ghost function Taken(ws: seq<World>, acts: seq<Action>, id: nat, k: nat, line: Line): nat
    requires k <= |acts| < |ws|
  {
    if k == 0 then 0 else Taken(ws, acts, id, k - 1, line) + Takes(ws[k - 1], acts[k - 1], id, line)
  }

  const CLIENT := Line(true, false)
  const CLIENT_RELAY := Line(true, true)
  const ORIGIN_RELAY := Line(false, true)

  // ----- one event

  /** What one event adds to the histories of a session. */
  ghost predicate Adds(s: Session, s': Session, key: int, e: Stm.Event, a: Answers) {
    var isClient, isRelay := key == s.clientFd, s.state.Copy?;
    var got := if e.ReadReady? then Octets(a.recv) else [];
    var sent := if e.WriteReady? && a.sent > 0 then a.sent else 0;
    && s'.script.heard == s.script.heard + (if isClient then got else [])
    && s'.relay.fromClient == s.relay.fromClient + (if isClient && isRelay then got else [])
    && s'.relay.fromOrigin == s.relay.fromOrigin + (if !isClient && isRelay then got else [])
    && |s'.script.told| == |s.script.told| + (if isClient then sent else 0)
    && |s'.relay.toClient| == |s.relay.toClient| + (if isClient && isRelay then sent else 0)
    && |s'.relay.toOrigin| == |s.relay.toOrigin| + (if !isClient && isRelay then sent else 0)
  }

  /** The histories stay as they are. */
  ghost predicate AddsNothing(s: Session, s': Session) { s'.script == s.script && s'.relay == s.relay }

  lemma {:induction false} ConnectAdds(c: Context, a: Answers, k: nat)
    ensures AddsNothing(c.s, RequestConnect(c, a, k).c.s)
    decreases c.s.resolution.addresses - c.s.resolution.current
  {
    hide R.Reply, SetInterestOf, RegisterOrigin, DropOrigin, OpenOrigin;
    var socket := SocketAt(a, k);
    if socket.fd != -1 && socket.nonBlocking && socket.connect.Refused? {
      var e := socket.connect.error;
      var c2 := WithStatus(Doubt(OpenOrigin(DropOrigin(c), socket), e != R.NoError), R.ErrnoToSocks(e));
      if HasNext(c2.s.resolution) {
        ConnectAdds(Advance(c2), a, k + 1);
      }
    }
  }

  /** The early reads hear what recv delivered, and nothing else moves. */
  ghost predicate HearsOnly(s: Session, s': Session, r: Recv) {
    && s'.script.heard == s.script.heard + Octets(r) && s'.script.told == s.script.told && s'.relay == s.relay
  }

  lemma ReceiveHeard(c: Context, r: Recv)
    ensures HearsOnly(c.s, Receive(c, r).s, r)
    ensures HearsOnly(c.s, TakeHello(Receive(c, r)).s, r)
    ensures HearsOnly(c.s, TakeCredentials(Receive(c, r)).s, r)
    ensures HearsOnly(c.s, TakeRequest(Receive(c, r)).s, r)
  {
    hide H.Parse, A.Parse, R.Parse, Drop, Gone;
  }

  lemma HelloReadHears(c: Context, key: int, r: Recv)
    ensures HearsOnly(c.s, OnHelloRead(c, key, r).c.s, r)
  {
    ReceiveHeard(c, r);
    assert c.s.script.heard + [] == c.s.script.heard;
    hide TakeHello, Receive, SetInterestOf, H.IsDone, H.IsError, H.Reply;
  }

  lemma AuthReadHears(c: Context, key: int, r: Recv)
    ensures HearsOnly(c.s, OnAuthRead(c, key, r).c.s, r)
  {
    ReceiveHeard(c, r);
    assert c.s.script.heard + [] == c.s.script.heard;
    hide TakeCredentials, Receive, AnswerCredentials, A.IsDone;
    var c1 := TakeCredentials(Receive(c, r));
    if A.IsDone(c1.s.auth) {
      AnswerJudges(c1, key);
    }
  }

  lemma RequestReadHears(c: Context, key: int, a: Answers)
    ensures HearsOnly(c.s, OnRequestRead(c, key, a).c.s, a.recv)
  {
    ReceiveHeard(c, a.recv);
    assert c.s.script.heard + [] == c.s.script.heard;
    ProcessAdds(TakeRequest(Receive(c, a.recv)), key, a);
    hide TakeRequest, Receive, RequestProcess, R.IsDone, R.IsError;
  }

  lemma ProcessAdds(c: Context, key: int, a: Answers)
    ensures AddsNothing(c.s, RequestProcess(c, key, a).c.s)
  {
    hide RequestConnect, SetInterestOf;
    ConnectAdds(c, a, 0);
  }

  /** The early writes tell as many octets as send took. */
  ghost predicate TellsOnly(c: Context, n: Next, sent: int) {
    && n.c.s.script.heard == c.s.script.heard && n.c.s.relay == c.s.relay
    && (n.c.honest ==> |n.c.s.script.told| == |c.s.script.told| + (if sent > 0 then sent else 0))
  }

  lemma SendTold(c: Context, n: nat)
    ensures var c1 := Send(c, n);
            && c1.s.script.heard == c.s.script.heard && (c1.honest ==> |c1.s.script.told| == |c.s.script.told| + n)
  {
  }

  lemma WritesTell(c: Context, key: int, n: int)
    ensures TellsOnly(c, OnHelloWrite(c, key, n), n)
    ensures TellsOnly(c, OnAuthWrite(c, key, n), n)
    ensures TellsOnly(c, OnRequestWrite(c, n), n)
  {
    if n >= 0 {
      SendTold(c, n);
    }
    hide Send, SetInterestOf, Fifo.CanRead;
  }

  lemma OthersAdd(c: Context, key: int, a: Answers)
    ensures AddsNothing(c.s, OnResolved(c, a).c.s)
    ensures AddsNothing(c.s, OnConnecting(c, key, a).c.s)
  {
    hide RequestConnect, ReportConnection;
    ConnectAdds(if c.s.resolution.addresses == 0 then WithStatus(c, R.GENERAL_FAILURE) else c, a, 0);
    match a.soError
    case Unknown => ReportSame(WithStatus(c, R.GENERAL_FAILURE), key);
    case Known(e) =>
      var c1 := if e == R.NoError then OnConnected(c, key) else WithStatus(c, R.ErrnoToSocks(e));
      ReportSame(c1, key);
      ConnectAdds(Advance(c1), a, 0);
  }

  lemma ReceivedAdds(c: Context, octets: seq<byte>)
    ensures var r := ReceiveFromClient(c, octets).s;
            && r.script == Hear(c.s.script, octets)
            && r.relay == c.s.relay.(fromClient := c.s.relay.fromClient + octets)
    ensures var r := ReceiveFromOrigin(c, octets).s;
            && r.script == c.s.script
            && r.relay == c.s.relay.(fromOrigin := c.s.relay.fromOrigin + octets)
  {
    hide Fifo.Put;
  }

  lemma SentAdds(c: Context, n: nat)
    ensures var c1 := SendToClient(c, n);
            && c1.s.relay == c.s.relay.(toClient := c1.s.relay.toClient) && c1.s.script == c.s.script.(told := c1.s.script.told)
            && (c1.honest ==> |c1.s.relay.toClient| == |c.s.relay.toClient| + n && |c1.s.script.told| == |c.s.script.told| + n)
    ensures var c1 := SendToOrigin(c, n);
            && c1.s.relay == c.s.relay.(toOrigin := c1.s.relay.toOrigin) && c1.s.script == c.s.script
            && (c1.honest ==> |c1.s.relay.toOrigin| == |c.s.relay.toOrigin| + n)
  {
    hide Fifo.Take;
  }

  lemma CopyReadAdds(c: Context, key: int, a: Answers)
    requires c.s.state.Copy?
    ensures Adds(c.s, OnCopyRead(c, key, a.recv).c.s, key, Stm.ReadReady, a)
  {
    var c0 := c.(s := Stir(c.s));
    ReceivedAdds(c0, Octets(a.recv));
    hide Settle, ReceiveFromClient, ReceiveFromOrigin;
    assert forall s: seq<byte> :: s + [] == s;
  }

  lemma CopyWriteAdds(c: Context, key: int, a: Answers)
    requires c.s.state.Copy? && OnCopyWrite(c, key, a.sent).c.honest
    ensures Adds(c.s, OnCopyWrite(c, key, a.sent).c.s, key, Stm.WriteReady, a)
  {
    var c0 := c.(s := Stir(c.s));
    if a.sent >= 0 {
      SentAdds(c0, a.sent);
    }
    hide Settle, SendToClient, SendToOrigin;
    assert forall s: seq<byte> :: s + [] == s;
  }

  lemma EarlyReadAdds(s: Session, s': Session, key: int, a: Answers)
    requires HearsOnly(s, s', a.recv) && !s.state.Copy? && key == s.clientFd
    ensures Adds(s, s', key, Stm.ReadReady, a)
  {
    assert forall s: seq<byte> :: s + [] == s;
  }

  lemma EarlyWriteAdds(c: Context, n: Next, key: int, a: Answers)
    requires TellsOnly(c, n, a.sent) && n.c.honest && !c.s.state.Copy? && key == c.s.clientFd
    ensures Adds(c.s, n.c.s, key, Stm.WriteReady, a)
  {
    assert forall s: seq<byte> :: s + [] == s;
  }

  lemma QuietAdds(s: Session, s': Session, key: int, e: Stm.Event, a: Answers)
    requires AddsNothing(s, s') && !s.state.Copy? && (e.BlockReady? || (e.WriteReady? && key != s.clientFd))
    ensures Adds(s, s', key, e, a)
  {
    assert forall s: seq<byte> :: s + [] == s;
  }

  /** Which descriptor an event can be about. */
  lemma KeyIs(c: Context, key: int, e: Stm.Event)
    requires Good(c) && Deliverable(c, key, e)
    ensures Stm.Handles(Definition(c.s.state), e)
    ensures c.s.state.RequestConnecting? ==> key != c.s.clientFd
    ensures !c.s.state.RequestConnecting? && !c.s.state.Copy? ==> key == c.s.clientFd
  {
    HandlerExists(c, key, e);
  }

  lemma CallbackAdds(c: Context, key: int, e: Stm.Event, a: Answers)
    requires Good(c) && Deliverable(c, key, e) && Callback(c, key, e, a).c.honest
    ensures Adds(c.s, Callback(c, key, e, a).c.s, key, e, a)
  {
    KeyIs(c, key, e);
    hide Good, Deliverable, Adds, HearsOnly, TellsOnly, AddsNothing;
    hide OnHelloRead, OnHelloWrite, OnAuthRead, OnAuthWrite, OnRequestRead, OnResolved, OnConnecting;
    hide OnRequestWrite, OnCopyRead, OnCopyWrite;
    var n := Callback(c, key, e, a);
    match c.s.state
    case HelloRead =>
      HelloReadHears(c, key, a.recv);
      EarlyReadAdds(c.s, n.c.s, key, a);
    case AuthRead =>
      AuthReadHears(c, key, a.recv);
      EarlyReadAdds(c.s, n.c.s, key, a);
    case RequestRead =>
      RequestReadHears(c, key, a);
      EarlyReadAdds(c.s, n.c.s, key, a);
    case RequestResolv =>
      OthersAdd(c, key, a);
      QuietAdds(c.s, n.c.s, key, e, a);
    case RequestConnecting =>
      OthersAdd(c, key, a);
      QuietAdds(c.s, n.c.s, key, e, a);
    case Copy =>
      if e.ReadReady? {
        CopyReadAdds(c, key, a);
      } else {
        CopyWriteAdds(c, key, a);
      }
    case _ =>
      WritesTell(c, key, a.sent);
      EarlyWriteAdds(c, n, key, a);
  }

  /** Nothing is added by jumping or tearing down, and a relay starts with nothing moved. */
  lemma WrapAdds(s: Session, n: Next, key: int, e: Stm.Event, a: Answers)
    requires Adds(s, n.c.s, key, e, a) && n.c.s.state == s.state
    requires !s.state.Copy? ==> s.relay == NO_RELAY && n.c.s.relay == NO_RELAY
    ensures Adds(s, Jump(n).s, key, e, a) && Adds(s, Finish(Jump(n)).s, key, e, a)
  {
    hide TearDown;
  }

  lemma DispatchAdds(c: Context, key: int, e: Stm.Event, a: Answers)
    requires Good(c) && Deliverable(c, key, e) && c.anomalies == {} && c.honest && Dispatch(c, key, e, a).honest
    ensures Adds(c.s, Dispatch(c, key, e, a).s, key, e, a)
  {
    HandlerExists(c, key, e);
    HandledBy(c, key, e, a);
    var n := Callback(c, key, e, a);
    ConcludedSame(n);
    CallbackAdds(c, key, e, a);
    assert !c.s.state.Copy? ==> c.s.relay == NO_RELAY;
    hide Good, Deliverable, Callback, Dispatch, Adds;
    RelayBegins(c, key, e, a);
    WrapAdds(c.s, n, key, e, a);
  }

  /** Before the relay no callback touches its history or the state. */
  lemma RelayBegins(c: Context, key: int, e: Stm.Event, a: Answers)
    requires Stm.Handles(Definition(c.s.state), e)
    ensures var n := Callback(c, key, e, a);
            n.c.s.state == c.s.state && (!c.s.state.Copy? ==> n.c.s.relay == c.s.relay)
  {
    hide OnHelloRead, OnHelloWrite, OnAuthRead, OnAuthWrite, OnRequestRead, OnResolved, OnConnecting;
    hide OnRequestWrite, OnCopyRead, OnCopyWrite;
    DispatchPasses(c, key, e, a);
    HelloReadHears(c, key, a.recv);
    AuthReadHears(c, key, a.recv);
    RequestReadHears(c, key, a);
    WritesTell(c, key, a.sent);
    OthersAdd(c, key, a);
    hide Adds, HearsOnly;
  }

  // ----- one step of a run

  lemma InvokeOwn(w: World, key: int, kind: Kind, data: nat, e: Stm.Event, a: Input, id: nat)
    requires IsProxy(w, id)
    ensures var w' := Invoke(w, key, kind, data, e, a);
            && IsProxy(w', id)
            && w'.conns[id].s == if kind.SocksSession? && data == id then Dispatch(ContextOf(w, id), key, e, a.socks).s
                                 else w.conns[id].s
  {
    hide Dispatch, MngEvent, SocksAccept, MngAccept;
    AcceptsMake(w, a.accept);
    if kind.MngSession? && data < |w.conns| && w.conns[data].Admin? {
      EventElsewhere(w, data, key, e, a.mng);
    }
  }

  /** A read or write step calls the session's handler, with the slot's descriptor, or passes it by. */
  lemma ScanOnOwn(w: World, act: Action, id: nat)
    requires IsProxy(w, id) && Enabled(w, act) && (act.Read? || act.Write?)
    ensures var w' := Effect(w, act);
            && IsProxy(w', id)
            && w'.conns[id].s == if OwnCall(w, act, id) then
                                   Dispatch(ContextOf(w, id), w.place.i, EventOf(act), act.input.socks).s
                                 else w.conns[id].s
  {
    hide Invoke, Dispatch;
    if w.place.i in w.items {
      var item := w.items[w.place.i];
      if act.Read? {
        InvokeOwn(w, w.place.i, item.handler, item.data, Stm.ReadReady, act.input, id);
      } else {
        InvokeOwn(w, w.place.i, item.handler, w.place.data, Stm.WriteReady, act.input, id);
      }
    }
  }

  /** The histories of a session are those of the run. */
  ghost predicate Recorded(ws: seq<World>, acts: seq<Action>, id: nat, k: nat)
    requires k <= |acts| < |ws|
  {
    IsProxy(ws[k], id) ==>
      var s := ws[k].conns[id].s;
      && s.script.heard == Received(ws, acts, id, k, CLIENT)
      && s.relay.fromClient == Received(ws, acts, id, k, CLIENT_RELAY)
      && s.relay.fromOrigin == Received(ws, acts, id, k, ORIGIN_RELAY)
      && |s.script.told| == Taken(ws, acts, id, k, CLIENT)
      && |s.relay.toClient| == Taken(ws, acts, id, k, CLIENT_RELAY)
      && |s.relay.toOrigin| == Taken(ws, acts, id, k, ORIGIN_RELAY)
  }

  ghost predicate Quiet(w: World, act: Action, id: nat) {
    forall line: Line :: Delivers(w, act, id, line) == [] && Takes(w, act, id, line) == 0
  }

  lemma OwnAdds(w: World, act: Action, id: nat)
    requires Inv(w) && w.honest && Enabled(w, act) && IsProxy(w, id) && OwnCall(w, act, id) && Effect(w, act).honest
    ensures w.conns[id].s.live
    ensures Adds(w.conns[id].s, Effect(w, act).conns[id].s, w.place.i, EventOf(act), act.input.socks)
  {
    var key, item, c := w.place.i, w.items[w.place.i], ContextOf(w, id);
    assert ItemOk(item, key, w.passive, w.conns);
    assert item.data == id;
    assert w.conns[id].s.live && Deliverable(c, key, EventOf(act));
    assert Good(c) by { assert ConnOk(w, id); }
    OwnHonest(w, act, id);
    ScanOnOwn(w, act, id);
    hide Good, Deliverable, Dispatch, Adds, Inv, Effect, Enabled;
    DispatchAdds(c, key, EventOf(act), act.input.socks);
  }

  /** The step is honest only if the callback was. */
  lemma OwnHonest(w: World, act: Action, id: nat)
    requires Enabled(w, act) && IsProxy(w, id) && OwnCall(w, act, id)
    ensures Effect(w, act).honest == Dispatch(ContextOf(w, id), w.place.i, EventOf(act), act.input.socks).honest
  {
    hide Dispatch;
  }

  lemma WrapNothing(s: Session, n: Next)
    requires AddsNothing(s, n.c.s) && !n.st.Copy?
    ensures AddsNothing(s, Concluded(n).s)
  {
    hide TearDown;
  }

  lemma BlockAdds(c: Context, key: int, a: Answers)
    ensures AddsNothing(c.s, Dispatch(c, key, Stm.BlockReady, a).s)
  {
    if c.s.state.RequestResolv? {
      HandledBy(c, key, Stm.BlockReady, a);
      OthersAdd(c, key, a);
      ResolvedLeaves(c, a);
      hide OnResolved, AddsNothing, Dispatch, Concluded;
      WrapNothing(c.s, OnResolved(c, a));
    } else {
      UnhandledSame(c, key, Stm.BlockReady, a);
    }
  }

  lemma DrainAside(w: World, a: Input, id: nat)
    requires IsProxy(w, id) && w.place.Drain?
    ensures IsProxy(DrainOne(w, a), id) && AddsNothing(w.conns[id].s, DrainOne(w, a).conns[id].s)
  {
    BlockOnSession(w, a, id);
    if w.place.rest != [] {
      BlockAdds(ContextOf(w, id), w.place.rest[0], a.socks);
    }
    hide Dispatch, DrainOne;
  }

  /** Threads and wake-ups. */
  lemma OutsideAside(w: World, act: Action, id: nat)
    requires IsProxy(w, id) && !IsCallback(act)
    ensures IsProxy(Effect(w, act), id) && AddsNothing(w.conns[id].s, Effect(w, act).conns[id].s)
  {
  }

  lemma NotOwnQuiet(w: World, act: Action, id: nat)
    requires !OwnCall(w, act, id)
    ensures Quiet(w, act, id)
  {
    hide OwnCall;
  }

  /** Any other step leaves the histories alone, and delivers and takes nothing. */
  lemma OthersAside(w: World, act: Action, id: nat)
    requires IsProxy(w, id) && Enabled(w, act) && !OwnCall(w, act, id)
    ensures IsProxy(Effect(w, act), id) && AddsNothing(w.conns[id].s, Effect(w, act).conns[id].s) && Quiet(w, act, id)
  {
    NotOwnQuiet(w, act, id);
    if act.Read? || act.Write? {
      ScanOnOwn(w, act, id);
      hide *;
      SameAddsNothing(w.conns[id].s);
    } else if act.Block? {
      DrainAside(w, act.input, id);
      hide OwnCall, Quiet, AddsNothing, DrainOne;
    } else {
      hide *;
      OutsideAside(w, act, id);
    }
  }

  lemma SameAddsNothing(s: Session)
    ensures AddsNothing(s, s)
  {
  }

  lemma StepRecords(ws: seq<World>, acts: seq<Action>, id: nat, k: nat)
    requires Run(ws, acts) && k < |acts| && IsProxy(ws[k], id) && IsProxy(ws[k + 1], id) && Recorded(ws, acts, id, k)
    requires if OwnCall(ws[k], acts[k], id) then
               Adds(ws[k].conns[id].s, ws[k + 1].conns[id].s, ws[k].place.i, EventOf(acts[k]), acts[k].input.socks)
             else AddsNothing(ws[k].conns[id].s, ws[k + 1].conns[id].s) && Quiet(ws[k], acts[k], id)
    ensures Recorded(ws, acts, id, k + 1)
  {
    hide Effect, Enabled, Initial, Calls;
    assert forall s: seq<byte> :: s + [] == s;
    if !OwnCall(ws[k], acts[k], id) {
      assert forall line: Line :: Delivers(ws[k], acts[k], id, line) == [] && Takes(ws[k], acts[k], id, line) == 0;
    }
  }

  /** Nothing arrives for a session that does not exist. */
  lemma {:induction false} NothingBefore(ws: seq<World>, acts: seq<Action>, id: nat, k: nat, line: Line)
    requires Run(ws, acts) && k <= |acts| && !IsProxy(ws[k], id)
    ensures Received(ws, acts, id, k, line) == [] && Taken(ws, acts, id, k, line) == 0
  {
    hide Effect, Enabled, Initial, OwnCall;
    if k > 0 {
      assert Enabled(ws[k - 1], acts[k - 1]) && ws[k] == Effect(ws[k - 1], acts[k - 1]);
      if IsProxy(ws[k - 1], id) {
        StepOnSession(ws[k - 1], acts[k - 1], id);
        assert false;
      }
      NothingBefore(ws, acts, id, k - 1, line);
      NobodyCalled(ws[k - 1], acts[k - 1], id);
    }
  }

  lemma NobodyCalled(w: World, act: Action, id: nat)
    requires !IsProxy(w, id)
    ensures Quiet(w, act, id)
  {
    hide Calls;
  }

  /** In every run, what a session recorded is what recv delivered to it and how much send took from it. */
  lemma {:induction false} RunRecords(ws: seq<World>, acts: seq<Action>, id: nat, k: nat)
    requires Run(ws, acts) && k <= |acts|
    ensures Recorded(ws, acts, id, k)
  {
    hide Effect, Enabled, Initial, OwnCall, Adds, AddsNothing, Quiet, Recorded, Inv;
    if k == 0 {
      NoConns(ws[0]);
      NobodyRecorded(ws, acts, id, 0);
    } else {
      var w, act := ws[k - 1], acts[k - 1];
      assert Enabled(w, act) && ws[k] == Effect(w, act);
      if !IsProxy(ws[k], id) {
        NobodyRecorded(ws, acts, id, k);
      } else if IsProxy(w, id) {
        RunRecords(ws, acts, id, k - 1);
        Reachable(ws, acts, k - 1);
        if OwnCall(w, act, id) {
          OwnAdds(w, act, id);
        } else {
          OthersAside(w, act, id);
        }
        StepRecords(ws, acts, id, k - 1);
      } else {
        StepMakes(w, act, id);
        NewRecorded(ws, acts, id, k);
      }
    }
  }

  lemma NobodyRecorded(ws: seq<World>, acts: seq<Action>, id: nat, k: nat)
    requires k <= |acts| < |ws| && !IsProxy(ws[k], id)
    ensures Recorded(ws, acts, id, k)
  {
  }

  lemma NewRecorded(ws: seq<World>, acts: seq<Action>, id: nat, k: nat)
    requires Run(ws, acts) && 0 < k <= |acts| && !IsProxy(ws[k - 1], id) && IsProxy(ws[k], id)
    requires exists fd: int, n: nat :: ws[k].conns[id].s == New(fd, n)
    ensures Recorded(ws, acts, id, k)
  {
    NobodyCalled(ws[k - 1], acts[k - 1], id);
    forall line: Line
      ensures Received(ws, acts, id, k, line) == [] && Taken(ws, acts, id, k, line) == 0
    {
      NothingBefore(ws, acts, id, k - 1, line);
      assert Delivers(ws[k - 1], acts[k - 1], id, line) == [] && Takes(ws[k - 1], acts[k - 1], id, line) == 0;
    }
    hide Run, OwnCall, Received, Taken;
  }

  // ----- what the peers of a relay get

  /**
   * Stream fidelity in both directions, for every session relaying or done relaying.
   * The origin was sent exactly as many octets as send took for it, and they are the
   * first of what was read ahead followed by what recv delivered from the client;
   * the rest still waits, in order. The same holds towards the client.
   */
  lemma StreamFidelity(ws: seq<World>, acts: seq<Action>, k: nat, id: nat)
    requires InRun(ws, acts, k) && IsProxy(ws[k], id) && Relayed(ws[k].conns[id].s)
    ensures var s := ws[k].conns[id].s;
            var up, n := s.relay.leftUp + Received(ws, acts, id, k, CLIENT_RELAY), Taken(ws, acts, id, k, ORIGIN_RELAY);
            n <= |up| && s.relay.toOrigin == up[..n] && s.rb.contents == up[n..]
    ensures var s := ws[k].conns[id].s;
            var down, n := s.relay.leftDown + Received(ws, acts, id, k, ORIGIN_RELAY), Taken(ws, acts, id, k, CLIENT_RELAY);
            n <= |down| && s.relay.toClient == down[..n] && s.wb.contents == down[n..]
  {
    RunRecords(ws, acts, id, k);
    RelayEquations(ws, acts, k, id);
    hide Run, Received, Taken;
  }

  /** What a session was told before its relay began to speak: the method, the good verdict, the successful reply. */
  ghost function Opening(chosen: byte, m: R.Message): seq<byte> {
    [0x05, chosen] + (if chosen == 0x02 then [0x01, 0x00] else []) + R.Reply(0x00, R.Decoded(m))
  }

  /**
   * The whole conversation, for every session that reached the relay in any run.
   * All that recv delivered from the client is a hello listing the chosen method,
   * credentials if that method asks for them, a well-formed request, and octets of
   * which the origin was sent the first ones, as many as send took for it, and the
   * rest still waits. Of the replies to these and all that recv delivered from the
   * origin, the client was sent the first octets, as many as send took for it, and
   * the rest still waits. Nothing is lost, repeated, reordered or altered.
   */
  lemma WholeConversation(ws: seq<World>, acts: seq<Action>, k: nat, id: nat)
    returns (methods: seq<byte>, chosen: byte, user: seq<byte>, pass: seq<byte>, m: R.Message)
    requires Run(ws, acts) && k <= |acts| && IsProxy(ws[k], id)
    requires ws[k].conns[id].s.state.Copy? || ws[k].conns[id].s.relay.stirred
    ensures |methods| < 256 && chosen in methods && (chosen == 0x00 || chosen == 0x02)
    ensures 0 < |user| < 256 && 0 < |pass| < 256 && R.WellFormed(m)
    ensures var s := ws[k].conns[id].s;
            var before := [0x05, |methods|] + methods + (if chosen == 0x02 then A.Encode(user, pass) else []) + R.Encode(m);
            var came, n := Received(ws, acts, id, k, CLIENT), Taken(ws, acts, id, k, ORIGIN_RELAY);
            && before <= came && |before| + n <= |came|
            && s.relay.toOrigin == came[|before|..|before| + n] && s.rb.contents == came[|before| + n..]
    ensures var s := ws[k].conns[id].s;
            var went := Opening(chosen, m) + Received(ws, acts, id, k, ORIGIN_RELAY);
            var n := Taken(ws, acts, id, k, CLIENT);
            n <= |went| && s.script.told == went[..n] && s.wb.contents == went[n..]
  {
    RunRecords(ws, acts, id, k);
    methods, m := RelayScript(ws, acts, k, id);
    RunSpeaks(ws, acts, k, id);
    var s := ws[k].conns[id].s;
    chosen := s.hello.selected;
    user, pass := LoginShape(s);
    OpeningIs(chosen, m);
    hide *;
    assert H.Encode(methods) == [0x05, |methods|] + methods by { HelloWire(methods); }
    var before := H.Encode(methods) + LoginOf(s) + R.Encode(m);
    Sliced(before, s.relay.toOrigin, s.rb.contents);
  }

  lemma HelloWire(methods: seq<byte>)
    requires |methods| < 256
    ensures H.Encode(methods) == [0x05, |methods|] + methods
  {
  }

  lemma OpeningIs(chosen: byte, m: R.Message)
    ensures Opening(chosen, m) == Preamble(chosen) + R.Reply(R.SUCCEEDED, R.Decoded(m))
  {
    hide R.Reply, R.Decoded;
  }

  lemma Sliced(before: seq<byte>, first: seq<byte>, rest: seq<byte>)
    ensures var all := before + first + rest;
            before <= all && all[|before|..|before| + |first|] == first && all[|before| + |first|..] == rest
  {
  }

  /** The login of a session that relays. */
  lemma LoginShape(s: Session) returns (user: seq<byte>, pass: seq<byte>)
    requires Spoken(s) && (s.state.Copy? || s.relay.stirred)
    ensures 0 < |user| < 256 && 0 < |pass| < 256
    ensures LoginOf(s) == if s.hello.selected == 0x02 then A.Encode(user, pass) else []
  {
    StirredRelayed(s);
    hide Hearing, Telling, Ordered, Greeted;
    if s.hello.selected == 0x02 {
      user, pass := s.auth.user, s.auth.pass;
    } else {
      user, pass := [0], [0];
    }
  }
}
