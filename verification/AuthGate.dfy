/** How sessions get past authentication, and into the relay, over whole runs. */
module AuthGate {
  import opened Bytes
  import opened SelectorModule
  import opened Session
  import opened Management
  import opened World
  import Fifo
  import Stm
  import H = HelloParser
  import A = AuthParser
  import R = RequestParser

  // ----- a step as one session sees it

  ghost predicate IsProxy(w: World, id: nat) { id < |w.conns| && w.conns[id].Proxy? }

  ghost predicate IsCallback(act: Action) { act.Read? || act.Write? || act.Block? }

  ghost function EventOf(act: Action): Stm.Event
    requires IsCallback(act)
  {
    if act.Read? then Stm.ReadReady else if act.Write? then Stm.WriteReady else Stm.BlockReady
  }

  /** The session handled one event in this step. */
  ghost predicate Handled(w: World, act: Action, s': Session, id: nat)
    requires IsProxy(w, id)
  {
    IsCallback(act) && exists key :: s' == Dispatch(ContextOf(w, id), key, EventOf(act), act.input.socks).s
  }

  lemma HandledWith(w: World, act: Action, key: int, s': Session, id: nat)
    requires IsProxy(w, id) && IsCallback(act)
    ensures s' == Dispatch(ContextOf(w, id), key, EventOf(act), act.input.socks).s ==> Handled(w, act, s', id)
  {
  }

  /** The step passed the session by, or only stored its addresses. */
  ghost predicate Bystander(s: Session, s': Session) { s' == s.(resolution := s'.resolution) }

  /** A management callback replaces its own session only. */
  lemma EventElsewhere(w: World, id: nat, key: int, e: Stm.Event, a: MngAnswers)
    requires id < |w.conns| && w.conns[id].Admin?
    ensures var w' := MngEvent(w, id, key, e, a);
            |w'.conns| == |w.conns| && w'.conns[id].Admin? && w'.conns == w.conns[id := w'.conns[id]]
  {
    hide MngCallback, MngJump, MngDefinition, AfterSetInterest;
    assert w.conns == w.conns[id := w.conns[id]];
  }

  lemma AcceptMakes(w: World, a: Accept, kind: Kind, n: Conn, allowed: bool)
    ensures var w' := AcceptAs(w, a, kind, n, allowed);
            w'.conns == w.conns || w'.conns == w.conns + [n]
  {
  }

  /** The accept callbacks add a new session at the end, or none. */
  lemma AcceptsMake(w: World, a: Accept)
    ensures var w' := SocksAccept(w, a);
            w'.conns == w.conns || w'.conns == w.conns + [Proxy(New(a.fd, w.config.bufferSize))]
    ensures var w' := MngAccept(w, a);
            w'.conns == w.conns || w'.conns == w.conns + [Admin(MngNew(a.fd))]
  {
    hide AcceptAs;
    AcceptMakes(w, a, SocksSession, Proxy(New(a.fd, w.config.bufferSize)), MAX_CONNECTIONS - 1 >= w.metrics.current);
    AcceptMakes(w, a, MngSession, Admin(MngNew(a.fd)), MAX_CONNECTIONS >= w.metrics.current);
  }

  lemma InvokeOnSession(w: World, key: int, kind: Kind, data: nat, e: Stm.Event, a: Input, id: nat)
    requires IsProxy(w, id)
    ensures var w' := Invoke(w, key, kind, data, e, a);
            && IsProxy(w', id)
            && (w'.conns[id].s == w.conns[id].s || w'.conns[id].s == Dispatch(ContextOf(w, id), key, e, a.socks).s)
  {
    hide Dispatch, MngEvent, SocksAccept, MngAccept;
    AcceptsMake(w, a.accept);
    if kind.MngSession? && data < |w.conns| && w.conns[data].Admin? {
      EventElsewhere(w, data, key, e, a.mng);
    }
  }

  lemma ReadOnSession(w: World, a: Input, id: nat)
    requires IsProxy(w, id) && w.place.Scan?
    ensures var w' := ReadHalf(w, a);
            && IsProxy(w', id)
            && (w'.conns[id].s == w.conns[id].s
                || w'.conns[id].s == Dispatch(ContextOf(w, id), w.place.i, Stm.ReadReady, a.socks).s)
  {
    hide Invoke, Dispatch;
    if w.place.i in w.items {
      var item := w.items[w.place.i];
      InvokeOnSession(w, w.place.i, item.handler, item.data, Stm.ReadReady, a, id);
    }
  }

  lemma WriteOnSession(w: World, a: Input, id: nat)
    requires IsProxy(w, id) && w.place.ScanWrite?
    ensures var w' := WriteHalf(w, a);
            && IsProxy(w', id)
            && (w'.conns[id].s == w.conns[id].s
                || w'.conns[id].s == Dispatch(ContextOf(w, id), w.place.i, Stm.WriteReady, a.socks).s)
  {
    hide Invoke, Dispatch;
    if w.place.i in w.items {
      InvokeOnSession(w, w.place.i, w.items[w.place.i].handler, w.place.data, Stm.WriteReady, a, id);
    }
  }

  lemma BlockOnSession(w: World, a: Input, id: nat)
    requires IsProxy(w, id) && w.place.Drain?
    ensures var w' := DrainOne(w, a);
            && IsProxy(w', id)
            && (w'.conns[id].s == w.conns[id].s
                || (w.place.rest != []
                    && w'.conns[id].s == Dispatch(ContextOf(w, id), w.place.rest[0], Stm.BlockReady, a.socks).s))
  {
    hide Invoke, Dispatch;
    if w.place.rest != [] && w.place.rest[0] in w.items {
      var fd, w1 := w.place.rest[0], w.(place := Drain(w.place.rest[1..]));
      InvokeOnSession(w1, fd, w1.items[fd].handler, w1.items[fd].data, Stm.BlockReady, a, id);
      assert ContextOf(w1, id) == ContextOf(w, id);
    }
  }

  lemma StepOnSession(w: World, act: Action, id: nat)
    requires IsProxy(w, id) && Enabled(w, act)
    ensures var w' := Effect(w, act);
            IsProxy(w', id) && (Bystander(w.conns[id].s, w'.conns[id].s) || Handled(w, act, w'.conns[id].s, id))
  {
    hide ReadHalf, WriteHalf, DrainOne, Dispatch;
    match act
    case Read(a) =>
      ReadOnSession(w, a, id);
      HandledWith(w, act, w.place.i, Effect(w, act).conns[id].s, id);
    case Write(a) =>
      WriteOnSession(w, a, id);
      HandledWith(w, act, w.place.i, Effect(w, act).conns[id].s, id);
    case Block(a) =>
      BlockOnSession(w, a, id);
      if w.place.rest != [] {
        HandledWith(w, act, w.place.rest[0], Effect(w, act).conns[id].s, id);
      }
    case _ =>
  }

  /** A session that was not there is a fresh one. */
  lemma InvokeMakes(w: World, key: int, kind: Kind, data: nat, e: Stm.Event, a: Input, id: nat)
    requires !IsProxy(w, id) && IsProxy(Invoke(w, key, kind, data, e, a), id)
    ensures Invoke(w, key, kind, data, e, a).conns[id].s == New(a.accept.fd, w.config.bufferSize)
  {
    hide Dispatch, MngEvent, SocksAccept, MngAccept;
    AcceptsMake(w, a.accept);
    if kind.MngSession? && data < |w.conns| && w.conns[data].Admin? {
      EventElsewhere(w, data, key, e, a.mng);
    }
  }

  lemma StepMakes(w: World, act: Action, id: nat)
    requires !IsProxy(w, id) && Enabled(w, act) && IsProxy(Effect(w, act), id)
    ensures IsCallback(act) && Effect(w, act).conns[id].s == New(act.input.accept.fd, w.config.bufferSize)
  {
    hide Invoke, Dispatch;
    match act
    case Read(a) =>
      if w.place.i in w.items {
        var item := w.items[w.place.i];
        InvokeMakes(w, w.place.i, item.handler, item.data, Stm.ReadReady, a, id);
      }
    case Write(a) =>
      if w.place.i in w.items {
        InvokeMakes(w, w.place.i, w.items[w.place.i].handler, w.place.data, Stm.WriteReady, a, id);
      }
    case Block(a) =>
      if w.place.rest != [] && w.place.rest[0] in w.items {
        var fd, w1 := w.place.rest[0], w.(place := Drain(w.place.rest[1..]));
        InvokeMakes(w1, fd, w1.items[fd].handler, w1.items[fd].data, Stm.BlockReady, a, id);
      }
    case _ =>
  }

  // ----- what one dispatch can do about authentication

  ghost predicate Late(st: State) {
    st.RequestRead? || st.RequestResolv? || st.RequestConnecting? || st.RequestWrite? || st.Copy?
  }

  /** Untouched since it was accepted. */
  ghost predicate Untouched(s: Session) {
    s.state.HelloRead? ==> s.hello == H.START && s.rb.contents == []
  }

  /** The session's own recv delivered a hello listing the method to ask for, and that method was chosen. */
  ghost predicate Offered(w: World, act: Action, w': World, id: nat, selected: byte) {
    && IsProxy(w, id) && IsProxy(w', id) && w.conns[id].s.state.HelloRead? && act.Read? && act.input.socks.recv.Got?
    && w'.conns[id].s.state.HelloWrite? && w'.conns[id].s.hello.selected == selected
    && selected == H.Wanted(w.config.auth)
    && exists n :: H.StartsWithHello(act.input.socks.recv.octets, n) && selected in act.input.socks.recv.octets[2..n + 2]
  }

  /** The session's own recv completed credentials which some configured user has, and it was judged so. */
  ghost predicate Verified(w: World, act: Action, w': World, id: nat) {
    && IsProxy(w, id) && IsProxy(w', id) && w.conns[id].s.state.AuthRead? && act.Read? && !act.input.socks.recv.Failed?
    && w'.conns[id].s.state.AuthWrite? && w'.conns[id].s.authStatus == A.SUCCESS
    && var p := A.Parse(w.conns[id].s.auth, w.conns[id].s.rb.contents + Octets(act.input.socks.recv)).0;
       p.state.Done? && CheckUser(w.config.users, p.user, p.pass)
  }

  /** The session's hello reply finished going out while no authentication was required, and it went on. */
  ghost predicate Waived(w: World, act: Action, w': World, id: nat) {
    && IsProxy(w, id) && IsProxy(w', id) && w.conns[id].s.state.HelloWrite? && act.Write?
    && w'.conns[id].s.state.RequestRead?
    && w.conns[id].s.hello.selected == H.NO_AUTH && !w.config.auth
  }

  lemma HelloHeard(c: Context, key: int, r: Recv)
    requires c.s.state.HelloRead? && Untouched(c.s)
    ensures var n := OnHelloRead(c, key, r);
            n.st.HelloWrite? || n.st.Error?
    ensures var n := OnHelloRead(c, key, r);
            n.st.HelloWrite? && n.c.s.hello.selected != H.NO_ACCEPTABLE ==>
              && r.Got? && n.c.s.hello.selected == H.Wanted(c.config.auth)
              && exists k :: H.StartsWithHello(r.octets, k) && n.c.s.hello.selected in r.octets[2..k + 2]
  {
    hide H.Parse;
    if r.Got? {
      assert [] + r.octets == r.octets;
      H.HelloAcceptedIff(c.config.auth, r.octets);
      var (p, rest) := H.Parse(c.config.auth, H.START, r.octets);
      if p.state.Done? {
        var k := |r.octets| - |rest| - 2;
        HelloExtent(c.config.auth, r.octets, k);
      }
    }
  }

  /** The octets taken are the hello itself. */
  lemma HelloExtent(auth: bool, octets: seq<byte>, k: nat)
    requires H.Parse(auth, H.START, octets).0.state.Done?
    requires |octets| - |H.Parse(auth, H.START, octets).1| == k + 2
    ensures H.StartsWithHello(octets, k)
  {
    H.HelloAcceptedIff(auth, octets);
    var n :| H.StartsWithHello(octets, n);
    H.HelloDecoded(auth, octets[2..n + 2], octets[n + 2..]);
    assert H.Encode(octets[2..n + 2]) + octets[n + 2..] == octets;
  }

  /** Only these dispatches lead past authentication. */
  lemma {:induction false} ConnectStaysLate(c: Context, a: Answers, k: nat)
    ensures var n := RequestConnect(c, a, k);
            && (Late(n.st) || n.st.Error?) && !n.st.Copy? && n.c.s.state == c.s.state && n.c.s.connected == c.s.connected
            && n.c.s.hello == c.s.hello && n.c.s.authStatus == c.s.authStatus
    decreases c.s.resolution.addresses - c.s.resolution.current
  {
    hide R.Reply, SetInterestOf, RegisterOrigin, DropOrigin, OpenOrigin;
    var socket := SocketAt(a, k);
    if socket.fd != -1 && socket.nonBlocking && socket.connect.Refused? {
      var e := socket.connect.error;
      var c2 := WithStatus(Doubt(OpenOrigin(DropOrigin(c), socket), e != R.NoError), R.ErrnoToSocks(e));
      if HasNext(c2.s.resolution) {
        ConnectStaysLate(Advance(c2), a, k + 1);
      }
    }
  }

  /** A state change of the session that authentication is concerned with. */
  ghost predicate Passage(c: Context, key: int, e: Stm.Event, a: Answers, n: Next) {
    && n.c.s.state == c.s.state
    && (Late(n.st) ==>
          || Late(c.s.state)
          || (c.s.state.HelloWrite? && n.st.RequestRead? && c.s.hello.selected == H.NO_AUTH && !c.config.auth)
          || (c.s.state.AuthWrite? && c.s.authStatus == A.SUCCESS))
    && (n.st.AuthWrite? ==>
          || (c.s.state.AuthWrite? && n.c.s.authStatus == c.s.authStatus)
          || (c.s.state.AuthRead? && !a.recv.Failed?
              && var p := A.Parse(c.s.auth, c.s.rb.contents + Octets(a.recv)).0;
                 && p.state.Done?
                 && n.c.s.authStatus == if CheckUser(c.config.users, p.user, p.pass) then A.SUCCESS else A.FAIL))
    && (n.st.HelloWrite? ==> c.s.state.HelloRead? || (c.s.state.HelloWrite? && n.c.s.hello == c.s.hello))
    && !n.st.HelloRead?
    && (n.c.s.connected ==> c.s.connected || (c.s.state.RequestConnecting? && a.soError == Known(R.NoError)))
  }

  lemma HelloReadPassage(c: Context, key: int, a: Answers)
    requires c.s.state.HelloRead?
    ensures Passage(c, key, Stm.ReadReady, a, OnHelloRead(c, key, a.recv))
  {
    hide SetInterestOf, H.Parse, A.Parse;
  }

  lemma HelloWritePassage(c: Context, key: int, a: Answers)
    requires c.s.state.HelloWrite?
    ensures Passage(c, key, Stm.WriteReady, a, OnHelloWrite(c, key, a.sent))
  {
    hide SetInterestOf, Send, A.Parse;
  }

  /** The verdict is the judgement on the stored credentials. */
  lemma AnswerJudges(c: Context, key: int)
    requires A.IsDone(c.s.auth)
    ensures var n := AnswerCredentials(c, key);
            && n.c.s == c.s.(authStatus := n.c.s.authStatus, wb := n.c.s.wb) && (n.st.AuthWrite? || n.st.Error?)
            && (n.st.AuthWrite? ==>
                  && c.s.auth.state.Done?
                  && n.c.s.authStatus == if CheckUser(c.config.users, c.s.auth.user, c.s.auth.pass) then A.SUCCESS else A.FAIL)
  {
    hide SetInterestOf, A.Reply, CheckUser, Fifo.Room, Fifo.Put;
  }

  lemma AuthReadPassage(c: Context, key: int, a: Answers)
    requires c.s.state.AuthRead?
    ensures Passage(c, key, Stm.ReadReady, a, OnAuthRead(c, key, a.recv))
  {
    hide A.Parse, CheckUser, Gone, Drop, AnswerCredentials;
    if !a.recv.Failed? {
      var c1 := TakeCredentials(Receive(c, a.recv));
      if A.IsDone(c1.s.auth) {
        AnswerJudges(c1, key);
      }
    }
  }

  lemma AuthWritePassage(c: Context, key: int, a: Answers)
    requires c.s.state.AuthWrite?
    ensures Passage(c, key, Stm.WriteReady, a, OnAuthWrite(c, key, a.sent))
  {
    hide SetInterestOf, Send, A.Parse;
  }

  lemma ProcessStaysLate(c: Context, key: int, a: Answers)
    ensures var n := RequestProcess(c, key, a);
            && (Late(n.st) || n.st.Error?) && !n.st.Copy? && n.c.s.state == c.s.state && n.c.s.connected == c.s.connected
            && n.c.s.hello == c.s.hello && n.c.s.authStatus == c.s.authStatus
  {
    hide RequestConnect, SetInterestOf;
    ConnectStaysLate(c, a, 0);
  }

  lemma RequestPassage(c: Context, key: int, a: Answers)
    requires c.s.state.RequestRead?
    ensures Passage(c, key, Stm.ReadReady, a, OnRequestRead(c, key, a))
  {
    var c2 := TakeRequest(Receive(c, a.recv));
    ProcessStaysLate(c2, key, a);
    hide RequestProcess, TakeRequest, Receive, A.Parse;
  }

  lemma ReportSame(c: Context, key: int)
    ensures var n := ReportConnection(c, key);
            n.c.s == c.s.(wb := n.c.s.wb) && (n.st.RequestWrite? || n.st.Error?)
  {
    hide SetInterestOf, R.Reply;
  }

  lemma ConnectingPassage(c: Context, key: int, a: Answers)
    requires c.s.state.RequestConnecting?
    ensures Passage(c, key, Stm.WriteReady, a, OnConnecting(c, key, a))
  {
    hide ReportConnection, RequestConnect, A.Parse;
    match a.soError
    case Unknown => ReportSame(WithStatus(c, R.GENERAL_FAILURE), key);
    case Known(e) =>
      var c1 := if e == R.NoError then OnConnected(c, key) else WithStatus(c, R.ErrnoToSocks(e));
      ReportSame(c1, key);
      ConnectStaysLate(Advance(c1), a, 0);
  }

  lemma CopyPassage(c: Context, key: int, e: Stm.Event, a: Answers)
    requires c.s.state.Copy?
    ensures Passage(c, key, e, a, if e.ReadReady? then OnCopyRead(c, key, a.recv) else OnCopyWrite(c, key, a.sent))
  {
    hide A.Parse, OnCopyRead, OnCopyWrite;
  }

  lemma DispatchPasses(c: Context, key: int, e: Stm.Event, a: Answers)
    requires Stm.Handles(Definition(c.s.state), e)
    ensures Passage(c, key, e, a, Callback(c, key, e, a))
  {
    hide Passage, RequestConnect, OnHelloRead, OnHelloWrite, OnAuthRead, OnAuthWrite;
    hide OnRequestRead, OnConnecting, OnCopyRead, OnCopyWrite;
    match c.s.state
    case HelloRead => HelloReadPassage(c, key, a);
    case HelloWrite => HelloWritePassage(c, key, a);
    case AuthRead => AuthReadPassage(c, key, a);
    case AuthWrite => AuthWritePassage(c, key, a);
    case RequestRead => RequestPassage(c, key, a);
    case RequestResolv => ResolvPassage(c, key, a);
    case RequestConnecting => ConnectingPassage(c, key, a);
    case RequestWrite => RequestWritePassage(c, key, a);
    case Copy => CopyPassage(c, key, e, a);
    case _ =>
  }

  lemma ResolvPassage(c: Context, key: int, a: Answers)
    requires c.s.state.RequestResolv?
    ensures Passage(c, key, Stm.BlockReady, a, OnResolved(c, a))
  {
    hide RequestConnect, A.Parse;
    ConnectStaysLate(if c.s.resolution.addresses == 0 then WithStatus(c, R.GENERAL_FAILURE) else c, a, 0);
  }

  lemma RequestWritePassage(c: Context, key: int, a: Answers)
    requires c.s.state.RequestWrite?
    ensures Passage(c, key, Stm.WriteReady, a, OnRequestWrite(c, a.sent))
  {
    hide SetInterestOf, Send, A.Parse;
  }

  // ----- runs

  ghost predicate OfferedAt(ws: seq<World>, acts: seq<Action>, id: nat, selected: byte, i: nat)
    requires |ws| == |acts| + 1 && i < |acts|
  {
    Offered(ws[i], acts[i], ws[i + 1], id, selected)
  }

  ghost predicate VerifiedAt(ws: seq<World>, acts: seq<Action>, id: nat, j: nat)
    requires |ws| == |acts| + 1 && j < |acts|
  {
    Verified(ws[j], acts[j], ws[j + 1], id)
  }

  /** Where in the run a session was cleared to make a request. */
  ghost predicate ClearedAt(ws: seq<World>, acts: seq<Action>, id: nat, j: nat)
    requires |ws| == |acts| + 1 && j < |acts|
  {
    || VerifiedAt(ws, acts, id, j)
    || (Waived(ws[j], acts[j], ws[j + 1], id) && exists i :: 0 <= i < j && OfferedAt(ws, acts, id, H.NO_AUTH, i))
  }

  /** What the history of a session must contain, by its state. */
  ghost predicate Explained(ws: seq<World>, acts: seq<Action>, k: nat, id: nat)
    requires |ws| == |acts| + 1 && k <= |acts|
  {
    IsProxy(ws[k], id) ==>
      var s := ws[k].conns[id].s;
      && Untouched(s)
      && (s.state.HelloWrite? && s.hello.selected != H.NO_ACCEPTABLE ==>
            exists i :: 0 <= i < k && OfferedAt(ws, acts, id, s.hello.selected, i))
      && (s.state.AuthWrite? && s.authStatus == A.SUCCESS ==> exists i :: 0 <= i < k && VerifiedAt(ws, acts, id, i))
      && (Late(s.state) ==> exists j :: 0 <= j < k && ClearedAt(ws, acts, id, j))
  }

  ghost predicate SameFields(s: Session, s': Session) {
    s'.hello == s.hello && s'.authStatus == s.authStatus && s'.connected == s.connected
  }

  lemma JumpResult(n: Next)
    ensures var c' := if n.st == Done || n.st == Error then Finish(Jump(n)) else Jump(n);
            c'.s.state == n.st && SameFields(n.c.s, c'.s)
  {
  }

  /** The session after a callback, in the fields authentication looks at. */
  lemma DispatchResult(c: Context, key: int, e: Stm.Event, a: Answers)
    requires Stm.Handles(Definition(c.s.state), e)
    ensures var n, s' := Callback(c, key, e, a), Dispatch(c, key, e, a).s;
            s'.state == n.st && SameFields(n.c.s, s')
  {
    hide Callback, Jump, Finish;
    JumpResult(Callback(c, key, e, a));
  }

  lemma ExplainedLater(ws: seq<World>, acts: seq<Action>, k: nat, id: nat)
    requires |ws| == |acts| + 1 && k < |acts| && Explained(ws, acts, k, id) && IsProxy(ws[k], id) && IsProxy(ws[k + 1], id)
    requires Bystander(ws[k].conns[id].s, ws[k + 1].conns[id].s)
    ensures Explained(ws, acts, k + 1, id)
  {
    hide ClearedAt, VerifiedAt, OfferedAt;
  }

  /** What the session's own event did in this step. */
  ghost predicate Serves(ws: seq<World>, acts: seq<Action>, k: nat, id: nat, key: int)
    requires |ws| == |acts| + 1 && k < |acts|
  {
    && IsProxy(ws[k], id) && IsProxy(ws[k + 1], id) && IsCallback(acts[k])
    && var c, e, a, s' := ContextOf(ws[k], id), EventOf(acts[k]), acts[k].input.socks, ws[k + 1].conns[id].s;
       var n := Callback(c, key, e, a);
       Stm.Handles(Definition(c.s.state), e) && s'.state == n.st && SameFields(n.c.s, s') && Passage(c, key, e, a, n)
  }

  /** A hello reply is owed to an offer. */
  lemma OfferExplains(ws: seq<World>, acts: seq<Action>, k: nat, id: nat, key: int)
    requires |ws| == |acts| + 1 && k < |acts| && Explained(ws, acts, k, id) && Serves(ws, acts, k, id, key)
    requires ws[k + 1].conns[id].s.state.HelloWrite?
    ensures var selected := ws[k + 1].conns[id].s.hello.selected;
            selected != H.NO_ACCEPTABLE ==> exists i :: 0 <= i < k + 1 && OfferedAt(ws, acts, id, selected, i)
  {
    hide A.Parse, H.Parse, ClearedAt, VerifiedAt, OnHelloRead, OnHelloWrite;
    var c, selected := ContextOf(ws[k], id), ws[k + 1].conns[id].s.hello.selected;
    if selected != H.NO_ACCEPTABLE {
      if c.s.state.HelloRead? {
        HelloHeard(c, key, acts[k].input.socks.recv);
        assert OfferedAt(ws, acts, id, selected, k);
      } else {
        var i :| 0 <= i < k && OfferedAt(ws, acts, id, selected, i);
      }
    }
  }

  /** An accepting credentials reply is owed to a verification. */
  lemma VerdictExplains(ws: seq<World>, acts: seq<Action>, k: nat, id: nat, key: int)
    requires |ws| == |acts| + 1 && k < |acts| && Explained(ws, acts, k, id) && Serves(ws, acts, k, id, key)
    requires ws[k + 1].conns[id].s.state.AuthWrite?
    ensures ws[k + 1].conns[id].s.authStatus == A.SUCCESS ==> exists i :: 0 <= i < k + 1 && VerifiedAt(ws, acts, id, i)
  {
    hide A.Parse, ClearedAt, OfferedAt, Callback;
    if ws[k + 1].conns[id].s.authStatus == A.SUCCESS {
      if ws[k].conns[id].s.state.AuthRead? {
        assert VerifiedAt(ws, acts, id, k);
      } else {
        var i :| 0 <= i < k && VerifiedAt(ws, acts, id, i);
      }
    }
  }

  /** A late state is owed to a clearance. */
  lemma LateExplains(ws: seq<World>, acts: seq<Action>, k: nat, id: nat, key: int)
    requires |ws| == |acts| + 1 && k < |acts| && Explained(ws, acts, k, id) && Serves(ws, acts, k, id, key)
    requires Late(ws[k + 1].conns[id].s.state)
    ensures exists j :: 0 <= j < k + 1 && ClearedAt(ws, acts, id, j)
  {
    hide A.Parse, OfferedAt, VerifiedAt, Callback;
    var s := ws[k].conns[id].s;
    if Late(s.state) {
      var j :| 0 <= j < k && ClearedAt(ws, acts, id, j);
    } else if s.state.HelloWrite? {
      var i :| 0 <= i < k && OfferedAt(ws, acts, id, s.hello.selected, i);
      assert Waived(ws[k], acts[k], ws[k + 1], id);
      assert ClearedAt(ws, acts, id, k);
    } else {
      var i :| 0 <= i < k && VerifiedAt(ws, acts, id, i);
      assert ClearedAt(ws, acts, id, i);
    }
  }

  /** One step of Explained, for the session that handled an event. */
  lemma ExplainedStep(ws: seq<World>, acts: seq<Action>, k: nat, id: nat)
    requires |ws| == |acts| + 1 && k < |acts| && Explained(ws, acts, k, id) && IsProxy(ws[k], id)
    requires IsProxy(ws[k + 1], id) && Handled(ws[k], acts[k], ws[k + 1].conns[id].s, id)
    ensures Explained(ws, acts, k + 1, id)
  {
    var c, act, s' := ContextOf(ws[k], id), acts[k], ws[k + 1].conns[id].s;
    var e, a := EventOf(act), act.input.socks;
    hide Callback, A.Parse, Dispatch, ClearedAt, VerifiedAt, OfferedAt;
    var key :| s' == Dispatch(c, key, e, a).s;
    if Stm.Handles(Definition(c.s.state), e) {
      DispatchPasses(c, key, e, a);
      DispatchResult(c, key, e, a);
      assert Serves(ws, acts, k, id, key);
      if s'.state.HelloWrite? {
        OfferExplains(ws, acts, k, id, key);
      } else if s'.state.AuthWrite? {
        VerdictExplains(ws, acts, k, id, key);
      } else if Late(s'.state) {
        LateExplains(ws, acts, k, id, key);
      }
    } else {
      UnhandledSame(c, key, e, a);
      ExplainedLater(ws, acts, k, id);
    }
  }

  lemma UnhandledSame(c: Context, key: int, e: Stm.Event, a: Answers)
    requires !Stm.Handles(Definition(c.s.state), e)
    ensures Dispatch(c, key, e, a).s == c.s
  {
  }

  lemma {:induction false} HistoryExplains(ws: seq<World>, acts: seq<Action>, k: nat, id: nat)
    requires Run(ws, acts) && k <= |acts|
    ensures Explained(ws, acts, k, id)
  {
    hide Explained, Effect, Enabled, Handled;
    if k == 0 {
      NothingAtFirst(ws, acts, id);
    } else {
      HistoryExplains(ws, acts, k - 1, id);
      var w, act := ws[k - 1], acts[k - 1];
      assert Enabled(w, act) && ws[k] == Effect(w, act);
      if IsProxy(w, id) {
        StepOnSession(w, act, id);
        if Handled(w, act, ws[k].conns[id].s, id) {
          ExplainedStep(ws, acts, k - 1, id);
        } else {
          ExplainedLater(ws, acts, k - 1, id);
        }
      } else {
        if IsProxy(ws[k], id) {
          StepMakes(w, act, id);
        }
        NewExplained(ws, acts, k, id);
      }
    }
  }

  lemma NothingAtFirst(ws: seq<World>, acts: seq<Action>, id: nat)
    requires Run(ws, acts)
    ensures Explained(ws, acts, 0, id)
  {
  }

  lemma NewExplained(ws: seq<World>, acts: seq<Action>, k: nat, id: nat)
    requires |ws| == |acts| + 1 && k <= |acts|
    requires IsProxy(ws[k], id) ==> exists fd: int, n: nat :: ws[k].conns[id].s == New(fd, n)
    ensures Explained(ws, acts, k, id)
  {
  }

  /**
   * The authentication gate, over runs in which management may change users and
   * the requirement at any time. A session past authentication was once cleared,
   * by an event of its own: either its credentials were complete, a configured
   * user had exactly that name and password, and it was told so; or its hello
   * reply finished going out with authentication off, and its hello, received
   * while it was off too, had offered method 0.
   */
  lemma AuthenticationGate(ws: seq<World>, acts: seq<Action>, k: nat, id: nat)
    requires Run(ws, acts) && k <= |acts| && IsProxy(ws[k], id) && Late(ws[k].conns[id].s.state)
    ensures exists j :: 0 <= j < k && ClearedAt(ws, acts, id, j)
  {
    hide Run, ClearedAt;
    HistoryExplains(ws, acts, k, id);
  }

  // ----- the relay is entered only over an established connection

  /** The session's own write event found SO_ERROR 0 on the pending connect, and counted the connection. */
  ghost predicate Established(w: World, act: Action, w': World, id: nat) {
    && IsProxy(w, id) && IsProxy(w', id) && w.conns[id].s.state.RequestConnecting? && act.Write?
    && act.input.socks.soError == Known(R.NoError) && !w.conns[id].s.connected && w'.conns[id].s.connected
  }

  ghost predicate EstablishedAt(ws: seq<World>, acts: seq<Action>, id: nat, j: nat)
    requires |ws| == |acts| + 1 && j < |acts|
  {
    Established(ws[j], acts[j], ws[j + 1], id)
  }

  lemma {:induction false} ConnectedSince(ws: seq<World>, acts: seq<Action>, k: nat, id: nat)
    requires Run(ws, acts) && k <= |acts| && IsProxy(ws[k], id) && ws[k].conns[id].s.connected
    ensures exists j :: 0 <= j < k && EstablishedAt(ws, acts, id, j)
  {
    hide Effect, Enabled, Handled, Initial, Established;
    NoConns(ws[0]);
    if k == 0 {
      assert false;
    } else {
      var w, act := ws[k - 1], acts[k - 1];
      assert Enabled(w, act) && ws[k] == Effect(w, act);
      if !IsProxy(w, id) {
        StepMakes(w, act, id);
        assert false;
      } else if w.conns[id].s.connected {
        ConnectedSince(ws, acts, k - 1, id);
      } else {
        StepOnSession(w, act, id);
        ConnectionEstablished(w, act, ws[k], id);
        assert EstablishedAt(ws, acts, id, k - 1);
      }
    }
  }

  lemma NoConns(w: World)
    requires Initial(w)
    ensures w.conns == []
  {
  }

  lemma ConnectionEstablished(w: World, act: Action, w': World, id: nat)
    requires IsProxy(w, id) && IsProxy(w', id) && Handled(w, act, w'.conns[id].s, id)
    requires w'.conns[id].s.connected && !w.conns[id].s.connected
    ensures Established(w, act, w', id)
  {
    hide Callback, Dispatch, A.Parse;
    var s' := w'.conns[id].s;
    var c, e, a := ContextOf(w, id), EventOf(act), act.input.socks;
    var key :| s' == Dispatch(c, key, e, a).s;
    if Stm.Handles(Definition(c.s.state), e) {
      DispatchPasses(c, key, e, a);
      DispatchResult(c, key, e, a);
    } else {
      UnhandledSame(c, key, e, a);
    }
  }
}
