/**
 * What a request leads to: who is connected where, who waits for the resolver, who
 * is declined, what each is told, and how the relay goes on and ends.
 */
module RequestOutcomes {
  import opened Bytes
  import opened SelectorModule
  import opened Session
  import opened SessionInvariant
  import opened World
  import opened WorldInvariant
  import opened Handoff
  import opened Accounts
  import opened Safety
  import opened AuthGate
  import opened Transcript
  import opened Theorems
  import opened Wakeups
  import opened ConnectReplies
  import opened Streams
  import opened LoginOutcomes
  import Fifo
  import Stm
  import H = HelloParser
  import A = AuthParser
  import R = RequestParser

  /** What came is a hello, the login that the chosen method asks for, if any, and then this. */
  ghost predicate Brings(
    came: seq<byte>, chosen: byte, methods: seq<byte>, user: seq<byte>, pass: seq<byte>, rest: seq<byte>)
  {
    && |methods| < 256 && |user| < 256 && |pass| < 256
    && came == [0x05, |methods|] + methods + Login(chosen, user, pass) + rest
  }

  // ----- the request

  lemma ConcludedOver(n: Next)
    requires Final(n.st)
    ensures var c' := Concluded(n);
            Over(c') && c'.s.script == n.c.s.script && c'.s.resolution == n.c.s.resolution && c'.threads == n.c.threads
  {
    hide TearDown;
  }

  /**
   * A connection to fd is under way: it is watched for writing on behalf of this
   * session, and the client for nothing. The origin before it, if any, is closed.
   */
  ghost predicate Connecting(c: Context, c': Context, fd: int) {
    && Awaits(c', RequestConnecting, NOOP) && c'.s.originFd == fd && c'.open == c.open - {c.s.originFd} + {fd}
    && fd in c'.items && c'.items[fd] == Item(Interest(false, true), SocksSession, c.id)
    && (c.s.originFd != fd ==> c.s.originFd !in c'.items)
  }

  /**
   * What became of up to n attempts. After some were refused at once, one that
   * cannot be made ends the session and one that is pending is waited for. If all
   * were refused, the reply tells of the last one.
   */
  ghost predicate Tried(c: Context, c': Context, a: Answers, n: nat, q: R.Request) {
    && c'.threads == c.threads && c'.s.script.told == c.s.script.told
    && (forall j :: 0 <= j < n && AllRefused(a, 0, j) ==> TriedAt(c, c', SocketAt(a, j), j))
    && (AllRefused(a, 0, n) && n > 0 && c.s.wb.capacity >= 262 ==>
          && Awaits(c', RequestWrite, WRITE) && RepliesWith(c'.s.wb.contents, SocketAt(a, n - 1).connect.error, q)
          && c'.s.resolution.attempts == c.s.resolution.attempts + n)
  }

  ghost predicate TriedAt(c: Context, c': Context, k: Socket, j: nat) {
    && (Hopeless(k) || (Pending(k) && k.fd >= 1024) ==> Over(c'))
    && (Pending(k) && k.fd < 1024 ==> Connecting(c, c', k.fd) && c'.s.resolution.attempts == c.s.resolution.attempts + j + 1)
  }

  lemma ConnectTriedAt(c: Context, a: Answers, j: nat)
    requires CanConnect(c) && RequestConnect(c, a, 0).c.honest
    requires j < Untried(c.s.resolution) && AllRefused(a, 0, j)
    ensures TriedAt(c, Concluded(RequestConnect(c, a, 0)), SocketAt(a, j), j)
  {
    var k, n := SocketAt(a, j), RequestConnect(c, a, 0);
    ConnectStaysLate(c, a, 0);
    OpenNatural(c);
    hide CanConnect, RequestConnect, AllRefused, Over;
    if Hopeless(k) {
      HopelessSocketEnds(c, a, 0, j);
      ConcludedOver(n);
    } else if Pending(k) && k.fd >= 1024 {
      DistantSocketEnds(c, a, 0, j);
      ConcludedOver(n);
    } else if Pending(k) {
      FirstPendingIsTaken(c, a, 0, j);
      ConnectSame(c, a, 0);
      UnderwayConnects(c, n, k.fd, j);
    }
  }

  lemma OpenNatural(c: Context)
    requires CanConnect(c)
    ensures c.s.live && c.s.clientFd in c.open && c.s.clientFd != c.s.originFd
  {
  }

  /** request_connect is about the origin only. */
  lemma {:induction false} ConnectSame(c: Context, a: Answers, k: nat)
    ensures var s := RequestConnect(c, a, k).c.s;
            s.clientFd == c.s.clientFd && s.live == c.s.live && s.wb.capacity == c.s.wb.capacity && s.request == c.s.request
    decreases c.s.resolution.addresses - c.s.resolution.current
  {
    hide R.Reply, SetInterestOf, RegisterOrigin, DropOrigin, OpenOrigin;
    var socket := SocketAt(a, k);
    if socket.fd != -1 && socket.nonBlocking && socket.connect.Refused? {
      var e := socket.connect.error;
      var c2 := WithStatus(Doubt(OpenOrigin(DropOrigin(c), socket), e != R.NoError), R.ErrnoToSocks(e));
      if HasNext(c2.s.resolution) {
        ConnectSame(Advance(c2), a, k + 1);
      }
    }
  }

  lemma UnderwayConnects(c: Context, n: Next, fd: int, j: nat)
    requires Underway(c, n, fd, j) && c.s.clientFd in c.open && c.s.clientFd != c.s.originFd && c.s.live
    requires n.c.s.clientFd == c.s.clientFd && n.c.s.live
    ensures Connecting(c, Concluded(n), fd) && Concluded(n).s.resolution.attempts == c.s.resolution.attempts + j + 1
  {
  }

  lemma AllTried(c: Context, a: Answers, n: nat)
    requires CanConnect(c) && RequestConnect(c, a, 0).c.honest && R.Snug(c.s.request)
    requires n == Untried(c.s.resolution)
    ensures AllRefused(a, 0, n) && c.s.wb.capacity >= 262 ==>
              var c' := Concluded(RequestConnect(c, a, 0));
              && Awaits(c', RequestWrite, WRITE)
              && RepliesWith(c'.s.wb.contents, SocketAt(a, n - 1).connect.error, c.s.request)
              && c'.s.resolution.attempts == c.s.resolution.attempts + n
  {
    assert Fifo.Room(c.s.wb) == c.s.wb.capacity && c.s.live;
    ConnectSame(c, a, 0);
    hide OpenOrigin, DropOrigin, Owns;
    if AllRefused(a, 0, n) && c.s.wb.capacity >= 262 {
      hide CanConnect, RequestConnect, AllRefused, R.Snug, RepliesWith, Fifo.Room, Untried;
      LastRefusalIsReported(c, a, 0);
    }
  }

  lemma ConnectTried(c: Context, a: Answers, n: nat)
    requires CanConnect(c) && RequestConnect(c, a, 0).c.honest && R.Snug(c.s.request)
    requires n == Untried(c.s.resolution)
    ensures Tried(c, Concluded(RequestConnect(c, a, 0)), a, n, c.s.request)
  {
    AllTried(c, a, n);
    ConnectSpawnsNone(c, a, 0);
    ConnectAdds(c, a, 0);
    ConcludedKeeps(RequestConnect(c, a, 0));
    hide CanConnect, RequestConnect, AllRefused, R.Snug, RepliesWith, Concluded, TriedAt, Awaits;
    forall j | 0 <= j < n && AllRefused(a, 0, j)
      ensures TriedAt(c, Concluded(RequestConnect(c, a, 0)), SocketAt(a, j), j)
    {
      ConnectTriedAt(c, a, j);
    }
  }

  lemma ConcludedKeeps(n: Next)
    ensures Concluded(n).s.script == n.c.s.script && Concluded(n).threads == n.c.threads
  {
    if Final(n.st) {
      ConcludedOver(n);
    }
    hide Finish, Final, Over;
  }

  /** The session as request_process finds it. */
  ghost predicate Asked(c: Context, c2: Context) {
    c2 == c.(s := c.s.(rb := c2.s.rb, request := c2.s.request, script := c2.s.script), honest := c2.honest)
    && c2.s.script.told == c.s.script.told && (c2.honest ==> Fifo.Ok(c2.s.rb)) && c2.s.rb.capacity == c.s.rb.capacity
  }

  lemma AskedIs(c: Context, r: Recv)
    requires Fifo.Ok(c.s.rb)
    ensures Asked(c, TakeRequest(Receive(c, r)))
  {
    var c1 := Receive(c, r);
    var (p, rest) := R.Parse(c1.s.request, c1.s.rb.contents);
    hide R.Parse, Receive, Drop, Gone;
    ReceiveKeeps(c, r, rest);
    ReceiveHeard(c, r);
  }

  lemma AskedCanConnect(c: Context, c2: Context)
    requires Good(c) && c.s.state.RequestRead? && Asked(c, c2) && c2.honest && c.anomalies == {} && c2.s.request.state.Done?
    ensures CanConnect(c2) && c2.s.originFd == -1 && Untried(c2.s.resolution) == 1 && c2.s.wb.contents == []
  {
    hide Owns;
  }

  lemma DecodedSnug(m: R.Message)
    requires R.WellFormed(m)
    ensures R.Snug(R.Decoded(m))
  {
  }

  /** What request_process does with each kind of request. */
  lemma ProcessBranches(c: Context, key: int, a: Answers) returns (status: byte)
    ensures status != R.SUCCEEDED
    ensures var q, n := c.s.request, RequestProcess(c, key, a);
            if q.cmd == 0x01 && (q.atyp == 0x01 || q.atyp == 0x04) then n == RequestConnect(c, a, 0)
            else if q.cmd == 0x01 && q.atyp == 0x03 && a.thread then
              n == Next(SetInterestOf(Spawn(c, key), key, NOOP).0, RequestResolv)
            else n == Decline(c, key, status)
  {
    hide RequestConnect, SetInterestOf, Spawn, Decline;
    status := if c.s.request.cmd != 0x01 then R.COMMAND_NOT_SUPPORTED
              else if c.s.request.atyp == 0x03 then R.GENERAL_FAILURE else R.ADDRESS_TYPE_NOT_SUPPORTED;
  }

  /** The session waits for the resolver, with exactly one more thread, which knows it and its client. */
  ghost predicate Resolving(c: Context, c': Context) {
    && Awaits(c', RequestResolv, NOOP) && c'.threads == c.threads + multiset{Thread(c.id, c.s.clientFd)}
    && c'.s.script.told == c.s.script.told && c'.s.resolution == c.s.resolution && c'.open == c.open
  }

  /**
   * The request is declined: no connection is attempted, no thread is started,
   * nothing is queued, and the client's next write event, whatever it brings, ends
   * the session.
   */
  ghost predicate Declined(c: Context, c': Context) {
    && Awaits(c', RequestWrite, WRITE) && c'.threads == c.threads && c'.open == c.open
    && c'.s.wb.contents == [] && c'.s.script.told == c.s.script.told && c'.s.resolution == c.s.resolution
    && (forall b: Answers :: b.sent <= 0 ==>
          var c2 := Dispatch(c', c.s.clientFd, Stm.WriteReady, b);
          Over(c2) && c2.s.script.told == c.s.script.told)
  }

  /** Nothing to send, and no success to report. */
  lemma NothingToTell(c: Context, b: Answers)
    requires c.s.state.RequestWrite? && c.s.wb.contents == [] && c.s.status != R.SUCCEEDED && b.sent <= 0
    ensures var c2 := Dispatch(c, c.s.clientFd, Stm.WriteReady, b);
            Over(c2) && c2.s.script.told == c.s.script.told
  {
    NothingSent(c, b.sent);
    StatesHandle(c);
    hide OnRequestWrite, Over, Dispatch;
    FinalIsOver(c, c.s.clientFd, Stm.WriteReady, b);
  }

  lemma NothingSent(c: Context, n: int)
    requires c.s.wb.contents == [] && c.s.status != R.SUCCEEDED && n <= 0
    ensures Final(OnRequestWrite(c, n).st) && OnRequestWrite(c, n).c.s.script.told == c.s.script.told
  {
    assert c.s.script.told + [] == c.s.script.told;
    hide SetInterestOf;
  }

  lemma DeclineDeclines(c: Context, c2: Context, status: byte)
    requires Good(c) && c.s.state.RequestRead? && Asked(c, c2) && status != R.SUCCEEDED
    ensures Declined(c, Concluded(Decline(c2, c2.s.clientFd, status)))
  {
    var c1 := WithStatus(c2, status);
    SetInterestKeeps(c1, c2.s.clientFd, WRITE);
    var c' := Concluded(Decline(c2, c2.s.clientFd, status));
    hide SetInterestOf, Owns, Frame;
    assert c' == c1.(s := c1.s.(state := RequestWrite), items := c'.items);
    hide Decline, Dispatch;
    forall b: Answers | b.sent <= 0
      ensures var c3 := Dispatch(c', c.s.clientFd, Stm.WriteReady, b);
              Over(c3) && c3.s.script.told == c.s.script.told
    {
      NothingToTell(c', b);
    }
  }

  lemma SpawnResolves(c: Context, c2: Context)
    requires Good(c) && c.s.state.RequestRead? && Asked(c, c2)
    ensures Resolving(c, Concluded(Next(SetInterestOf(Spawn(c2, c2.s.clientFd), c2.s.clientFd, NOOP).0, RequestResolv)))
  {
    SetInterestKeeps(Spawn(c2, c2.s.clientFd), c2.s.clientFd, NOOP);
    hide SetInterestOf, Owns, Frame;
  }

  /** What the request leads to, once its octets are read. */
  lemma ProcessLeads(c: Context, c2: Context, a: Answers)
    requires Good(c) && c.s.state.RequestRead? && c.anomalies == {} && Asked(c, c2)
    requires c2.s.request.state.Done? && R.Snug(c2.s.request)
    ensures var q, n := c2.s.request, RequestProcess(c2, c2.s.clientFd, a);
            n.c.honest ==>
              if q.cmd == 0x01 && (q.atyp == 0x01 || q.atyp == 0x04) then Tried(c, Concluded(n), a, 1, q)
              else if q.cmd == 0x01 && q.atyp == 0x03 && a.thread then Resolving(c, Concluded(n))
              else Declined(c, Concluded(n))
  {
    var status := ProcessBranches(c2, c2.s.clientFd, a);
    var n := RequestProcess(c2, c2.s.clientFd, a);
    if n.c.honest {
      if !c2.honest {
        ProcessDoubts(c2, c2.s.clientFd, a);
      }
      AskedCanConnect(c, c2);
      hide CanConnect, RequestConnect, RequestProcess, Concluded, Resolving, Declined, Tried, R.Snug, Good, Decline, Spawn;
      if c2.s.request.cmd == 0x01 && (c2.s.request.atyp == 0x01 || c2.s.request.atyp == 0x04) {
        ConnectTried(c2, a, 1);
        TriedSame(c, c2, Concluded(n), a, 1, c2.s.request);
      } else if c2.s.request.cmd == 0x01 && c2.s.request.atyp == 0x03 && a.thread {
        SpawnResolves(c, c2);
      } else {
        DeclineDeclines(c, c2, status);
      }
    }
  }

  lemma TriedSame(c: Context, c2: Context, c': Context, a: Answers, n: nat, q: R.Request)
    requires Asked(c, c2) && Tried(c2, c', a, n, q)
    ensures Tried(c, c', a, n, q)
  {
    hide AllRefused, Over, RepliesWith, Awaits;
  }

  /** What the parser makes of all that came behind the hello and the login. */
  lemma RequestParsed(
    ws: seq<World>, acts: seq<Action>, k: nat, id: nat, r: Recv,
    methods: seq<byte>, user: seq<byte>, pass: seq<byte>, later: seq<byte>)
    requires Serving(ws, acts, k, id) && ws[k].conns[id].s.state.RequestRead?
    requires Brings(Received(ws, acts, id, k, CLIENT) + Octets(r), ws[k].conns[id].s.hello.selected,
                    methods, user, pass, later)
    ensures TakeRequest(Receive(ContextOf(ws[k], id), r)).s.request == R.Parse(R.START, later).0
    ensures Good(ContextOf(ws[k], id)) && ws[k].anomalies == {}
  {
    var c := ContextOf(ws[k], id);
    ServingKnows(ws, acts, k, id);
    HelloWire(methods);
    BehindLogin(c.s, Octets(r), methods, user, pass, later);
    assert R.Parse(R.START, c.s.script.order) == (c.s.request, []) && !R.IsDone(c.s.request);
    hide *;
    RequestGoesOn(c, r);
  }

  /** The callback, by where the parser stands. */
  lemma RequestCalled(c: Context, a: Answers)
    requires c.s.state.RequestRead? && !a.recv.Failed?
    ensures var c2, n := TakeRequest(Receive(c, a.recv)), Callback(c, c.s.clientFd, Stm.ReadReady, a);
            && (!R.IsDone(c2.s.request) ==> n == Next(c2, RequestRead))
            && (R.IsError(c2.s.request) ==> n == RequestProcess(c2, c.s.clientFd, a).(st := Error))
            && (c2.s.request.state.Done? ==> n == RequestProcess(c2, c.s.clientFd, a))
  {
    hide TakeRequest, Receive, RequestProcess;
  }

  /**
   * A request that is complete decides what happens, however it arrived. CONNECT
   * to an IPv4 or IPv6 address is tried. CONNECT to a name starts one resolver
   * thread. Any other command, or a name when no thread could be started, is
   * declined without a connection, a thread or a reply.
   */
  lemma RequestDecided(
    ws: seq<World>, acts: seq<Action>, k: nat, id: nat, a: Answers,
    methods: seq<byte>, user: seq<byte>, pass: seq<byte>, m: R.Message, surplus: seq<byte>)
    requires Serving(ws, acts, k, id) && ws[k].conns[id].s.state.RequestRead? && !a.recv.Failed?
    requires R.WellFormed(m)
    requires Brings(Received(ws, acts, id, k, CLIENT) + Octets(a.recv), ws[k].conns[id].s.hello.selected,
                    methods, user, pass, R.Encode(m) + surplus)
    ensures var c := ContextOf(ws[k], id);
            var c' := Dispatch(c, c.s.clientFd, Stm.ReadReady, a);
            c'.honest ==>
              if m.cmd == 0x01 && (m.atyp == 0x01 || m.atyp == 0x04) then Tried(c, c', a, 1, R.Decoded(m))
              else if m.cmd == 0x01 && m.atyp == 0x03 && a.thread then Resolving(c, c')
              else Declined(c, c')
  {
    var c := ContextOf(ws[k], id);
    RequestParsed(ws, acts, k, id, a.recv, methods, user, pass, R.Encode(m) + surplus);
    R.RequestDecoded(m, surplus);
    DecodedSnug(m);
    assert Fifo.Ok(c.s.rb);
    AskedIs(c, a.recv);
    RequestCalled(c, a);
    StatesHandle(c);
    HandledBy(c, c.s.clientFd, Stm.ReadReady, a);
    ConcludedSame(Callback(c, c.s.clientFd, Stm.ReadReady, a));
    hide Serving, Good, Asked, Dispatch, Callback, Received, TakeRequest, Receive, R.Parse, R.Snug, RequestProcess;
    hide Tried, Resolving, Declined, Concluded, R.Encode;
    ProcessLeads(c, TakeRequest(Receive(c, a.recv)), a);
  }

  /** A parser that stopped on an error holds nothing that could be tried. */
  lemma ErrorDeclines(c2: Context, a: Answers)
    requires R.Sane(c2.s.request) && R.IsError(c2.s.request)
    ensures var n := RequestProcess(c2, c2.s.clientFd, a);
            n.c.threads == c2.threads && n.c.s.script == c2.s.script && n.c.open == c2.open
  {
    hide SetInterestOf;
  }

  lemma IncompleteLeads(c: Context, c2: Context, n: Next, a: Answers)
    requires Awaits(c, RequestRead, READ) && Asked(c, c2) && R.Sane(c2.s.request) && !c2.s.request.state.Done?
    requires n == if R.IsError(c2.s.request) then RequestProcess(c2, c.s.clientFd, a).(st := Error) else Next(c2, RequestRead)
    ensures var c' := Concluded(n);
            && c'.s.script.told == c.s.script.told && c'.threads == c.threads
            && (if R.IsError(c2.s.request) then Over(c') else Awaits(c', RequestRead, READ) && c'.s.wb == c.s.wb)
  {
    hide RequestProcess, Over;
    if R.IsError(c2.s.request) {
      ErrorDeclines(c2, a);
      ConcludedOver(n);
    }
  }

  lemma StaysSane(c: Context, r: Recv)
    requires R.Sane(c.s.request) && !R.IsDone(c.s.request)
    ensures R.Sane(TakeRequest(Receive(c, r)).s.request)
  {
    R.ParseKeepsSane(c.s.request, Receive(c, r).s.rb.contents);
    hide R.Parse, R.Sane, R.IsDone, Receive, Drop, Gone;
  }

  /** Octets that no request starts with end the session, and it is told nothing; incomplete ones are waited for. */
  lemma RequestIncomplete(
    ws: seq<World>, acts: seq<Action>, k: nat, id: nat, a: Answers,
    methods: seq<byte>, user: seq<byte>, pass: seq<byte>, later: seq<byte>)
    requires Serving(ws, acts, k, id) && ws[k].conns[id].s.state.RequestRead? && !a.recv.Failed?
    requires forall m :: !R.Carries(later, m)
    requires Brings(Received(ws, acts, id, k, CLIENT) + Octets(a.recv), ws[k].conns[id].s.hello.selected,
                    methods, user, pass, later)
    ensures var c := ContextOf(ws[k], id);
            var c' := Dispatch(c, c.s.clientFd, Stm.ReadReady, a);
            && c'.s.script.told == c.s.script.told && c'.threads == c.threads
            && (if R.Broken(later) then Over(c') else Awaits(c', RequestRead, READ) && c'.s.wb.contents == [])
  {
    var c := ContextOf(ws[k], id);
    var c2, n := TakeRequest(Receive(c, a.recv)), Callback(c, c.s.clientFd, Stm.ReadReady, a);
    RequestParsed(ws, acts, k, id, a.recv, methods, user, pass, later);
    R.RequestRefusedIff(later);
    R.RequestAcceptedIff(later);
    assert Fifo.Ok(c.s.rb) && c.s.wb.contents == [] && Awaits(c, RequestRead, READ);
    StaysSane(c, a.recv);
    AskedIs(c, a.recv);
    RequestCalled(c, a);
    StatesHandle(c);
    hide *;
    HandledBy(c, c.s.clientFd, Stm.ReadReady, a);
    ParserStops(c2.s.request);
    IncompleteLeads(c, c2, n, a);
  }

  lemma ParserStops(p: R.Request)
    ensures R.IsDone(p) <==> R.IsError(p) || p.state.Done?
  {
  }

  // ----- the resolver and the connection

  /** The request is known, and its outcome is not told yet. */
  predicate Answering(st: State) { st.RequestResolv? || st.RequestConnecting? || st.RequestWrite? }

  /** The request a session works on is the one that came. */
  lemma RequestRemembered(
    ws: seq<World>, acts: seq<Action>, k: nat, id: nat,
    methods: seq<byte>, user: seq<byte>, pass: seq<byte>, m: R.Message, surplus: seq<byte>)
    requires Serving(ws, acts, k, id) && Answering(ws[k].conns[id].s.state)
    requires R.WellFormed(m)
    requires Brings(Received(ws, acts, id, k, CLIENT), ws[k].conns[id].s.hello.selected, methods, user, pass,
                    R.Encode(m) + surplus)
    ensures ws[k].conns[id].s.request == R.Decoded(m)
  {
    var s := ws[k].conns[id].s;
    ServingKnows(ws, acts, k, id);
    HelloWire(methods);
    AnsweringHeard(s);
    hide Serving, Spoken, Good, Parsing, Received, Greeted, LoggedIn, Ordered, R.Encode, R.WellFormed, Login, H.Encode;
    GreetedWire(s);
    var u, p := LoginWire(s);
    var login, later := Login(s.hello.selected, user, pass), R.Encode(m) + surplus;
    Grouped(H.Encode(methods), login, later);
    HelloUnique(s.script.greeting[2..], s.script.credentials + (s.script.order + s.rb.contents), methods, login + later);
    LoginBehind(s.hello.selected, u, p, s.script.order + s.rb.contents, user, pass, later);
    OrderUnique(s, m, surplus);
  }

  lemma AnsweringHeard(s: Session)
    requires Spoken(s) && Answering(s.state)
    ensures Greeted(s.hello, s.script.greeting) && LoggedIn(s.hello.selected, s.auth, s.authStatus, s.script.credentials)
    ensures Ordered(s.request, s.script.order)
    ensures s.script.heard == s.script.greeting + (s.script.credentials + (s.script.order + s.rb.contents))
  {
    hide Greeted, LoggedIn, Ordered, Telling;
    var t := s.script;
    assert t.heard == t.greeting + t.credentials + t.order + [] + s.rb.contents;
    assert t.heard == t.greeting + (t.credentials + (t.order + s.rb.contents));
  }

  lemma OrderedWire(s: Session) returns (m: R.Message)
    requires Ordered(s.request, s.script.order)
    ensures R.WellFormed(m) && s.request == R.Decoded(m) && s.script.order == R.Encode(m)
  {
    m := R.AsMessage(s.request, s.script.order);
  }

  lemma OrderUnique(s: Session, m: R.Message, surplus: seq<byte>)
    requires Ordered(s.request, s.script.order) && R.WellFormed(m)
    requires s.script.order + s.rb.contents == R.Encode(m) + surplus
    ensures s.request == R.Decoded(m)
  {
    var m' := OrderedWire(s);
    R.RequestDecoded(m', s.rb.contents);
    R.RequestDecoded(m, surplus);
    hide R.Parse, R.Encode;
  }

  /** The number of addresses a resolver thread found is what its session will go by, from the first. */
  lemma ResolverStores(ws: seq<World>, acts: seq<Action>, k: nat, t: Thread, n: nat)
    requires Run(ws, acts) && k < |acts| && acts[k] == ThreadResolves(t, n)
    ensures t.id < |ws[k].conns| && Waits(ws[k].conns[t.id]) && |ws[k + 1].conns| == |ws[k].conns|
    ensures var s, s' := ws[k].conns[t.id].s, ws[k + 1].conns[t.id].s;
            s' == s.(resolution := Resolution(n, 0, 0))
    ensures forall i :: 0 <= i < |ws[k].conns| && i != t.id ==> ws[k + 1].conns[i] == ws[k].conns[i]
  {
    var w := ws[k];
    assert Enabled(w, acts[k]) && ws[k + 1] == Effect(w, acts[k]);
    assert InRun(ws, acts, k);
    Reachable(ws, acts, k);
    hide Apart, Table, ItemsOk, Accounted, Owning, InterestsFit;
    assert ThreadOk(w.conns, t);
    assert ConnOk(w, t.id);
  }

  /** How many attempts there will be: a resolver that found no address still leaves one. */
  function ToTry(found: nat): nat { if found == 0 then 1 else found }

  lemma ResolvedLeads(c: Context, a: Answers)
    requires Good(c) && c.s.state.RequestResolv? && c.anomalies == {} && R.Snug(c.s.request)
    ensures var n := OnResolved(c, a);
            n.c.honest ==> Tried(c, Concluded(n), a, ToTry(c.s.resolution.addresses), c.s.request)
  {
    var c1 := if c.s.resolution.addresses == 0 then WithStatus(c, R.GENERAL_FAILURE) else c;
    assert CanConnect(c1);
    assert Untried(c1.s.resolution) == ToTry(c.s.resolution.addresses);
    hide Good, CanConnect, RequestConnect, Concluded, R.Snug, AllRefused, RepliesWith, Awaits, Over;
    if OnResolved(c, a).c.honest {
      ConnectTried(c1, a, ToTry(c.s.resolution.addresses));
    }
  }

  /**
   * Once the resolver's job is taken off the list, there are as many attempts as it
   * found addresses, or one, until one is pending.
   */
  lemma ResolverAnswered(
    ws: seq<World>, acts: seq<Action>, k: nat, id: nat, a: Answers,
    methods: seq<byte>, user: seq<byte>, pass: seq<byte>, m: R.Message, surplus: seq<byte>)
    requires Serving(ws, acts, k, id) && ws[k].conns[id].s.state.RequestResolv?
    requires R.WellFormed(m)
    requires Brings(Received(ws, acts, id, k, CLIENT), ws[k].conns[id].s.hello.selected, methods, user, pass,
                    R.Encode(m) + surplus)
    ensures var c := ContextOf(ws[k], id);
            var c' := Dispatch(c, c.s.clientFd, Stm.BlockReady, a);
            c'.honest ==> Tried(c, c', a, ToTry(c.s.resolution.addresses), R.Decoded(m))
  {
    var c := ContextOf(ws[k], id);
    AnsweringKnows(ws, acts, k, id, methods, user, pass, m, surplus);
    assert c.s.state.RequestResolv?;
    hide *;
    ResolvCalled(c, a);
    ConcludedSame(OnResolved(c, a));
    ResolvedLeads(c, a);
  }

  /** The client is told the outcome, and the origin is watched for nothing meanwhile. */
  ghost predicate Reported(c: Context, c': Context, e: R.Errno, q: R.Request) {
    && Awaits(c', RequestWrite, WRITE) && RepliesWith(c'.s.wb.contents, e, q) && c'.s.script.told == c.s.script.told
    && (c'.s.connected <==> e == R.NoError) && c'.s.originFd == c.s.originFd && Wants(c', c.s.originFd, NOOP)
    && c'.threads == c.threads && c'.open == c.open
  }

  lemma ReportReports(c: Context, c1: Context, e: R.Errno)
    requires ReadyOrigin(c, c.s.originFd) && R.Snug(c.s.request) && c.s.wb.capacity >= 262
    requires c1 == c.(s := c.s.(status := c1.s.status, connected := c1.s.connected), metrics := c1.metrics)
    requires c1.s.status == R.ErrnoToSocks(e) && (c1.s.connected <==> e == R.NoError)
    ensures Reported(c, Concluded(ReportConnection(c1, c.s.originFd)), e, c.s.request)
  {
    CodesTell(e, c.s.request);
    R.SnugReplyFits(c.s.request, c1.s.status);
    hide R.Reply, RepliesWith, R.ErrnoToSocks, R.Snug;
    var reply := R.Reply(c1.s.status, c.s.request);
    var c2 := Append(c1, reply);
    assert [] + reply == reply;
    SetInterestKeeps(c2, c.s.clientFd, WRITE);
    SetInterestKeeps(SetInterestOf(c2, c.s.clientFd, WRITE).0, c.s.originFd, NOOP);
    hide SetInterestOf, Owns, Frame;
  }

  /** What SO_ERROR leads to: further attempts after a failure, while addresses are left, or else the report. */
  ghost predicate Ensues(c: Context, c': Context, a: Answers, q: R.Request) {
    var left := c.s.resolution.addresses - c.s.resolution.current - 1;
    if a.soError.Known? && a.soError.error != R.NoError && left > 0 then Tried(c, c', a, left, q)
    else
      c.s.wb.capacity >= 262 ==> Reported(c, c', if a.soError.Known? then a.soError.error else R.OtherError, q)
  }

  /** A failure with addresses left: the next ones are tried. */
  lemma FailureLeads(c: Context, a: Answers)
    requires ReadyOrigin(c, c.s.originFd) && R.Snug(c.s.request)
    requires a.soError.Known? && a.soError.error != R.NoError && HasNext(c.s.resolution)
    ensures var n := OnConnecting(c, c.s.originFd, a);
            n.c.honest ==>
              Tried(c, Concluded(n), a, c.s.resolution.addresses - c.s.resolution.current - 1, c.s.request)
  {
    var n, c1 := OnConnecting(c, c.s.originFd, a), Advance(WithStatus(c, R.ErrnoToSocks(a.soError.error)));
    assert CanConnect(c1);
    assert n == RequestConnect(c1, a, 0);
    hide Good, CanConnect, RequestConnect, OnConnecting, Concluded, R.Snug, AllRefused, RepliesWith, Awaits, Over;
    if n.c.honest {
      ConnectTried(c1, a, c.s.resolution.addresses - c.s.resolution.current - 1);
    }
  }

  /** Anything else is reported. */
  lemma OutcomeLeads(c: Context, a: Answers)
    requires ReadyOrigin(c, c.s.originFd) && R.Snug(c.s.request) && c.s.wb.capacity >= 262
    requires a.soError.Known? && a.soError.error != R.NoError ==> !HasNext(c.s.resolution)
    ensures Reported(c, Concluded(OnConnecting(c, c.s.originFd, a)),
                     if a.soError.Known? then a.soError.error else R.OtherError, c.s.request)
  {
    assert !c.s.connected;
    hide RequestConnect, ReportConnection, Reported, Concluded, R.Snug, ReadyOrigin;
    if a.soError.Known? && a.soError.error == R.NoError {
      ReportReports(c, OnConnected(c, c.s.originFd), R.NoError);
    } else if a.soError.Known? {
      ReportReports(c, WithStatus(c, R.ErrnoToSocks(a.soError.error)), a.soError.error);
    } else {
      ReportReports(c, WithStatus(c, R.GENERAL_FAILURE), R.OtherError);
    }
  }

  lemma ConnectingLeads(c: Context, a: Answers)
    requires ReadyOrigin(c, c.s.originFd) && R.Snug(c.s.request)
    ensures var n := OnConnecting(c, c.s.originFd, a);
            n.c.honest ==> Ensues(c, Concluded(n), a, c.s.request)
  {
    assert HasNext(c.s.resolution) <==> c.s.resolution.addresses - c.s.resolution.current - 1 > 0;
    hide OnConnecting, Concluded, Tried, Reported, HasNext, ReadyOrigin, R.Snug;
    if a.soError.Known? && a.soError.error != R.NoError && HasNext(c.s.resolution) {
      FailureLeads(c, a);
    } else if c.s.wb.capacity >= 262 {
      OutcomeLeads(c, a);
    }
  }

  /**
   * What SO_ERROR says of a pending connection decides. A failure with addresses
   * left leads to the next attempt; anything else is reported, once, and the
   * session counts as connected exactly if there was no error.
   */
  lemma ConnectionAnswered(
    ws: seq<World>, acts: seq<Action>, k: nat, id: nat, a: Answers,
    methods: seq<byte>, user: seq<byte>, pass: seq<byte>, m: R.Message, surplus: seq<byte>)
    requires Serving(ws, acts, k, id) && ws[k].conns[id].s.state.RequestConnecting?
    requires R.WellFormed(m)
    requires Brings(Received(ws, acts, id, k, CLIENT), ws[k].conns[id].s.hello.selected, methods, user, pass,
                    R.Encode(m) + surplus)
    ensures var c := ContextOf(ws[k], id);
            var c' := Dispatch(c, c.s.originFd, Stm.WriteReady, a);
            c'.honest ==> Ensues(c, c', a, R.Decoded(m))
  {
    var c := ContextOf(ws[k], id);
    AnsweringKnows(ws, acts, k, id, methods, user, pass, m, surplus);
    assert c.s.state.RequestConnecting?;
    hide *;
    ConnectionLeads(c, a);
  }

  lemma ConnectionLeads(c: Context, a: Answers)
    requires Good(c) && c.s.state.RequestConnecting? && c.anomalies == {} && c.honest && R.Snug(c.s.request)
    ensures var c' := Dispatch(c, c.s.originFd, Stm.WriteReady, a);
            c'.honest ==> Ensues(c, c', a, c.s.request)
  {
    hide *;
    ConnectingCalled(c, a);
    ConcludedSame(OnConnecting(c, c.s.originFd, a));
    ConnectingLeads(c, a);
  }

  lemma ConnectingCalled(c: Context, a: Answers)
    requires Good(c) && c.s.state.RequestConnecting? && c.anomalies == {} && c.honest
    ensures ReadyOrigin(c, c.s.originFd)
    ensures Dispatch(c, c.s.originFd, Stm.WriteReady, a) == Concluded(OnConnecting(c, c.s.originFd, a))
  {
    assert Stm.Handles(Definition(c.s.state), Stm.WriteReady);
    hide *;
    HandledBy(c, c.s.originFd, Stm.WriteReady, a);
    ConnectingNext(c, a);
    OriginReady(c);
  }

  lemma OriginReady(c: Context)
    requires Good(c) && c.s.state.RequestConnecting? && c.anomalies == {} && c.honest
    ensures ReadyOrigin(c, c.s.originFd)
  {
    hide Good;
  }

  lemma ConnectingNext(c: Context, a: Answers)
    requires c.s.state.RequestConnecting?
    ensures Callback(c, c.s.originFd, Stm.WriteReady, a) == OnConnecting(c, c.s.originFd, a)
  {
    hide OnConnecting;
  }

  lemma ResolvCalled(c: Context, a: Answers)
    requires c.s.state.RequestResolv?
    ensures Dispatch(c, c.s.clientFd, Stm.BlockReady, a) == Concluded(OnResolved(c, a))
  {
    HandledBy(c, c.s.clientFd, Stm.BlockReady, a);
    hide OnResolved, Dispatch, Concluded;
  }

  /** What is known of a session whose request is known. */
  lemma AnsweringKnows(
    ws: seq<World>, acts: seq<Action>, k: nat, id: nat,
    methods: seq<byte>, user: seq<byte>, pass: seq<byte>, m: R.Message, surplus: seq<byte>)
    requires Serving(ws, acts, k, id) && Answering(ws[k].conns[id].s.state)
    requires R.WellFormed(m)
    requires Brings(Received(ws, acts, id, k, CLIENT), ws[k].conns[id].s.hello.selected, methods, user, pass,
                    R.Encode(m) + surplus)
    ensures var c := ContextOf(ws[k], id);
            Good(c) && Spoken(c.s) && c.anomalies == {} && c.honest && c.s.request == R.Decoded(m) && R.Snug(c.s.request)
  {
    hide Serving, Good, Spoken, Parsing, Received, R.Snug, R.WellFormed, R.Encode, Login;
    ServingKnows(ws, acts, k, id);
    RequestRemembered(ws, acts, k, id, methods, user, pass, m, surplus);
    DecodedSnug(m);
  }

  lemma RequestOut(c: Context, n: int)
    requires Good(c) && c.s.state.RequestWrite? && n <= |c.s.wb.contents|
    ensures var next := OnRequestWrite(c, n);
            && next.c.s.live && next.c.s.state == c.s.state && next.c.s.clientFd == c.s.clientFd
            && next.c.s.originFd == c.s.originFd
            && (n < 0 ==> next == Next(c, Error))
            && (n >= 0 ==> Sent(c.s, next.c.s, n))
            && (0 <= n < |c.s.wb.contents| ==> next.st.RequestWrite? && Wants(next.c, c.s.clientFd, WRITE))
            && (n == |c.s.wb.contents| ==>
                  if c.s.connected then
                    next.st.Copy? && Wants(next.c, c.s.clientFd, READ) && Wants(next.c, c.s.originFd, READ)
                  else next.st.Done?)
  {
    if n >= 0 {
      SendSends(c, n);
      if c.s.connected {
        RelayWatched(Send(c, n));
      } else {
        SetInterestKeeps(Send(c, n), c.s.clientFd, NOOP);
      }
    }
    hide Send, SetInterestOf, Sent, Owns, Frame, Fifo.CanRead;
  }

  /** A session counts as connected exactly if what it tells its client ends with a successful reply. */
  lemma ReplyOwed(s: Session, m: R.Message)
    requires Spoken(s) && s.state.RequestWrite? && s.request == R.Decoded(m)
    ensures s.status == R.SUCCEEDED <==> s.script.told + s.wb.contents == Opening(s.hello.selected, m)
  {
    hide Admitted, Ordered, Hearing;
    OpeningIs(s.hello.selected, m);
    var said, code := Preamble(s.hello.selected), s.status;
    assert (said + R.Reply(code, s.request))[|said| + 1] == code;
    assert (said + R.Reply(R.SUCCEEDED, s.request))[|said| + 1] == R.SUCCEEDED;
    assert |said + R.Reply(R.SUCCEEDED, s.request)| > |said|;
  }

  lemma ReplyGoesOut(c: Context, a: Answers)
    requires Good(c) && c.s.state.RequestWrite? && a.sent <= |c.s.wb.contents|
    ensures var c' := Dispatch(c, c.s.clientFd, Stm.WriteReady, a);
            && Partly(c, c', a)
            && (a.sent == |c.s.wb.contents| ==>
                  && Wholly(c, c')
                  && if c.s.connected then
                       Awaits(c', Copy, READ) && c'.s.originFd == c.s.originFd && Wants(c', c.s.originFd, READ)
                     else Over(c'))
  {
    RequestOut(c, a.sent);
    StatesHandle(c);
    var n := OnRequestWrite(c, a.sent);
    assert Callback(c, c.s.clientFd, Stm.WriteReady, a) == n;
    hide Good, Callback, Dispatch, OnRequestWrite, Over;
    WriteOut(c, n, a);
  }

  /**
   * The reply to the request goes out, in as many pieces as send takes. If it was
   * the one that reports success, the relay begins, watched for reading on both
   * sides; otherwise the session is over.
   */
  lemma ReplySent(
    ws: seq<World>, acts: seq<Action>, k: nat, id: nat, a: Answers,
    methods: seq<byte>, user: seq<byte>, pass: seq<byte>, m: R.Message, surplus: seq<byte>)
    requires Serving(ws, acts, k, id) && ws[k].conns[id].s.state.RequestWrite? && a.sent <= |ws[k].conns[id].s.wb.contents|
    requires R.WellFormed(m)
    requires Brings(Received(ws, acts, id, k, CLIENT), ws[k].conns[id].s.hello.selected, methods, user, pass,
                    R.Encode(m) + surplus)
    ensures var c := ContextOf(ws[k], id);
            var c' := Dispatch(c, c.s.clientFd, Stm.WriteReady, a);
            && Partly(c, c', a)
            && (a.sent == |c.s.wb.contents| ==>
                  && Wholly(c, c')
                  && if c.s.script.told + c.s.wb.contents == Opening(c.s.hello.selected, m) then
                       Awaits(c', Copy, READ) && c'.s.originFd == c.s.originFd && Wants(c', c.s.originFd, READ)
                     else Over(c'))
  {
    var c := ContextOf(ws[k], id);
    AnsweringKnows(ws, acts, k, id, methods, user, pass, m, surplus);
    ReplyOwed(c.s, m);
    assert c.s.connected <==> c.s.status == R.SUCCEEDED;
    hide *;
    ReplyGoesOut(c, a);
  }

  // ----- the relay

  /** The relay goes on, each side watched for reading iff its buffer has room and for writing iff the other holds octets. */
  ghost predicate StillRelays(c: Context, c': Context, rb: seq<byte>, wb: seq<byte>) {
    && c'.s.live && c'.s.state.Copy? && c'.s.rb.contents == rb && c'.s.wb.contents == wb
    && Wants(c', c.s.clientFd, Interest(Fifo.Room(c'.s.rb) > 0, wb != []))
    && Wants(c', c.s.originFd, Interest(Fifo.Room(c'.s.wb) > 0, rb != []))
  }

  lemma SettledRelays(c: Context, c1: Context, isClient: bool)
    requires Good(c) && c.s.state.Copy?
    requires c1 == c.(s := c.s.(rb := c1.s.rb, wb := c1.s.wb, relay := c1.s.relay, script := c1.s.script),
                      metrics := c1.metrics, honest := c1.honest)
    ensures StillRelays(c, Concluded(Settle(c1, isClient, Copy)), c1.s.rb.contents, c1.s.wb.contents)
  {
    hide Settle, RelayFits;
    SettleKeeps(c1, isClient, Copy);
    hide Owns, Frame;
  }

  /** The window after an event that moved octets. */
  lemma Windows(c: Context, octets: seq<byte>, n: nat)
    ensures ReceiveFromClient(c, octets).s.rb.contents == c.s.rb.contents + octets
    ensures ReceiveFromOrigin(c, octets).s.wb.contents == c.s.wb.contents + octets
    ensures n <= |c.s.wb.contents| ==> SendToClient(c, n).s.wb.contents == c.s.wb.contents[n..]
    ensures n <= |c.s.rb.contents| ==> SendToOrigin(c, n).s.rb.contents == c.s.rb.contents[n..]
    ensures ReceiveFromClient(c, octets).s.wb == SendToOrigin(c, n).s.wb == c.s.wb
    ensures ReceiveFromOrigin(c, octets).s.rb == SendToClient(c, n).s.rb == c.s.rb
  {
  }

  /** Octets that recv delivers join the queue for the other side, and the relay goes on. */
  lemma RelayReads(ws: seq<World>, acts: seq<Action>, k: nat, id: nat, a: Answers)
    requires Serving(ws, acts, k, id) && ws[k].conns[id].s.state.Copy? && a.recv.Got?
    ensures var c := ContextOf(ws[k], id);
            && StillRelays(c, Dispatch(c, c.s.clientFd, Stm.ReadReady, a), c.s.rb.contents + a.recv.octets, c.s.wb.contents)
            && StillRelays(c, Dispatch(c, c.s.originFd, Stm.ReadReady, a), c.s.rb.contents, c.s.wb.contents + a.recv.octets)
  {
    ServingKnows(ws, acts, k, id);
    hide *;
    RelayTakesIn(ContextOf(ws[k], id), a);
  }

  lemma RelayTakesIn(c: Context, a: Answers)
    requires Good(c) && c.s.state.Copy? && a.recv.Got?
    ensures StillRelays(c, Dispatch(c, c.s.clientFd, Stm.ReadReady, a), c.s.rb.contents + a.recv.octets, c.s.wb.contents)
    ensures StillRelays(c, Dispatch(c, c.s.originFd, Stm.ReadReady, a), c.s.rb.contents, c.s.wb.contents + a.recv.octets)
  {
    var c0 := c.(s := Stir(c.s));
    Windows(c0, a.recv.octets, 0);
    assert c.s.clientFd != c.s.originFd;
    RelayCalled(c, c.s.clientFd, Stm.ReadReady, a);
    RelayCalled(c, c.s.originFd, Stm.ReadReady, a);
    ReceivedShape(c0, a.recv.octets);
    hide Good, Dispatch, Settle, Concluded, ReceiveFromClient, ReceiveFromOrigin, StillRelays;
    SettledRelays(c, ReceiveFromClient(c0, a.recv.octets), true);
    SettledRelays(c, ReceiveFromOrigin(c0, a.recv.octets), false);
  }

  lemma ReceivedShape(c: Context, octets: seq<byte>)
    ensures var c1 := ReceiveFromClient(c, octets);
            c1 == c.(s := c.s.(rb := c1.s.rb, wb := c1.s.wb, relay := c1.s.relay, script := c1.s.script),
                     metrics := c1.metrics, honest := c1.honest)
    ensures var c1 := ReceiveFromOrigin(c, octets);
            c1 == c.(s := c.s.(rb := c1.s.rb, wb := c1.s.wb, relay := c1.s.relay, script := c1.s.script),
                     metrics := c1.metrics, honest := c1.honest)
  {
  }

  lemma SentShape(c: Context, n: nat)
    ensures var c1 := SendToClient(c, n);
            c1 == c.(s := c.s.(rb := c1.s.rb, wb := c1.s.wb, relay := c1.s.relay, script := c1.s.script),
                     metrics := c1.metrics, honest := c1.honest)
    ensures var c1 := SendToOrigin(c, n);
            c1 == c.(s := c.s.(rb := c1.s.rb, wb := c1.s.wb, relay := c1.s.relay, script := c1.s.script),
                     metrics := c1.metrics, honest := c1.honest)
  {
  }

  /** The callback of the relay, and what the wrapper makes of it. */
  lemma RelayCalled(c: Context, key: int, e: Stm.Event, a: Answers)
    requires c.s.state.Copy? && !e.BlockReady?
    ensures Dispatch(c, key, e, a)
         == Concluded(if e.ReadReady? then OnCopyRead(c, key, a.recv) else OnCopyWrite(c, key, a.sent))
  {
    HandledBy(c, key, e, a);
    hide *;
    CopyCalled(c, key, e, a);
  }

  lemma CopyCalled(c: Context, key: int, e: Stm.Event, a: Answers)
    requires c.s.state.Copy?
    ensures Callback(c, key, e, a) == if e.ReadReady? then OnCopyRead(c, key, a.recv) else OnCopyWrite(c, key, a.sent)
  {
    hide OnCopyRead, OnCopyWrite;
  }

  /** What send takes leaves its queue, and the relay goes on. */
  lemma RelayWrites(ws: seq<World>, acts: seq<Action>, k: nat, id: nat, a: Answers)
    requires Serving(ws, acts, k, id) && ws[k].conns[id].s.state.Copy? && a.sent >= 0
    ensures var c := ContextOf(ws[k], id);
            && (a.sent <= |c.s.wb.contents| ==>
                  StillRelays(c, Dispatch(c, c.s.clientFd, Stm.WriteReady, a), c.s.rb.contents, c.s.wb.contents[a.sent..]))
            && (a.sent <= |c.s.rb.contents| ==>
                  StillRelays(c, Dispatch(c, c.s.originFd, Stm.WriteReady, a), c.s.rb.contents[a.sent..], c.s.wb.contents))
  {
    ServingKnows(ws, acts, k, id);
    hide *;
    RelaySendsOn(ContextOf(ws[k], id), a);
  }

  lemma RelaySendsOn(c: Context, a: Answers)
    requires Good(c) && c.s.state.Copy? && a.sent >= 0
    ensures a.sent <= |c.s.wb.contents| ==>
              StillRelays(c, Dispatch(c, c.s.clientFd, Stm.WriteReady, a), c.s.rb.contents, c.s.wb.contents[a.sent..])
    ensures a.sent <= |c.s.rb.contents| ==>
              StillRelays(c, Dispatch(c, c.s.originFd, Stm.WriteReady, a), c.s.rb.contents[a.sent..], c.s.wb.contents)
  {
    var c0 := c.(s := Stir(c.s));
    Windows(c0, [], a.sent);
    assert c.s.clientFd != c.s.originFd;
    RelayCalled(c, c.s.clientFd, Stm.WriteReady, a);
    RelayCalled(c, c.s.originFd, Stm.WriteReady, a);
    SentShape(c0, a.sent);
    hide Good, Dispatch, Settle, Concluded, SendToClient, SendToOrigin, StillRelays;
    SettledRelays(c, SendToClient(c0, a.sent), true);
    SettledRelays(c, SendToOrigin(c0, a.sent), false);
  }

  /**
   * The end of either stream, or a failure on either side, ends the session at
   * once: octets that still wait for the other side are not sent, and one
   * connection fewer is counted.
   */
  lemma RelayEnds(ws: seq<World>, acts: seq<Action>, k: nat, id: nat, key: int, a: Answers)
    requires Serving(ws, acts, k, id) && ws[k].conns[id].s.state.Copy?
    requires key == ws[k].conns[id].s.clientFd || key == ws[k].conns[id].s.originFd
    ensures var c := ContextOf(ws[k], id);
            && (!a.recv.Got? ==> Severed(c, Dispatch(c, key, Stm.ReadReady, a)))
            && (a.sent < 0 ==> Severed(c, Dispatch(c, key, Stm.WriteReady, a)))
  {
    var c := ContextOf(ws[k], id);
    assert c.s.state.Copy? && (key == c.s.clientFd || key == c.s.originFd);
    hide *;
    RelayCalled(c, key, Stm.ReadReady, a);
    RelayCalled(c, key, Stm.WriteReady, a);
    EndOfRelay(c, key, a);
  }

  ghost predicate Severed(c: Context, c': Context) {
    && Over(c') && c'.s.ended && c'.metrics.current == c.metrics.current - 1
    && c'.s.script == c.s.script && c'.s.relay.toOrigin == c.s.relay.toOrigin && c'.s.relay.toClient == c.s.relay.toClient
  }

  lemma EndOfRelay(c: Context, key: int, a: Answers)
    requires c.s.state.Copy? && (key == c.s.clientFd || key == c.s.originFd)
    ensures !a.recv.Got? ==> Severed(c, Concluded(OnCopyRead(c, key, a.recv)))
    ensures a.sent < 0 ==> Severed(c, Concluded(OnCopyWrite(c, key, a.sent)))
  {
    var isClient := key == c.s.clientFd;
    var c0 := c.(s := Stir(c.s));
    hide Severed, Settle, Concluded, TearDown;
    if !a.recv.Got? {
      EndSevers(c, c0.(s := ShutRead(c0.s, isClient)), isClient);
    }
    if a.sent < 0 {
      EndSevers(c, c0.(s := ShutWrite(c0.s, isClient)), isClient);
    }
  }

  lemma EndSevers(c: Context, c1: Context, isClient: bool)
    requires c1.s.status == R.CLOSE && c1.metrics == c.metrics && c1.s.script == c.s.script
    requires c1.s.relay.toOrigin == c.s.relay.toOrigin && c1.s.relay.toClient == c.s.relay.toClient && c1.s.state.Copy?
    ensures Severed(c, Concluded(Settle(c1, isClient, Done)))
  {
    hide Settle, TearDown;
  }
}
