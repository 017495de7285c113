/** What every callback of a session keeps. */
module SessionInvariant {
  import opened Bytes
  import opened SelectorModule
  import opened Session
  import Fifo
  import Stm
  import H = HelloParser
  import A = AuthParser
  import R = RequestParser

  // ----- ownership of descriptors

  ghost predicate IsOwn(items: map<int, Item<Kind>>, id: nat, fd: int) {
    fd in items && items[fd].handler.SocksSession? && items[fd].data == id
  }

  /** The client is registered and open, the origin is open and perhaps registered, and nothing else is ours. */
  ghost predicate Owns(items: map<int, Item<Kind>>, open: set<int>, id: nat, client: int, origin: int) {
    && (forall fd :: fd in items ==> 0 <= fd < MAX_SIZE && fd in open)
    && (forall fd :: fd in open ==> 0 <= fd)
    && IsOwn(items, id, client)
    && (origin == -1 || (origin >= 0 && origin in open && origin != client))
    && (origin in items ==> IsOwn(items, id, origin))
    && (forall fd :: IsOwn(items, id, fd) ==> fd == client || fd == origin)
  }

  ghost predicate Owning(c: Context) { Owns(c.items, c.open, c.id, c.s.clientFd, c.s.originFd) }

  // ----- interests by state

  ghost predicate Wants(c: Context, fd: int, i: Interest) { fd in c.items && c.items[fd].interest == i }

  /** The exact interest of both descriptors, state by state. */
  ghost predicate InterestsFit(c: Context) {
    var s := c.s;
    match s.state
    case HelloRead => Wants(c, s.clientFd, READ) && s.originFd == -1
    case HelloWrite => Wants(c, s.clientFd, WRITE) && s.originFd == -1
    case AuthRead => Wants(c, s.clientFd, READ) && s.originFd == -1
    case AuthWrite => Wants(c, s.clientFd, WRITE) && s.originFd == -1
    case RequestRead => Wants(c, s.clientFd, READ) && s.originFd == -1
    case RequestResolv => Wants(c, s.clientFd, NOOP) && s.originFd == -1
    case RequestConnecting => Wants(c, s.clientFd, NOOP) && Wants(c, s.originFd, WRITE)
    case RequestWrite =>
      && Wants(c, s.clientFd, WRITE)
      && (s.originFd in c.items ==> Wants(c, s.originFd, NOOP))
      && (s.connected ==> s.originFd in c.items)
    case Copy =>
      if s.relay.stirred then Wants(c, s.clientFd, CopyClient(s)) && Wants(c, s.originFd, CopyOrigin(s))
      else Wants(c, s.clientFd, READ) && Wants(c, s.originFd, READ)
    case _ => false
  }

  /** During the relay a side reads iff its buffer has room and writes iff the other's is not empty. */
  ghost function CopyClient(s: Session): Interest { Interest(Fifo.CanWrite(s.rb), Fifo.CanRead(s.wb)) }

  ghost function CopyOrigin(s: Session): Interest { Interest(Fifo.CanWrite(s.wb), Fifo.CanRead(s.rb)) }

  // ----- the session's own data

  ghost predicate Early(st: State) {
    st.HelloRead? || st.HelloWrite? || st.AuthRead? || st.AuthWrite? || st.RequestRead?
  }

  /** States in which nothing waits to be sent to the client. */
  ghost predicate Quiet(st: State) {
    st.HelloRead? || st.AuthRead? || st.RequestRead? || st.RequestResolv? || st.RequestConnecting?
  }

  ghost predicate RetriesFit(r: Resolution) {
    && (r.addresses == 0 ==> r.current == 0)
    && (r.addresses > 0 ==> r.current < r.addresses)
    && r.attempts <= r.current + 1
  }

  ghost predicate RelayFits(s: Session) {
    && s.relay.leftUp + s.relay.fromClient == s.relay.toOrigin + s.rb.contents
    && s.relay.leftDown + s.relay.fromOrigin == s.relay.toClient + s.wb.contents
  }

  ghost predicate DataFits(s: Session) {
    && s.live && !s.ended
    && Fifo.Ok(s.rb) && Fifo.Ok(s.wb) && s.rb.capacity == s.wb.capacity
    && (Quiet(s.state) ==> s.wb.contents == [])
    && (s.state.RequestRead? ==> R.Sane(s.request) && !R.IsDone(s.request))
    && (s.state.RequestResolv? || s.state.RequestConnecting? ==> s.request.state.Done?)
    && s.status != R.CLOSE
    && (s.connected <==> s.status == R.SUCCEEDED)
    && (s.connected ==> s.state.RequestWrite? || s.state.Copy?)
    && (Early(s.state) ==> s.resolution == Resolution(0, 0, 0))
    && (s.state.RequestResolv? ==> s.resolution.attempts == 0 && s.resolution.current == 0)
    && RetriesFit(s.resolution)
    && (s.state.Copy? ==>
          && s.connected && RelayFits(s)
          && s.clientCopy == s.originCopy == Interest(true, true))
    && (!s.state.Copy? ==> s.relay == NO_RELAY)
  }

  ghost predicate Good(c: Context) {
    Owning(c) && InterestsFit(c) && DataFits(c.s)
  }

  // ----- what a callback leaves alone

  /**
   * Descriptors that are not the session's stay as they are. The origin may be
   * given up for another one, which was not open (or was the one given up).
   */
  ghost predicate Frame(
    items: map<int, Item<Kind>>, open: set<int>, client: int, origin: int,
    items': map<int, Item<Kind>>, open': set<int>, origin': int)
  {
    && open' - {origin'} == open - {origin} && origin' !in open - {origin}
    && (forall fd :: fd != client && fd != origin' ==>
          (fd in items' <==> fd in items && fd != origin) && (fd in items' ==> items'[fd] == items[fd]))
  }

  ghost predicate Framed(c: Context, c': Context) {
    && c'.id == c.id && c'.s.clientFd == c.s.clientFd && c'.config == c.config
    && Frame(c.items, c.open, c.s.clientFd, c.s.originFd, c'.items, c'.open, c'.s.originFd)
  }

  /** A thread starts exactly on entering REQUEST_RESOLV; the counters follow the history. */
  ghost predicate Counted(c: Context, n: Next) {
    && n.c.threads == c.threads + (if n.st.RequestResolv? then multiset{Thread(c.id, c.s.clientFd)} else multiset{})
    && n.c.s.state == c.s.state && (c.s.connected ==> n.c.s.connected)
    && n.c.metrics.historic == c.metrics.historic + (if n.c.s.connected && !c.s.connected then 1 else 0)
    && n.c.metrics.current == c.metrics.current + (if n.c.s.connected && !c.s.connected then 1 else 0)
    && n.c.metrics.sent + |c.s.relay.fromClient| == c.metrics.sent + |n.c.s.relay.fromClient|
    && n.c.metrics.received + |c.s.relay.toClient| == c.metrics.received + |n.c.s.relay.toClient|
    && (!c.s.state.Copy? ==> n.c.s.relay == c.s.relay)
  }

  /** A session about to be torn down: it is closing exactly when it was relaying. */
  ghost predicate Closing(s: Session) {
    && s.live && !s.ended
    && (s.status == R.CLOSE <==> s.relay.stirred)
    && (s.relay.stirred ==> s.connected && RelayFits(s))
    && RetriesFit(s.resolution)
  }

  ghost predicate Final(st: State) { st.Done? || st.Error? }

  /** What a callback owes: the session stays good, or is ready to be torn down. */
  ghost predicate Kept(c: Context, n: Next) {
    n.c.honest ==>
      && n.c.anomalies <= {ReplyTooBig}
      && (n.c.anomalies == {} ==>
            && Owning(n.c) && Framed(c, n.c) && Counted(c, n)
            && (if Final(n.st) then Closing(n.c.s) && (n.c.s.relay.stirred <==> c.s.state.Copy?)
                else InterestsFit(Jump(n)) && DataFits(Jump(n).s)))
  }

  // ----- small facts about the helpers

  /** A descriptor of the session always takes the interest it is given. */
  lemma SetInterestKeeps(c: Context, fd: int, i: Interest)
    requires Owning(c) && IsOwn(c.items, c.id, fd)
    ensures var items := c.items[fd := c.items[fd].(interest := i)];
            && SetInterestOf(c, fd, i) == (c.(items := items), true)
            && Owns(items, c.open, c.id, c.s.clientFd, c.s.originFd)
            && Frame(c.items, c.open, c.s.clientFd, c.s.originFd, items, c.open, c.s.originFd)
  {
    var items := c.items[fd := c.items[fd].(interest := i)];
    forall g | IsOwn(items, c.id, g)
      ensures IsOwn(c.items, c.id, g)
    {
    }
  }

  lemma SendKeeps(c: Context, n: nat)
    requires Fifo.Ok(c.s.wb)
    ensures var c1 := Send(c, n);
            && c1 == c.(s := c.s.(wb := c1.s.wb, script := c1.s.script), honest := c1.honest) && (c1.honest ==> c.honest)
            && Fifo.Ok(c1.s.wb) && c1.s.wb.capacity == c.s.wb.capacity
  {
  }

  lemma ReceiveKeeps(c: Context, r: Recv, rest: seq<byte>)
    requires Fifo.Ok(c.s.rb) && |rest| <= |Receive(c, r).s.rb.contents|
    ensures var c1 := Receive(c, r);
            var rb := Drop(c1.s.rb, rest);
            && c1 == c.(s := c.s.(rb := c1.s.rb, script := c1.s.script), honest := c1.honest) && (c1.honest ==> c.honest)
            && (c1.honest ==> Fifo.Ok(rb)) && rb.capacity == c.s.rb.capacity
  {
  }

  // ----- hello and auth

  ghost predicate Ready(c: Context, key: int, st: State) {
    Good(c) && c.s.state == st && key == c.s.clientFd && c.anomalies == {} && c.honest
  }

  /**
   * A read event of the early states: octets move through a parser, a reply may be
   * queued, and the client's interest is set.
   */
  ghost predicate Proceeds(c: Context, n: Next, i: Interest) {
    && c.s.clientFd in c.items
    && n.c == c.(s := c.s.(hello := n.c.s.hello, auth := n.c.s.auth, authStatus := n.c.s.authStatus,
                           rb := n.c.s.rb, wb := n.c.s.wb, script := n.c.s.script),
                 items := c.items[c.s.clientFd := c.items[c.s.clientFd].(interest := i)], honest := n.c.honest)
    && (n.c.honest ==> Fifo.Ok(n.c.s.rb)) && Fifo.Ok(n.c.s.wb)
    && n.c.s.rb.capacity == c.s.rb.capacity && n.c.s.wb.capacity == c.s.wb.capacity
    && (n.st.Error? || (if i == READ then n.st == c.s.state && n.c.s.wb == c.s.wb
                        else i == WRITE && (n.st.HelloWrite? || n.st.AuthWrite?)))
  }

  lemma ProceedsKeeps(c: Context, n: Next, i: Interest)
    requires Good(c) && (c.s.state.HelloRead? || c.s.state.AuthRead?) && c.anomalies == {} && Proceeds(c, n, i)
    ensures Kept(c, n)
  {
    SetInterestKeeps(c, c.s.clientFd, i);
    hide SetInterestOf, Owns, Frame;
  }

  lemma GreetingKeeps(c: Context, r: Recv)
    requires Fifo.Ok(c.s.rb)
    ensures var c1 := TakeHello(Receive(c, r));
            (c1.honest ==> Fifo.Ok(c1.s.rb)) && c1.s.rb.capacity == c.s.rb.capacity
  {
    hide H.Parse, Receive, Drop;
    ReceiveKeeps(c, r, H.Parse(c.config.auth, c.s.hello, Receive(c, r).s.rb.contents).1);
  }

  lemma GreetingProceeds(c: Context, key: int, r: Recv)
    requires Ready(c, key, HelloRead) && r.Got?
    ensures Proceeds(c, OnHelloRead(c, key, r), if H.IsDone(TakeHello(Receive(c, r)).s.hello) then WRITE else READ)
  {
    var c1 := TakeHello(Receive(c, r));
    GreetingKeeps(c, r);
    SetInterestKeeps(c1, key, WRITE);
    assert c.items[key := c.items[key].(interest := READ)] == c.items;
    hide TakeHello, Receive, SetInterestOf, H.IsDone, H.IsError, Owns, Frame;
  }

  lemma HelloReadKeeps(c: Context, key: int, r: Recv)
    requires Ready(c, key, HelloRead)
    ensures Kept(c, OnHelloRead(c, key, r))
  {
    if r.Got? {
      GreetingProceeds(c, key, r);
      ProceedsKeeps(c, OnHelloRead(c, key, r), if H.IsDone(TakeHello(Receive(c, r)).s.hello) then WRITE else READ);
    }
    hide OnHelloRead, Proceeds;
  }

  lemma HelloWriteKeeps(c: Context, key: int, n: int)
    requires Ready(c, key, HelloWrite)
    ensures Kept(c, OnHelloWrite(c, key, n))
  {
    hide Send;
    if n >= 0 {
      SendKeeps(c, n);
      SetInterestKeeps(Send(c, n), key, READ);
    }
  }

  lemma CredentialsKeep(c: Context, r: Recv)
    requires Fifo.Ok(c.s.rb)
    ensures var c1 := TakeCredentials(Receive(c, r));
            (c1.honest ==> Fifo.Ok(c1.s.rb)) && c1.s.rb.capacity == c.s.rb.capacity
  {
    hide A.Parse, Receive, Drop;
    ReceiveKeeps(c, r, A.Parse(c.s.auth, Receive(c, r).s.rb.contents).1);
  }

  lemma AnswerKeeps(c: Context, key: int)
    requires Owning(c) && IsOwn(c.items, c.id, key) && Fifo.Ok(c.s.wb) && A.IsDone(c.s.auth)
    ensures var n, items := AnswerCredentials(c, key), c.items[key := c.items[key].(interest := WRITE)];
            && n.c == c.(s := c.s.(authStatus := n.c.s.authStatus, wb := n.c.s.wb), items := items)
            && Fifo.Ok(n.c.s.wb) && n.c.s.wb.capacity == c.s.wb.capacity && (n.st.AuthWrite? || n.st.Error?)
  {
    SetInterestKeeps(c, key, WRITE);
    hide SetInterestOf, CheckUser, Owns, Frame;
  }

  lemma CredentialsProceed(c: Context, key: int, r: Recv)
    requires Ready(c, key, AuthRead) && !r.Failed?
    ensures Proceeds(c, OnAuthRead(c, key, r), if A.IsDone(TakeCredentials(Receive(c, r)).s.auth) then WRITE else READ)
  {
    var c1 := TakeCredentials(Receive(c, r));
    CredentialsKeep(c, r);
    assert c.items[key := c.items[key].(interest := READ)] == c.items;
    if A.IsDone(c1.s.auth) {
      AnswerKeeps(c1, key);
    }
    hide TakeCredentials, Receive, AnswerCredentials, A.IsDone, Owns, Frame;
  }

  lemma AuthReadKeeps(c: Context, key: int, r: Recv)
    requires Ready(c, key, AuthRead)
    ensures Kept(c, OnAuthRead(c, key, r))
  {
    if !r.Failed? {
      CredentialsProceed(c, key, r);
      ProceedsKeeps(c, OnAuthRead(c, key, r), if A.IsDone(TakeCredentials(Receive(c, r)).s.auth) then WRITE else READ);
    }
    hide OnAuthRead, Proceeds;
  }

  lemma AuthWriteKeeps(c: Context, key: int, n: int)
    requires Ready(c, key, AuthWrite)
    ensures Kept(c, OnAuthWrite(c, key, n))
  {
    hide Send;
    if n >= 0 {
      SendKeeps(c, n);
      SetInterestKeeps(Send(c, n), key, READ);
    }
  }

  // ----- request

  /** The session while request_connect works on it, whichever state called it. */
  ghost predicate Connectable(c: Context) {
    && Owning(c) && c.s.live && !c.s.ended && !c.s.connected
    && Fifo.Ok(c.s.rb) && Fifo.Ok(c.s.wb) && c.s.rb.capacity == c.s.wb.capacity && c.s.wb.contents == []
    && c.s.status != R.CLOSE && c.s.status != R.SUCCEEDED && c.s.relay == NO_RELAY
    && c.s.request.state.Done?
    && RetriesFit(c.s.resolution)
    && (c.s.state.RequestRead? || c.s.state.RequestResolv? || c.s.state.RequestConnecting?)
    && c.anomalies == {}
  }

  /** On entry, the current address has not been tried. */
  ghost predicate CanConnect(c: Context) {
    Connectable(c) && c.s.resolution.attempts <= c.s.resolution.current
  }

  ghost predicate SameBooks(c: Context, c': Context) {
    && c'.threads == c.threads && c'.metrics == c.metrics
    && c'.s.connected == c.s.connected && c'.s.relay == c.s.relay && c'.s.state == c.s.state
  }

  lemma KeptJoins(c: Context, c1: Context, n: Next)
    requires Owning(c) && Owning(c1) && Framed(c, c1) && SameBooks(c, c1) && Kept(c1, n)
    ensures Kept(c, n)
  {
    if n.c.honest && n.c.anomalies == {} {
      FrameJoins(c, c1, n.c);
    }
  }

  /** Giving up one origin socket and opening another. */
  lemma NewOrigin(c: Context, k: Socket)
    requires Owning(c)
    ensures var c' := OpenOrigin(DropOrigin(c), k);
            && (c'.honest ==> Owning(c') && Framed(c, c') && (k.fd != -1 ==> c'.s.originFd !in c'.items))
            && c'.s.originFd == k.fd && (c'.honest ==> c.honest)
            && c'.s.resolution == c.s.resolution.(attempts := c.s.resolution.attempts + 1)
  {
    var c' := OpenOrigin(DropOrigin(c), k);
    if c'.honest {
      assert c'.open - {k.fd} == c.open - {c.s.originFd};
    }
    forall g | IsOwn(c'.items, c.id, g)
      ensures IsOwn(c.items, c.id, g)
    {
    }
  }

  lemma FrameJoins(c: Context, c1: Context, c2: Context)
    requires Owning(c) && Owning(c1) && Framed(c, c1) && Framed(c1, c2)
    ensures Framed(c, c2)
  {
  }

  lemma RegisterKeeps(c: Context)
    requires Owning(c) && c.s.originFd != -1 && c.s.originFd !in c.items
    ensures var (c', ok) := RegisterOrigin(c, c.s.originFd);
            var items := c.items[c.s.originFd := Item(WRITE, SocksSession, c.id)];
            && c' == c.(items := if ok then items else c.items)
            && Owning(c') && Framed(c, c')
  {
    var c' := RegisterOrigin(c, c.s.originFd).0;
    forall g | IsOwn(c'.items, c.id, g)
      ensures IsOwn(c.items, c.id, g) || g == c.s.originFd
    {
    }
  }

  lemma PendingKeeps(c: Context)
    requires Connectable(c) && c.s.originFd != -1 && c.s.originFd !in c.items
    ensures Kept(c, OnConnectPending(c))
  {
    RegisterKeeps(c);
    var (c1, ok) := RegisterOrigin(c, c.s.originFd);
    if ok {
      SetInterestKeeps(c1, c1.s.clientFd, NOOP);
      FrameJoins(c, c1, SetInterestOf(c1, c1.s.clientFd, NOOP).0);
    }
  }

  lemma RefusedKeeps(c: Context)
    requires Connectable(c) && c.s.originFd !in c.items
    ensures Kept(c, OnConnectRefused(c))
  {
    hide R.Reply;
    var reply := R.Reply(c.s.status, c.s.request);
    var c1 := if Fifo.Room(c.s.wb) >= |reply| then Append(c, reply) else c;
    SetInterestKeeps(c1, c.s.clientFd, WRITE);
  }

  /** A failed attempt leaves a session that can go on to the next address. */
  lemma AttemptKeeps(c: Context, k: Socket)
    requires CanConnect(c) && OpenOrigin(DropOrigin(c), k).honest
    ensures var c1 := OpenOrigin(DropOrigin(c), k);
            && c1.s.resolution == c.s.resolution.(attempts := c.s.resolution.attempts + 1)
            && Connectable(c1) && Framed(c, c1) && SameBooks(c, c1)
            && (k.fd != -1 ==> k.fd !in c1.items && c1.s.originFd == k.fd)
  {
    NewOrigin(c, k);
  }

  /** Doubts about the operating system are never taken back. */
  lemma {:induction false} ConnectDoubts(c: Context, a: Answers, k: nat)
    ensures RequestConnect(c, a, k).c.honest ==>
              var socket := SocketAt(a, k);
              && OpenOrigin(DropOrigin(c), socket).honest && c.honest
              && (socket.fd != -1 && socket.nonBlocking && socket.connect.Refused? ==> socket.connect.error != R.NoError)
    decreases c.s.resolution.addresses - c.s.resolution.current
  {
    var socket := SocketAt(a, k);
    var c1 := OpenOrigin(DropOrigin(c), socket);
    if socket.fd != -1 && socket.nonBlocking && socket.connect.Refused? {
      var e := socket.connect.error;
      var c2 := WithStatus(Doubt(c1, e != R.NoError), R.ErrnoToSocks(e));
      if HasNext(c2.s.resolution) {
        ConnectDoubts(Advance(c2), a, k + 1);
      }
    }
  }

  lemma {:induction false} RequestConnectKeeps(c: Context, a: Answers, k: nat)
    requires CanConnect(c)
    ensures Kept(c, RequestConnect(c, a, k))
    decreases c.s.resolution.addresses - c.s.resolution.current
  {
    hide R.Reply, DropOrigin, OpenOrigin, OnConnectPending, OnConnectRefused, Kept;
    var socket := SocketAt(a, k);
    var c1 := OpenOrigin(DropOrigin(c), socket);
    ConnectDoubts(c, a, k);
    if !RequestConnect(c, a, k).c.honest {
      KeptInDoubt(c, RequestConnect(c, a, k));
    } else {
      AttemptKeeps(c, socket);
      if socket.fd == -1 || !socket.nonBlocking || socket.connect.Connected? {
        AbandonKeeps(c, c1);
      } else if socket.connect.InProgress? {
        PendingKeeps(c1);
        KeptJoins(c, c1, OnConnectPending(c1));
      } else {
        var e := socket.connect.error;
        var c2 := WithStatus(Doubt(c1, e != R.NoError), R.ErrnoToSocks(e));
        if HasNext(c2.s.resolution) {
          RequestConnectKeeps(Advance(c2), a, k + 1);
          KeptJoins(c, Advance(c2), RequestConnect(Advance(c2), a, k + 1));
        } else {
          RefusedKeeps(c2);
          KeptJoins(c, c2, OnConnectRefused(c2));
        }
      }
    }
  }

  lemma KeptInDoubt(c: Context, n: Next)
    requires !n.c.honest
    ensures Kept(c, n)
  {
  }

  /** Giving up with an error after a socket was opened. */
  lemma AbandonKeeps(c: Context, c1: Context)
    requires Connectable(c1) && Framed(c, c1) && SameBooks(c, c1)
    ensures Kept(c, Next(c1, Error))
  {
  }

  lemma DeclineKeeps(c: Context, key: int, status: byte)
    requires Ready(c.(s := c.s.(request := R.START)), key, RequestRead)
    requires status != R.CLOSE && status != R.SUCCEEDED
    ensures Kept(c, Decline(c, key, status))
  {
    SetInterestKeeps(WithStatus(c, status), key, WRITE);
  }

  lemma SpawnKeeps(c: Context, key: int)
    requires Ready(c.(s := c.s.(request := R.START)), key, RequestRead) && c.s.request.state.Done?
    ensures Kept(c, Next(SetInterestOf(Spawn(c, key), key, NOOP).0, RequestResolv))
  {
    SetInterestKeeps(Spawn(c, key), key, NOOP);
  }

  /** The request the parser has just finished with. */
  lemma RequestProcessKeeps(c: Context, key: int, a: Answers)
    requires Ready(c.(s := c.s.(request := R.START)), key, RequestRead)
    requires R.Sane(c.s.request) && R.IsDone(c.s.request)
    ensures var n := RequestProcess(c, key, a);
            Kept(c, if R.IsError(c.s.request) then n.(st := Error) else n)
  {
    var q := c.s.request;
    hide RequestConnect, Decline, Kept;
    if q.cmd != R.CONNECT {
      DeclineKeeps(c, key, R.COMMAND_NOT_SUPPORTED);
      FailedDecline(c, key, R.COMMAND_NOT_SUPPORTED);
    } else if q.atyp == R.IPV4 || q.atyp == R.IPV6 {
      RequestConnectKeeps(c, a, 0);
    } else if q.atyp == R.DOMAIN {
      DeclineKeeps(c, key, R.GENERAL_FAILURE);
      SpawnKeeps(c, key);
    } else {
      DeclineKeeps(c, key, R.ADDRESS_TYPE_NOT_SUPPORTED);
      FailedDecline(c, key, R.ADDRESS_TYPE_NOT_SUPPORTED);
    }
  }

  lemma FailedDecline(c: Context, key: int, status: byte)
    requires Ready(c.(s := c.s.(request := R.START)), key, RequestRead)
    requires status != R.CLOSE && status != R.SUCCEEDED
    ensures Kept(c, Decline(c, key, status).(st := Error))
  {
    SetInterestKeeps(WithStatus(c, status), key, WRITE);
  }

  lemma RequestReadKeeps(c: Context, key: int, a: Answers)
    requires Ready(c, key, RequestRead)
    ensures Kept(c, OnRequestRead(c, key, a))
  {
    hide R.Parse, Receive, Drop, RequestProcess;
    if !a.recv.Failed? {
      var c1 := Receive(c, a.recv);
      var (p, rest) := R.Parse(c1.s.request, c1.s.rb.contents);
      var c2 := TakeRequest(c1);
      ReceiveKeeps(c, a.recv, rest);
      R.ParseKeepsSane(c.s.request, c1.s.rb.contents);
      if c2.honest {
        if R.IsDone(p) {
          RequestProcessKeeps(c2, key, a);
          var n := RequestProcess(c2, key, a);
          KeptJoins(c, c2, if R.IsError(p) then n.(st := Error) else n);
        }
      } else {
        ProcessDoubts(c2, key, a);
      }
    }
  }

  lemma ProcessDoubts(c: Context, key: int, a: Answers)
    requires !c.honest
    ensures !RequestProcess(c, key, a).c.honest
  {
    ConnectDoubts(c, a, 0);
  }

  lemma ResolvedKeeps(c: Context, key: int, a: Answers)
    requires Ready(c, key, RequestResolv)
    ensures Kept(c, OnResolved(c, a))
  {
    hide RequestConnect, Kept;
    var c1 := if c.s.resolution.addresses == 0 then WithStatus(c, R.GENERAL_FAILURE) else c;
    RequestConnectKeeps(c1, a, 0);
    KeptJoins(c, c1, RequestConnect(c1, a, 0));
  }

  ghost predicate ReadyOrigin(c: Context, key: int) {
    Good(c) && c.s.state.RequestConnecting? && key == c.s.originFd && c.anomalies == {} && c.honest
  }

  /** The session after the outcome of the connect was noted, before it is reported. */
  ghost predicate CanReport(c: Context, key: int) {
    && Owning(c) && key == c.s.originFd && key in c.items && DataFits(c.s.(state := RequestWrite))
    && c.s.wb.contents == [] && c.anomalies == {} && c.s.relay == NO_RELAY && c.s.state.RequestConnecting?
  }

  lemma ReportKeeps(c: Context, key: int)
    requires CanReport(c, key)
    ensures Kept(c, ReportConnection(c, key))
  {
    hide R.Reply;
    var reply := R.Reply(c.s.status, c.s.request);
    if Fifo.Room(c.s.wb) >= |reply| {
      var c0 := Append(c, reply);
      SetInterestKeeps(c0, c.s.clientFd, WRITE);
      var c1 := SetInterestOf(c0, c.s.clientFd, WRITE).0;
      SetInterestKeeps(c1, key, NOOP);
      FrameJoins(c, c1, SetInterestOf(c1, key, NOOP).0);
    }
  }

  lemma KeptConnected(c: Context, c1: Context, n: Next)
    requires c1.metrics == c.metrics.(historic := c.metrics.historic + 1, current := c.metrics.current + 1)
    requires c1.s.connected && !c.s.connected && c1.threads == c.threads && c1.s.relay == c.s.relay && c1.s.state == c.s.state
    requires Owning(c) && Owning(c1) && Framed(c, c1) && Kept(c1, n)
    ensures Kept(c, n)
  {
    if n.c.honest && n.c.anomalies == {} {
      FrameJoins(c, c1, n.c);
    }
  }

  lemma ConnectingKeeps(c: Context, key: int, a: Answers)
    requires ReadyOrigin(c, key)
    ensures Kept(c, OnConnecting(c, key, a))
  {
    hide RequestConnect, ReportConnection, Kept;
    match a.soError
    case Unknown =>
      var c1 := WithStatus(c, R.GENERAL_FAILURE);
      ReportKeeps(c1, key);
      KeptJoins(c, c1, ReportConnection(c1, key));
    case Known(e) =>
      if e == R.NoError {
        var c1 := OnConnected(c, key);
        ReportKeeps(c1, key);
        KeptConnected(c, c1, ReportConnection(c1, key));
      } else {
        var c1 := WithStatus(c, R.ErrnoToSocks(e));
        if HasNext(c1.s.resolution) {
          RequestConnectKeeps(Advance(c1), a, 0);
          KeptJoins(c, Advance(c1), RequestConnect(Advance(c1), a, 0));
        } else {
          ReportKeeps(c1, key);
          KeptJoins(c, c1, ReportConnection(c1, key));
        }
      }
  }

  /** Both sides are watched for reading when the relay is entered. */
  lemma RelayWatched(c: Context)
    requires Owning(c) && c.s.originFd in c.items
    ensures var c2 := SetInterestOf(SetInterestOf(c, c.s.clientFd, READ).0, c.s.originFd, READ).0;
            && c2 == c.(items := c2.items) && Owns(c2.items, c.open, c.id, c.s.clientFd, c.s.originFd)
            && Frame(c.items, c.open, c.s.clientFd, c.s.originFd, c2.items, c.open, c.s.originFd)
            && Wants(c2, c.s.clientFd, READ) && Wants(c2, c.s.originFd, READ)
  {
    var c1 := SetInterestOf(c, c.s.clientFd, READ).0;
    SetInterestKeeps(c, c.s.clientFd, READ);
    SetInterestKeeps(c1, c.s.originFd, READ);
    FrameJoins(c, c1, SetInterestOf(c1, c.s.originFd, READ).0);
  }

  lemma RequestWriteKeeps(c: Context, key: int, n: int)
    requires Ready(c, key, RequestWrite)
    ensures Kept(c, OnRequestWrite(c, n))
  {
    if n >= 0 {
      var c1 := Send(c, n);
      SendKeeps(c, n);
      hide Send;
      if !Fifo.CanRead(c1.s.wb) {
        if c1.s.status == R.SUCCEEDED {
          RelayWatched(c1);
        } else {
          SetInterestKeeps(c1, c1.s.clientFd, NOOP);
        }
      }
      hide Owns, Frame, SetInterestOf, RelayFits;
    }
  }

  // ----- copy

  ghost predicate Relaying(c: Context, key: int) {
    && Good(c) && c.s.state.Copy? && (key == c.s.clientFd || key == c.s.originFd)
    && c.anomalies == {} && c.honest
  }

  lemma SettleSideKeeps(c: Context, isClient: bool)
    requires Owning(c) && c.s.originFd in c.items
    ensures var c1 := SettleSide(c, isClient);
            && c1 == c.(items := c1.items) && Owning(c1) && Framed(c, c1) && c.s.originFd in c1.items
            && (if isClient then
                  Wants(c1, c.s.clientFd, ClientWants(c.s)) && c1.items[c.s.originFd] == c.items[c.s.originFd]
                else
                  Wants(c1, c.s.originFd, OriginWants(c.s)) && c1.items[c.s.clientFd] == c.items[c.s.clientFd])
  {
    SetInterestKeeps(c, c.s.clientFd, ClientWants(c.s));
    SetInterestKeeps(c, c.s.originFd, OriginWants(c.s));
  }

  /** Recomputing both interests, whatever the masks are. */
  lemma SettleKeeps(c: Context, isClient: bool, st: State)
    requires Owning(c) && c.s.originFd in c.items
    ensures var n := Settle(c, isClient, st);
            && n.c == c.(items := n.c.items) && Owning(n.c) && Framed(c, n.c)
            && Wants(n.c, c.s.clientFd, ClientWants(c.s)) && Wants(n.c, c.s.originFd, OriginWants(c.s))
            && n.st == if (if isClient then c.s.clientCopy else c.s.originCopy) == NOOP then Done else st
  {
    var c1 := SettleSide(c, isClient);
    SettleSideKeeps(c, isClient);
    SettleSideKeeps(c1, !isClient);
    FrameJoins(c, c1, SettleSide(c1, !isClient));
  }

  /** Octets received are appended on both sides of the relay's equation. */
  lemma ReceivedFits(left: seq<byte>, received: seq<byte>, sent: seq<byte>, waiting: seq<byte>, more: seq<byte>)
    requires left + received == sent + waiting
    ensures left + (received + more) == sent + (waiting + more)
  {
    assert left + (received + more) == left + received + more;
    assert sent + (waiting + more) == sent + waiting + more;
  }

  /** Octets sent move from the buffer to what the peer has. */
  lemma SentFits(left: seq<byte>, received: seq<byte>, sent: seq<byte>, waiting: seq<byte>, n: nat)
    requires left + received == sent + waiting && n <= |waiting|
    ensures left + received == (sent + waiting[..n]) + waiting[n..]
  {
    assert waiting == waiting[..n] + waiting[n..];
    assert (sent + waiting[..n]) + waiting[n..] == sent + (waiting[..n] + waiting[n..]);
  }

  /** The relay after octets were moved: everything but the interests is as it should be. */
  ghost predicate Stirred(c: Context, c1: Context) {
    && c1 == c.(s := c.s.(rb := c1.s.rb, wb := c1.s.wb, relay := c1.s.relay, script := c1.s.script),
                metrics := c1.metrics, honest := c1.honest)
    && (c1.honest ==>
          && DataFits(c1.s) && c1.s.relay.stirred
          && c1.metrics.historic == c.metrics.historic && c1.metrics.current == c.metrics.current
          && c1.metrics.sent + |c.s.relay.fromClient| == c.metrics.sent + |c1.s.relay.fromClient|
          && c1.metrics.received + |c.s.relay.toClient| == c.metrics.received + |c1.s.relay.toClient|)
  }

  lemma ReceivedStirs(c: Context, isClient: bool, octets: seq<byte>)
    requires DataFits(c.s) && c.s.state.Copy?
    ensures var c0 := c.(s := Stir(c.s));
            Stirred(c, if isClient then ReceiveFromClient(c0, octets) else ReceiveFromOrigin(c0, octets))
  {
    var relay := c.s.relay;
    if isClient {
      ReceivedFits(relay.leftUp, relay.fromClient, relay.toOrigin, c.s.rb.contents, octets);
    } else {
      ReceivedFits(relay.leftDown, relay.fromOrigin, relay.toClient, c.s.wb.contents, octets);
    }
  }

  lemma SentToClientStirs(c: Context, n: nat)
    requires DataFits(c.s) && c.s.state.Copy?
    ensures Stirred(c, SendToClient(c.(s := Stir(c.s)), n))
  {
    if n <= |c.s.wb.contents| {
      SentFits(c.s.relay.leftDown, c.s.relay.fromOrigin, c.s.relay.toClient, c.s.wb.contents, n);
      assert n == |c.s.wb.contents| ==> c.s.wb.contents[n..] == [];
    }
  }

  lemma SentToOriginStirs(c: Context, n: nat)
    requires DataFits(c.s) && c.s.state.Copy?
    ensures Stirred(c, SendToOrigin(c.(s := Stir(c.s)), n))
  {
    if n <= |c.s.rb.contents| {
      SentFits(c.s.relay.leftUp, c.s.relay.fromClient, c.s.relay.toOrigin, c.s.rb.contents, n);
      assert n == |c.s.rb.contents| ==> c.s.rb.contents[n..] == [];
    }
  }

  lemma StirredKeeps(c: Context, key: int, c1: Context, isClient: bool)
    requires Relaying(c, key) && Stirred(c, c1)
    ensures Kept(c, Settle(c1, isClient, Copy))
  {
    hide Settle, RelayFits;
    SettleKeeps(c1, isClient, Copy);
  }

  lemma CopyReadKeeps(c: Context, key: int, r: Recv)
    requires Relaying(c, key)
    ensures Kept(c, OnCopyRead(c, key, r))
  {
    hide Settle;
    var isClient := key == c.s.clientFd;
    var c0 := c.(s := Stir(c.s));
    if r.Got? {
      ReceivedStirs(c, isClient, r.octets);
      StirredKeeps(
        c, key, if isClient then ReceiveFromClient(c0, r.octets) else ReceiveFromOrigin(c0, r.octets), isClient);
    } else {
      SettleKeeps(c0.(s := ShutRead(c0.s, isClient)), isClient, Done);
    }
  }

  lemma CopyWriteKeeps(c: Context, key: int, n: int)
    requires Relaying(c, key)
    ensures Kept(c, OnCopyWrite(c, key, n))
  {
    hide Settle;
    var isClient := key == c.s.clientFd;
    var c0 := c.(s := Stir(c.s));
    if n < 0 {
      SettleKeeps(c0.(s := ShutWrite(c0.s, isClient)), isClient, Done);
    } else if isClient {
      SentToClientStirs(c, n);
      StirredKeeps(c, key, SendToClient(c0, n), isClient);
    } else {
      SentToOriginStirs(c, n);
      StirredKeeps(c, key, SendToOrigin(c0, n), isClient);
    }
  }

  // ----- the wrappers

  /** An event the selector or the resolver may deliver to the session. */
  ghost predicate Deliverable(c: Context, key: int, e: Stm.Event) {
    match e
    case ReadReady => IsOwn(c.items, c.id, key) && c.items[key].interest.read
    case WriteReady => IsOwn(c.items, c.id, key) && c.items[key].interest.write
    case BlockReady => key == c.s.clientFd && c.s.state.RequestResolv?
  }

  /** The interests rule out every event the state has no handler for. */
  lemma HandlerExists(c: Context, key: int, e: Stm.Event)
    requires Good(c) && Deliverable(c, key, e)
    ensures Stm.Handles(Definition(c.s.state), e)
    ensures key == c.s.clientFd || key == c.s.originFd
    ensures c.s.state.RequestConnecting? ==> key == c.s.originFd
    ensures !c.s.state.RequestConnecting? && !c.s.state.Copy? ==> key == c.s.clientFd
  {
  }

  lemma {:induction false} ConnectNeverWaits(c: Context, a: Answers, k: nat)
    ensures !RequestConnect(c, a, k).st.RequestResolv?
    decreases c.s.resolution.addresses - c.s.resolution.current
  {
    var socket := SocketAt(a, k);
    if socket.fd != -1 && socket.nonBlocking && socket.connect.Refused? {
      var e := socket.connect.error;
      var c2 := WithStatus(Doubt(OpenOrigin(DropOrigin(c), socket), e != R.NoError), R.ErrnoToSocks(e));
      if HasNext(c2.s.resolution) {
        ConnectNeverWaits(Advance(c2), a, k + 1);
      }
    }
  }

  lemma CallbackKeeps(c: Context, key: int, e: Stm.Event, a: Answers)
    requires Good(c) && Deliverable(c, key, e) && c.anomalies == {} && c.honest
    ensures Kept(c, Callback(c, key, e, a))
    ensures c.s.state.RequestResolv? ==> !Callback(c, key, e, a).st.RequestResolv?
    ensures c.s.state.Copy? ==> Callback(c, key, e, a).st.Copy? || Final(Callback(c, key, e, a).st)
  {
    HandlerExists(c, key, e);
    hide Kept, Owns, OnHelloRead, OnHelloWrite, OnAuthRead, OnAuthWrite, OnRequestRead, OnConnecting, OnRequestWrite;
    hide RequestConnect;
    match c.s.state
    case HelloRead => HelloReadKeeps(c, key, a.recv);
    case HelloWrite => HelloWriteKeeps(c, key, a.sent);
    case AuthRead => AuthReadKeeps(c, key, a.recv);
    case AuthWrite => AuthWriteKeeps(c, key, a.sent);
    case RequestRead => RequestReadKeeps(c, key, a);
    case RequestResolv =>
      ResolvedKeeps(c, key, a);
      ConnectNeverWaits(if c.s.resolution.addresses == 0 then WithStatus(c, R.GENERAL_FAILURE) else c, a, 0);
    case RequestConnecting => ConnectingKeeps(c, key, a);
    case RequestWrite => RequestWriteKeeps(c, key, a.sent);
    case Copy =>
      if e.ReadReady? {
        CopyReadKeeps(c, key, a.recv);
      } else {
        CopyWriteKeeps(c, key, a.sent);
      }
    case Done =>
    case Error =>
  }

  /** What is left of a session after socks5_done. */
  ghost predicate Ended(s: Session) {
    && !s.live
    && (s.ended <==> s.relay.stirred)
    && (s.ended ==> s.connected && RelayFits(s))
    && RetriesFit(s.resolution)
  }

  /** The outcome of one event, seen from outside the session. */
  ghost predicate Served(c: Context, c': Context) {
    && c'.id == c.id && c'.s.clientFd == c.s.clientFd && c'.config == c.config
    && (if c'.s.live then
          && Good(c') && Framed(c, c')
          && c'.threads == c.threads + (if c'.s.state.RequestResolv? && !c.s.state.RequestResolv?
                                        then multiset{Thread(c.id, c.s.clientFd)} else multiset{})
          && !(c.s.state.RequestResolv? && c'.s.state.RequestResolv?)
        else
          && Ended(c'.s) && c'.threads == c.threads
          && (c'.s.ended <==> c.s.state.Copy?)
          && c'.open == c.open - {c.s.clientFd, c.s.originFd}
          && c'.items == c.items - {c.s.clientFd, c.s.originFd})
    && (c.s.connected ==> c'.s.connected)
    && c'.metrics.historic == c.metrics.historic + (if c'.s.connected && !c.s.connected then 1 else 0)
    && c'.metrics.current == c.metrics.current + (if c'.s.connected && !c.s.connected then 1 else 0)
                                               - (if c'.s.ended then 1 else 0)
    && c'.metrics.sent + |c.s.relay.fromClient| == c.metrics.sent + |c'.s.relay.fromClient|
    && c'.metrics.received + |c.s.relay.toClient| == c.metrics.received + |c'.s.relay.toClient|
  }

  lemma FinishServes(c: Context, n: Next)
    requires Good(c) && Kept(c, n) && n.c.honest && n.c.anomalies == {} && Final(n.st)
    ensures Served(c, Finish(Jump(n)))
  {
    var c' := Finish(Jump(n));
    FinishReleases(c.items, c.open, c.s.clientFd, c.s.originFd, n.c.items, n.c.open, n.c.s.originFd, c.id);
    hide Owns, Frame, InterestsFit, TearDown;
  }

  /** Tearing down closes and unregisters the session's descriptors and no others. */
  lemma FinishReleases(
    items: map<int, Item<Kind>>, open: set<int>, client: int, origin: int,
    items': map<int, Item<Kind>>, open': set<int>, origin': int, id: nat)
    requires Owns(items, open, id, client, origin) && Frame(items, open, client, origin, items', open', origin')
    ensures open' - {client, origin'} == open - {client, origin}
    ensures items' - {client, origin'} == items - {client, origin}
  {
    assert open' - {client, origin'} == open' - {origin'} - {client};
    var left, right := items' - {client, origin'}, items - {client, origin};
    forall fd
      ensures fd in left <==> fd in right
      ensures fd in left && fd in right ==> left[fd] == right[fd]
    {
    }
  }

  lemma LiveServes(c: Context, n: Next)
    requires Good(c) && Kept(c, n) && n.c.honest && n.c.anomalies == {} && !Final(n.st)
    requires c.s.state.RequestResolv? ==> !n.st.RequestResolv?
    requires c.s.state.Copy? ==> n.st.Copy?
    ensures Served(c, Jump(n))
  {
    hide Owns, Frame, InterestsFit;
  }

  lemma DispatchServes(c: Context, key: int, e: Stm.Event, a: Answers)
    requires Good(c) && Deliverable(c, key, e) && c.anomalies == {} && c.honest
    ensures var c' := Dispatch(c, key, e, a);
            c'.honest ==> c'.anomalies <= {ReplyTooBig} && (c'.anomalies == {} ==> Served(c, c'))
  {
    HandlerExists(c, key, e);
    CallbackKeeps(c, key, e, a);
    HandledBy(c, key, e, a);
    KeptServes(c, Callback(c, key, e, a));
    hide *;
  }

  /** What the wrappers make of a callback's outcome. */
  ghost function Concluded(n: Next): Context { if Final(n.st) then Finish(Jump(n)) else Jump(n) }

  lemma HandledBy(c: Context, key: int, e: Stm.Event, a: Answers)
    requires Stm.Handles(Definition(c.s.state), e)
    ensures Dispatch(c, key, e, a) == Concluded(Callback(c, key, e, a))
  {
    hide Callback, Jump, Finish;
  }

  lemma KeptServes(c: Context, n: Next)
    requires Good(c) && Kept(c, n)
    requires c.s.state.RequestResolv? ==> !n.st.RequestResolv?
    requires c.s.state.Copy? ==> n.st.Copy? || Final(n.st)
    ensures var c' := Concluded(n);
            c'.honest ==> c'.anomalies <= {ReplyTooBig} && (c'.anomalies == {} ==> Served(c, c'))
  {
    ConcludedSame(n);
    hide Good, Served, Jump, Finish, Framed, Counted, Owning, InterestsFit, DataFits, Closing;
    if n.c.honest && n.c.anomalies == {} {
      if Final(n.st) {
        FinishServes(c, n);
      } else {
        LiveServes(c, n);
      }
    }
  }

  lemma ConcludedSame(n: Next)
    ensures Concluded(n).honest == n.c.honest && Concluded(n).anomalies == n.c.anomalies
  {
    hide TearDown;
  }
}
