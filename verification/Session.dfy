/**
 * One SOCKS session: the callbacks of src/socks5_hello.c, src/socks5_auth.c,
 * src/socks5_request.c, src/socks5_copy.c and the wrappers of src/socks5.c, as
 * functions from a context and the operating system's answers to a context.
 */
module Session {
  import opened Bytes
  import opened SelectorModule
  import opened ServerConfig
  import Fifo
  import Stm
  import H = HelloParser
  import A = AuthParser
  import R = RequestParser

  // ----- the state table

  datatype State =
    | HelloRead | HelloWrite | AuthRead | AuthWrite
    | RequestRead | RequestResolv | RequestConnecting | RequestWrite
    | Copy | Done | Error

  /** socks_state_definition, entry by entry. */
  function Definition(st: State): Stm.Definition {
    match st
    case HelloRead => Stm.Definition(0, true, false, true, false, false)
    case HelloWrite => Stm.Definition(1, false, false, false, true, false)
    case AuthRead => Stm.Definition(2, true, false, true, false, false)
    case AuthWrite => Stm.Definition(3, false, false, false, true, false)
    case RequestRead => Stm.Definition(4, true, false, true, false, false)
    case RequestResolv => Stm.Definition(5, false, false, false, false, true)
    case RequestConnecting => Stm.Definition(6, true, false, false, true, false)
    case RequestWrite => Stm.Definition(7, false, false, false, true, false)
    case Copy => Stm.Definition(8, true, false, true, true, false)
    case Done => Stm.Definition(9, false, false, false, false, false)
    case Error => Stm.Definition(10, false, false, false, false, false)
  }

  // ----- the data

  /** The handler tables an item can carry. */
  datatype Kind = SocksPassive | SocksSession | MngPassive | MngSession

  /** struct config, as far as sessions and management read or change it; `spoofing` is disectors_enabled. */
  datatype Config = Config(auth: bool, spoofing: bool, users: Users, bufferSize: nat, token: seq<byte>)

  /** checkUser: some entry has exactly this name and this password. */
  predicate CheckUser(users: Users, user: seq<byte>, pass: seq<byte>) {
    (CString(user), CString(pass)) in users
  }

  datatype Metrics = Metrics(historic: int, current: int, sent: nat, received: nat)

  /** The address list of getaddrinfo (its length), the current node, and the connects tried so far. */
  datatype Resolution = Resolution(addresses: nat, current: nat, attempts: nat)

  /** History of the relay: what each buffer held on entry, and the octets moved since. */
  datatype Relay = Relay(
    stirred: bool, leftUp: seq<byte>, leftDown: seq<byte>,
    fromClient: seq<byte>, toOrigin: seq<byte>, fromOrigin: seq<byte>, toClient: seq<byte>)

  const NO_RELAY := Relay(false, [], [], [], [], [], [])

  /**
   * History of the conversation: all octets received from and sent to the
   * client, and those each of the three parsers took.
   */
  datatype Script = Script(heard: seq<byte>, told: seq<byte>, greeting: seq<byte>, credentials: seq<byte>, order: seq<byte>)

  /**
   * The memory of struct socks5: its counter toFree, and the history of what
   * became of it. `stale` is an access after it was freed; `givenUp` counts the
   * registered origins given up on a retry; `watched` tells whether the last
   * origin was still registered when the session was torn down.
   */
  datatype Heap = Heap(toFree: nat, frees: nat, stale: bool, givenUp: nat, watched: bool)

  const IN_USE := Heap(0, 0, false, 0, false)

  function Touch(h: Heap): Heap { h.(stale := h.stale || h.frees > 0) }

  /** socks5_close, which the selector calls for each descriptor it unregisters. */
  function SocksClose(h: Heap, origin: int): Heap {
    var h1 := Touch(h);
    if origin == -1 || h.toFree > 0 then h1.(frees := h.frees + 1) else h1.(toFree := h.toFree + 1)
  }

  /** An origin is given up on a retry, and the callback goes on with the session. */
  function GiveUp(h: Heap, origin: int, registered: bool): Heap {
    if registered then
      var h1 := Touch(SocksClose(h, origin));
      h1.(givenUp := h.givenUp + 1)
    else Touch(h)
  }

  function CloseIf(h: Heap, origin: int, registered: bool): Heap { if registered then SocksClose(h, origin) else h }

  /** The loop of socks5_done over both descriptors. */
  function TearDown(h: Heap, origin: int, clientRegistered: bool, originRegistered: bool): Heap {
    CloseIf(CloseIf(Touch(h), origin, clientRegistered), origin, originRegistered).(watched := originRegistered)
  }

  datatype Session = Session(
    state: State, live: bool, clientFd: int, originFd: int, status: byte,
    rb: Fifo.View, wb: Fifo.View,
    hello: H.Hello, auth: A.Auth, authStatus: byte, request: R.Request,
    resolution: Resolution,
    connected: bool,  // history: add_connection ran for this session
    ended: bool,      // history: end_connection ran for this session
    clientCopy: Interest, originCopy: Interest, relay: Relay, script: Script, heap: Heap)

  /** socks5_new followed by the initial arrival, hello_read_init. */
  function New(clientFd: int, capacity: nat): Session {
    Session(HelloRead, true, clientFd, -1, R.CONNECTING, Fifo.Empty(capacity), Fifo.Empty(capacity),
            H.START, A.START, A.FAIL, R.START, Resolution(0, 0, 0), false, false, NOOP, NOOP, NO_RELAY,
            Script([], [], [], [], []), IN_USE)
  }

  /** A resolver thread carries a copy of the key it was started with. */
  datatype Thread = Thread(id: nat, fd: int)

  datatype Anomaly = MissingHandler | FdAlreadyRegistered | InterestRefused | ReplyTooBig

  /** What a callback of session `id` sees of the process. */
  datatype Context = Context(
    id: nat, s: Session, items: map<int, Item<Kind>>, open: set<int>, config: Config, metrics: Metrics,
    threads: multiset<Thread>, anomalies: set<Anomaly>, honest: bool)

  // ----- the operating system's answers

  datatype Recv = Got(octets: seq<byte>) | Closed | Failed

  datatype Connect = Connected | InProgress | Refused(error: R.Errno)

  datatype Socket = Socket(fd: int, nonBlocking: bool, connect: Connect)

  datatype SoError = Unknown | Known(error: R.Errno)

  /** recv, send, the sockets of successive attempts, pthread_create and getsockopt. */
  datatype Answers = Answers(recv: Recv, sent: int, sockets: seq<Socket>, thread: bool, soError: SoError)

  function SocketAt(a: Answers, k: nat): Socket {
    if k < |a.sockets| then a.sockets[k] else Socket(-1, false, Connected)
  }

  // ----- helpers

  datatype Next = Next(c: Context, st: State)

  function Doubt(c: Context, fact: bool): Context { c.(honest := c.honest && fact) }

  function Note(c: Context, a: Anomaly): Context { c.(anomalies := c.anomalies + {a}) }

  function SetInterestOf(c: Context, fd: int, i: Interest): (r: (Context, bool))
    ensures r.0 == c.(items := r.0.items, anomalies := r.0.anomalies)
    ensures r.0.anomalies == if r.1 then c.anomalies else c.anomalies + {InterestRefused}
  {
    var (items, status) := AfterSetInterest(c.items, fd, i);
    if status.Success? then (c.(items := items), true) else (Note(c, InterestRefused), false)
  }

  function RegisterOrigin(c: Context, fd: int): (r: (Context, bool))
    ensures r.0 == c.(items := r.0.items, anomalies := r.0.anomalies)
    ensures r.0.anomalies <= c.anomalies + {FdAlreadyRegistered}
  {
    var (items, status) := AfterRegister(c.items, fd, Item(WRITE, SocksSession, c.id));
    if status.Success? then (c.(items := items), true)
    else if status.FdInUse? then (Note(c, FdAlreadyRegistered), false)
    else (c, false)
  }

  function Hear(t: Script, octets: seq<byte>): Script { t.(heard := t.heard + octets) }

  function Tell(t: Script, octets: seq<byte>): Script { t.(told := t.told + octets) }

  function Octets(r: Recv): seq<byte> { if r.Got? then r.octets else [] }

  /** recv into the read buffer: the kernel delivers at least one octet and no more than fit. */
  function Receive(c: Context, r: Recv): (c1: Context)
    ensures c1 == c.(s := c.s.(rb := c1.s.rb, script := c1.s.script), honest := c1.honest) && (c1.honest ==> c.honest)
  {
    Doubt(c.(s := c.s.(rb := Fifo.Put(c.s.rb, Octets(r)), script := Hear(c.s.script, Octets(r)))),
          r.Got? ==> 0 < |r.octets| <= Fifo.Room(c.s.rb))
  }

  function Min(a: int, b: int): int { if a < b then a else b }

  /** send takes n octets from the write buffer; the kernel takes no more than there are. */
  function Send(c: Context, n: nat): (c1: Context)
    ensures c1 == c.(s := c.s.(wb := c1.s.wb, script := c1.s.script), honest := c1.honest) && (c1.honest ==> c.honest)
  {
    var m := Min(n, |c.s.wb.contents|);
    Doubt(c.(s := c.s.(wb := Fifo.Take(c.s.wb, m), script := Tell(c.s.script, c.s.wb.contents[..m]))),
          n <= |c.s.wb.contents|)
  }

  /** The window left after a parser returned `rest` as unread. */
  function Drop(v: Fifo.View, rest: seq<byte>): Fifo.View
    requires |rest| <= |v.contents|
  {
    Fifo.Take(v, |v.contents| - |rest|)
  }

  /** The octets a parser took, the window before and `rest` left. */
  function Gone(v: Fifo.View, rest: seq<byte>): seq<byte>
    requires |rest| <= |v.contents|
  {
    v.contents[..|v.contents| - |rest|]
  }

  function Append(c: Context, reply: seq<byte>): Context { c.(s := c.s.(wb := Fifo.Put(c.s.wb, reply))) }

  // ----- hello

  /** hello_consume. */
  function TakeHello(c: Context): (c1: Context)
    ensures c1 == c.(s := c.s.(hello := c1.s.hello, rb := c1.s.rb, script := c1.s.script))
  {
    var (p, rest) := H.Parse(c.config.auth, c.s.hello, c.s.rb.contents);
    var t := c.s.script;
    c.(s := c.s.(hello := p, rb := Drop(c.s.rb, rest), script := t.(greeting := t.greeting + Gone(c.s.rb, rest))))
  }

  function OnHelloRead(c: Context, key: int, r: Recv): Next {
    if !r.Got? then Next(c, Error)
    else
      var c2 := TakeHello(Receive(c, r));
      var p := c2.s.hello;
      if !H.IsDone(p) then Next(c2, Error)
      else
        var (c3, ok) := SetInterestOf(c2, key, WRITE);
        if !ok || Fifo.Room(c3.s.wb) < 2 then Next(c3, Error)
        else Next(Append(c3, H.Reply(p.selected)), if H.IsError(p) then Error else HelloWrite)
  }

  function OnHelloWrite(c: Context, key: int, n: int): Next {
    if n < 0 then Next(c, Error)
    else
      var c1 := Send(c, n);
      if Fifo.CanRead(c1.s.wb) then Next(c1, HelloWrite)
      else
        var (c2, ok) := SetInterestOf(c1, key, READ);
        if !ok then Next(c2, Error)
        else if c2.s.hello.selected == H.USER_PASS && c2.config.auth then Next(c2, AuthRead)
        else if c2.s.hello.selected == H.NO_AUTH && !c2.config.auth then Next(c2, RequestRead)
        else Next(c2, Done)
  }

  // ----- auth

  function WithVerdict(c: Context, verdict: byte): Context { c.(s := c.s.(authStatus := verdict)) }

  /** auth_consume. */
  function TakeCredentials(c: Context): (c1: Context)
    ensures c1 == c.(s := c.s.(auth := c1.s.auth, rb := c1.s.rb, script := c1.s.script))
  {
    var (p, rest) := A.Parse(c.s.auth, c.s.rb.contents);
    var t := c.s.script;
    c.(s := c.s.(auth := p, rb := Drop(c.s.rb, rest), script := t.(credentials := t.credentials + Gone(c.s.rb, rest))))
  }

  /** The end of auth_read: the credentials are judged and the verdict is queued. */
  function AnswerCredentials(c: Context, key: int): Next {
    var p := c.s.auth;
    var (c1, ok) := SetInterestOf(c, key, WRITE);
    if !ok then Next(c1, Error)
    else
      var verdict := if CheckUser(c1.config.users, p.user, p.pass) then A.SUCCESS else A.FAIL;
      var c2 := WithVerdict(c1, verdict);
      if Fifo.Room(c2.s.wb) < 2 then Next(c2, Error)
      else Next(Append(c2, A.Reply(verdict)), if A.IsError(p) then Error else AuthWrite)
  }

  function OnAuthRead(c: Context, key: int, r: Recv): Next {
    if r.Failed? then Next(c, Error)
    else
      var c1 := TakeCredentials(Receive(c, r));
      if A.IsDone(c1.s.auth) then AnswerCredentials(c1, key) else Next(c1, AuthRead)
  }

  function OnAuthWrite(c: Context, key: int, n: int): Next {
    if n < 0 then Next(c, Error)
    else
      var c1 := Send(c, n);
      if Fifo.CanRead(c1.s.wb) then Next(c1, AuthWrite)
      else if c1.s.authStatus != A.SUCCESS then Next(c1, Done)
      else
        var (c2, ok) := SetInterestOf(c1, key, READ);
        Next(c2, if ok then RequestRead else Error)
  }

  // ----- request

  function WithStatus(c: Context, status: byte): Context { c.(s := c.s.(status := status)) }

  /** next_ip: there is a node after the current one. */
  predicate HasNext(r: Resolution) { r.addresses != 0 && r.current + 1 < r.addresses }

  function Advance(c: Context): Context {
    c.(s := c.s.(resolution := c.s.resolution.(current := c.s.resolution.current + 1)))
  }

  /** The first lines of request_connect: the previous origin socket is given up. */
  function DropOrigin(c: Context): (r: Context)
    ensures r == c.(s := c.s.(heap := r.s.heap), items := r.items, open := r.open)
  {
    if c.s.originFd == -1 then c
    else
      var (items, status) := AfterUnregister(c.items, c.s.originFd);
      c.(s := c.s.(heap := GiveUp(c.s.heap, c.s.originFd, status.Success?)), items := items, open := c.open - {c.s.originFd})
  }

  /** socket(): a number that is not open, or -1. */
  function OpenOrigin(c: Context, k: Socket): (r: Context)
    ensures r.s == c.s.(originFd := k.fd, resolution := c.s.resolution.(attempts := c.s.resolution.attempts + 1))
    ensures r == c.(s := r.s, open := r.open, honest := r.honest)
  {
    var r := c.s.resolution;
    var s := c.s.(originFd := k.fd, resolution := r.(attempts := r.attempts + 1));
    if k.fd == -1 then c.(s := s)
    else Doubt(c.(s := s, open := c.open + {k.fd}), k.fd >= 0 && k.fd !in c.open)
  }

  function OnConnectPending(c: Context): Next {
    var (c1, ok) := RegisterOrigin(c, c.s.originFd);
    if !ok then Next(c1, Error)
    else
      var (c2, ok2) := SetInterestOf(c1, c1.s.clientFd, NOOP);
      Next(c2, if ok2 then RequestConnecting else Error)
  }

  /** The last address failed: the client is told, if the reply fits. */
  function OnConnectRefused(c: Context): Next {
    var reply := R.Reply(c.s.status, c.s.request);
    var fits := Fifo.Room(c.s.wb) >= |reply|;
    var c1 := if fits then Append(c, reply) else c;
    var (c2, ok) := SetInterestOf(c1, c1.s.clientFd, WRITE);
    Next(c2, if ok && fits then RequestWrite else Error)
  }

  /** request_connect; k counts the recursive retries of one call. */
  function RequestConnect(c: Context, a: Answers, k: nat): Next
    decreases c.s.resolution.addresses - c.s.resolution.current
  {
    var socket := SocketAt(a, k);
    var c1 := OpenOrigin(DropOrigin(c), socket);
    if socket.fd == -1 || !socket.nonBlocking then Next(c1, Error)
    else
      match socket.connect
      case Connected => Next(c1, Error)  // the code has no branch for an immediate success
      case InProgress => OnConnectPending(c1)
      case Refused(e) =>
        var c2 := WithStatus(Doubt(c1, e != R.NoError), R.ErrnoToSocks(e));
        if HasNext(c2.s.resolution) then RequestConnect(Advance(c2), a, k + 1)
        else OnConnectRefused(c2)
  }

  /** The branches of request_process that answer without a connection, and without a reply. */
  function Decline(c: Context, key: int, status: byte): Next {
    Next(SetInterestOf(WithStatus(c, status), key, WRITE).0, RequestWrite)
  }

  /** pthread_create with a copy of the key. */
  function Spawn(c: Context, key: int): Context { c.(threads := c.threads + multiset{Thread(c.id, key)}) }

  function RequestProcess(c: Context, key: int, a: Answers): Next {
    var q := c.s.request;
    if q.cmd != R.CONNECT then Decline(c, key, R.COMMAND_NOT_SUPPORTED)
    else if q.atyp == R.IPV4 || q.atyp == R.IPV6 then RequestConnect(c, a, 0)
    else if q.atyp == R.DOMAIN then
      if !a.thread then Decline(c, key, R.GENERAL_FAILURE)
      else
        Next(SetInterestOf(Spawn(c, key), key, NOOP).0, RequestResolv)
    else Decline(c, key, R.ADDRESS_TYPE_NOT_SUPPORTED)
  }

  /** request_consume. */
  function TakeRequest(c: Context): (c1: Context)
    ensures c1 == c.(s := c.s.(request := c1.s.request, rb := c1.s.rb, script := c1.s.script))
  {
    var (p, rest) := R.Parse(c.s.request, c.s.rb.contents);
    var t := c.s.script;
    c.(s := c.s.(request := p, rb := Drop(c.s.rb, rest), script := t.(order := t.order + Gone(c.s.rb, rest))))
  }

  function OnRequestRead(c: Context, key: int, a: Answers): Next {
    if a.recv.Failed? then Next(c, Error)
    else
      var c2 := TakeRequest(Receive(c, a.recv));
      if !R.IsDone(c2.s.request) then Next(c2, RequestRead)
      else
        var n := RequestProcess(c2, key, a);
        if R.IsError(c2.s.request) then n.(st := Error) else n
  }

  /** request_resolv_done: a failed resolution still goes on to connect. */
  function OnResolved(c: Context, a: Answers): Next {
    var c1 := if c.s.resolution.addresses == 0 then WithStatus(c, R.GENERAL_FAILURE) else c;
    RequestConnect(c1, a, 0)
  }

  function OnConnected(c: Context, key: int): Context {
    c.(s := c.s.(status := R.SUCCEEDED, originFd := key, connected := true),
       metrics := c.metrics.(historic := c.metrics.historic + 1, current := c.metrics.current + 1))
  }

  /** The common end of request_connecting: the reply, then both interests. */
  function ReportConnection(c: Context, key: int): Next {
    var reply := R.Reply(c.s.status, c.s.request);
    if Fifo.Room(c.s.wb) < |reply| then Next(Note(c, ReplyTooBig), Error)  // abort()
    else
      var (c1, ok1) := SetInterestOf(Append(c, reply), c.s.clientFd, WRITE);
      var (c2, ok2) := SetInterestOf(c1, key, NOOP);
      Next(c2, if ok1 && ok2 then RequestWrite else Error)
  }

  function OnConnecting(c: Context, key: int, a: Answers): Next {
    match a.soError
    case Unknown => ReportConnection(WithStatus(c, R.GENERAL_FAILURE), key)
    case Known(e) =>
      if e == R.NoError then ReportConnection(OnConnected(c, key), key)
      else
        var c1 := WithStatus(c, R.ErrnoToSocks(e));
        if HasNext(c1.s.resolution) then RequestConnect(Advance(c1), a, 0)
        else ReportConnection(c1, key)
  }

  function OnRequestWrite(c: Context, n: int): Next {
    if n < 0 then Next(c, Error)
    else
      var c1 := Send(c, n);
      if Fifo.CanRead(c1.s.wb) then Next(c1, RequestWrite)
      else if c1.s.status == R.SUCCEEDED then
        var c2 := SetInterestOf(c1, c1.s.clientFd, READ).0;
        Next(SetInterestOf(c2, c2.s.originFd, READ).0, Copy)
      else Next(SetInterestOf(c1, c1.s.clientFd, NOOP).0, Done)
  }

  // ----- copy

  /** copy_determine_interests for the client side. */
  function ClientWants(s: Session): Interest {
    Interest(s.clientCopy.read && Fifo.CanWrite(s.rb), s.clientCopy.write && Fifo.CanRead(s.wb))
  }

  function OriginWants(s: Session): Interest {
    Interest(s.originCopy.read && Fifo.CanWrite(s.wb), s.originCopy.write && Fifo.CanRead(s.rb))
  }

  /** copy_determine_interests on one side. */
  function SettleSide(c: Context, isClient: bool): (r: Context)
    ensures r == c.(items := r.items, anomalies := r.anomalies) && r.anomalies <= c.anomalies + {InterestRefused}
  {
    if isClient then SetInterestOf(c, c.s.clientFd, ClientWants(c.s)).0
    else SetInterestOf(c, c.s.originFd, OriginWants(c.s)).0
  }

  /** Both interests are recomputed, its own first; a side whose own mask is empty ends the relay. */
  function Settle(c: Context, isClient: bool, st: State): (n: Next)
    ensures n.c == c.(items := n.c.items, anomalies := n.c.anomalies) && n.c.anomalies <= c.anomalies + {InterestRefused}
    ensures n.st == st || n.st == Done
  {
    Next(SettleSide(SettleSide(c, isClient), !isClient),
         if (if isClient then c.s.clientCopy else c.s.originCopy) == NOOP then Done else st)
  }

  /** End of stream: one direction is shut down on both sides. */
  function ShutRead(s: Session, isClient: bool): Session {
    var r := s.(status := R.CLOSE);
    if isClient then
      r.(clientCopy := s.clientCopy.(read := false),
         originCopy := if s.originFd != -1 then s.originCopy.(write := false) else s.originCopy)
    else
      r.(originCopy := s.originCopy.(read := false),
         clientCopy := if s.clientFd != -1 then s.clientCopy.(write := false) else s.clientCopy)
  }

  function ShutWrite(s: Session, isClient: bool): Session {
    var r := s.(status := R.CLOSE);
    if isClient then
      r.(clientCopy := s.clientCopy.(write := false),
         originCopy := if s.originFd != -1 then s.originCopy.(read := false) else s.originCopy)
    else
      r.(originCopy := s.originCopy.(write := false),
         clientCopy := if s.clientFd != -1 then s.clientCopy.(read := false) else s.clientCopy)
  }

  function Stir(s: Session): Session { s.(relay := s.relay.(stirred := true)) }

  function ReceiveFromClient(c: Context, octets: seq<byte>): Context {
    var s := c.s;
    Doubt(c.(s := s.(rb := Fifo.Put(s.rb, octets), relay := s.relay.(fromClient := s.relay.fromClient + octets),
                     script := Hear(s.script, octets)),
             metrics := c.metrics.(sent := c.metrics.sent + |octets|)),
          0 < |octets| <= Fifo.Room(s.rb))
  }

  function ReceiveFromOrigin(c: Context, octets: seq<byte>): Context {
    var s := c.s;
    Doubt(c.(s := s.(wb := Fifo.Put(s.wb, octets), relay := s.relay.(fromOrigin := s.relay.fromOrigin + octets))),
          0 < |octets| <= Fifo.Room(s.wb))
  }

  function SendToClient(c: Context, n: nat): Context {
    var s, m := c.s, Min(n, |c.s.wb.contents|);
    Doubt(c.(s := s.(wb := Fifo.Take(s.wb, m), relay := s.relay.(toClient := s.relay.toClient + s.wb.contents[..m]),
                     script := Tell(s.script, s.wb.contents[..m])),
             metrics := c.metrics.(received := c.metrics.received + n)),
          n <= |s.wb.contents|)
  }

  function SendToOrigin(c: Context, n: nat): Context {
    var s, m := c.s, Min(n, |c.s.rb.contents|);
    Doubt(c.(s := s.(rb := Fifo.Take(s.rb, m), relay := s.relay.(toOrigin := s.relay.toOrigin + s.rb.contents[..m]))),
          n <= |s.rb.contents|)
  }

  /** What no event of the relay touches; the two buffers keep their sizes. */
  ghost predicate OnlyRelays(c: Context, n: Next) {
    && n.c.s == c.s.(rb := n.c.s.rb, wb := n.c.s.wb, relay := n.c.s.relay, script := n.c.s.script, status := n.c.s.status,
                     clientCopy := n.c.s.clientCopy, originCopy := n.c.s.originCopy)
    && n.c.s.rb.capacity == c.s.rb.capacity && n.c.s.wb.capacity == c.s.wb.capacity
    && n.c.anomalies <= c.anomalies + {InterestRefused} && n.c.s.relay.stirred && (n.st == Copy || n.st == Done)
  }

  function OnCopyRead(c: Context, key: int, r: Recv): (n: Next)
    ensures OnlyRelays(c, n)
  {
    var isClient := key == c.s.clientFd;
    var c0 := c.(s := Stir(c.s));
    if r.Got? then
      Settle(if isClient then ReceiveFromClient(c0, r.octets) else ReceiveFromOrigin(c0, r.octets), isClient, Copy)
    else Settle(c0.(s := ShutRead(c0.s, isClient)), isClient, Done)
  }

  function OnCopyWrite(c: Context, key: int, n: int): (next: Next)
    ensures OnlyRelays(c, next)
  {
    var isClient := key == c.s.clientFd;
    var c0 := c.(s := Stir(c.s));
    if n >= 0 then Settle(if isClient then SendToClient(c0, n) else SendToOrigin(c0, n), isClient, Copy)
    else Settle(c0.(s := ShutWrite(c0.s, isClient)), isClient, Done)
  }

  // ----- the engine and the wrappers of src/socks5.c

  /** on_arrival of the new state. */
  function Arrive(s: Session, st: State): Session {
    var r := s.(state := st);
    match st
    case AuthRead => r.(auth := A.START)
    case RequestRead => r.(request := R.START)
    case Copy =>
      r.(clientCopy := Interest(true, true), originCopy := Interest(true, true),
         relay := NO_RELAY.(leftUp := s.rb.contents, leftDown := s.wb.contents))
    case _ => r
  }

  function Jump(n: Next): Context {
    if n.st == n.c.s.state then n.c else n.c.(s := Arrive(n.c.s, n.st))
  }

  function Callback(c: Context, key: int, e: Stm.Event, a: Answers): Next {
    match c.s.state
    case HelloRead => OnHelloRead(c, key, a.recv)
    case HelloWrite => OnHelloWrite(c, key, a.sent)
    case AuthRead => OnAuthRead(c, key, a.recv)
    case AuthWrite => OnAuthWrite(c, key, a.sent)
    case RequestRead => OnRequestRead(c, key, a)
    case RequestResolv => OnResolved(c, a)
    case RequestConnecting => OnConnecting(c, key, a)
    case RequestWrite => OnRequestWrite(c, a.sent)
    case Copy => if e.ReadReady? then OnCopyRead(c, key, a.recv) else OnCopyWrite(c, key, a.sent)
    case Done => Next(c, Done)
    case Error => Next(c, Error)
  }

  /** socks5_done. */
  function Finish(c: Context): Context {
    var closing := c.s.status == R.CLOSE;
    var fds := {c.s.clientFd, c.s.originFd};
    var heap := TearDown(c.s.heap, c.s.originFd, c.s.clientFd != -1 && c.s.clientFd in c.items,
                         c.s.originFd != -1 && c.s.originFd in c.items && c.s.originFd != c.s.clientFd);
    c.(s := c.s.(live := false, ended := closing, heap := heap),
       items := c.items - fds,
       open := c.open - fds,
       metrics := if closing then c.metrics.(current := c.metrics.current - 1) else c.metrics)
  }

  /** socks5_read, socks5_write and socks5_block over the engine. */
  function Dispatch(c: Context, key: int, e: Stm.Event, a: Answers): Context {
    if !Stm.Handles(Definition(c.s.state), e) then Note(c, MissingHandler)
    else
      var n := Callback(c, key, e, a);
      var c1 := Jump(n);
      if n.st == Done || n.st == Error then Finish(c1) else c1
  }
}
