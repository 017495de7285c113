/** What a client is told about its request, and when telling it aborts the process. */
module ConnectReplies {
  import opened Bytes
  import opened SelectorModule
  import opened Session
  import opened SessionInvariant
  import opened Management
  import opened World
  import opened WorldInvariant
  import opened Handoff
  import opened Accounts
  import opened Safety
  import opened AuthGate
  import Fifo
  import Stm
  import H = HelloParser
  import A = AuthParser
  import R = RequestParser

  // ----- the last failure is the one reported

  /** Addresses not tried yet, the current one included. */
  ghost function Untried(r: Resolution): nat {
    if r.addresses <= r.current then 1 else r.addresses - r.current
  }

  /** Every attempt from the k-th on opens a socket and is refused at once. */
  ghost predicate AllRefused(a: Answers, k: nat, n: nat) {
    forall i :: k <= i < k + n ==>
      SocketAt(a, i).fd != -1 && SocketAt(a, i).nonBlocking && SocketAt(a, i).connect.Refused?
  }

  /** The reply codes of section 6 of RFC 1928, by what connect said. */
  ghost predicate Tells(code: byte, e: R.Errno) {
    && (code == 0x00 <==> e == R.NoError)
    && (code == 0x03 <==> e == R.ENetUnreach)
    && (code == 0x04 <==> e == R.EHostUnreach)
    && (code == 0x05 <==> e == R.EConnRefused)
    && (code == 0x06 <==> e == R.ETimedOut)
    && (code == 0x08 <==> e == R.EAfNoSupport)
    && (code == 0x01 <==> e == R.OtherError)
  }

  /** The buffer holds one reply to the request, and its second octet tells the client about e. */
  ghost predicate RepliesWith(contents: seq<byte>, e: R.Errno, q: R.Request) {
    |contents| >= 2 && Tells(contents[1], e) && contents == R.Reply(contents[1], q)
  }

  lemma CodesTell(e: R.Errno, q: R.Request)
    ensures RepliesWith(R.Reply(R.ErrnoToSocks(e), q), e, q)
  {
  }

  /**
   * When every remaining address is refused at once, each is tried exactly once,
   * and exactly one reply, whose code is that of the last errno, is ready for the
   * client, who is now watched for writing.
   */
  lemma {:induction false} LastRefusalIsReported(c: Context, a: Answers, k: nat)
    requires CanConnect(c) && AllRefused(a, k, Untried(c.s.resolution))
    requires RequestConnect(c, a, k).c.honest && Fifo.Room(c.s.wb) >= 262 && R.Snug(c.s.request)
    ensures var n := RequestConnect(c, a, k);
            var tries := Untried(c.s.resolution);
            var last := SocketAt(a, k + tries - 1).connect.error;
            && n.st.RequestWrite?
            && RepliesWith(n.c.s.wb.contents, last, c.s.request)
            && n.c.s.resolution.attempts == c.s.resolution.attempts + tries
            && Wants(n.c, c.s.clientFd, WRITE)
    decreases c.s.resolution.addresses - c.s.resolution.current
  {
    hide R.Reply, RepliesWith, DropOrigin, OpenOrigin, OnConnectRefused, Owns, RelayFits, R.Snug;
    var socket := SocketAt(a, k);
    ConnectDoubts(c, a, k);
    AttemptKeeps(c, socket);
    var c1 := OpenOrigin(DropOrigin(c), socket);
    var e := socket.connect.error;
    var c2 := WithStatus(Doubt(c1, e != R.NoError), R.ErrnoToSocks(e));
    if HasNext(c2.s.resolution) {
      LastRefusalIsReported(Advance(c2), a, k + 1);
    } else {
      R.SnugReplyFits(c2.s.request, c2.s.status);
      CodesTell(e, c.s.request);
      RefusalReported(c2);
    }
  }

  /** connect has begun and will be heard of later. */
  ghost predicate Pending(k: Socket) { k.fd != -1 && k.nonBlocking && k.connect.InProgress? }

  /** There is no socket, it cannot be made non-blocking, or connect returned 0, for which there is no branch. */
  ghost predicate Hopeless(k: Socket) { k.fd == -1 || !k.nonBlocking || k.connect.Connected? }

  /** What a new socket changes. */
  lemma AttemptLeaves(c: Context, k: Socket)
    requires Owning(c) && k.fd != -1 && OpenOrigin(DropOrigin(c), k).honest
    ensures var c1 := OpenOrigin(DropOrigin(c), k);
            && c1.items == c.items - {c.s.originFd} && c1.open == c.open - {c.s.originFd} + {k.fd}
            && k.fd >= 0 && k.fd !in c.open - {c.s.originFd} && k.fd !in c1.items && c1.id == c.id
            && c1.s.clientFd == c.s.clientFd && c1.s.originFd == k.fd && c1.s.clientFd in c1.items
  {
    hide GiveUp;
  }

  lemma PendingTaken(c: Context)
    requires c.s.clientFd in c.items && 0 <= c.s.clientFd < 1024 && 0 <= c.s.originFd < 1024 && c.s.originFd !in c.items
    ensures var n := OnConnectPending(c);
            && n.st.RequestConnecting? && n.c.s == c.s && n.c.open == c.open
            && n.c.items == c.items[c.s.originFd := Item(Interest(false, true), SocksSession, c.id)]
                            [c.s.clientFd := c.items[c.s.clientFd].(interest := Interest(false, false))]
  {
  }

  /** Giving up a socket for another one. */
  lemma Replaced(open: set<int>, origin: int, first: int, last: int)
    requires first !in open - {origin}
    ensures open - {origin} + {first} - {first} + {last} == open - {origin} + {last}
  {
  }

  /** The first attempt that is not refused cannot be made at all: the session is ended. */
  lemma {:induction false} HopelessSocketEnds(c: Context, a: Answers, k: nat, j: nat)
    requires j < Untried(c.s.resolution) && AllRefused(a, k, j) && Hopeless(SocketAt(a, k + j))
    ensures RequestConnect(c, a, k).st.Error?
    decreases j
  {
    hide R.Reply, DropOrigin, OpenOrigin;
    if j > 0 {
      var socket := SocketAt(a, k);
      var e := socket.connect.error;
      var c2 := WithStatus(Doubt(OpenOrigin(DropOrigin(c), socket), e != R.NoError), R.ErrnoToSocks(e));
      HopelessSocketEnds(Advance(c2), a, k + 1, j - 1);
    }
  }

  /** A descriptor beyond the table's limit cannot be watched: the session is ended. */
  lemma {:induction false} DistantSocketEnds(c: Context, a: Answers, k: nat, j: nat)
    requires j < Untried(c.s.resolution) && AllRefused(a, k, j)
    requires Pending(SocketAt(a, k + j)) && SocketAt(a, k + j).fd >= 1024
    ensures RequestConnect(c, a, k).st.Error?
    decreases j
  {
    hide R.Reply, DropOrigin;
    if j > 0 {
      var socket := SocketAt(a, k);
      var e := socket.connect.error;
      var c2 := WithStatus(Doubt(OpenOrigin(DropOrigin(c), socket), e != R.NoError), R.ErrnoToSocks(e));
      DistantSocketEnds(Advance(c2), a, k + 1, j - 1);
    }
  }

  /** request_connect starts no thread. */
  lemma {:induction false} ConnectSpawnsNone(c: Context, a: Answers, k: nat)
    ensures RequestConnect(c, a, k).c.threads == c.threads
    decreases c.s.resolution.addresses - c.s.resolution.current
  {
    hide R.Reply, RegisterOrigin, DropOrigin, OpenOrigin;
    var socket := SocketAt(a, k);
    if socket.fd != -1 && socket.nonBlocking && socket.connect.Refused? {
      var e := socket.connect.error;
      var c2 := WithStatus(Doubt(OpenOrigin(DropOrigin(c), socket), e != R.NoError), R.ErrnoToSocks(e));
      if HasNext(c2.s.resolution) {
        ConnectSpawnsNone(Advance(c2), a, k + 1);
      }
    }
  }

  /** The session after the k-th socket was refused, at its next address. */
  function AfterRefusal(c: Context, k: Socket): Context
    requires k.connect.Refused?
  {
    var e := k.connect.error;
    Advance(WithStatus(Doubt(OpenOrigin(DropOrigin(c), k), e != R.NoError), R.ErrnoToSocks(e)))
  }

  lemma RefusedGoesOn(c: Context, a: Answers, k: nat)
    requires CanConnect(c) && AllRefused(a, k, 1) && 1 < Untried(c.s.resolution) && RequestConnect(c, a, k).c.honest
    ensures var c1, fd, r := AfterRefusal(c, SocketAt(a, k)), SocketAt(a, k).fd, c.s.resolution;
            && CanConnect(c1) && RequestConnect(c1, a, k + 1) == RequestConnect(c, a, k)
            && c1.items == c.items - {c.s.originFd} && c1.open == c.open - {c.s.originFd} + {fd}
            && fd !in c.open - {c.s.originFd} && fd !in c1.items && c1.id == c.id
            && c1.s.clientFd == c.s.clientFd && c1.s.originFd == fd && c1.s.clientFd in c1.items
            && c1.s.resolution == r.(current := r.current + 1, attempts := r.attempts + 1)
  {
    var socket := SocketAt(a, k);
    ConnectDoubts(c, a, k);
    AttemptLeaves(c, socket);
    AttemptKeeps(c, socket);
    hide DropOrigin, OpenOrigin, Owns, RelayFits, OnConnectRefused;
  }

  /** The outcome of an attempt that is under way. */
  ghost predicate Underway(c: Context, n: Next, fd: int, j: nat) {
    && c.s.clientFd in c.items && fd >= 0 && fd !in c.open - {c.s.originFd}
    && n.st.RequestConnecting? && n.c.s.originFd == fd && n.c.open == c.open - {c.s.originFd} + {fd}
    && n.c.items == (c.items - {c.s.originFd})[fd := Item(Interest(false, true), SocksSession, c.id)]
                    [c.s.clientFd := c.items[c.s.clientFd].(interest := Interest(false, false))]
    && n.c.s.resolution.attempts == c.s.resolution.attempts + j + 1
    && n.c.s.resolution.current == c.s.resolution.current + j
  }

  lemma PendingUnderway(c: Context, a: Answers, k: nat)
    requires CanConnect(c) && Pending(SocketAt(a, k)) && SocketAt(a, k).fd < 1024 && RequestConnect(c, a, k).c.honest
    ensures Underway(c, RequestConnect(c, a, k), SocketAt(a, k).fd, 0)
  {
    var socket := SocketAt(a, k);
    ConnectDoubts(c, a, k);
    AttemptLeaves(c, socket);
    var c1 := OpenOrigin(DropOrigin(c), socket);
    assert 0 <= c.s.clientFd < 1024;
    hide DropOrigin, OpenOrigin, Owns, RelayFits, OnConnectPending;
    PendingTaken(c1);
  }

  /**
   * The first attempt that is not refused at once is the one waited for: its socket
   * is watched for writing with the session's own data, the client for nothing, and
   * of the sockets tried only this one is left open.
   */
  lemma {:induction false} FirstPendingIsTaken(c: Context, a: Answers, k: nat, j: nat)
    requires CanConnect(c) && j < Untried(c.s.resolution) && AllRefused(a, k, j)
    requires Pending(SocketAt(a, k + j)) && SocketAt(a, k + j).fd < 1024
    requires RequestConnect(c, a, k).c.honest
    ensures Underway(c, RequestConnect(c, a, k), SocketAt(a, k + j).fd, j)
    decreases j
  {
    if j == 0 {
      PendingUnderway(c, a, k);
    } else {
      RefusedGoesOn(c, a, k);
      var c1 := AfterRefusal(c, SocketAt(a, k));
      hide CanConnect, RequestConnect, AfterRefusal;
      FirstPendingIsTaken(c1, a, k + 1, j - 1);
      Replaced(c.open, c.s.originFd, c1.s.originFd, SocketAt(a, k + j).fd);
      assert c1.items - {c1.s.originFd} == c1.items;
    }
  }

  lemma RefusalReported(c: Context)
    requires Owning(c) && c.s.wb.contents == [] && Fifo.Room(c.s.wb) >= |R.Reply(c.s.status, c.s.request)|
    ensures var n := OnConnectRefused(c);
            && n.st.RequestWrite? && n.c.s.wb.contents == R.Reply(c.s.status, c.s.request)
            && n.c.s.resolution == c.s.resolution && Wants(n.c, c.s.clientFd, WRITE)
  {
    hide R.Reply;
    SetInterestKeeps(Append(c, R.Reply(c.s.status, c.s.request)), c.s.clientFd, WRITE);
  }

  /** The outcome of a pending connect, when there is no other address, is reported in exactly one reply. */
  lemma PendingOutcomeIsReported(c: Context, key: int, a: Answers)
    requires ReadyOrigin(c, key) && Fifo.Room(c.s.wb) >= 262 && R.Snug(c.s.request)
    requires a.soError.Known? && !HasNext(c.s.resolution)
    ensures var n := OnConnecting(c, key, a);
            && n.st.RequestWrite?
            && RepliesWith(n.c.s.wb.contents, a.soError.error, c.s.request)
            && (n.c.s.connected <==> a.soError.error == R.NoError)
            && Wants(n.c, c.s.clientFd, WRITE) && Wants(n.c, key, NOOP)
  {
    hide R.Reply, RequestConnect, RepliesWith;
    var e := a.soError.error;
    CodesTell(e, c.s.request);
    var c1 := if e == R.NoError then OnConnected(c, key) else WithStatus(c, R.ErrnoToSocks(e));
    R.SnugReplyFits(c1.s.request, c1.s.status);
    var c2 := Append(c1, R.Reply(c1.s.status, c1.s.request));
    assert [] + R.Reply(c1.s.status, c1.s.request) == R.Reply(c1.s.status, c1.s.request);
    SetInterestKeeps(c2, c.s.clientFd, WRITE);
    SetInterestKeeps(SetInterestOf(c2, c.s.clientFd, WRITE).0, key, NOOP);
  }

  /** If getsockopt itself fails, the client is told of a general failure. */
  lemma UnknownOutcomeIsReported(c: Context, key: int, a: Answers)
    requires ReadyOrigin(c, key) && Fifo.Room(c.s.wb) >= 262 && R.Snug(c.s.request) && a.soError.Unknown?
    ensures var n := OnConnecting(c, key, a);
            && n.st.RequestWrite? && RepliesWith(n.c.s.wb.contents, R.OtherError, c.s.request) && !n.c.s.connected
            && Wants(n.c, c.s.clientFd, WRITE) && Wants(n.c, key, NOOP)
  {
    hide R.Reply, RequestConnect, RepliesWith;
    CodesTell(R.OtherError, c.s.request);
    var c1 := WithStatus(c, R.GENERAL_FAILURE);
    R.SnugReplyFits(c1.s.request, c1.s.status);
    var c2 := Append(c1, R.Reply(c1.s.status, c1.s.request));
    assert [] + R.Reply(c1.s.status, c1.s.request) == R.Reply(c1.s.status, c1.s.request);
    SetInterestKeeps(c2, c.s.clientFd, WRITE);
    SetInterestKeeps(SetInterestOf(c2, c.s.clientFd, WRITE).0, key, NOOP);
  }

  /** A pending connect that fails while addresses are left is not reported: there is another attempt. */
  lemma PendingFailureRetries(c: Context, key: int, a: Answers)
    requires ReadyOrigin(c, key) && a.soError.Known? && a.soError.error != R.NoError && HasNext(c.s.resolution)
    ensures var n := OnConnecting(c, key, a);
            && n.c.s.resolution.attempts > c.s.resolution.attempts
            && n.c.s.resolution.current > c.s.resolution.current
            && !n.c.s.connected
  {
    hide RequestConnect, ReportConnection;
    ConnectTries(Advance(WithStatus(c, R.ErrnoToSocks(a.soError.error))), a, 0);
  }

  /** Every call of request_connect makes at least one attempt and never goes back. */
  lemma {:induction false} ConnectTries(c: Context, a: Answers, k: nat)
    ensures var n := RequestConnect(c, a, k);
            && n.c.s.resolution.attempts > c.s.resolution.attempts
            && n.c.s.resolution.current >= c.s.resolution.current && n.c.s.connected == c.s.connected
    decreases c.s.resolution.addresses - c.s.resolution.current
  {
    hide R.Reply, SetInterestOf, RegisterOrigin, DropOrigin, OpenOrigin;
    var socket := SocketAt(a, k);
    if socket.fd != -1 && socket.nonBlocking && socket.connect.Refused? {
      var e := socket.connect.error;
      var c2 := WithStatus(Doubt(OpenOrigin(DropOrigin(c), socket), e != R.NoError), R.ErrnoToSocks(e));
      if HasNext(c2.s.resolution) {
        ConnectTries(Advance(c2), a, k + 1);
      }
    }
  }

  // ----- the abort

  /** The one abort left happens exactly when the outcome does not fit in the write buffer. */
  lemma AbortsIffReplyTooBig(c: Context, key: int)
    requires CanReport(c, key)
    ensures ReplyTooBig in ReportConnection(c, key).c.anomalies <==>
            c.s.wb.capacity < |R.Reply(c.s.status, c.s.request)|
  {
    hide R.Reply;
    var reply := R.Reply(c.s.status, c.s.request);
    if Fifo.Room(c.s.wb) >= |reply| {
      var c1 := Append(c, reply);
      SetInterestKeeps(c1, c.s.clientFd, WRITE);
      SetInterestKeeps(SetInterestOf(c1, c.s.clientFd, WRITE).0, key, NOOP);
    }
  }

  /** A session whose buffers hold any reply, and whose request is no longer than the wire allows. */
  ghost predicate Ample(s: Session) { s.wb.capacity >= 262 && R.Snug(s.request) }

  lemma {:induction false} ConnectStaysAmple(c: Context, a: Answers, k: nat)
    requires Ample(c.s)
    ensures Ample(RequestConnect(c, a, k).c.s)
    ensures ReplyTooBig in RequestConnect(c, a, k).c.anomalies ==> ReplyTooBig in c.anomalies
    decreases c.s.resolution.addresses - c.s.resolution.current
  {
    hide R.Reply, R.Snug, SetInterestOf, RegisterOrigin, DropOrigin, OpenOrigin;
    var socket := SocketAt(a, k);
    if socket.fd != -1 && socket.nonBlocking && socket.connect.Refused? {
      var e := socket.connect.error;
      var c2 := WithStatus(Doubt(OpenOrigin(DropOrigin(c), socket), e != R.NoError), R.ErrnoToSocks(e));
      if HasNext(c2.s.resolution) {
        ConnectStaysAmple(Advance(c2), a, k + 1);
      }
    }
  }

  ghost predicate Spares(c: Context, n: Next) {
    Ample(n.c.s) && (ReplyTooBig in n.c.anomalies ==> ReplyTooBig in c.anomalies)
  }

  lemma ProcessSpares(c: Context, key: int, a: Answers)
    requires Ample(c.s)
    ensures Spares(c, RequestProcess(c, key, a))
  {
    hide RequestConnect, R.Snug, SetInterestOf;
    ConnectStaysAmple(c, a, 0);
  }

  lemma TakeSpares(c: Context, r: Recv)
    requires Ample(c.s) && !R.IsDone(c.s.request)
    ensures var c1 := TakeRequest(Receive(c, r));
            Ample(c1.s) && c1.anomalies == c.anomalies
  {
    hide R.Parse, R.Snug;
    R.ParseKeepsSnug(c.s.request, Receive(c, r).s.rb.contents);
  }

  lemma RequestReadSpares(c: Context, key: int, a: Answers)
    requires Ample(c.s) && !R.IsDone(c.s.request)
    ensures Spares(c, OnRequestRead(c, key, a))
  {
    hide TakeRequest, Receive, RequestProcess, Ample;
    TakeSpares(c, a.recv);
    ProcessSpares(TakeRequest(Receive(c, a.recv)), key, a);
  }

  lemma ConnectingSpares(c: Context, key: int, a: Answers)
    requires Ample(c.s) && c.s.wb == Fifo.Empty(c.s.wb.capacity)
    ensures Spares(c, OnConnecting(c, key, a))
  {
    hide R.Reply, RequestConnect, R.Snug, SetInterestOf;
    var c1 := match a.soError
      case Unknown => WithStatus(c, R.GENERAL_FAILURE)
      case Known(e) => if e == R.NoError then OnConnected(c, key) else WithStatus(c, R.ErrnoToSocks(e));
    R.SnugReplyFits(c1.s.request, c1.s.status);
    ConnectStaysAmple(Advance(c1), a, 0);
  }

  lemma HelloSpares(c: Context, key: int, a: Answers)
    requires Ample(c.s)
    ensures Spares(c, OnHelloRead(c, key, a.recv))
  {
    hide R.Snug, SetInterestOf, H.Parse;
  }

  /** Sending leaves the size of the buffer and the request alone. */
  lemma SendsAmple(c: Context, n: int)
    requires Ample(c.s)
    ensures n >= 0 ==> Ample(Send(c, n).s)
    ensures forall s: Session :: s.wb.capacity == c.s.wb.capacity && s.request == c.s.request ==> Ample(s)
  {
    hide R.Snug;
  }

  lemma HelloWriteSpares(c: Context, key: int, a: Answers)
    requires Ample(c.s)
    ensures Spares(c, OnHelloWrite(c, key, a.sent))
  {
    SendsAmple(c, a.sent);
    hide Ample, Send, SetInterestOf;
  }

  lemma AnswerSpares(c: Context, key: int)
    requires Ample(c.s)
    ensures Spares(c, AnswerCredentials(c, key))
  {
    hide R.Snug, SetInterestOf, CheckUser, A.Reply;
  }

  lemma CredentialsSpare(c: Context, r: Recv)
    requires Ample(c.s)
    ensures var c1 := TakeCredentials(Receive(c, r));
            Ample(c1.s) && c1.anomalies == c.anomalies
  {
    hide R.Snug, A.Parse;
  }

  lemma AuthReadSpares(c: Context, key: int, a: Answers)
    requires Ample(c.s)
    ensures Spares(c, OnAuthRead(c, key, a.recv))
  {
    hide TakeCredentials, Receive, AnswerCredentials, Ample;
    CredentialsSpare(c, a.recv);
    AnswerSpares(TakeCredentials(Receive(c, a.recv)), key);
  }

  lemma AuthWriteSpares(c: Context, key: int, a: Answers)
    requires Ample(c.s)
    ensures Spares(c, OnAuthWrite(c, key, a.sent))
  {
    SendsAmple(c, a.sent);
    hide Ample, Send, SetInterestOf;
  }

  lemma RequestWriteSpares(c: Context, a: Answers)
    requires Ample(c.s)
    ensures Spares(c, OnRequestWrite(c, a.sent))
  {
    SendsAmple(c, a.sent);
    hide Ample, Send, SetInterestOf;
  }

  lemma CopySpares(c: Context, key: int, e: Stm.Event, a: Answers)
    requires Ample(c.s) && c.s.state.Copy?
    ensures Spares(c, Callback(c, key, e, a))
  {
    hide R.Snug, OnCopyRead, OnCopyWrite;
  }

  lemma CallbackSpares(c: Context, key: int, e: Stm.Event, a: Answers)
    requires Good(c) && Ample(c.s) && Stm.Handles(Definition(c.s.state), e)
    ensures Spares(c, Callback(c, key, e, a))
  {
    hide Owning, InterestsFit, RequestConnect, R.Snug, SetInterestOf, Spares;
    hide OnHelloRead, OnHelloWrite, OnAuthRead, OnAuthWrite, OnRequestRead, OnConnecting, OnRequestWrite;
    match c.s.state
    case HelloRead => HelloSpares(c, key, a);
    case HelloWrite => HelloWriteSpares(c, key, a);
    case AuthRead => AuthReadSpares(c, key, a);
    case AuthWrite => AuthWriteSpares(c, key, a);
    case RequestRead => RequestReadSpares(c, key, a);
    case RequestConnecting => ConnectingSpares(c, key, a);
    case RequestResolv => ResolvedSpares(c, a);
    case RequestWrite => RequestWriteSpares(c, a);
    case Copy => CopySpares(c, key, e, a);
    case _ =>
  }

  lemma ResolvedSpares(c: Context, a: Answers)
    requires Ample(c.s)
    ensures Spares(c, OnResolved(c, a))
  {
    hide RequestConnect, R.Snug;
    ConnectStaysAmple(if c.s.resolution.addresses == 0 then WithStatus(c, R.GENERAL_FAILURE) else c, a, 0);
  }

  lemma JumpSpares(c: Context, n: Next)
    requires Spares(c, n)
    ensures var c' := if n.st == Done || n.st == Error then Finish(Jump(n)) else Jump(n);
            Ample(c'.s) && (ReplyTooBig in c'.anomalies ==> ReplyTooBig in c.anomalies)
  {
  }

  lemma DispatchSpares(c: Context, key: int, e: Stm.Event, a: Answers)
    requires Good(c) && Ample(c.s) && Stm.Handles(Definition(c.s.state), e)
    ensures var c' := Dispatch(c, key, e, a);
            Ample(c'.s) && (ReplyTooBig in c'.anomalies ==> ReplyTooBig in c.anomalies)
  {
    hide Callback, Jump, Finish, Good, Ample, Spares;
    CallbackSpares(c, key, e, a);
    JumpSpares(c, Callback(c, key, e, a));
  }

  // ----- buffers too small for any greeting

  /** A session whose buffers hold two octets at most: nobody it serves gets past the hello. */
  ghost predicate Tiny(s: Session) {
    && s.rb.capacity <= 2
    && (s.state.Done? || s.state.Error?
        || (s.state.HelloRead? && s.hello == H.START && s.rb == Fifo.Empty(s.rb.capacity))
        || (s.state.HelloWrite? && s.hello.selected == H.NO_ACCEPTABLE))
  }

  /** Two octets hold a hello only if it offers no method at all. */
  lemma ShortGreeting(auth: bool, octets: seq<byte>)
    requires |octets| <= 2
    ensures H.Parse(auth, H.START, octets).0.selected == H.NO_ACCEPTABLE
  {
    hide H.Parse;
    if octets != [] {
      H.ParseStep(auth, H.START, octets);
      if |octets| == 2 && octets[0] == 0x05 {
        H.ParseStep(auth, H.Feed(auth, H.START, octets[0]), octets[1..]);
      }
      ParsesNothing(auth);
    } else {
      ParsesNothing(auth);
    }
  }

  lemma ParsesNothing(auth: bool)
    ensures forall p: H.Hello :: H.Parse(auth, p, []) == (p, [])
  {
  }

  /** What such a session makes of its first octets. */
  lemma TinyGreeted(c: Context, r: Recv)
    requires Tiny(c.s) && c.s.state.HelloRead? && r.Got?
    ensures var c2 := TakeHello(Receive(c, r));
            && c2.anomalies == c.anomalies && (c2.honest ==> c.honest)
            && c2.s.rb.capacity == c.s.rb.capacity && (c2.honest ==> c2.s.hello.selected == H.NO_ACCEPTABLE)
  {
    hide H.Parse;
    assert [] + r.octets == r.octets;
    if |r.octets| <= 2 {
      ShortGreeting(c.config.auth, r.octets);
    }
  }

  /** The session's next state, as far as it matters here. */
  lemma TinyNext(n: Next)
    requires n.c.s.rb.capacity <= 2
    requires n.st.Done? || n.st.Error? || (n.st.HelloWrite? && n.c.s.hello.selected == H.NO_ACCEPTABLE)
    ensures Tiny(Jump(n).s)
  {
  }

  lemma TinyHelloRead(c: Context, key: int, r: Recv)
    requires Tiny(c.s) && c.s.state.HelloRead?
    ensures var n := OnHelloRead(c, key, r);
            && (n.c.honest ==> Tiny(Jump(n).s))
            && (ReplyTooBig in n.c.anomalies ==> ReplyTooBig in c.anomalies) && (n.c.honest ==> c.honest)
  {
    var n := OnHelloRead(c, key, r);
    if r.Got? {
      TinyGreeted(c, r);
      GreetingAnswered(c, key, r);
      hide OnHelloRead, TakeHello, Receive, Jump;
      assert c.s.rb.capacity <= 2;
      hide Tiny;
      if n.c.honest {
        TinyNext(n);
      }
    }
  }

  /** What follows the parser changes neither the buffer nor the choice. */
  lemma GreetingAnswered(c: Context, key: int, r: Recv)
    requires r.Got?
    ensures var n, c2 := OnHelloRead(c, key, r), TakeHello(Receive(c, r));
            && n.c.s.rb == c2.s.rb && n.c.s.hello == c2.s.hello && n.c.honest == c2.honest
            && (ReplyTooBig in n.c.anomalies ==> ReplyTooBig in c2.anomalies) && (n.st.HelloWrite? || n.st.Error?)
  {
    hide TakeHello, Receive, SetInterestOf, Fifo.Room;
  }

  /** Only a chosen method leads on. */
  lemma GreetingSent(c: Context, key: int, n: int)
    ensures var next := OnHelloWrite(c, key, n);
            && next.c.s == c.s.(wb := next.c.s.wb, script := next.c.s.script)
            && next.c.anomalies <= c.anomalies + {InterestRefused} && (next.c.honest ==> c.honest)
            && (next.st.HelloWrite? || next.st.Done? || next.st.Error?
                || c.s.hello.selected == H.USER_PASS || c.s.hello.selected == H.NO_AUTH)
  {
    hide SetInterestOf, Send, Fifo.CanRead;
  }

  lemma TinyHelloWrite(c: Context, key: int, n: int)
    requires Tiny(c.s) && c.s.state.HelloWrite?
    ensures var next := OnHelloWrite(c, key, n);
            && Tiny(Jump(next).s)
            && (ReplyTooBig in next.c.anomalies ==> ReplyTooBig in c.anomalies) && (next.c.honest ==> c.honest)
  {
    GreetingSent(c, key, n);
    hide OnHelloWrite, Jump;
    assert c.s.rb.capacity <= 2 && c.s.hello.selected == H.NO_ACCEPTABLE;
    hide Tiny;
    TinyNext(OnHelloWrite(c, key, n));
  }

  lemma FinishedTiny(c: Context)
    requires Tiny(c.s)
    ensures Tiny(Finish(c).s) && Finish(c).anomalies == c.anomalies && Finish(c).honest == c.honest
  {
  }

  lemma TinyDispatch(c: Context, key: int, e: Stm.Event, a: Answers)
    requires Tiny(c.s)
    ensures var c' := Dispatch(c, key, e, a);
            c'.honest ==> Tiny(c'.s) && (ReplyTooBig in c'.anomalies ==> ReplyTooBig in c.anomalies)
  {
    if Stm.Handles(Definition(c.s.state), e) {
      if c.s.state.HelloRead? {
        TinyHelloRead(c, key, a.recv);
      } else {
        TinyHelloWrite(c, key, a.sent);
      }
      hide OnHelloRead, OnHelloWrite, Tiny, Finish;
      var n := Callback(c, key, e, a);
      if n.c.honest {
        FinishedTiny(Jump(n));
      } else {
        FinishHonest(Jump(n));
      }
    }
  }

  lemma FinishHonest(c: Context)
    ensures Finish(c).honest == c.honest
  {
  }

  // ----- whole runs

  /** Sizes with which no reply can be too big: enough for the longest, or too few for any session to get so far. */
  predicate Harmless(size: nat) { size >= 262 || size <= 2 }

  ghost predicate Calm(s: Session) { Ample(s) || Tiny(s) }

  lemma DispatchCalm(c: Context, key: int, e: Stm.Event, a: Answers)
    requires Good(c) && Calm(c.s) && Stm.Handles(Definition(c.s.state), e)
    ensures var c' := Dispatch(c, key, e, a);
            c'.honest ==> Calm(c'.s) && (ReplyTooBig in c'.anomalies ==> ReplyTooBig in c.anomalies)
  {
    hide Dispatch, Good, Ample, Tiny;
    if Ample(c.s) {
      DispatchSpares(c, key, e, a);
    } else {
      TinyDispatch(c, key, e, a);
    }
  }

  ghost predicate AllCalm(conns: seq<Conn>) {
    forall id :: 0 <= id < |conns| && conns[id].Proxy? ==> Calm(conns[id].s)
  }

  ghost predicate Spared(w: World) { w.honest ==> AllCalm(w.conns) && ReplyTooBig !in w.anomalies }

  lemma SessionSpares(w: World, id: nat, key: int, e: Stm.Event, a: Answers)
    requires Spared(w) && w.honest && id < |w.conns| && IsLive(w.conns[id])
    requires Good(ContextOf(w, id)) && Deliverable(ContextOf(w, id), key, e)
    ensures Spared(Back(w, id, Dispatch(ContextOf(w, id), key, e, a)))
  {
    hide Dispatch, Good, Deliverable, Calm;
    HandlerExists(ContextOf(w, id), key, e);
    DispatchCalm(ContextOf(w, id), key, e, a);
  }

  lemma InvokeSpares(w: World, key: int, e: Stm.Event, a: Input, served: int)
    requires Kernel(w, served) && Due(w, key, e, served) && Spared(w) && w.honest && Harmless(w.config.bufferSize)
    ensures Spared(Invoke(w, key, w.items[key].handler, w.items[key].data, e, a))
  {
    hide Apart, Table, Handed, Accounted, Good, Dispatch, MngEvent, Calm;
    var item := w.items[key];
    assert ItemOk(item, key, w.passive, w.conns);
    match item.handler
    case SocksPassive =>
      AcceptSpares(w, a.accept, SocksSession, Proxy(New(a.accept.fd, w.config.bufferSize)),
                   MAX_CONNECTIONS - 1 >= w.metrics.current);
    case MngPassive =>
      AcceptSpares(w, a.accept, MngSession, Admin(MngNew(a.accept.fd)),
                   MAX_CONNECTIONS >= w.metrics.current);
    case SocksSession =>
      assert ConnOk(w, item.data);
      SessionSpares(w, item.data, key, e, a.socks);
    case MngSession => MngSpares(w, item.data, key, e, a.mng);
  }

  lemma AcceptSpares(w: World, a: Accept, kind: Kind, n: Conn, allowed: bool)
    requires Spared(w) && w.honest && Harmless(w.config.bufferSize)
    requires n.Proxy? ==> n.s == New(a.fd, w.config.bufferSize)
    ensures Spared(AcceptAs(w, a, kind, n, allowed))
  {
    var w' := AcceptAs(w, a, kind, n, allowed);
    AcceptMakes(w, a, kind, n, allowed);
  }

  lemma MngSpares(w: World, id: nat, key: int, e: Stm.Event, a: MngAnswers)
    requires Spared(w) && w.honest && id < |w.conns| && w.conns[id].Admin?
    ensures Spared(MngEvent(w, id, key, e, a))
  {
    hide Calm, MngCallback, MngJump, MngDefinition, AfterSetInterest;
    EventElsewhere(w, id, key, e, a);
  }

  lemma StepSpares(w: World, act: Action)
    requires Inv(w) && w.honest && Enabled(w, act) && Spared(w) && Harmless(w.config.bufferSize)
    ensures Spared(Effect(w, act))
  {
    hide Structure, Handed, Accounted, Invoke, Calm;
    match act
    case Read(a) =>
      if w.place.i in w.items && w.items[w.place.i].interest.read {
        InvokeSpares(w, w.place.i, Stm.ReadReady, a, -1);
      }
    case Write(a) =>
      if w.place.i in w.items && w.items[w.place.i].interest.write {
        InvokeSpares(w, w.place.i, Stm.WriteReady, a, -1);
      }
    case Block(a) =>
      if w.place.rest != [] {
        var fd, w1 := w.place.rest[0], w.(place := Drain(w.place.rest[1..]));
        TakeJob(w, w1);
        StructureSame(w, w1);
        InvokeSpares(w1, fd, Stm.BlockReady, a, w1.items[fd].data);
      }
    case ThreadResolves(t, n) =>
      if t.id < |w.conns| && w.conns[t.id].Proxy? {
        ResolveSpares(w, t, n);
      }
    case _ =>
  }

  lemma ResolveSpares(w: World, t: Thread, n: nat)
    requires Spared(w) && w.honest && t.id < |w.conns| && w.conns[t.id].Proxy?
    ensures Spared(Resolve(w, t, n))
  {
  }

  /** If no buffer size ever configured is between 3 and 261, no run aborts at all. */
  lemma {:induction false} HarmlessSizesNeverAbort(ws: seq<World>, acts: seq<Action>)
    requires Run(ws, acts)
    requires forall k :: 0 <= k < |ws| ==> Harmless(ws[k].config.bufferSize)
    ensures ws[|acts|].anomalies == {} && AllCalm(ws[|acts|].conns)
    decreases |acts|
  {
    hide Inv, Effect, Enabled, Initial, Calm;
    var n := |acts|;
    if n == 0 {
      InitialClean(ws[0]);
      NoConns(ws[0]);
    } else {
      RunPrefix(ws, acts, n - 1);
      HarmlessSizesNeverAbort(ws[..n], acts[..n - 1]);
      assert Enabled(ws[n - 1], acts[n - 1]) && ws[n] == Effect(ws[n - 1], acts[n - 1]);
      Reachable(ws, acts, n - 1);
      Reachable(ws, acts, n);
      StepSpares(ws[n - 1], acts[n - 1]);
    }
  }
}
