/**
 * The whole conversation with a client. Every octet a session received is
 * accounted for by the hello, the credentials, the request and the relay, in
 * that order, and every octet it sent by the replies and the relay.
 */
module Transcript {
  import opened Bytes
  import opened SelectorModule
  import opened Session
  import opened World
  import opened AuthGate
  import Fifo
  import Stm
  import H = HelloParser
  import A = AuthParser
  import R = RequestParser

  // ----- what has been said, by state

  /** The hello is over, and its answer is the one it asked for when it came. */
  ghost predicate Greeted(hello: H.Hello, greeting: seq<byte>) {
    hello.state.Done? && (H.Explains(true, hello, greeting) || H.Explains(false, hello, greeting))
  }

  /** Authentication is over: no credentials were asked for, or good ones were taken. */
  ghost predicate LoggedIn(selected: byte, auth: A.Auth, authStatus: byte, credentials: seq<byte>) {
    if selected == H.USER_PASS then
      auth.state.Done? && A.Explains(auth, credentials) && authStatus == A.SUCCESS
    else selected == H.NO_AUTH && credentials == []
  }

  ghost predicate Admitted(s: Session) {
    Greeted(s.hello, s.script.greeting) && LoggedIn(s.hello.selected, s.auth, s.authStatus, s.script.credentials)
  }

  ghost predicate Ordered(request: R.Request, order: seq<byte>) {
    request.state.Done? && R.Explains(request, order)
  }

  /** Everything received so far: what the three parsers took, what was relayed, what waits. */
  ghost predicate AllHeard(
    heard: seq<byte>, greeting: seq<byte>, credentials: seq<byte>, order: seq<byte>, relayed: seq<byte>, waiting: seq<byte>)
  {
    heard == greeting + credentials + order + relayed + waiting
  }

  ghost predicate Hearing(s: Session) {
    AllHeard(s.script.heard, s.script.greeting, s.script.credentials, s.script.order, s.relay.toOrigin, s.rb.contents)
  }

  /** The replies before the one to the request. */
  function Preamble(selected: byte): seq<byte> {
    H.Reply(selected) + if selected == H.USER_PASS then A.Reply(A.SUCCESS) else []
  }

  /** Everything sent so far, with what waits, is exactly this. */
  ghost predicate AllTold(told: seq<byte>, waiting: seq<byte>, said: seq<byte>) { told + waiting == said }

  ghost predicate Telling(s: Session, said: seq<byte>) { AllTold(s.script.told, s.wb.contents, said) }

  ghost predicate RelaySpoken(s: Session) {
    && Admitted(s) && Ordered(s.request, s.script.order) && Hearing(s)
    && Telling(s, Preamble(s.hello.selected) + R.Reply(R.SUCCEEDED, s.request) + s.relay.fromOrigin)
  }

  ghost predicate Unrelayed(s: Session) { s.relay == NO_RELAY && Hearing(s) }

  /** The request is known and nothing was answered yet. */
  ghost predicate Unanswered(s: Session) {
    && Unrelayed(s) && Admitted(s) && Ordered(s.request, s.script.order)
    && Telling(s, Preamble(s.hello.selected))
  }

  ghost predicate Spoken(s: Session) {
    match s.state
    case HelloRead =>
      && Unrelayed(s) && s.script == Script([], [], [], [], []) && s.wb.contents == [] && s.hello == H.START
    case HelloWrite =>
      && Unrelayed(s) && Greeted(s.hello, s.script.greeting) && s.script.credentials == s.script.order == []
      && Telling(s, H.Reply(s.hello.selected))
    case AuthRead =>
      && Authenticating(s) && !A.IsDone(s.auth) && Telling(s, H.Reply(s.hello.selected))
    case AuthWrite =>
      && Authenticating(s) && s.auth.state.Done? && Telling(s, H.Reply(s.hello.selected) + A.Reply(s.authStatus))
    case RequestRead =>
      && Unrelayed(s) && Admitted(s) && R.Explains(s.request, s.script.order) && !R.IsDone(s.request)
      && Telling(s, Preamble(s.hello.selected))
    case RequestResolv => Unanswered(s)
    case RequestConnecting => Unanswered(s)
    case RequestWrite =>
      && Unrelayed(s) && Admitted(s) && Ordered(s.request, s.script.order)
      && (Telling(s, Preamble(s.hello.selected) + R.Reply(s.status, s.request))
          || (Telling(s, Preamble(s.hello.selected)) && s.status != R.SUCCEEDED))
    case Copy => RelaySpoken(s)
    case Done => s.relay.stirred ==> RelaySpoken(s)
    case Error => s.relay.stirred ==> RelaySpoken(s)
  }

  ghost predicate Authenticating(s: Session) {
    && Unrelayed(s) && Greeted(s.hello, s.script.greeting) && s.hello.selected == H.USER_PASS && s.script.order == []
    && A.Explains(s.auth, s.script.credentials)
  }

  // ----- every callback keeps the transcript

  /** Octets that arrive are heard, and wait. */
  lemma ReceiveHears(c: Context, r: Recv)
    requires Hearing(c.s)
    ensures Hearing(Receive(c, r).s)
  {
    var t := c.s.script;
    var before := t.greeting + t.credentials + t.order + c.s.relay.toOrigin;
    assert before + c.s.rb.contents + Octets(r) == before + (c.s.rb.contents + Octets(r));
  }

  /** Octets that leave were waiting. */
  lemma SendTells(c: Context, n: nat, said: seq<byte>)
    requires Telling(c.s, said)
    ensures Telling(Send(c, n).s, said)
  {
    var told, waiting, m := c.s.script.told, c.s.wb.contents, Min(n, |c.s.wb.contents|);
    assert waiting == waiting[..m] + waiting[m..];
    assert told + waiting[..m] + waiting[m..] == told + (waiting[..m] + waiting[m..]);
    assert m == |waiting| ==> waiting[m..] == [];
  }

  lemma AppendTells(c: Context, reply: seq<byte>, said: seq<byte>)
    requires Telling(c.s, said)
    ensures Telling(Append(c, reply).s, said + reply)
  {
    assert c.s.script.told + (c.s.wb.contents + reply) == c.s.script.told + c.s.wb.contents + reply;
  }

  /** A parser moves octets from the window to what it took, which is the last thing before the window. */
  lemma HelloMoves(g: seq<byte>, gone: seq<byte>, rest: seq<byte>)
    ensures g + [] + [] + [] + (gone + rest) == (g + gone) + [] + [] + [] + rest
  {
  }

  lemma CredentialsMove(g: seq<byte>, c: seq<byte>, gone: seq<byte>, rest: seq<byte>)
    ensures g + c + [] + [] + (gone + rest) == g + (c + gone) + [] + [] + rest
  {
  }

  lemma RequestMoves(g: seq<byte>, c: seq<byte>, o: seq<byte>, gone: seq<byte>, rest: seq<byte>)
    ensures g + c + o + [] + (gone + rest) == g + c + (o + gone) + [] + rest
  {
  }

  /** The window a parser leaves holds what it returned as unread. */
  lemma DropLeaves(v: Fifo.View, rest: seq<byte>)
    requires |rest| <= |v.contents| && v.contents[|v.contents| - |rest|..] == rest
    ensures Drop(v, rest).contents == rest
  {
    if rest == [] {
    } else {
    }
  }

  /** The two parts of a window. */
  lemma Split(v: Fifo.View, rest: seq<byte>)
    requires |rest| <= |v.contents| && v.contents[|v.contents| - |rest|..] == rest
    ensures v.contents == Gone(v, rest) + rest
  {
  }

  lemma TakeHelloHears(c: Context)
    requires Hearing(c.s) && c.s.script.credentials == c.s.script.order == c.s.relay.toOrigin == []
    requires H.Explains(c.config.auth, c.s.hello, c.s.script.greeting) && !H.IsDone(c.s.hello)
    ensures var c1 := TakeHello(c);
            Hearing(c1.s) && H.Explains(c.config.auth, c1.s.hello, c1.s.script.greeting)
  {
    hide H.Explains, H.Parse;
    var (p, rest) := H.Parse(c.config.auth, c.s.hello, c.s.rb.contents);
    H.ParseExplained(c.config.auth, c.s.hello, c.s.script.greeting, c.s.rb.contents);
    DropLeaves(c.s.rb, rest);
    Split(c.s.rb, rest);
    HelloMoves(c.s.script.greeting, Gone(c.s.rb, rest), rest);
    hide Drop;
  }

  lemma TakeCredentialsHears(c: Context)
    requires Hearing(c.s) && c.s.script.order == c.s.relay.toOrigin == []
    requires A.Explains(c.s.auth, c.s.script.credentials) && !A.IsDone(c.s.auth)
    ensures var c1 := TakeCredentials(c);
            Hearing(c1.s) && A.Explains(c1.s.auth, c1.s.script.credentials)
  {
    hide A.Explains, A.Parse;
    var (p, rest) := A.Parse(c.s.auth, c.s.rb.contents);
    A.ParseExplained(c.s.auth, c.s.script.credentials, c.s.rb.contents);
    DropLeaves(c.s.rb, rest);
    Split(c.s.rb, rest);
    CredentialsMove(c.s.script.greeting, c.s.script.credentials, Gone(c.s.rb, rest), rest);
    hide Drop;
  }

  lemma TakeRequestHears(c: Context)
    requires Hearing(c.s) && c.s.relay.toOrigin == []
    requires R.Explains(c.s.request, c.s.script.order) && !R.IsDone(c.s.request)
    ensures var c1 := TakeRequest(c);
            Hearing(c1.s) && R.Explains(c1.s.request, c1.s.script.order)
  {
    hide R.Explains, R.Parse;
    var (p, rest) := R.Parse(c.s.request, c.s.rb.contents);
    R.ParseExplained(c.s.request, c.s.script.order, c.s.rb.contents);
    DropLeaves(c.s.rb, rest);
    Split(c.s.rb, rest);
    RequestMoves(c.s.script.greeting, c.s.script.credentials, c.s.script.order, Gone(c.s.rb, rest), rest);
    hide Drop;
  }

  // ----- hello and authentication

  ghost predicate Speaks(n: Next) { Spoken(Jump(n).s) }

  /** Receiving and taking touch no more of the session than this. */
  lemma OnlyHeard(c: Context, r: Recv)
    ensures var s := Receive(c, r).s;
            s == c.s.(rb := s.rb, script := s.script) && s.script == c.s.script.(heard := s.script.heard)
    ensures Receive(c, r).config == c.config
  {
  }

  lemma OnlyTold(c: Context, n: nat)
    ensures var s := Send(c, n).s;
            s == c.s.(wb := s.wb, script := s.script) && s.script == c.s.script.(told := s.script.told)
    ensures Send(c, n).config == c.config
  {
  }

  /** The hello as it stands before it is answered. */
  lemma HelloTaken(c: Context, r: Recv)
    requires c.s.state.HelloRead? && Spoken(c.s)
    ensures var c1 := TakeHello(Receive(c, r));
            && Unrelayed(c1.s) && c1.s.script.credentials == c1.s.script.order == [] && c1.s.state.HelloRead?
            && Telling(c1.s, []) && (c1.s.hello.state.Done? ==> Greeted(c1.s.hello, c1.s.script.greeting))
  {
    hide H.Parse, Receive, AllHeard, Drop, Gone, H.Explains;
    ReceiveHears(c, r);
    OnlyHeard(c, r);
    NothingHeard(c.config.auth);
    TakeHelloHears(Receive(c, r));
  }

  /** Fresh parsers have heard nothing. */
  lemma NothingHeard(auth: bool)
    ensures H.Explains(auth, H.START, []) && A.Explains(A.START, []) && R.Explains(R.START, [])
  {
  }

  /** The callback either fails or queues the reply. */
  lemma HelloReadShape(c: Context, key: int, r: Recv)
    ensures var n, c1 := OnHelloRead(c, key, r), TakeHello(Receive(c, r));
            && (n.st.HelloWrite? ==>
                  && r.Got? && c1.s.hello.state.Done?
                  && n.c.s == Append(c1, H.Reply(c1.s.hello.selected)).s)
            && (n.st.HelloWrite? || n.st.Error?) && n.c.s.relay == c.s.relay && n.c.s.state == c.s.state
  {
    hide TakeHello, Receive, SetInterestOf, H.Reply, Fifo.Room;
  }

  lemma ReplyQueued(c: Context)
    requires Unrelayed(c.s) && c.s.script.credentials == c.s.script.order == [] && Telling(c.s, [])
    requires Greeted(c.s.hello, c.s.script.greeting)
    ensures Spoken(Append(c, H.Reply(c.s.hello.selected)).s.(state := HelloWrite))
  {
    hide AllHeard, AllTold, Greeted, H.Reply;
    AppendTells(c, H.Reply(c.s.hello.selected), []);
    assert [] + H.Reply(c.s.hello.selected) == H.Reply(c.s.hello.selected);
  }

  lemma HelloReadSpeaks(c: Context, key: int, r: Recv)
    requires c.s.state.HelloRead? && Spoken(c.s)
    ensures Speaks(OnHelloRead(c, key, r))
  {
    HelloReadShape(c, key, r);
    if r.Got? {
      var c1 := TakeHello(Receive(c, r));
      HelloTaken(c, r);
      if c1.s.hello.state.Done? {
        ReplyQueued(c1);
      }
    }
    hide OnHelloRead, TakeHello, Receive, Append, AllHeard, AllTold, Greeted, H.Reply;
  }

  /** The hello reply is out. */
  lemma GreetingEnds(s: Session)
    requires s.state.HelloWrite? && Spoken(s)
    ensures s.hello.selected == H.USER_PASS ==> Spoken(Arrive(s, AuthRead))
    ensures s.hello.selected == H.NO_AUTH ==> Spoken(Arrive(s, RequestRead))
  {
    hide AllHeard, AllTold, Greeted, H.Reply;
    NothingHeard(true);
    hide A.Explains, R.Explains;
    assert H.Reply(s.hello.selected) + [] == H.Reply(s.hello.selected);
  }

  /** Only the chosen method decides where the session goes, and only what was sent changes. */
  lemma HelloWriteShape(c: Context, key: int, n: int)
    ensures var next := OnHelloWrite(c, key, n);
            && next.c.s == (if n < 0 then c.s else Send(c, n).s)
            && (next.st.HelloWrite? || next.st.Error? || next.st.Done?
                || (next.st.AuthRead? && c.s.hello.selected == H.USER_PASS)
                || (next.st.RequestRead? && c.s.hello.selected == H.NO_AUTH))
  {
    hide SetInterestOf, Send, Fifo.CanRead;
  }

  lemma StillGreeted(c: Context, n: nat)
    requires c.s.state.HelloWrite? && Spoken(c.s)
    ensures Spoken(Send(c, n).s) && Send(c, n).s.state.HelloWrite? && Send(c, n).s.relay == NO_RELAY
  {
    hide Send, AllHeard, AllTold, Greeted, H.Reply;
    OnlyTold(c, n);
    SendTells(c, n, H.Reply(c.s.hello.selected));
  }

  lemma HelloWriteSpeaks(c: Context, key: int, n: int)
    requires c.s.state.HelloWrite? && Spoken(c.s)
    ensures Speaks(OnHelloWrite(c, key, n))
  {
    HelloWriteShape(c, key, n);
    if n >= 0 {
      OnlyTold(c, n);
      SendTells(c, n, H.Reply(c.s.hello.selected));
      StillGreeted(c, n);
      hide Spoken, OnHelloWrite, Send;
      GreetingEnds(Send(c, n).s);
    }
    hide OnHelloWrite, Send, AllHeard, AllTold, Greeted, H.Reply;
  }

  /** The verdict is queued behind the hello reply. */
  lemma VerdictQueued(c: Context, verdict: byte)
    requires Authenticating(c.s) && c.s.auth.state.Done? && Telling(c.s, H.Reply(c.s.hello.selected))
    ensures Spoken(Append(WithVerdict(c, verdict), A.Reply(verdict)).s.(state := AuthWrite))
  {
    hide Greeted, A.Explains, AllHeard, AllTold, H.Reply, A.Reply;
    AppendTells(WithVerdict(c, verdict), A.Reply(verdict), H.Reply(c.s.hello.selected));
  }

  /** The callback either fails or queues the verdict. */
  lemma AnswerShape(c: Context, key: int)
    requires A.IsDone(c.s.auth)
    ensures var n := AnswerCredentials(c, key);
            var verdict := if CheckUser(c.config.users, c.s.auth.user, c.s.auth.pass) then A.SUCCESS else A.FAIL;
            if n.st.Error? then n.c.s.relay == c.s.relay
            else c.s.auth.state.Done? && n.st.AuthWrite? && n.c.s == Append(WithVerdict(c, verdict), A.Reply(verdict)).s
  {
    hide SetInterestOf, CheckUser, A.Reply, Fifo.Room, Fifo.Put;
  }

  lemma AnswerSpeaks(c: Context, key: int)
    requires c.s.state.AuthRead? && Authenticating(c.s) && A.IsDone(c.s.auth) && Telling(c.s, H.Reply(c.s.hello.selected))
    ensures Speaks(AnswerCredentials(c, key))
  {
    var verdict := if CheckUser(c.config.users, c.s.auth.user, c.s.auth.pass) then A.SUCCESS else A.FAIL;
    AnswerShape(c, key);
    hide AnswerCredentials, Greeted, Hearing, A.Explains, Telling, H.Reply, A.Reply, CheckUser, Spoken;
    var n := AnswerCredentials(c, key);
    if n.st.Error? {
      FailureSpeaks(n);
    } else {
      VerdictQueued(c, verdict);
    }
  }

  lemma CredentialsTaken(c: Context, r: Recv)
    requires c.s.state.AuthRead? && Spoken(c.s)
    ensures var c1 := TakeCredentials(Receive(c, r));
            Authenticating(c1.s) && c1.s.state.AuthRead? && Telling(c1.s, H.Reply(c1.s.hello.selected))
  {
    hide A.Parse, Receive, AllHeard, AllTold, Drop, Gone, A.Explains, Greeted;
    ReceiveHears(c, r);
    OnlyHeard(c, r);
    TakeCredentialsHears(Receive(c, r));
  }

  lemma AuthReadSpeaks(c: Context, key: int, r: Recv)
    requires c.s.state.AuthRead? && Spoken(c.s)
    ensures Speaks(OnAuthRead(c, key, r))
  {
    hide TakeCredentials, Receive, Authenticating, AnswerCredentials, Telling, H.Reply;
    if !r.Failed? {
      var c1 := TakeCredentials(Receive(c, r));
      CredentialsTaken(c, r);
      if A.IsDone(c1.s.auth) {
        AnswerSpeaks(c1, key);
      }
    } else {
      QuietFailure(c);
    }
  }

  /** Ending a session that never relayed claims nothing. */
  lemma QuietFailure(c: Context)
    requires c.s.state.AuthRead? && Spoken(c.s)
    ensures Speaks(Next(c, Error))
  {
  }

  /** The verdict is out, and it was a good one. */
  lemma AuthenticationEnds(s: Session)
    requires s.state.AuthWrite? && Spoken(s) && s.authStatus == A.SUCCESS
    ensures Spoken(Arrive(s, RequestRead))
  {
    hide AllHeard, AllTold, Greeted, H.Reply, A.Reply, A.Explains;
    NothingHeard(true);
    hide R.Explains;
  }

  lemma AuthWriteSpeaks(c: Context, key: int, n: int)
    requires c.s.state.AuthWrite? && Spoken(c.s)
    ensures Speaks(OnAuthWrite(c, key, n))
  {
    hide Send, AllHeard, AllTold, Greeted, H.Reply, A.Reply, A.Explains, SetInterestOf, Fifo.CanRead;
    if n >= 0 {
      OnlyTold(c, n);
      SendTells(c, n, H.Reply(c.s.hello.selected) + A.Reply(c.s.authStatus));
      if c.s.authStatus == A.SUCCESS {
        AuthenticationEnds(Send(c, n).s);
      }
    }
  }

  // ----- request

  /** The conversation is where it was. */
  ghost predicate SameTalk(s: Session, s': Session) {
    && s'.script == s.script && s'.hello == s.hello && s'.auth == s.auth && s'.authStatus == s.authStatus
    && s'.request == s.request && s'.rb == s.rb && s'.relay == s.relay && s'.state == s.state
  }

  /** What connecting does to the conversation: nothing, or one reply. */
  ghost predicate Replies(c: Context, n: Next) {
    && SameTalk(c.s, n.c.s)
    && (n.st.RequestConnecting? || n.st.RequestWrite? || n.st.Error?)
    && (n.st.RequestConnecting? ==> n.c.s.wb == c.s.wb)
    && (n.st.RequestWrite? ==> n.c.s.wb == Fifo.Put(c.s.wb, R.Reply(n.c.s.status, c.s.request)))
  }

  lemma PendingReplies(c: Context)
    ensures Replies(c, OnConnectPending(c))
  {
    hide R.Reply, SetInterestOf, RegisterOrigin;
  }

  lemma RefusedReplies(c: Context)
    ensures Replies(c, OnConnectRefused(c))
  {
    hide R.Reply, SetInterestOf, Fifo.Room;
  }

  lemma {:induction false} ConnectReplies(c: Context, a: Answers, k: nat)
    ensures Replies(c, RequestConnect(c, a, k))
    decreases c.s.resolution.addresses - c.s.resolution.current
  {
    hide R.Reply, SetInterestOf, RegisterOrigin, DropOrigin, OpenOrigin, OnConnectPending, OnConnectRefused;
    var socket := SocketAt(a, k);
    var c1 := OpenOrigin(DropOrigin(c), socket);
    PendingReplies(c1);
    if socket.fd != -1 && socket.nonBlocking && socket.connect.Refused? {
      var e := socket.connect.error;
      var c2 := WithStatus(Doubt(c1, e != R.NoError), R.ErrnoToSocks(e));
      RefusedReplies(c2);
      if HasNext(c2.s.resolution) {
        ConnectReplies(Advance(c2), a, k + 1);
      }
    }
  }

  lemma UnansweredSame(s: Session, s': Session)
    requires SameTalk(s, s') && s'.wb == s.wb && Unanswered(s)
    ensures Unanswered(s')
  {
    hide Ordered, AllHeard, AllTold, Preamble, Admitted;
    AdmittedSame(s, s');
  }

  /** One reply was queued for a request that had none. */
  lemma AnsweredSpeaks(c: Context, s': Session)
    requires Unanswered(c.s) && SameTalk(c.s, s') && s'.wb == Fifo.Put(c.s.wb, R.Reply(s'.status, c.s.request))
    ensures Spoken(s'.(state := RequestWrite))
  {
    var said, reply := Preamble(c.s.hello.selected), R.Reply(s'.status, c.s.request);
    AppendTells(c, reply, said);
    hide Admitted, Ordered, AllHeard, AllTold, Preamble, R.Reply;
    AdmittedSame(c.s, s'.(state := RequestWrite));
  }

  lemma RepliesSpeak(c: Context, n: Next)
    requires Unanswered(c.s) && Replies(c, n)
    requires c.s.state.RequestRead? || c.s.state.RequestResolv? || c.s.state.RequestConnecting?
    ensures Speaks(n)
  {
    hide R.Reply, Fifo.Put, Admitted, Ordered, Hearing, Telling;
    match n.st
    case RequestConnecting =>
      UnansweredSame(c.s, n.c.s);
      UnansweredLater(n.c.s, RequestConnecting);
    case RequestWrite => AnsweredSpeaks(c, n.c.s);
    case _ =>
  }

  /** Nothing about the conversation depends on which of the unanswered states it is in. */
  lemma UnansweredLater(s: Session, st: State)
    requires Unanswered(s)
    ensures Unanswered(s.(state := st))
  {
    hide Ordered, AllHeard, AllTold, Preamble, Admitted;
    AdmittedSame(s, s.(state := st));
  }

  lemma AdmittedSame(s: Session, s': Session)
    requires s'.hello == s.hello && s'.auth == s.auth && s'.authStatus == s.authStatus
    requires s'.script.greeting == s.script.greeting && s'.script.credentials == s.script.credentials
    ensures Admitted(s') == Admitted(s)
  {
  }

  lemma DeclineSpeaks(c: Context, key: int, status: byte)
    requires Unanswered(c.s) && c.s.state.RequestRead? && status != R.SUCCEEDED
    ensures Speaks(Decline(c, key, status))
  {
    hide Admitted, Ordered, AllHeard, AllTold, Preamble, R.Reply, SetInterestOf;
    AdmittedSame(c.s, Jump(Decline(c, key, status)).s);
  }

  lemma SpawnSpeaks(c: Context, key: int)
    requires Unanswered(c.s) && c.s.state.RequestRead?
    ensures Speaks(Next(SetInterestOf(Spawn(c, key), key, NOOP).0, RequestResolv))
  {
    hide Admitted, Ordered, AllHeard, AllTold, Preamble, R.Reply, SetInterestOf;
    AdmittedSame(c.s, Jump(Next(SetInterestOf(Spawn(c, key), key, NOOP).0, RequestResolv)).s);
  }

  lemma ProcessSpeaks(c: Context, key: int, a: Answers)
    requires Unanswered(c.s) && c.s.state.RequestRead?
    ensures Speaks(RequestProcess(c, key, a))
  {
    hide Unanswered, Speaks, Decline, Spawn, RequestConnect, SetInterestOf;
    ConnectReplies(c, a, 0);
    RepliesSpeak(c, RequestConnect(c, a, 0));
    DeclineSpeaks(c, key, R.COMMAND_NOT_SUPPORTED);
    DeclineSpeaks(c, key, R.ADDRESS_TYPE_NOT_SUPPORTED);
    DeclineSpeaks(c, key, R.GENERAL_FAILURE);
    SpawnSpeaks(c, key);
  }

  lemma FailureSpeaks(n: Next)
    requires n.c.s.relay == NO_RELAY && n.st.Error?
    ensures Speaks(n)
  {
  }

  lemma ProcessKeepsRelay(c: Context, key: int, a: Answers)
    ensures RequestProcess(c, key, a).c.s.relay == c.s.relay
  {
    hide RequestConnect, SetInterestOf;
    ConnectReplies(c, a, 0);
  }

  lemma RequestTaken(c: Context, r: Recv)
    requires c.s.state.RequestRead? && Spoken(c.s)
    ensures var s := TakeRequest(Receive(c, r)).s;
            && Unrelayed(s) && Admitted(s) && R.Explains(s.request, s.script.order) && s.state.RequestRead?
            && Telling(s, Preamble(s.hello.selected))
  {
    hide R.Parse, Receive, AllHeard, AllTold, Drop, Gone, R.Explains, Admitted, Preamble;
    ReceiveHears(c, r);
    OnlyHeard(c, r);
    TakeRequestHears(Receive(c, r));
    AdmittedSame(c.s, TakeRequest(Receive(c, r)).s);
  }

  lemma RequestReadSpeaks(c: Context, key: int, a: Answers)
    requires c.s.state.RequestRead? && Spoken(c.s)
    ensures Speaks(OnRequestRead(c, key, a))
  {
    if !a.recv.Failed? {
      var c1 := TakeRequest(Receive(c, a.recv));
      RequestTaken(c, a.recv);
      hide TakeRequest, Receive, RequestProcess, Admitted, Telling, R.Explains, Hearing;
      if R.IsDone(c1.s.request) {
        var n := RequestProcess(c1, key, a);
        ProcessKeepsRelay(c1, key, a);
        if R.IsError(c1.s.request) {
          FailureSpeaks(n.(st := Error));
        } else {
          ProcessSpeaks(c1, key, a);
        }
      }
    }
  }

  lemma ResolvedSpeaks(c: Context, a: Answers)
    requires c.s.state.RequestResolv? && Spoken(c.s)
    ensures Speaks(OnResolved(c, a))
  {
    hide RequestConnect, Admitted, Ordered, AllHeard, AllTold, Preamble;
    var c1 := if c.s.resolution.addresses == 0 then WithStatus(c, R.GENERAL_FAILURE) else c;
    ConnectReplies(c1, a, 0);
    AdmittedSame(c.s, c1.s);
    RepliesSpeak(c1, RequestConnect(c1, a, 0));
  }

  lemma ReportSpeaks(c: Context, key: int)
    requires Unanswered(c.s) && c.s.state.RequestConnecting?
    ensures Speaks(ReportConnection(c, key))
  {
    hide Admitted, Ordered, Hearing, Telling, R.Reply, SetInterestOf, Fifo.Room, Fifo.Put;
    AnsweredSpeaks(c, Append(c, R.Reply(c.s.status, c.s.request)).s);
  }

  lemma ConnectingSpeaks(c: Context, key: int, a: Answers)
    requires c.s.state.RequestConnecting? && Spoken(c.s)
    ensures Speaks(OnConnecting(c, key, a))
  {
    hide RequestConnect, ReportConnection, Speaks, Unanswered;
    match a.soError
    case Unknown =>
      UnansweredSame(c.s, WithStatus(c, R.GENERAL_FAILURE).s);
      ReportSpeaks(WithStatus(c, R.GENERAL_FAILURE), key);
    case Known(e) =>
      if e == R.NoError {
        UnansweredSame(c.s, OnConnected(c, key).s);
        ReportSpeaks(OnConnected(c, key), key);
      } else {
        var c1 := WithStatus(c, R.ErrnoToSocks(e));
        UnansweredSame(c.s, c1.s);
        UnansweredSame(c.s, Advance(c1).s);
        ReportSpeaks(c1, key);
        ConnectReplies(Advance(c1), a, 0);
        RepliesSpeak(Advance(c1), RequestConnect(Advance(c1), a, 0));
      }
  }

  /** Entering the relay: all replies are out, and what was read ahead is what is left to send on. */
  lemma RelayStarts(s: Session)
    requires s.state.RequestWrite? && Spoken(s) && s.status == R.SUCCEEDED
    ensures Spoken(Arrive(s, Copy))
  {
    hide AllHeard, AllTold, Ordered, Admitted, Preamble, R.Reply;
    AdmittedSame(s, Arrive(s, Copy));
    var said := Preamble(s.hello.selected) + R.Reply(R.SUCCEEDED, s.request);
    assert said + [] == said;
  }

  lemma SentStaysSpoken(c: Context, n: nat)
    requires c.s.state.RequestWrite? && Spoken(c.s)
    ensures Spoken(Send(c, n).s) && Send(c, n).s.state.RequestWrite? && Send(c, n).s.status == c.s.status
    ensures Send(c, n).s.relay == NO_RELAY
  {
    hide Send, AllHeard, AllTold, Ordered, Admitted, Preamble, R.Reply;
    OnlyTold(c, n);
    AdmittedSame(c.s, Send(c, n).s);
    var said, reply := Preamble(c.s.hello.selected), R.Reply(c.s.status, c.s.request);
    if Telling(c.s, said + reply) {
      SendTells(c, n, said + reply);
    } else {
      SendTells(c, n, said);
    }
  }

  lemma RequestWriteSpeaks(c: Context, n: int)
    requires c.s.state.RequestWrite? && Spoken(c.s)
    ensures Speaks(OnRequestWrite(c, n))
  {
    if n >= 0 {
      SentStaysSpoken(c, n);
      hide Send, Spoken, SetInterestOf, Fifo.CanRead;
      if c.s.status == R.SUCCEEDED {
        RelayStarts(Send(c, n).s);
      }
    }
  }

  // ----- copy

  lemma RelayedSame(s: Session, s': Session)
    requires s'.script == s.script && s'.hello == s.hello && s'.auth == s.auth && s'.authStatus == s.authStatus
    requires s'.request == s.request && s'.rb == s.rb && s'.wb == s.wb
    requires s'.relay == s.relay.(stirred := s'.relay.stirred)
    ensures RelaySpoken(s') == RelaySpoken(s)
  {
    hide Ordered, AllHeard, AllTold, Preamble, R.Reply, Admitted;
    AdmittedSame(s, s');
  }

  lemma ClientHeard(c: Context, octets: seq<byte>)
    requires RelaySpoken(c.s)
    ensures RelaySpoken(ReceiveFromClient(c, octets).s)
  {
    var s, s' := c.s, ReceiveFromClient(c, octets).s;
    var before := s.script.greeting + s.script.credentials + s.script.order + s.relay.toOrigin;
    assert before + s.rb.contents + octets == before + (s.rb.contents + octets);
    hide Ordered, AllTold, Preamble, R.Reply, Admitted;
    AdmittedSame(s, s');
  }

  lemma OriginHeard(c: Context, octets: seq<byte>)
    requires RelaySpoken(c.s)
    ensures RelaySpoken(ReceiveFromOrigin(c, octets).s)
  {
    var s, s' := c.s, ReceiveFromOrigin(c, octets).s;
    hide Ordered, AllHeard, Preamble, R.Reply, Admitted;
    AdmittedSame(s, s');
    var said := Preamble(s.hello.selected) + R.Reply(R.SUCCEEDED, s.request);
    assert said + s.relay.fromOrigin + octets == said + (s.relay.fromOrigin + octets);
    assert s.script.told + s.wb.contents + octets == s.script.told + (s.wb.contents + octets);
  }

  lemma ClientTold(c: Context, n: nat)
    requires RelaySpoken(c.s)
    ensures RelaySpoken(SendToClient(c, n).s)
  {
    var s, s' := c.s, SendToClient(c, n).s;
    SendTells(c, n, Preamble(s.hello.selected) + R.Reply(R.SUCCEEDED, s.request) + s.relay.fromOrigin);
    hide Ordered, AllHeard, AllTold, Preamble, R.Reply, Admitted, Fifo.Take;
    AdmittedSame(s, s');
  }

  /** Octets sent on move from what waits to what was relayed. */
  lemma SentOn(before: seq<byte>, relayed: seq<byte>, waiting: seq<byte>, m: nat)
    requires m <= |waiting|
    ensures before + (relayed + waiting[..m]) + waiting[m..] == before + relayed + waiting
  {
    assert waiting == waiting[..m] + waiting[m..];
    assert before + (relayed + waiting[..m]) + waiting[m..] == before + relayed + (waiting[..m] + waiting[m..]);
  }

  lemma OriginTold(c: Context, n: nat)
    requires RelaySpoken(c.s)
    ensures RelaySpoken(SendToOrigin(c, n).s)
  {
    var s, s', m := c.s, SendToOrigin(c, n).s, Min(n, |c.s.rb.contents|);
    hide Ordered, AllTold, Preamble, R.Reply, Admitted;
    AdmittedSame(s, s');
    assert s'.rb.contents == s.rb.contents[m..];
    SentOn(s.script.greeting + s.script.credentials + s.script.order, s.relay.toOrigin, s.rb.contents, m);
  }

  lemma CopyReadSpeaks(c: Context, key: int, r: Recv)
    requires c.s.state.Copy? && Spoken(c.s)
    ensures Speaks(OnCopyRead(c, key, r))
  {
    var isClient, c0 := key == c.s.clientFd, c.(s := Stir(c.s));
    StirSpeaks(c.s);
    hide Settle, RelaySpoken, Spoken, Speaks, Stir;
    if r.Got? {
      var c1 := if isClient then ReceiveFromClient(c0, r.octets) else ReceiveFromOrigin(c0, r.octets);
      ClientHeard(c0, r.octets);
      OriginHeard(c0, r.octets);
      SettledSpeaks(c1, isClient, Copy);
    } else {
      RelayedSame(c0.s, ShutRead(c0.s, isClient));
      SettledSpeaks(c0.(s := ShutRead(c0.s, isClient)), isClient, Done);
    }
  }

  lemma CopyWriteSpeaks(c: Context, key: int, n: int)
    requires c.s.state.Copy? && Spoken(c.s)
    ensures Speaks(OnCopyWrite(c, key, n))
  {
    var isClient, c0 := key == c.s.clientFd, c.(s := Stir(c.s));
    StirSpeaks(c.s);
    hide Settle, RelaySpoken, Spoken, Speaks, Stir;
    if n >= 0 {
      var c1 := if isClient then SendToClient(c0, n) else SendToOrigin(c0, n);
      ClientTold(c0, n);
      OriginTold(c0, n);
      SettledSpeaks(c1, isClient, Copy);
    } else {
      RelayedSame(c0.s, ShutWrite(c0.s, isClient));
      SettledSpeaks(c0.(s := ShutWrite(c0.s, isClient)), isClient, Done);
    }
  }

  lemma StirSpeaks(s: Session)
    requires s.state.Copy? && Spoken(s)
    ensures RelaySpoken(Stir(s)) && Stir(s).state.Copy?
  {
    hide RelaySpoken;
    RelayedSame(s, Stir(s));
  }

  lemma SettledSpeaks(c: Context, isClient: bool, st: State)
    requires c.s.state.Copy? && RelaySpoken(c.s) && (st.Copy? || st.Done?)
    ensures Speaks(Settle(c, isClient, st))
  {
    hide Settle, RelaySpoken;
    RelayedSame(c.s, c.s.(state := Done));
  }

  // ----- any event, any run

  lemma CallbackSpeaks(c: Context, key: int, e: Stm.Event, a: Answers)
    requires Stm.Handles(Definition(c.s.state), e) && Spoken(c.s)
    ensures Speaks(Callback(c, key, e, a))
  {
    hide Spoken, Speaks, RequestConnect, OnHelloRead, OnHelloWrite, OnAuthRead, OnAuthWrite, OnRequestRead, OnConnecting;
    hide OnRequestWrite, OnCopyRead, OnCopyWrite;
    match c.s.state
    case HelloRead => HelloReadSpeaks(c, key, a.recv);
    case HelloWrite => HelloWriteSpeaks(c, key, a.sent);
    case AuthRead => AuthReadSpeaks(c, key, a.recv);
    case AuthWrite => AuthWriteSpeaks(c, key, a.sent);
    case RequestRead => RequestReadSpeaks(c, key, a);
    case RequestResolv => ResolvedSpeaks(c, a);
    case RequestConnecting => ConnectingSpeaks(c, key, a);
    case RequestWrite => RequestWriteSpeaks(c, a.sent);
    case Copy =>
      CopyReadSpeaks(c, key, a.recv);
      CopyWriteSpeaks(c, key, a.sent);
    case _ =>
  }

  /** The transcript does not depend on who owns what. */
  lemma SpokenSame(s: Session, s': Session)
    requires s' == s.(live := s'.live, ended := s'.ended, resolution := s'.resolution, heap := s'.heap)
    ensures Spoken(s') == Spoken(s)
  {
    hide Greeted, Ordered, AllHeard, AllTold, Preamble, R.Reply, H.Reply, A.Reply, A.Explains, R.Explains, Admitted;
    AdmittedSame(s, s');
  }

  lemma DispatchSpeaks(c: Context, key: int, e: Stm.Event, a: Answers)
    requires Spoken(c.s)
    ensures Spoken(Dispatch(c, key, e, a).s)
  {
    hide Spoken, Callback, Jump;
    if Stm.Handles(Definition(c.s.state), e) {
      var n := Callback(c, key, e, a);
      CallbackSpeaks(c, key, e, a);
      SpokenSame(Jump(n).s, Finish(Jump(n)).s);
    }
  }

  lemma {:induction false} RunSpeaks(ws: seq<World>, acts: seq<Action>, k: nat, id: nat)
    requires Run(ws, acts) && k <= |acts|
    ensures IsProxy(ws[k], id) ==> Spoken(ws[k].conns[id].s)
  {
    hide Effect, Enabled, Spoken, Dispatch, Initial;
    NoConns(ws[0]);
    if k > 0 {
      var w, act := ws[k - 1], acts[k - 1];
      assert Enabled(w, act) && ws[k] == Effect(w, act);
      if IsProxy(w, id) {
        RunSpeaks(ws, acts, k - 1, id);
        StepOnSession(w, act, id);
        if Handled(w, act, ws[k].conns[id].s, id) {
          var key :| ws[k].conns[id].s == Dispatch(ContextOf(w, id), key, EventOf(act), act.input.socks).s;
          DispatchSpeaks(ContextOf(w, id), key, EventOf(act), act.input.socks);
        } else {
          SpokenSame(w.conns[id].s, ws[k].conns[id].s);
        }
      } else if IsProxy(ws[k], id) {
        StepMakes(w, act, id);
        NewSpeaks(act.input.accept.fd, w.config.bufferSize);
      }
    }
  }

  lemma NewSpeaks(fd: int, capacity: nat)
    ensures Spoken(New(fd, capacity))
  {
  }

  /** The login messages, if any were asked for. */
  function LoginOf(s: Session): seq<byte> {
    if s.hello.selected == H.USER_PASS && |s.auth.user| < 256 && |s.auth.pass| < 256 then A.Encode(s.auth.user, s.auth.pass)
    else []
  }

  /** The script of a session that reached the relay in any run, taken apart. */
  lemma RelayScript(ws: seq<World>, acts: seq<Action>, k: nat, id: nat) returns (methods: seq<byte>, m: R.Message)
    requires Run(ws, acts) && k <= |acts| && IsProxy(ws[k], id)
    requires ws[k].conns[id].s.state.Copy? || ws[k].conns[id].s.relay.stirred
    ensures |methods| < 256 && R.WellFormed(m)
    ensures var s := ws[k].conns[id].s;
            && (s.hello.selected == H.NO_AUTH || s.hello.selected == H.USER_PASS) && s.hello.selected in methods
            && s.request == R.Decoded(m)
            && s.script.heard == H.Encode(methods) + LoginOf(s) + R.Encode(m) + s.relay.toOrigin + s.rb.contents
            && s.script.told + s.wb.contents
               == Preamble(s.hello.selected) + R.Reply(R.SUCCEEDED, s.request) + s.relay.fromOrigin
  {
    RunSpeaks(ws, acts, k, id);
    hide Run, Spoken, RelaySpoken, R.Reply, R.Encode, R.WellFormed, Preamble, LoginOf, H.Encode;
    var s := ws[k].conns[id].s;
    StirredRelayed(s);
    methods, m := Conversation(s);
  }

  lemma Conversation(s: Session) returns (methods: seq<byte>, m: R.Message)
    requires RelaySpoken(s)
    ensures |methods| < 256 && R.WellFormed(m)
    ensures (s.hello.selected == H.NO_AUTH || s.hello.selected == H.USER_PASS) && s.hello.selected in methods
    ensures s.request == R.Decoded(m)
    ensures s.script.heard == H.Encode(methods) + LoginOf(s) + R.Encode(m) + s.relay.toOrigin + s.rb.contents
    ensures s.script.told + s.wb.contents
         == Preamble(s.hello.selected) + R.Reply(R.SUCCEEDED, s.request) + s.relay.fromOrigin
  {
    hide R.Reply, Preamble;
    methods, m := s.script.greeting[2..], R.AsMessage(s.request, s.script.order);
  }

  lemma StirredRelayed(s: Session)
    requires Spoken(s) && (s.state.Copy? || s.relay.stirred)
    ensures RelaySpoken(s)
  {
  }
}
