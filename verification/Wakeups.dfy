/**
 * Octets that wait in a buffer of a live session: when the selector watches
 * what would move them, and when only the peer's next message does.
 */
module Wakeups {
  import opened Bytes
  import opened SelectorModule
  import opened Session
  import opened SessionInvariant
  import opened World
  import opened WorldInvariant
  import opened Handoff
  import opened Accounts
  import opened Safety
  import opened AuthGate
  import opened Transcript
  import opened Theorems
  import Fifo
  import Stm
  import H = HelloParser
  import A = AuthParser
  import R = RequestParser

  /**
   * A parser that is under way has left nothing in the buffer; a relay that has
   * not moved yet holds what was read ahead, and owes the client nothing.
   */
  ghost predicate Tidy(s: Session) {
    && (s.state.AuthRead? ==> s.rb.contents == [] || (s.auth == A.START && s.script.credentials == []))
    && (s.state.RequestRead? ==> s.rb.contents == [] || (s.request == R.START && s.script.order == []))
    && (s.state.Copy? && !s.relay.stirred ==>
          s.relay == NO_RELAY.(leftUp := s.rb.contents) && s.wb.contents == [])
  }

  // ----- what an event leaves

  ghost predicate Tidies(n: Next) { Tidy(Jump(n).s) }

  /** Only three states have anything to keep tidy. */
  lemma NothingToTidy(n: Next)
    requires !n.st.AuthRead? && !n.st.RequestRead? && !n.st.Copy?
    ensures Tidies(n)
  {
  }

  /** A session that begins to wait for credentials or for the request. */
  lemma BeginsTidy(n: Next)
    requires n.st != n.c.s.state
    requires (n.st.AuthRead? && n.c.s.script.credentials == []) || (n.st.RequestRead? && n.c.s.script.order == [])
    ensures Tidies(n)
  {
  }

  /** Sending a reply changes nothing that a parser took. */
  ghost predicate SendsOnly(c: Context, n: Next) {
    && n.c.s.state == c.s.state
    && n.c.s.script.credentials == c.s.script.credentials && n.c.s.script.order == c.s.script.order
  }

  lemma HelloWriteSends(c: Context, key: int, n: int)
    requires c.s.state.HelloWrite?
    ensures SendsOnly(c, OnHelloWrite(c, key, n)) && !OnHelloWrite(c, key, n).st.Copy?
  {
    hide SetInterestOf, Fifo.Take;
  }

  lemma AuthWriteSends(c: Context, key: int, n: int)
    requires c.s.state.AuthWrite?
    ensures SendsOnly(c, OnAuthWrite(c, key, n)) && !OnAuthWrite(c, key, n).st.Copy? && !OnAuthWrite(c, key, n).st.AuthRead?
  {
    hide SetInterestOf, Fifo.Take;
  }

  lemma NothingTaken(s: Session)
    requires Spoken(s)
    ensures s.state.HelloWrite? ==> s.script.credentials == s.script.order == []
    ensures s.state.AuthWrite? ==> s.script.order == []
  {
    hide AllHeard, AllTold, Greeted, A.Explains;
  }

  lemma HelloWriteTidies(c: Context, key: int, n: int)
    requires c.s.state.HelloWrite? && Spoken(c.s)
    ensures Tidies(OnHelloWrite(c, key, n))
  {
    NothingTaken(c.s);
    HelloWriteSends(c, key, n);
    hide OnHelloWrite, Spoken, Tidies;
    var next := OnHelloWrite(c, key, n);
    if next.st.AuthRead? || next.st.RequestRead? {
      BeginsTidy(next);
    } else {
      NothingToTidy(next);
    }
  }

  lemma AuthWriteTidies(c: Context, key: int, n: int)
    requires c.s.state.AuthWrite? && Spoken(c.s)
    ensures Tidies(OnAuthWrite(c, key, n))
  {
    NothingTaken(c.s);
    AuthWriteSends(c, key, n);
    hide OnAuthWrite, Spoken, Tidies;
    var next := OnAuthWrite(c, key, n);
    if next.st.RequestRead? {
      BeginsTidy(next);
    } else {
      NothingToTidy(next);
    }
  }

  lemma CredentialsEmpty(c: Context, r: Recv)
    ensures var c1 := TakeCredentials(Receive(c, r));
            !A.IsDone(c1.s.auth) ==> c1.s.rb.contents == []
  {
    hide A.Feed;
  }

  lemma AuthReadTidies(c: Context, key: int, r: Recv)
    requires c.s.state.AuthRead? && Tidy(c.s)
    ensures Tidies(OnAuthRead(c, key, r))
  {
    CredentialsEmpty(c, r);
    hide TakeCredentials, Receive, AnswerCredentials, A.Parse;
    if !r.Failed? && A.IsDone(TakeCredentials(Receive(c, r)).s.auth) {
      AnswerJudges(TakeCredentials(Receive(c, r)), key);
    }
  }

  lemma RequestEmpties(c: Context, r: Recv)
    ensures var c1 := TakeRequest(Receive(c, r));
            !R.IsDone(c1.s.request) ==> c1.s.rb.contents == []
  {
    hide R.Feed;
  }

  lemma ProcessLeaves(c: Context, key: int, a: Answers)
    ensures var n := RequestProcess(c, key, a);
            n.st.RequestResolv? || n.st.RequestConnecting? || n.st.RequestWrite? || n.st.Error?
  {
    hide RequestConnect, SetInterestOf;
    ConnectLeaves(c, a, 0);
  }

  lemma {:induction false} ConnectLeaves(c: Context, a: Answers, k: nat)
    ensures var n := RequestConnect(c, a, k);
            n.st.RequestConnecting? || n.st.RequestWrite? || n.st.Error?
    decreases c.s.resolution.addresses - c.s.resolution.current
  {
    hide SetInterestOf, RegisterOrigin, DropOrigin, OpenOrigin, R.Reply;
    var socket := SocketAt(a, k);
    if socket.fd != -1 && socket.nonBlocking && socket.connect.Refused? {
      var e := socket.connect.error;
      var c1 := OpenOrigin(DropOrigin(c), socket);
      var c2 := WithStatus(Doubt(c1, e != R.NoError), R.ErrnoToSocks(e));
      if HasNext(c2.s.resolution) {
        ConnectLeaves(Advance(c2), a, k + 1);
      }
    }
  }

  /** A parser under way, or a relay that has moved. */
  lemma StaysTidy(n: Next)
    requires n.st == n.c.s.state
    requires (n.st.Copy? && n.c.s.relay.stirred) || (n.st.RequestRead? && (n.c.s.rb.contents == [] || Tidy(n.c.s)))
    ensures Tidies(n)
  {
  }

  /** Only a request that is not complete keeps the session in its state. */
  lemma RequestReadLeads(c: Context, key: int, a: Answers)
    ensures var n, c2 := OnRequestRead(c, key, a), TakeRequest(Receive(c, a.recv));
            if n.st.RequestRead? then n.c == c2 && !R.IsDone(c2.s.request) else !n.st.AuthRead? && !n.st.Copy?
  {
    ProcessLeaves(TakeRequest(Receive(c, a.recv)), key, a);
    hide TakeRequest, Receive, RequestProcess;
  }

  lemma RequestReadTidies(c: Context, key: int, a: Answers)
    requires c.s.state.RequestRead?
    ensures Tidies(OnRequestRead(c, key, a))
  {
    RequestEmpties(c, a.recv);
    RequestReadLeads(c, key, a);
    hide TakeRequest, Receive, OnRequestRead, Tidies, Tidy, R.IsDone;
    var n := OnRequestRead(c, key, a);
    if n.st.RequestRead? {
      StaysTidy(n);
    } else {
      NothingToTidy(n);
    }
  }

  /** The relay is entered once the reply is out. */
  lemma RequestWriteLeads(c: Context, n: int)
    requires c.s.state.RequestWrite?
    ensures var next := OnRequestWrite(c, n);
            && !next.st.AuthRead? && !next.st.RequestRead?
            && (next.st.Copy? ==> n >= 0 && next.c.s == Send(c, n).s && next.c.s.wb.contents == [])
  {
    hide Send, SetInterestOf;
  }

  lemma EntersTidy(n: Next)
    requires n.st.Copy? && !n.c.s.state.Copy? && n.c.s.wb.contents == []
    ensures Tidies(n)
  {
  }

  lemma RequestWriteTidies(c: Context, n: int)
    requires c.s.state.RequestWrite? && Spoken(c.s)
    ensures Tidies(OnRequestWrite(c, n))
  {
    RequestWriteLeads(c, n);
    if n >= 0 {
      SentStaysSpoken(c, n);
    }
    hide OnRequestWrite, Send, Spoken, Tidies;
    var next := OnRequestWrite(c, n);
    if next.st.Copy? {
      EntersTidy(next);
    } else {
      NothingToTidy(next);
    }
  }

  lemma ResolvedLeaves(c: Context, a: Answers)
    ensures var n := OnResolved(c, a);
            n.st.RequestConnecting? || n.st.RequestWrite? || n.st.Error?
  {
    hide RequestConnect;
    ConnectLeaves(if c.s.resolution.addresses == 0 then WithStatus(c, R.GENERAL_FAILURE) else c, a, 0);
  }

  lemma ConnectingLeaves(c: Context, key: int, a: Answers)
    ensures var n := OnConnecting(c, key, a);
            n.st.RequestConnecting? || n.st.RequestWrite? || n.st.Error?
  {
    hide RequestConnect, ReportConnection;
    match a.soError
    case Unknown => ReportSame(WithStatus(c, R.GENERAL_FAILURE), key);
    case Known(e) =>
      var c1 := if e == R.NoError then OnConnected(c, key) else WithStatus(c, R.ErrnoToSocks(e));
      ReportSame(c1, key);
      ConnectLeaves(Advance(c1), a, 0);
  }

  lemma HelloReadLeaves(c: Context, key: int, r: Recv)
    ensures var n := OnHelloRead(c, key, r);
            n.st.HelloWrite? || n.st.Error?
  {
    hide SetInterestOf, H.Parse, H.Reply;
  }

  /** Any event of the relay stirs it. */
  lemma CopyTidies(c: Context, key: int, e: Stm.Event, a: Answers)
    requires c.s.state.Copy?
    ensures Tidies(if e.ReadReady? then OnCopyRead(c, key, a.recv) else OnCopyWrite(c, key, a.sent))
  {
    hide OnCopyRead, OnCopyWrite, Tidies;
    var n := if e.ReadReady? then OnCopyRead(c, key, a.recv) else OnCopyWrite(c, key, a.sent);
    if n.st.Copy? {
      StaysTidy(n);
    } else {
      NothingToTidy(n);
    }
  }

  lemma CallbackTidies(c: Context, key: int, e: Stm.Event, a: Answers)
    requires Stm.Handles(Definition(c.s.state), e) && Spoken(c.s) && Tidy(c.s)
    ensures Tidies(Callback(c, key, e, a))
  {
    hide Spoken, Tidy, Tidies, RequestConnect, OnHelloRead, OnHelloWrite, OnAuthRead, OnAuthWrite, OnRequestRead;
    hide OnConnecting, OnRequestWrite, OnCopyRead, OnCopyWrite, OnResolved;
    match c.s.state
    case HelloWrite => HelloWriteTidies(c, key, a.sent);
    case AuthRead => AuthReadTidies(c, key, a.recv);
    case AuthWrite => AuthWriteTidies(c, key, a.sent);
    case RequestRead => RequestReadTidies(c, key, a);
    case RequestWrite => RequestWriteTidies(c, a.sent);
    case Copy => CopyTidies(c, key, e, a);
    case HelloRead =>
      HelloReadLeaves(c, key, a.recv);
      NothingToTidy(Callback(c, key, e, a));
    case RequestResolv =>
      ResolvedLeaves(c, a);
      NothingToTidy(Callback(c, key, e, a));
    case RequestConnecting =>
      ConnectingLeaves(c, key, a);
      NothingToTidy(Callback(c, key, e, a));
    case _ => NothingToTidy(Callback(c, key, e, a));
  }

  lemma DispatchTidies(c: Context, key: int, e: Stm.Event, a: Answers)
    requires Spoken(c.s) && Tidy(c.s)
    ensures Tidy(Dispatch(c, key, e, a).s)
  {
    hide Spoken, Callback;
    if Stm.Handles(Definition(c.s.state), e) {
      CallbackTidies(c, key, e, a);
    }
  }

  lemma {:induction false} RunTidies(ws: seq<World>, acts: seq<Action>, k: nat, id: nat)
    requires Run(ws, acts) && k <= |acts|
    ensures IsProxy(ws[k], id) ==> Tidy(ws[k].conns[id].s)
  {
    hide Effect, Enabled, Spoken, Dispatch, Initial;
    NoConns(ws[0]);
    if k > 0 {
      var w, act := ws[k - 1], acts[k - 1];
      assert Enabled(w, act) && ws[k] == Effect(w, act);
      if IsProxy(w, id) {
        RunTidies(ws, acts, k - 1, id);
        RunSpeaks(ws, acts, k - 1, id);
        StepOnSession(w, act, id);
        if Handled(w, act, ws[k].conns[id].s, id) {
          var key :| ws[k].conns[id].s == Dispatch(ContextOf(w, id), key, EventOf(act), act.input.socks).s;
          DispatchTidies(ContextOf(w, id), key, EventOf(act), act.input.socks);
        }
      } else if IsProxy(ws[k], id) {
        StepMakes(w, act, id);
      }
    }
  }

  // ----- wakeups

  lemma GoodWatched(c: Context)
    requires Good(c) && c.s.state.Copy? && Tidy(c.s) && c.s.rb.capacity > 0
    ensures Watched(c.items, c.s) <==> c.s.relay.stirred || c.s.relay.leftUp == []
  {
    Fifo.NeverStuck(c.s.rb);
    Fifo.NeverStuck(c.s.wb);
  }

  /**
   * No lost wakeup, exactly. A relaying session is watched for all it can do,
   * from its first event on; before it, if and only if the client had sent
   * nothing behind its request. What it had sent then waits, unwatched, for the
   * first event of the relay, which sends it on its way or loses it, see
   * FullBufferLosesRelay.
   */
  lemma NoLostWakeup(ws: seq<World>, acts: seq<Action>, k: nat, id: nat)
    requires InRun(ws, acts, k) && id < |ws[k].conns| && IsLive(ws[k].conns[id])
    requires ws[k].conns[id].s.state.Copy? && ws[k].conns[id].s.rb.capacity > 0
    ensures var s := ws[k].conns[id].s;
            Watched(ws[k].items, s) <==> s.relay.stirred || s.relay.leftUp == []
    ensures var s := ws[k].conns[id].s;
            !s.relay.stirred ==> s.rb.contents == s.relay.leftUp && s.wb.contents == []
  {
    Reachable(ws, acts, k);
    RunTidies(ws, acts, k, id);
    hide Run, Handed, Accounted, ItemsOk, Apart, Table, Good, Watched;
    assert ConnOk(ws[k], id);
    GoodWatched(ContextOf(ws[k], id));
  }

  /** No octet, no space, no connection. */
  const NOTHING := Answers(Closed, 0, [], false, Unknown)

  ghost predicate Reads(c: Context, fd: int) { fd in c.items && c.items[fd].interest.read }

  ghost predicate Writes(c: Context, fd: int) { fd in c.items && c.items[fd].interest.write }

  /** Called back without a single new octet, the session would stay in its state. */
  ghost predicate Needy(c: Context) { Callback(c, c.s.clientFd, Stm.ReadReady, NOTHING).st == c.s.state }

  /** What would move the session on is watched, and it could not move on without it. */
  ghost predicate Prompt(c: Context) {
    match c.s.state
    case HelloRead => Reads(c, c.s.clientFd)
    case AuthRead => Reads(c, c.s.clientFd) && Needy(c)
    case RequestRead => Reads(c, c.s.clientFd) && Needy(c)
    case HelloWrite => Writes(c, c.s.clientFd)
    case AuthWrite => Writes(c, c.s.clientFd)
    case RequestWrite => Writes(c, c.s.clientFd)
    case RequestConnecting => Writes(c, c.s.originFd)
    case Copy => Watched(c.items, c.s)
    case _ => false
  }

  /** A whole message came with the one before, or octets for the origin did, and nothing has looked at them since. */
  ghost predicate ReadAhead(s: Session) {
    match s.state
    case AuthRead => A.IsDone(A.Parse(s.auth, s.rb.contents).0)
    case RequestRead => R.IsDone(R.Parse(s.request, s.rb.contents).0)
    case Copy => !s.relay.stirred && s.rb.contents != []
    case _ => false
  }

  /** Without octets, the parsers take what is unread. */
  lemma ClosedParses(c: Context)
    ensures TakeCredentials(Receive(c, Closed)).s.auth == A.Parse(c.s.auth, c.s.rb.contents).0
    ensures TakeRequest(Receive(c, Closed)).s.request == R.Parse(c.s.request, c.s.rb.contents).0
  {
    hide A.Parse, R.Parse, Drop, Gone;
    assert c.s.rb.contents + [] == c.s.rb.contents;
  }

  /** Without octets, whether credentials are answered depends on the parser alone. */
  lemma ClosedJudges(c: Context)
    ensures OnAuthRead(c, c.s.clientFd, Closed).st.AuthRead? <==> !A.IsDone(TakeCredentials(Receive(c, Closed)).s.auth)
  {
    var c1 := TakeCredentials(Receive(c, Closed));
    hide TakeCredentials, Receive, AnswerCredentials, A.IsDone;
    if A.IsDone(c1.s.auth) {
      AnswerJudges(c1, c.s.clientFd);
    }
  }

  lemma NeedsCredentials(c: Context)
    requires c.s.state.AuthRead?
    ensures Needy(c) <==> !ReadAhead(c.s)
  {
    ClosedParses(c);
    ClosedJudges(c);
    hide OnAuthRead, TakeCredentials, Receive, A.Parse, A.IsDone;
  }

  lemma NeedsRequest(c: Context)
    requires c.s.state.RequestRead?
    ensures Needy(c) <==> !ReadAhead(c.s)
  {
    ClosedParses(c);
    ClosedDecides(c, NOTHING);
    hide OnRequestRead, TakeRequest, Receive, R.Parse, R.IsDone;
  }

  lemma GoodPrompt(c: Context)
    requires Good(c) && Tidy(c.s) && c.s.rb.capacity > 0
    ensures Prompt(c) <==> !c.s.state.RequestResolv? && !ReadAhead(c.s)
  {
    match c.s.state
    case AuthRead => NeedsCredentials(c);
    case RequestRead => NeedsRequest(c);
    case Copy => GoodWatched(c);
    case _ =>
    hide Owning, Watched, Needy, A.Parse, R.Parse, A.IsDone, R.IsDone;
  }

  lemma ResolvingAhead(s: Session)
    ensures s.state.RequestResolv? ==> !ReadAhead(s)
  {
  }

  /**
   * Who stalls, exactly. In every reachable state a live session is watched for
   * what would move it on, or its resolver result is on its way; except precisely
   * when the notification of that result was lost because no memory was left for
   * the job, or when the client has sent a whole message ahead, or octets for the
   * origin, that no event but the next octets' will look at.
   */
  lemma StallsExactly(ws: seq<World>, acts: seq<Action>, k: nat, id: nat)
    requires InRun(ws, acts, k) && id < |ws[k].conns| && IsLive(ws[k].conns[id]) && ws[k].conns[id].s.rb.capacity > 0
    ensures var s := ws[k].conns[id].s;
            Prompt(ContextOf(ws[k], id)) || Expected(ws[k], id, s) <==>
            Thread(id, s.clientFd) !in ws[k].lost && !ReadAhead(s)
  {
    var s := ws[k].conns[id].s;
    Reachable(ws, acts, k);
    RunTidies(ws, acts, k, id);
    HandoffExactlyOnce(ws, acts, k, id);
    hide Run, Handed, Accounted, ItemsOk, Apart, Table, Good, Prompt, ReadAhead;
    assert ConnOk(ws[k], id);
    GoodPrompt(ContextOf(ws[k], id));
    ResolvingAhead(s);
  }

  /**
   * Octets that a live session has read but not parsed, while it waits for
   * credentials or for the request: there are some only if none arrived since it
   * began to wait, and they are then all it heard behind the messages before. It
   * is watched for more octets only, so a message that came whole with the one
   * before is not parsed until the client sends something else.
   */
  lemma UnreadOnlyBeforeFirstRecv(ws: seq<World>, acts: seq<Action>, k: nat, id: nat)
    requires InRun(ws, acts, k) && id < |ws[k].conns| && IsLive(ws[k].conns[id])
    requires ws[k].conns[id].s.state.AuthRead? || ws[k].conns[id].s.state.RequestRead?
    ensures var s, t := ws[k].conns[id].s, ws[k].conns[id].s.script;
            s.rb.contents != [] ==>
              && s.clientFd in ws[k].items && ws[k].items[s.clientFd].interest == READ && s.originFd == -1
              && (if s.state.AuthRead? then s.auth == A.START && t.heard == t.greeting + s.rb.contents
                  else s.request == R.START && t.heard == t.greeting + t.credentials + s.rb.contents)
  {
    Reachable(ws, acts, k);
    RunTidies(ws, acts, k, id);
    RunSpeaks(ws, acts, k, id);
    hide Run, Handed, Accounted, ItemsOk, Apart, Table, Good, Spoken;
    assert ConnOk(ws[k], id);
    var s := ws[k].conns[id].s;
    if s.rb.contents != [] {
      GoodReads(ContextOf(ws[k], id));
      SpokenHears(s);
    }
  }

  lemma GoodReads(c: Context)
    requires Good(c) && (c.s.state.AuthRead? || c.s.state.RequestRead?)
    ensures Wants(c, c.s.clientFd, READ) && c.s.originFd == -1
  {
  }

  lemma SpokenHears(s: Session)
    requires Spoken(s) && Tidy(s) && (s.state.AuthRead? || s.state.RequestRead?) && s.rb.contents != []
    ensures var t := s.script;
            t.heard == if s.state.AuthRead? then t.greeting + s.rb.contents else t.greeting + t.credentials + s.rb.contents
  {
    hide Admitted, Greeted, AllTold, A.Explains, R.Explains, H.Reply, Preamble;
    var t := s.script;
    assert forall g: seq<byte> :: g + [] == g;
  }

  // ----- recv without room, and clients that close

  /** Octets came with the message before, and none have come since. */
  ghost predicate Unread(s: Session) {
    s.rb.contents != [] && (s.state.AuthRead? || s.state.RequestRead? || (s.state.Copy? && !s.relay.stirred))
  }

  lemma GoodRoom(c: Context)
    requires Good(c) && Tidy(c.s) && Spoken(c.s) && c.s.rb.capacity > 0
    ensures Reads(c, c.s.clientFd) && Fifo.Room(c.s.rb) == 0 <==> Unread(c.s) && Fifo.Room(c.s.rb) == 0
    ensures Reads(c, c.s.originFd) ==> Fifo.Room(c.s.wb) > 0
  {
    if c.s.state.HelloRead? {
      NothingRead(c.s);
    }
    hide Spoken, RelayFits;
  }

  lemma NothingRead(s: Session)
    requires Spoken(s) && s.state.HelloRead?
    ensures s.rb.contents == []
  {
  }

  /**
   * recv is called without room, where it returns 0 as at the end of the stream,
   * exactly for octets that were read ahead and fill the buffer; never for the
   * origin.
   */
  lemma NoRoomIff(ws: seq<World>, acts: seq<Action>, k: nat, id: nat)
    requires InRun(ws, acts, k) && id < |ws[k].conns| && IsLive(ws[k].conns[id]) && ws[k].conns[id].s.rb.capacity > 0
    ensures var c := ContextOf(ws[k], id);
            && (Reads(c, c.s.clientFd) && Fifo.Room(c.s.rb) == 0 <==> Unread(c.s) && Fifo.Room(c.s.rb) == 0)
            && (Reads(c, c.s.originFd) ==> Fifo.Room(c.s.wb) > 0)
  {
    Reachable(ws, acts, k);
    RunTidies(ws, acts, k, id);
    RunSpeaks(ws, acts, k, id);
    hide Run, Handed, Accounted, ItemsOk, Apart, Table, Good, Spoken;
    assert ConnOk(ws[k], id);
    GoodRoom(ContextOf(ws[k], id));
  }

  /**
   * In the relay that loses octets: if those read ahead fill the buffer, the next
   * read event of the client, whatever it brings, ends the session although nobody
   * closed, and they are never sent.
   */
  lemma FullBufferLosesRelay(ws: seq<World>, acts: seq<Action>, k: nat, id: nat, a: Answers)
    requires InRun(ws, acts, k) && id < |ws[k].conns| && IsLive(ws[k].conns[id])
    requires var s := ws[k].conns[id].s; s.state.Copy? && Unread(s) && Fifo.Room(s.rb) == 0
    ensures var c, c' := ContextOf(ws[k], id), Dispatch(ContextOf(ws[k], id), ws[k].conns[id].s.clientFd, Stm.ReadReady, a);
            c'.honest ==>
              && !c'.s.live && c'.s.ended && c'.s.rb == c.s.rb
              && c'.s.relay.leftUp == c.s.rb.contents && c'.s.relay.toOrigin == []
  {
    Reachable(ws, acts, k);
    RunTidies(ws, acts, k, id);
    hide Run, Handed, Accounted, ItemsOk, Apart, Table, Good;
    assert ConnOk(ws[k], id);
    hide Structure;
    FullRelayEnds(ContextOf(ws[k], id), a);
  }

  lemma FullRelayEnds(c: Context, a: Answers)
    requires c.s.live && c.s.state.Copy? && Tidy(c.s) && Unread(c.s) && Fifo.Room(c.s.rb) == 0
    ensures var c' := Dispatch(c, c.s.clientFd, Stm.ReadReady, a);
            c'.honest ==>
              && !c'.s.live && c'.s.ended && c'.s.rb == c.s.rb
              && c'.s.relay.leftUp == c.s.rb.contents && c'.s.relay.toOrigin == []
  {
    hide Settle, Fifo.Put, TearDown;
    if a.recv.Got? {
      var c0 := c.(s := Stir(c.s));
      assert !ReceiveFromClient(c0, a.recv.octets).honest;
    }
  }

  /**
   * What the end of a client's stream does. While the hello or the relay is read it
   * ends the session. While credentials or a request are awaited it does not:
   * octets read ahead are parsed, and a session that has none is left exactly as
   * it was, so that it is called again for as long as the descriptor is readable.
   */
  lemma ClosedClient(ws: seq<World>, acts: seq<Action>, k: nat, id: nat, a: Answers)
    requires InRun(ws, acts, k) && id < |ws[k].conns| && IsLive(ws[k].conns[id]) && a.recv.Closed?
    ensures var c, c' := ContextOf(ws[k], id), Dispatch(ContextOf(ws[k], id), ws[k].conns[id].s.clientFd, Stm.ReadReady, a);
            && (c.s.state.HelloRead? || c.s.state.Copy? ==> !c'.s.live)
            && (c.s.state.AuthRead? || c.s.state.RequestRead? ==>
                  && (c'.s.state == c.s.state <==> !ReadAhead(c.s))
                  && (c'.s.state == c.s.state ==> c'.s.live && c'.s.rb.contents == [])
                  && (c.s.rb.contents == [] ==> c' == c))
  {
    Reachable(ws, acts, k);
    RunSpeaks(ws, acts, k, id);
    hide Run, Handed, Accounted, ItemsOk, Apart, Table, Good, Spoken;
    assert ConnOk(ws[k], id);
    GoodBuffers(ContextOf(ws[k], id));
    hide Structure, Dispatch, ReadAhead;
    ClosedDispatch(ContextOf(ws[k], id), a);
  }

  lemma GoodBuffers(c: Context)
    requires Good(c)
    ensures Fifo.Ok(c.s.rb) && c.s.live
  {
  }

  lemma ClosedDispatch(c: Context, a: Answers)
    requires Fifo.Ok(c.s.rb) && c.s.live && Spoken(c.s) && a.recv.Closed?
    ensures var c' := Dispatch(c, c.s.clientFd, Stm.ReadReady, a);
            && (c.s.state.HelloRead? || c.s.state.Copy? ==> !c'.s.live)
            && (c.s.state.AuthRead? || c.s.state.RequestRead? ==>
                  && (c'.s.state == c.s.state <==> !ReadAhead(c.s))
                  && (c'.s.state == c.s.state ==> c'.s.live && c'.s.rb.contents == [])
                  && (c.s.rb.contents == [] ==> c' == c))
  {
    if c.s.state.AuthRead? || c.s.state.RequestRead? {
      if c.s.state.AuthRead? {
        ClosedAuth(c, a);
        StaysDispatched(c, TakeCredentials(Receive(c, Closed)), a);
      } else {
        ClosedRequest(c, a);
        StaysDispatched(c, TakeRequest(Receive(c, Closed)), a);
      }
      if c.s.rb.contents == [] {
        NothingAhead(c.s);
      }
    } else if c.s.state.Copy? {
      CopyEnds(c, a);
    }
    hide Spoken, ReadAhead, OnAuthRead, OnRequestRead, OnCopyRead, TearDown, TakeCredentials, TakeRequest, Receive, Stays;
  }

  lemma CopyEnds(c: Context, a: Answers)
    requires a.recv.Closed?
    ensures OnCopyRead(c, c.s.clientFd, a.recv).st.Done?
  {
  }

  /** What a callback without octets means for the wrapper: the session stays, or it goes on. */
  ghost predicate Stays(c: Context, c1: Context, n: Next) {
    && (n.st == c.s.state <==> !ReadAhead(c.s)) && (n.st == c.s.state ==> n.c == c1)
    && c1.s.state == c.s.state && c1.s.live && (!ReadAhead(c.s) ==> c1.s.rb.contents == [])
    && (c.s.rb.contents == [] && !ReadAhead(c.s) ==> c1 == c)
  }

  lemma StaysDispatched(c: Context, c1: Context, a: Answers)
    requires c.s.state.AuthRead? || c.s.state.RequestRead?
    requires Stays(c, c1, Callback(c, c.s.clientFd, Stm.ReadReady, a))
    ensures var c' := Dispatch(c, c.s.clientFd, Stm.ReadReady, a);
            && (c'.s.state == c.s.state <==> !ReadAhead(c.s))
            && (c'.s.state == c.s.state ==> c'.s.live && c'.s.rb.contents == [])
            && (c.s.rb.contents == [] && !ReadAhead(c.s) ==> c' == c)
  {
    hide Callback, ReadAhead, TearDown;
  }

  lemma NothingReceived(c: Context)
    requires Fifo.Ok(c.s.rb) && c.s.rb.contents == []
    ensures Receive(c, Closed) == c
  {
    assert c.s.script.heard + [] == c.s.script.heard;
  }

  lemma NothingParsed(c: Context)
    requires Fifo.Ok(c.s.rb) && c.s.rb.contents == []
    ensures TakeCredentials(c) == c && TakeRequest(c) == c
  {
    A.ParseNothing(c.s.auth);
    R.ParseNothing(c.s.request);
    hide A.Parse, R.Parse;
    assert c.s.script.credentials + [] == c.s.script.credentials && c.s.script.order + [] == c.s.script.order;
  }

  lemma ClosedAuth(c: Context, a: Answers)
    requires Fifo.Ok(c.s.rb) && c.s.live && a.recv.Closed? && c.s.state.AuthRead?
    ensures Stays(c, TakeCredentials(Receive(c, Closed)), OnAuthRead(c, c.s.clientFd, a.recv))
  {
    var c1 := TakeCredentials(Receive(c, Closed));
    NeedsCredentials(c);
    CredentialsEmpty(c, Closed);
    if c.s.rb.contents == [] {
      NothingReceived(c);
      NothingParsed(c);
    }
    hide ReadAhead, TakeCredentials, Receive, AnswerCredentials, A.IsDone;
    if A.IsDone(c1.s.auth) {
      AnswerJudges(c1, c.s.clientFd);
    }
  }

  lemma ClosedRequest(c: Context, a: Answers)
    requires Fifo.Ok(c.s.rb) && c.s.live && a.recv.Closed? && c.s.state.RequestRead?
    ensures Stays(c, TakeRequest(Receive(c, Closed)), OnRequestRead(c, c.s.clientFd, a))
  {
    NeedsRequest(c);
    RequestEmpties(c, Closed);
    RequestReadLeads(c, c.s.clientFd, a);
    RequestReadLeads(c, c.s.clientFd, NOTHING);
    if c.s.rb.contents == [] {
      NothingReceived(c);
      NothingParsed(c);
    }
    hide ReadAhead, TakeRequest, Receive, OnRequestRead, R.IsDone;
    ClosedDecides(c, a);
  }

  /** Without octets, the outcome depends on the parser alone. */
  lemma ClosedDecides(c: Context, a: Answers)
    requires a.recv.Closed?
    ensures var n := OnRequestRead(c, c.s.clientFd, a);
            n.st.RequestRead? <==> !R.IsDone(TakeRequest(Receive(c, Closed)).s.request)
  {
    ProcessLeaves(TakeRequest(Receive(c, Closed)), c.s.clientFd, a);
    hide TakeRequest, Receive, RequestProcess, R.IsDone, R.IsError;
  }

  /** Nothing unread is nothing read ahead. */
  lemma NothingAhead(s: Session)
    requires Spoken(s) && (s.state.AuthRead? || s.state.RequestRead?) && s.rb.contents == []
    ensures !ReadAhead(s)
  {
    A.ParseNothing(s.auth);
    R.ParseNothing(s.request);
    hide AllHeard, AllTold, Greeted, Admitted, A.Explains, R.Explains, H.Reply, Preamble, A.Parse, R.Parse;
  }
}
