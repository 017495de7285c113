/**
 * What an honest conversation leads to. In every reachable state, what the octets
 * of a client mean decides what the session does next, who is let in and who is not,
 * and what it is told; in the numbers of RFC 1928 and RFC 1929.
 */
module LoginOutcomes {
  import opened Bytes
  import opened SelectorModule
  import opened Session
  import opened SessionInvariant
  import opened World
  import opened WorldInvariant
  import opened Handoff
  import opened Accounts
  import opened Safety
  import opened AuthGate
  import opened Transcript
  import opened Theorems
  import opened Wakeups
  import opened ConnectReplies
  import opened Streams
  import ByteMachine
  import Fifo
  import Stm
  import H = HelloParser
  import A = AuthParser
  import R = RequestParser

  // ----- a parser under way is where one pass over what it took would be

  ghost predicate Parsing(s: Session) {
    && (s.state.AuthRead? ==> A.Parse(A.START, s.script.credentials) == (s.auth, []))
    && (s.state.RequestRead? ==> R.Parse(R.START, s.script.order) == (s.request, []))
  }

  lemma CredentialsSplit(p: A.Auth, taken: seq<byte>, more: seq<byte>)
    requires A.Parse(A.START, taken) == (p, []) && !A.IsDone(p)
    ensures A.Parse(A.START, taken + more) == A.Parse(p, more)
  {
    ByteMachine.ConsumeSplit(A.Feeder(), A.IsDone, A.START, taken, more);
    hide ByteMachine.Consume;
  }

  lemma RequestSplit(p: R.Request, taken: seq<byte>, more: seq<byte>)
    requires R.Parse(R.START, taken) == (p, []) && !R.IsDone(p)
    ensures R.Parse(R.START, taken + more) == R.Parse(p, more)
  {
    ByteMachine.ConsumeSplit(R.Feeder(), R.IsDone, R.START, taken, more);
    hide ByteMachine.Consume;
  }

  lemma CredentialsGoOn(c: Context, r: Recv)
    requires A.Parse(A.START, c.s.script.credentials) == (c.s.auth, []) && !A.IsDone(c.s.auth)
    ensures var s := TakeCredentials(Receive(c, r)).s;
            && s.auth == A.Parse(A.START, c.s.script.credentials + (c.s.rb.contents + Octets(r))).0
            && (!A.IsDone(s.auth) ==> A.Parse(A.START, s.script.credentials) == (s.auth, []))
  {
    hide A.Parse, Drop;
    var window := c.s.rb.contents + Octets(r);
    CredentialsSplit(c.s.auth, c.s.script.credentials, window);
    A.ParseLeaves(c.s.auth, window);
    assert window[..|window|] == window;
  }

  lemma RequestGoesOn(c: Context, r: Recv)
    requires R.Parse(R.START, c.s.script.order) == (c.s.request, []) && !R.IsDone(c.s.request)
    ensures var s := TakeRequest(Receive(c, r)).s;
            && s.request == R.Parse(R.START, c.s.script.order + (c.s.rb.contents + Octets(r))).0
            && (!R.IsDone(s.request) ==> R.Parse(R.START, s.script.order) == (s.request, []))
  {
    hide R.Parse, Drop;
    var window := c.s.rb.contents + Octets(r);
    RequestSplit(c.s.request, c.s.script.order, window);
    R.ParseLeaves(c.s.request, window);
    assert window[..|window|] == window;
  }

  ghost predicate Parses(n: Next) { Parsing(Jump(n).s) }

  lemma NothingToParse(n: Next)
    requires !n.st.AuthRead? && !n.st.RequestRead?
    ensures Parses(n)
  {
    hide A.Parse, R.Parse;
  }

  /** A session that begins to wait for credentials or for the request. */
  lemma BeginsToParse(n: Next)
    requires n.st != n.c.s.state
    requires (n.st.AuthRead? && n.c.s.script.credentials == []) || (n.st.RequestRead? && n.c.s.script.order == [])
    ensures Parses(n)
  {
    A.ParseNothing(A.START);
    R.ParseNothing(R.START);
    hide A.Parse, R.Parse;
  }

  lemma WriteParses(c: Context, key: int, n: int)
    requires Spoken(c.s)
    ensures c.s.state.HelloWrite? ==> Parses(OnHelloWrite(c, key, n))
    ensures c.s.state.AuthWrite? ==> Parses(OnAuthWrite(c, key, n))
  {
    NothingTaken(c.s);
    hide OnHelloWrite, OnAuthWrite, Spoken, Parses;
    if c.s.state.HelloWrite? {
      HelloWriteSends(c, key, n);
      WriteBegins(OnHelloWrite(c, key, n));
    } else if c.s.state.AuthWrite? {
      AuthWriteSends(c, key, n);
      WriteBegins(OnAuthWrite(c, key, n));
    }
  }

  lemma WriteBegins(n: Next)
    requires n.c.s.state.HelloWrite? || n.c.s.state.AuthWrite?
    requires n.st.AuthRead? ==> n.c.s.script.credentials == []
    requires n.st.RequestRead? ==> n.c.s.script.order == []
    ensures Parses(n)
  {
    hide Parses;
    if n.st.AuthRead? || n.st.RequestRead? {
      BeginsToParse(n);
    } else {
      NothingToParse(n);
    }
  }

  lemma StaysToParse(n: Next)
    requires n.st == n.c.s.state
    requires n.st.AuthRead? ==> A.Parse(A.START, n.c.s.script.credentials) == (n.c.s.auth, [])
    requires n.st.RequestRead? ==> R.Parse(R.START, n.c.s.script.order) == (n.c.s.request, [])
    ensures Parses(n)
  {
    hide A.Parse, R.Parse;
  }

  /** Only credentials that are not complete keep the session in its state. */
  lemma AuthReadLeads(c: Context, key: int, r: Recv)
    requires c.s.state.AuthRead?
    ensures var n, c1 := OnAuthRead(c, key, r), TakeCredentials(Receive(c, r));
            if n.st.AuthRead? then n.c == c1 && !A.IsDone(c1.s.auth) && c1.s.state == c.s.state
            else n.st.AuthWrite? || n.st.Error?
  {
    hide TakeCredentials, Receive, AnswerCredentials, A.IsDone;
    if !r.Failed? && A.IsDone(TakeCredentials(Receive(c, r)).s.auth) {
      AnswerJudges(TakeCredentials(Receive(c, r)), key);
    }
  }

  lemma AuthReadParses(c: Context, key: int, r: Recv)
    requires c.s.state.AuthRead? && Spoken(c.s) && Parsing(c.s)
    ensures Parses(OnAuthRead(c, key, r))
  {
    assert !A.IsDone(c.s.auth);
    hide Spoken, OnAuthRead, TakeCredentials, Receive, A.Parse, A.IsDone, Parses;
    CredentialsGoOn(c, r);
    AuthReadLeads(c, key, r);
    if OnAuthRead(c, key, r).st.AuthRead? {
      StaysToParse(OnAuthRead(c, key, r));
    } else {
      NothingToParse(OnAuthRead(c, key, r));
    }
  }

  lemma RequestReadParses(c: Context, key: int, a: Answers)
    requires c.s.state.RequestRead? && Spoken(c.s) && Parsing(c.s)
    ensures Parses(OnRequestRead(c, key, a))
  {
    assert !R.IsDone(c.s.request);
    hide Spoken, OnRequestRead, TakeRequest, Receive, R.Parse, R.IsDone, Parses;
    RequestGoesOn(c, a.recv);
    RequestReadLeads(c, key, a);
    if OnRequestRead(c, key, a).st.RequestRead? {
      StaysToParse(OnRequestRead(c, key, a));
    } else {
      NothingToParse(OnRequestRead(c, key, a));
    }
  }

  lemma CallbackParses(c: Context, key: int, e: Stm.Event, a: Answers)
    requires Stm.Handles(Definition(c.s.state), e) && Spoken(c.s) && Parsing(c.s)
    ensures Parses(Callback(c, key, e, a))
  {
    hide Spoken, Parsing, Parses, OnHelloRead, OnHelloWrite, OnAuthRead, OnAuthWrite, OnRequestRead;
    hide OnConnecting, OnRequestWrite, OnCopyRead, OnCopyWrite, OnResolved;
    match c.s.state
    case HelloWrite => WriteParses(c, key, a.sent);
    case AuthRead => AuthReadParses(c, key, a.recv);
    case AuthWrite => WriteParses(c, key, a.sent);
    case RequestRead => RequestReadParses(c, key, a);
    case _ =>
      HelloReadLeaves(c, key, a.recv);
      ResolvedLeaves(c, a);
      ConnectingLeaves(c, key, a);
      if c.s.state.RequestWrite? {
        RequestWriteLeads(c, a.sent);
      }
      NothingToParse(Callback(c, key, e, a));
  }

  lemma DispatchParses(c: Context, key: int, e: Stm.Event, a: Answers)
    requires Spoken(c.s) && Parsing(c.s)
    ensures Parsing(Dispatch(c, key, e, a).s)
  {
    hide Spoken, Callback;
    if Stm.Handles(Definition(c.s.state), e) {
      CallbackParses(c, key, e, a);
    }
  }

  lemma {:induction false} RunParses(ws: seq<World>, acts: seq<Action>, k: nat, id: nat)
    requires Run(ws, acts) && k <= |acts|
    ensures IsProxy(ws[k], id) ==> Parsing(ws[k].conns[id].s)
  {
    hide Effect, Enabled, Spoken, Dispatch, Initial;
    NoConns(ws[0]);
    if k > 0 {
      var w, act := ws[k - 1], acts[k - 1];
      assert Enabled(w, act) && ws[k] == Effect(w, act);
      if IsProxy(w, id) {
        RunParses(ws, acts, k - 1, id);
        RunSpeaks(ws, acts, k - 1, id);
        StepOnSession(w, act, id);
        if Handled(w, act, ws[k].conns[id].s, id) {
          var key :| ws[k].conns[id].s == Dispatch(ContextOf(w, id), key, EventOf(act), act.input.socks).s;
          DispatchParses(ContextOf(w, id), key, EventOf(act), act.input.socks);
        }
      } else if IsProxy(ws[k], id) {
        StepMakes(w, act, id);
      }
    }
  }

  // ----- where the messages of a client begin

  lemma HelloUnique(a: seq<byte>, x: seq<byte>, b: seq<byte>, y: seq<byte>)
    requires |a| < 256 && |b| < 256 && H.Encode(a) + x == H.Encode(b) + y
    ensures a == b && x == y
  {
    var all := H.Encode(a) + x;
    assert all[1] == |a| && all[1] == |b|;
    assert a == all[2..2 + |a|] == b && x == all[2 + |a|..] == y;
  }

  lemma LoginUnique(u: seq<byte>, p: seq<byte>, x: seq<byte>, v: seq<byte>, q: seq<byte>, y: seq<byte>)
    requires |u| < 256 && |p| < 256 && |v| < 256 && |q| < 256 && A.Encode(u, p) + x == A.Encode(v, q) + y
    ensures x == y
  {
    var all := A.Encode(u, p) + x;
    assert all[1] == |u| && all[1] == |v|;
    assert all[2 + |u|] == |p| && all[2 + |u|] == |q|;
    assert x == all[3 + |u| + |p|..] == y;
  }

  /** The credentials message, if the method chosen asks for one. */
  function Login(chosen: byte, user: seq<byte>, pass: seq<byte>): seq<byte>
    requires |user| < 256 && |pass| < 256
  {
    if chosen == 0x02 then A.Encode(user, pass) else []
  }

  lemma GreetedWire(s: Session)
    requires Greeted(s.hello, s.script.greeting)
    ensures |s.script.greeting| >= 2 && |s.script.greeting[2..]| < 256
    ensures s.script.greeting == H.Encode(s.script.greeting[2..])
  {
  }

  lemma BehindHello(s: Session, octets: seq<byte>, methods: seq<byte>, later: seq<byte>)
    requires Spoken(s) && s.state.AuthRead?
    requires |methods| < 256 && s.script.heard + octets == H.Encode(methods) + later
    ensures later == s.script.credentials + (s.rb.contents + octets)
  {
    GreetedWire(s);
    hide Greeted, H.Encode, A.Explains, Telling;
    var behind := s.script.credentials + (s.rb.contents + octets);
    assert s.script.heard + octets == s.script.greeting + behind;
    HelloUnique(s.script.greeting[2..], behind, methods, later);
  }

  lemma LoginWire(s: Session) returns (user: seq<byte>, pass: seq<byte>)
    requires LoggedIn(s.hello.selected, s.auth, s.authStatus, s.script.credentials)
    ensures |user| < 256 && |pass| < 256 && s.script.credentials == Login(s.hello.selected, user, pass)
  {
    if s.hello.selected == 0x02 {
      user, pass := s.auth.user, s.auth.pass;
    } else {
      user, pass := [], [];
    }
  }

  lemma AskingHeard(s: Session)
    requires Spoken(s) && s.state.RequestRead?
    ensures Greeted(s.hello, s.script.greeting) && LoggedIn(s.hello.selected, s.auth, s.authStatus, s.script.credentials)
    ensures s.script.heard == s.script.greeting + (s.script.credentials + (s.script.order + s.rb.contents))
  {
    hide Greeted, LoggedIn, R.Explains, Telling;
    var t := s.script;
    assert t.heard == t.greeting + t.credentials + t.order + [] + s.rb.contents;
    assert t.heard == t.greeting + (t.credentials + (t.order + s.rb.contents));
  }

  lemma Regroup(g: seq<byte>, c: seq<byte>, o: seq<byte>, w: seq<byte>, more: seq<byte>)
    ensures g + (c + (o + w)) + more == g + (c + (o + (w + more)))
  {
  }

  lemma Grouped(g: seq<byte>, c: seq<byte>, later: seq<byte>)
    ensures g + c + later == g + (c + later)
  {
  }

  lemma BehindLogin(
    s: Session, octets: seq<byte>, methods: seq<byte>, user: seq<byte>, pass: seq<byte>, later: seq<byte>)
    requires Spoken(s) && s.state.RequestRead?
    requires |methods| < 256 && |user| < 256 && |pass| < 256
    requires s.script.heard + octets == H.Encode(methods) + Login(s.hello.selected, user, pass) + later
    ensures later == s.script.order + (s.rb.contents + octets)
  {
    hide Spoken, Greeted, LoggedIn, H.Encode, A.Encode, Login;
    AskingHeard(s);
    GreetedWire(s);
    var u, p := LoginWire(s);
    var t, login, rest := s.script, Login(s.hello.selected, user, pass), s.script.order + (s.rb.contents + octets);
    Regroup(t.greeting, t.credentials, t.order, s.rb.contents, octets);
    Grouped(H.Encode(methods), login, later);
    HelloUnique(t.greeting[2..], t.credentials + rest, methods, login + later);
    LoginBehind(s.hello.selected, u, p, rest, user, pass, later);
  }

  lemma LoginBehind(chosen: byte, u: seq<byte>, p: seq<byte>, x: seq<byte>, v: seq<byte>, q: seq<byte>, y: seq<byte>)
    requires |u| < 256 && |p| < 256 && |v| < 256 && |q| < 256 && Login(chosen, u, p) + x == Login(chosen, v, q) + y
    ensures x == y
  {
    if chosen == 0x02 {
      LoginUnique(u, p, x, v, q, y);
    } else {
      assert [] + x == x && [] + y == y;
    }
  }

  // ----- any state

  /** A live session of a run, and what this step's recv or send is about. */
  ghost predicate Serving(ws: seq<World>, acts: seq<Action>, k: nat, id: nat) {
    InRun(ws, acts, k) && id < |ws[k].conns| && IsLive(ws[k].conns[id])
  }

  /** What every live session of a run satisfies. */
  lemma ServingKnows(ws: seq<World>, acts: seq<Action>, k: nat, id: nat)
    requires Serving(ws, acts, k, id)
    ensures var c := ContextOf(ws[k], id);
            && Good(c) && Spoken(c.s) && Parsing(c.s) && c.anomalies == {} && c.honest
            && c.s.script.heard == Received(ws, acts, id, k, CLIENT)
  {
    Reachable(ws, acts, k);
    RunSpeaks(ws, acts, k, id);
    RunParses(ws, acts, k, id);
    RunRecords(ws, acts, id, k);
    hide Run, Handed, Accounted, ItemsOk, Apart, Table, Good, Spoken, Parsing, Received, Taken;
    assert ConnOk(ws[k], id);
  }

  /** A session watched for this alone. */
  ghost predicate Awaits(c: Context, st: State, i: Interest) {
    c.s.live && c.s.state == st && Wants(c, c.s.clientFd, i)
  }

  /** The session is over: its descriptors are closed and no longer watched. */
  ghost predicate Over(c: Context) {
    !c.s.live && c.s.clientFd !in c.open && c.s.clientFd !in c.items && c.s.originFd !in c.open && c.s.originFd !in c.items
  }

  lemma FinalIsOver(c: Context, key: int, e: Stm.Event, a: Answers)
    requires Stm.Handles(Definition(c.s.state), e) && Final(Callback(c, key, e, a).st)
    ensures var n, c' := Callback(c, key, e, a), Dispatch(c, key, e, a);
            Over(c') && c'.s.script == n.c.s.script && c'.s.resolution == n.c.s.resolution && c'.threads == n.c.threads
  {
    HandledBy(c, key, e, a);
    hide Callback, Dispatch, TearDown;
  }

  lemma GoesOn(c: Context, key: int, e: Stm.Event, a: Answers)
    requires Stm.Handles(Definition(c.s.state), e) && !Final(Callback(c, key, e, a).st)
    ensures Dispatch(c, key, e, a) == Jump(Callback(c, key, e, a))
  {
    HandledBy(c, key, e, a);
    hide Callback, Dispatch;
  }

  lemma StatesHandle(c: Context)
    ensures c.s.state.HelloRead? || c.s.state.AuthRead? || c.s.state.RequestRead? ==>
              Stm.Handles(Definition(c.s.state), Stm.ReadReady)
    ensures c.s.state.HelloWrite? || c.s.state.AuthWrite? || c.s.state.RequestWrite? || c.s.state.RequestConnecting? ==>
              Stm.Handles(Definition(c.s.state), Stm.WriteReady)
    ensures c.s.state.RequestResolv? ==> Stm.Handles(Definition(c.s.state), Stm.BlockReady)
  {
  }

  // ----- the hello

  lemma HelloDecides(c: Context, r: Recv)
    requires Good(c) && Spoken(c.s) && c.s.state.HelloRead? && r.Got?
    ensures var n, p := OnHelloRead(c, c.s.clientFd, r), H.Parse(c.config.auth, H.START, r.octets).0;
            if p.state.Done? && c.s.wb.capacity >= 2 then
              && n.st.HelloWrite? && n.c.s.wb.contents == [0x05, p.selected] && n.c.s.script.told == []
              && n.c.s.live && n.c.s.clientFd == c.s.clientFd && Wants(n.c, c.s.clientFd, WRITE)
            else n.st.Error?
  {
    hide H.Parse, Drop, Gone;
    assert [] + r.octets == r.octets;
    var c1 := TakeHello(Receive(c, r));
    SetInterestKeeps(c1, c.s.clientFd, WRITE);
    hide SetInterestOf, Owns, Frame;
    assert [] + H.Reply(c1.s.hello.selected) == H.Reply(c1.s.hello.selected);
  }

  lemma HelloLeads(c: Context, a: Answers, methods: seq<byte>, surplus: seq<byte>)
    requires Good(c) && Spoken(c.s) && c.s.state.HelloRead? && c.s.wb.capacity >= 2
    requires |methods| < 256 && a.recv == Got([0x05, |methods|] + methods + surplus)
    ensures var c' := Dispatch(c, c.s.clientFd, Stm.ReadReady, a);
            var wanted := if c.config.auth then 0x02 else 0x00;
            && Awaits(c', HelloWrite, WRITE) && c'.s.script.told == []
            && c'.s.wb.contents == [0x05, if wanted in methods then wanted else 0xFF]
  {
    H.HelloDecoded(c.config.auth, methods, surplus);
    HelloDecides(c, a.recv);
    HelloCalled(c, a);
    StatesHandle(c);
    hide Good, Spoken, Callback, Dispatch, OnHelloRead, H.Parse;
    GoesOn(c, c.s.clientFd, Stm.ReadReady, a);
  }

  /**
   * A hello that comes whole is answered as section 3 of RFC 1928 asks, whatever
   * follows it: with the method the server wants if it is among those offered,
   * and otherwise with 0xFF.
   */
  lemma HelloAnswered(
    ws: seq<World>, acts: seq<Action>, k: nat, id: nat, a: Answers, methods: seq<byte>, surplus: seq<byte>)
    requires Serving(ws, acts, k, id) && ws[k].conns[id].s.state.HelloRead? && ws[k].conns[id].s.wb.capacity >= 2
    requires |methods| < 256 && a.recv == Got([0x05, |methods|] + methods + surplus)
    ensures var c := ContextOf(ws[k], id);
            var c' := Dispatch(c, c.s.clientFd, Stm.ReadReady, a);
            var wanted := if c.config.auth then 0x02 else 0x00;
            && Awaits(c', HelloWrite, WRITE) && c'.s.script.told == []
            && c'.s.wb.contents == [0x05, if wanted in methods then wanted else 0xFF]
  {
    ServingKnows(ws, acts, k, id);
    hide *;
    HelloLeads(ContextOf(ws[k], id), a, methods, surplus);
  }

  /** Anything else ends the session, and so does a hello that does not come whole: nothing is told. */
  lemma HelloRefused(ws: seq<World>, acts: seq<Action>, k: nat, id: nat, a: Answers)
    requires Serving(ws, acts, k, id) && ws[k].conns[id].s.state.HelloRead?
    requires a.recv.Got? && ws[k].conns[id].s.wb.capacity >= 2 ==> forall n: nat :: !H.StartsWithHello(a.recv.octets, n)
    ensures var c := ContextOf(ws[k], id);
            var c' := Dispatch(c, c.s.clientFd, Stm.ReadReady, a);
            Over(c') && c'.s.script.told == []
  {
    var c := ContextOf(ws[k], id);
    ServingKnows(ws, acts, k, id);
    StatesHandle(c);
    HelloReadHears(c, c.s.clientFd, a.recv);
    assert c.s.script.told == [];
    hide Serving, Good, Spoken, Parsing, Callback, Dispatch;
    if a.recv.Got? {
      HelloDecides(c, a.recv);
      H.HelloAcceptedIff(c.config.auth, a.recv.octets);
    }
    hide OnHelloRead, HearsOnly;
    HelloCalled(c, a);
    FinalIsOver(c, c.s.clientFd, Stm.ReadReady, a);
  }

  lemma HelloCalled(c: Context, a: Answers)
    requires c.s.state.HelloRead?
    ensures Callback(c, c.s.clientFd, Stm.ReadReady, a) == OnHelloRead(c, c.s.clientFd, a.recv)
    ensures !a.recv.Got? ==> OnHelloRead(c, c.s.clientFd, a.recv).st.Error?
  {
  }

  // ----- replies on their way out

  /** The first n octets of what waits for the client have been sent. */
  ghost predicate Sent(s: Session, s': Session, n: int) {
    && 0 <= n <= |s.wb.contents|
    && s'.script.told == s.script.told + s.wb.contents[..n] && s'.wb.contents == s.wb.contents[n..]
  }

  lemma SendSends(c: Context, n: nat)
    requires n <= |c.s.wb.contents|
    ensures var c1 := Send(c, n);
            && Sent(c.s, c1.s, n) && (Fifo.CanRead(c1.s.wb) <==> n < |c.s.wb.contents|)
            && c1.items == c.items && c1.open == c.open && c1.config == c.config && c1.id == c.id
            && c1.s == c.s.(wb := c1.s.wb, script := c1.s.script)
    ensures Owning(c) ==> Owning(Send(c, n))
  {
    hide Owns;
  }

  /** A write event that does not finish its reply, or fails. */
  ghost predicate Partly(c: Context, c': Context, a: Answers) {
    && (a.sent < 0 ==> Over(c') && c'.s.script.told == c.s.script.told)
    && (0 <= a.sent < |c.s.wb.contents| ==> Sent(c.s, c'.s, a.sent) && Awaits(c', c.s.state, WRITE))
  }

  /** A write event that finishes it: what was to be told has been. */
  ghost predicate Wholly(c: Context, c': Context) {
    c'.s.script.told == c.s.script.told + c.s.wb.contents && (c'.s.live ==> c'.s.wb.contents == [])
  }

  lemma HelloOut(c: Context, n: int)
    requires Good(c) && c.s.state.HelloWrite? && n <= |c.s.wb.contents|
    ensures var next := OnHelloWrite(c, c.s.clientFd, n);
            && next.c.s.live && next.c.s.state == c.s.state && next.c.s.clientFd == c.s.clientFd
            && (n < 0 ==> next == Next(c, Error))
            && (n >= 0 ==> Sent(c.s, next.c.s, n))
            && (0 <= n < |c.s.wb.contents| ==> next.st.HelloWrite? && Wants(next.c, c.s.clientFd, WRITE))
            && (n == |c.s.wb.contents| ==>
                  && Wants(next.c, c.s.clientFd, READ)
                  && next.st == if c.s.hello.selected == 0x02 && c.config.auth then AuthRead
                                else if c.s.hello.selected == 0x00 && !c.config.auth then RequestRead
                                else Done)
  {
    if n >= 0 {
      SendSends(c, n);
      SetInterestKeeps(Send(c, n), c.s.clientFd, READ);
    }
    hide Send, SetInterestOf, Sent, Owns, Frame, Fifo.CanRead;
  }

  lemma HelloOwed(s: Session)
    requires Spoken(s) && s.state.HelloWrite?
    ensures s.script.told + s.wb.contents == [0x05, s.hello.selected]
  {
    hide Greeted, Hearing;
  }

  lemma SentWhole(s: Session, s': Session, n: int)
    requires Sent(s, s', n) && n == |s.wb.contents|
    ensures s'.script.told == s.script.told + s.wb.contents && s'.wb.contents == []
  {
    assert s.wb.contents[..n] == s.wb.contents;
  }

  /**
   * The answer to the hello goes out, in as many pieces as send takes. Then its
   * second octet and the switch decide: to the credentials, to the request, or the
   * session is over.
   */
  lemma HelloSent(ws: seq<World>, acts: seq<Action>, k: nat, id: nat, a: Answers)
    requires Serving(ws, acts, k, id) && ws[k].conns[id].s.state.HelloWrite? && a.sent <= |ws[k].conns[id].s.wb.contents|
    ensures var c := ContextOf(ws[k], id);
            var c' := Dispatch(c, c.s.clientFd, Stm.WriteReady, a);
            var reply := c.s.script.told + c.s.wb.contents;
            && |reply| == 2 && Partly(c, c', a)
            && (a.sent == |c.s.wb.contents| ==>
                  && Wholly(c, c')
                  && (if c.config.auth && reply[1] == 0x02 then Awaits(c', AuthRead, READ)
                      else if !c.config.auth && reply[1] == 0x00 then Awaits(c', RequestRead, READ)
                      else Over(c')))
  {
    var c := ContextOf(ws[k], id);
    ServingKnows(ws, acts, k, id);
    HelloOwed(c.s);
    hide *;
    HelloGoesOut(c, a);
  }

  /** The next state, by who was chosen. */
  lemma HelloGoesOut(c: Context, a: Answers)
    requires Good(c) && c.s.state.HelloWrite? && a.sent <= |c.s.wb.contents|
    ensures var c' := Dispatch(c, c.s.clientFd, Stm.WriteReady, a);
            && Partly(c, c', a)
            && (a.sent == |c.s.wb.contents| ==>
                  && Wholly(c, c')
                  && (if c.s.hello.selected == 0x02 && c.config.auth then Awaits(c', AuthRead, READ)
                      else if c.s.hello.selected == 0x00 && !c.config.auth then Awaits(c', RequestRead, READ)
                      else Over(c')))
  {
    HelloOut(c, a.sent);
    StatesHandle(c);
    var n := OnHelloWrite(c, c.s.clientFd, a.sent);
    assert Callback(c, c.s.clientFd, Stm.WriteReady, a) == n;
    hide Good, Callback, Dispatch, OnHelloWrite, Over;
    WriteOut(c, n, a);
  }

  /** What the wrapper makes of a write event. */
  lemma WriteOut(c: Context, n: Next, a: Answers)
    requires Stm.Handles(Definition(c.s.state), Stm.WriteReady) && n == Callback(c, c.s.clientFd, Stm.WriteReady, a)
    requires a.sent < 0 ==> n == Next(c, Error)
    requires a.sent >= 0 ==> Sent(c.s, n.c.s, a.sent)
    requires 0 <= a.sent < |c.s.wb.contents| ==> n.st == c.s.state && Wants(n.c, c.s.clientFd, WRITE)
    requires n.c.s.live && n.c.s.clientFd == c.s.clientFd && n.c.s.state == c.s.state && !Final(c.s.state)
    ensures var c' := Dispatch(c, c.s.clientFd, Stm.WriteReady, a);
            && Partly(c, c', a) && (a.sent == |c.s.wb.contents| ==> Wholly(c, c'))
            && (if Final(n.st) then Over(c') else c' == Jump(n))
  {
    hide Callback, Dispatch, Over;
    if a.sent == |c.s.wb.contents| {
      SentWhole(c.s, n.c.s, a.sent);
    }
    if Final(n.st) {
      FinalIsOver(c, c.s.clientFd, Stm.WriteReady, a);
      FinalKeepsBuffers(c, c.s.clientFd, Stm.WriteReady, a);
    } else {
      GoesOn(c, c.s.clientFd, Stm.WriteReady, a);
    }
  }

  lemma FinalKeepsBuffers(c: Context, key: int, e: Stm.Event, a: Answers)
    requires Stm.Handles(Definition(c.s.state), e) && Final(Callback(c, key, e, a).st)
    ensures Dispatch(c, key, e, a).s.wb == Callback(c, key, e, a).c.s.wb
  {
    HandledBy(c, key, e, a);
    hide Callback, Dispatch, TearDown;
  }

  // ----- the credentials

  lemma AnswerDecides(c: Context)
    requires Owning(c) && c.s.live && Fifo.Ok(c.s.wb) && c.s.wb.contents == [] && A.IsDone(c.s.auth)
    ensures var n, p := AnswerCredentials(c, c.s.clientFd), c.s.auth;
            && n.c.s.clientFd == c.s.clientFd && n.c.s.live && n.c.s.state == c.s.state
            && (if c.s.wb.capacity >= 2 && p.state.Done? then
                  && n.st.AuthWrite? && Wants(n.c, c.s.clientFd, WRITE)
                  && n.c.s.wb.contents == [0x01, if (CString(p.user), CString(p.pass)) in c.config.users then 0x00 else 0x01]
                else n.st.Error?)
  {
    SetInterestKeeps(c, c.s.clientFd, WRITE);
    hide SetInterestOf, Owns, Frame, CString;
    assert forall v: byte :: [] + A.Reply(v) == [0x01, v];
  }

  /** Before the parser is done, the session just waits on; afterwards it answers. */
  lemma AuthDecides(c: Context, r: Recv)
    requires Good(c) && c.s.state.AuthRead? && !r.Failed?
    ensures var n, p := OnAuthRead(c, c.s.clientFd, r), TakeCredentials(Receive(c, r)).s.auth;
            && n.c.s.clientFd == c.s.clientFd && n.c.s.live && n.c.s.state == c.s.state
            && (if !A.IsDone(p) then n.st.AuthRead? && n.c.s.wb == c.s.wb && Wants(n.c, c.s.clientFd, READ)
                else if p.state.Done? && c.s.wb.capacity >= 2 then
                  && n.st.AuthWrite? && Wants(n.c, c.s.clientFd, WRITE)
                  && n.c.s.wb.contents == [0x01, if (CString(p.user), CString(p.pass)) in c.config.users then 0x00 else 0x01]
                else n.st.Error?)
  {
    hide TakeCredentials, Receive, AnswerCredentials, A.IsDone, Owns, RelayFits, CString;
    var c1 := TakeCredentials(Receive(c, r));
    if A.IsDone(c1.s.auth) {
      AnswerDecides(c1);
    }
  }

  /** What the parser makes of all that came behind the hello. */
  lemma LoginParsed(ws: seq<World>, acts: seq<Action>, k: nat, id: nat, r: Recv, methods: seq<byte>, later: seq<byte>)
    requires Serving(ws, acts, k, id) && ws[k].conns[id].s.state.AuthRead?
    requires |methods| < 256 && Received(ws, acts, id, k, CLIENT) + Octets(r) == [0x05, |methods|] + methods + later
    ensures TakeCredentials(Receive(ContextOf(ws[k], id), r)).s.auth == A.Parse(A.START, later).0
    ensures Good(ContextOf(ws[k], id))
  {
    var c := ContextOf(ws[k], id);
    ServingKnows(ws, acts, k, id);
    HelloWire(methods);
    BehindHello(c.s, Octets(r), methods, later);
    assert A.Parse(A.START, c.s.script.credentials) == (c.s.auth, []) && !A.IsDone(c.s.auth);
    hide *;
    CredentialsGoOn(c, r);
  }

  lemma AuthCalled(c: Context, a: Answers)
    requires c.s.state.AuthRead?
    ensures Callback(c, c.s.clientFd, Stm.ReadReady, a) == OnAuthRead(c, c.s.clientFd, a.recv)
    ensures a.recv.Failed? ==> OnAuthRead(c, c.s.clientFd, a.recv).st.Error?
  {
  }

  /** The event after which the parser stands at p, as the wrapper leaves it. */
  lemma AuthLeads(c: Context, a: Answers)
    requires Good(c) && c.s.state.AuthRead? && !a.recv.Failed?
    ensures var c', p := Dispatch(c, c.s.clientFd, Stm.ReadReady, a), TakeCredentials(Receive(c, a.recv)).s.auth;
            && c'.s.script.told == c.s.script.told
            && (if !A.IsDone(p) then Awaits(c', AuthRead, READ) && c'.s.wb == c.s.wb
                else if p.state.Done? && c.s.wb.capacity >= 2 then
                  && Awaits(c', AuthWrite, WRITE)
                  && c'.s.wb.contents == [0x01, if (CString(p.user), CString(p.pass)) in c.config.users then 0x00 else 0x01]
                else Over(c'))
  {
    AuthDecides(c, a.recv);
    AuthReadHears(c, c.s.clientFd, a.recv);
    AuthCalled(c, a);
    StatesHandle(c);
    hide Good, Callback, Dispatch, OnAuthRead, Over, TakeCredentials, Receive, A.IsDone, CString;
    if Final(OnAuthRead(c, c.s.clientFd, a.recv).st) {
      FinalIsOver(c, c.s.clientFd, Stm.ReadReady, a);
    } else {
      GoesOn(c, c.s.clientFd, Stm.ReadReady, a);
    }
  }

  /**
   * Credentials that are complete are judged, by the users there are at that moment,
   * however they arrived: whoever has exactly this name and password is told 0, and
   * anybody else is told 1.
   */
  lemma CredentialsJudged(
    ws: seq<World>, acts: seq<Action>, k: nat, id: nat, a: Answers,
    methods: seq<byte>, user: seq<byte>, pass: seq<byte>, surplus: seq<byte>)
    requires Serving(ws, acts, k, id) && ws[k].conns[id].s.state.AuthRead? && ws[k].conns[id].s.wb.capacity >= 2
    requires |methods| < 256 && 0 < |user| < 256 && 0 < |pass| < 256 && !a.recv.Failed?
    requires Received(ws, acts, id, k, CLIENT) + Octets(a.recv)
          == [0x05, |methods|] + methods + ([0x01, |user|] + user + [|pass|] + pass + surplus)
    ensures var c := ContextOf(ws[k], id);
            var c' := Dispatch(c, c.s.clientFd, Stm.ReadReady, a);
            var known := (CString(user), CString(pass)) in ws[k].config.users;
            && Awaits(c', AuthWrite, WRITE) && c'.s.script.told == c.s.script.told
            && c'.s.wb.contents == [0x01, if known then 0x00 else 0x01]
  {
    LoginParsed(ws, acts, k, id, a.recv, methods, A.Encode(user, pass) + surplus);
    A.CredentialsDecoded(user, pass, surplus);
    hide Serving, Good, Dispatch, Received, TakeCredentials, Receive, A.Parse, CString;
    AuthLeads(ContextOf(ws[k], id), a);
  }

  /** Octets that no credentials start with end the session, and it is told nothing; incomplete ones are waited for. */
  lemma CredentialsIncomplete(
    ws: seq<World>, acts: seq<Action>, k: nat, id: nat, a: Answers, methods: seq<byte>, later: seq<byte>)
    requires Serving(ws, acts, k, id) && ws[k].conns[id].s.state.AuthRead?
    requires |methods| < 256 && !a.recv.Failed?
    requires Received(ws, acts, id, k, CLIENT) + Octets(a.recv) == [0x05, |methods|] + methods + later
    requires forall user, pass :: !A.Carries(later, user, pass)
    ensures var c := ContextOf(ws[k], id);
            var c' := Dispatch(c, c.s.clientFd, Stm.ReadReady, a);
            && c'.s.script.told == c.s.script.told
            && (if A.Broken(later) then Over(c') else Awaits(c', AuthRead, READ) && c'.s.wb.contents == [])
  {
    LoginParsed(ws, acts, k, id, a.recv, methods, later);
    A.CredentialsRefusedIff(later);
    A.CredentialsAcceptedIff(later);
    assert ContextOf(ws[k], id).s.wb.contents == [];
    hide Serving, Good, Dispatch, Received, TakeCredentials, Receive, A.Parse, A.Broken, CString;
    AuthLeads(ContextOf(ws[k], id), a);
  }

  lemma VerdictOut(c: Context, n: int)
    requires Good(c) && c.s.state.AuthWrite? && n <= |c.s.wb.contents|
    ensures var next := OnAuthWrite(c, c.s.clientFd, n);
            && next.c.s.live && next.c.s.state == c.s.state && next.c.s.clientFd == c.s.clientFd
            && (n < 0 ==> next == Next(c, Error))
            && (n >= 0 ==> Sent(c.s, next.c.s, n))
            && (0 <= n < |c.s.wb.contents| ==> next.st.AuthWrite? && Wants(next.c, c.s.clientFd, WRITE))
            && (n == |c.s.wb.contents| ==>
                  if c.s.authStatus == 0x00 then next.st.RequestRead? && Wants(next.c, c.s.clientFd, READ) else next.st.Done?)
  {
    if n >= 0 {
      SendSends(c, n);
      SetInterestKeeps(Send(c, n), c.s.clientFd, READ);
    }
    hide Send, SetInterestOf, Sent, Owns, Frame, Fifo.CanRead;
  }

  lemma VerdictOwed(s: Session)
    requires Spoken(s) && s.state.AuthWrite?
    ensures s.script.told + s.wb.contents == [0x05, 0x02, 0x01, s.authStatus]
  {
    hide Greeted, Hearing, A.Explains;
  }

  /** The verdict goes out, in as many pieces as send takes; then exactly whoever was told 0 goes on to the request. */
  lemma VerdictSent(ws: seq<World>, acts: seq<Action>, k: nat, id: nat, a: Answers)
    requires Serving(ws, acts, k, id) && ws[k].conns[id].s.state.AuthWrite? && a.sent <= |ws[k].conns[id].s.wb.contents|
    ensures var c := ContextOf(ws[k], id);
            var c' := Dispatch(c, c.s.clientFd, Stm.WriteReady, a);
            var reply := c.s.script.told + c.s.wb.contents;
            && |reply| == 4 && reply[..3] == [0x05, 0x02, 0x01] && Partly(c, c', a)
            && (a.sent == |c.s.wb.contents| ==>
                  Wholly(c, c') && if reply[3] == 0x00 then Awaits(c', RequestRead, READ) else Over(c'))
  {
    var c := ContextOf(ws[k], id);
    ServingKnows(ws, acts, k, id);
    VerdictOwed(c.s);
    hide *;
    VerdictGoesOut(c, a);
  }

  lemma VerdictGoesOut(c: Context, a: Answers)
    requires Good(c) && c.s.state.AuthWrite? && a.sent <= |c.s.wb.contents|
    ensures var c' := Dispatch(c, c.s.clientFd, Stm.WriteReady, a);
            && Partly(c, c', a)
            && (a.sent == |c.s.wb.contents| ==>
                  Wholly(c, c') && if c.s.authStatus == 0x00 then Awaits(c', RequestRead, READ) else Over(c'))
  {
    VerdictOut(c, a.sent);
    StatesHandle(c);
    var n := OnAuthWrite(c, c.s.clientFd, a.sent);
    assert Callback(c, c.s.clientFd, Stm.WriteReady, a) == n;
    hide Good, Callback, Dispatch, OnAuthWrite, Over;
    WriteOut(c, n, a);
  }
}
