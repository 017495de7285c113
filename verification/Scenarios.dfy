/**
 * Runs that do happen: from the start of the process to the abort for every
 * buffer size that allows it, and to a relay whose first octets nobody watches.
 */
module Scenarios {
  import opened Bytes
  import opened ByteMachine
  import opened SelectorModule
  import opened Session
  import opened SessionInvariant
  import opened Management
  import opened World
  import opened WorldInvariant
  import opened AuthGate
  import opened Fragments
  import opened ConnectReplies
  import opened Theorems
  import Fifo
  import Stm
  import H = HelloParser
  import A = AuthParser
  import R = RequestParser

  // ----- a process with one session

  /** The process idle, with one listening socket and session 0. */
  ghost function Scene(c: Context): World {
    World(c.items, c.open, {0}, [Proxy(c.s)], c.config, c.metrics, c.threads, multiset{}, multiset{}, [], Idle,
          c.anomalies, c.honest)
  }

  const LISTENING: Item<Kind> := Item(READ, SocksPassive, 0)

  function Mine(i: Interest): Item<Kind> { Item(i, SocksSession, 0) }

  /** main, before the first selector_select. */
  ghost function Opening(config: Config): World {
    World(map[0 := LISTENING], {0}, {0}, [], config, Metrics(0, 0, 0, 0), multiset{}, multiset{}, multiset{}, [], Idle,
          {}, true)
  }

  const NO_MNG := MngAnswers(Recv.Failed, 0, [], [])
  const NO_ACCEPT := Accept(-1, false, false)

  function Receives(octets: seq<byte>): Answers {
    Answers(Got(octets), 0, [Socket(2, true, InProgress)], true, Known(R.NoError))
  }

  function Sends(n: int): Answers { Receives([]).(recv := Recv.Failed, sent := n) }

  ghost predicate Watches(c: Context, key: int, e: Stm.Event) {
    && c.id == 0 && c.honest && c.anomalies == {}
    && 0 <= key < MAX_SIZE && key in c.items && c.items[key].handler.SocksSession? && c.items[key].data == 0
    && match e
       case ReadReady => c.items[key].interest.read
       case WriteReady => c.items[key].interest.write
       case BlockReady => false
  }

  lemma SceneCalls(c: Context, key: int, e: Stm.Event, a: Answers)
    requires Watches(c, key, e) && Dispatch(c, key, e, a).config == c.config
    ensures Awaits(Scene(c), key, e)
    ensures After(Scene(c), key, e, Input(a, NO_MNG, NO_ACCEPT)) == Scene(Dispatch(c, key, e, a))
  {
    hide Dispatch;
    assert ContextOf(Scene(c), 0) == c;
    assert [Proxy(c.s)][0 := Proxy(Dispatch(c, key, e, a).s)] == [Proxy(Dispatch(c, key, e, a).s)];
  }

  /** A turn of selector_select brings the event to the session. */
  lemma SceneTurns(c: Context, key: int, e: Stm.Event, a: Answers)
    requires Watches(c, key, e)
    requires var c' := Dispatch(c, key, e, a); c'.config == c.config && c'.honest && c'.anomalies == {}
    ensures Leads(Scene(c), Scene(Dispatch(c, key, e, a)))
  {
    hide Dispatch, Leads, After, Awaits;
    SceneCalls(c, key, e, a);
    TurnServes(Scene(c), key, e, Input(a, NO_MNG, NO_ACCEPT));
  }

  // ----- the session just accepted, and its hello

  ghost function Accepted(config: Config): Context {
    Context(0, New(1, config.bufferSize), map[0 := LISTENING, 1 := Mine(READ)], {0, 1}, config, Metrics(0, 0, 0, 0),
            multiset{}, {}, true)
  }

  lemma AcceptTurn(config: Config)
    ensures Initial(Opening(config)) && Leads(Opening(config), Scene(Accepted(config)))
  {
    hide Leads;
    var w, a := Opening(config), Input(Sends(0), NO_MNG, Accept(1, true, true));
    assert After(w, 0, Stm.ReadReady, a) == Scene(Accepted(config));
    TurnServes(w, 0, Stm.ReadReady, a);
  }

  const GREETING: seq<byte> := [0x05, 0x01, 0x00]

  lemma GreetingParsed()
    ensures H.Parse(false, H.START, GREETING) == (H.Hello(H.Done, 0, H.NO_AUTH), [])
  {
    hide H.Parse;
    H.HelloDecoded(false, [0x00], []);
    assert H.Encode([0x00]) + [] == GREETING;
  }

  /** The state in which the reply to the greeting waits. */
  ghost predicate ReplyWaits(c: Context, b: nat) {
    && Plain(c, b) && c.s.state.HelloWrite? && c.s.hello == H.Hello(H.Done, 0, H.NO_AUTH)
    && c.s.wb == Fifo.View(b, 0, [0x05, 0x00]) && c.items == map[0 := LISTENING, 1 := Mine(WRITE)]
  }

  /** Everything that does not change before the request is complete. */
  ghost predicate Plain(c: Context, b: nat) {
    && c.id == 0 && c.s.live && c.s.clientFd == 1 && c.s.originFd == -1 && c.s.rb == Fifo.Empty(b)
    && c.s.resolution == Resolution(0, 0, 0) && !c.s.connected && c.s.relay == NO_RELAY && c.s.heap == IN_USE
    && c.open == {0, 1} && c.threads == multiset{} && c.anomalies == {} && c.honest
    && !c.config.auth && c.config.bufferSize == b
  }

  lemma GreetingHeard(config: Config, b: nat)
    requires !config.auth && config.bufferSize == b >= 3
    ensures var c := Dispatch(Accepted(config), 1, Stm.ReadReady, Receives(GREETING));
            ReplyWaits(c, b) && c.config == config
  {
    var c := Accepted(config);
    GreetingTaken(c, b);
    hide TakeHello, Receive;
    assert [] + [0x05, 0x00] == [0x05, 0x00];
    assert c.items[1 := Mine(WRITE)] == map[0 := LISTENING, 1 := Mine(WRITE)];
  }

  lemma GreetingTaken(c: Context, b: nat)
    requires c.s.rb == Fifo.Empty(b) && c.s.hello == H.START && b >= 3 && !c.config.auth
    ensures var c1 := TakeHello(Receive(c, Got(GREETING)));
            c1.s.hello == H.Hello(H.Done, 0, H.NO_AUTH) && c1.s.rb == Fifo.Empty(b) && c1.honest == c.honest
  {
    GreetingParsed();
    hide H.Parse;
    assert [] + GREETING == GREETING;
  }

  /** Waiting for the rest of the request, which the parser has seen up to p. */
  ghost predicate Asking(c: Context, b: nat, p: R.Request) {
    && Plain(c, b) && c.s.state.RequestRead? && c.s.request == p
    && c.s.wb == Fifo.Empty(b) && c.items == map[0 := LISTENING, 1 := Mine(READ)]
  }

  lemma GreetingReplied(c: Context, b: nat)
    requires ReplyWaits(c, b)
    ensures var c' := Dispatch(c, 1, Stm.WriteReady, Sends(2));
            Asking(c', b, R.START) && c'.config == c.config
  {
    assert c.items[1 := Mine(READ)] == map[0 := LISTENING, 1 := Mine(READ)];
  }

  /** From the start to the request. */
  lemma Greets(config: Config, b: nat) returns (c: Context)
    requires !config.auth && config.bufferSize == b >= 3
    ensures Asking(c, b, R.START) && c.config == config && Leads(Opening(config), Scene(c))
  {
    hide Leads, Dispatch;
    var c0 := Accepted(config);
    AcceptTurn(config);
    var c1 := Dispatch(c0, 1, Stm.ReadReady, Receives(GREETING));
    GreetingHeard(config, b);
    SceneTurns(c0, 1, Stm.ReadReady, Receives(GREETING));
    c := Dispatch(c1, 1, Stm.WriteReady, Sends(2));
    GreetingReplied(c1, b);
    SceneTurns(c1, 1, Stm.WriteReady, Sends(2));
    LeadsThrough(Opening(config), Scene(c0), Scene(c1));
    LeadsThrough(Opening(config), Scene(c1), Scene(c));
  }

  // ----- the request, octet by octet

  lemma OctetParsed(p: R.Request, x: byte)
    ensures R.Parse(p, [x]) == (R.Feed(p, x), [])
  {
    R.ParseStep(p, [x]);
    R.ParseNothing(R.Feed(p, x));
  }

  /** The parser takes the octet, and nothing is left in the buffer. */
  lemma OctetTaken(c: Context, b: nat, p: R.Request, x: byte)
    requires c.s.rb == Fifo.Empty(b) && c.s.request == p && b > 0
    ensures var c1 := TakeRequest(Receive(c, Got([x])));
            c1.s.request == R.Feed(p, x) && c1.s.rb == Fifo.Empty(b) && c1.honest == c.honest
  {
    OctetParsed(p, x);
    hide R.Parse, R.Feed;
    assert [] + [x] == [x];
  }

  /** An incomplete request is only read on. */
  lemma OctetKeeps(c: Context, p: R.Request, x: byte)
    requires c.s.state.RequestRead? && TakeRequest(Receive(c, Got([x]))).s.request == R.Feed(p, x) && !R.IsDone(R.Feed(p, x))
    ensures Callback(c, 1, Stm.ReadReady, Receives([x])) == Next(TakeRequest(Receive(c, Got([x]))), RequestRead)
  {
    hide TakeRequest, Receive, R.Feed, RequestProcess, R.IsDone;
  }

  lemma OctetAsked(c: Context, b: nat, p: R.Request, x: byte)
    requires Asking(c, b, p) && b > 0 && !R.IsDone(R.Feed(p, x))
    ensures var c' := Dispatch(c, 1, Stm.ReadReady, Receives([x]));
            Asking(c', b, R.Feed(p, x)) && c'.config == c.config
  {
    OctetTaken(c, b, p, x);
    OctetKeeps(c, p, x);
    hide Callback, TakeRequest, Receive, R.Feed, Finish;
  }

  /** However long the request and however small the buffer, it arrives up to its last octet. */
  lemma {:induction false} Asks(c: Context, b: nat, p: R.Request, message: seq<byte>, q: R.Request)
    returns (c': Context, p': R.Request)
    requires Asking(c, b, p) && b > 0 && !R.IsDone(p) && message != []
    requires R.Parse(p, message) == (q, []) && R.IsDone(q)
    ensures Asking(c', b, p') && R.Feed(p', message[|message| - 1]) == q
    ensures c'.config == c.config && Leads(Scene(c), Scene(c'))
    decreases |message|
  {
    hide Leads, Dispatch, R.Parse, R.Feed, Asking;
    var x := message[0];
    R.ParseStep(p, message);
    if |message| == 1 {
      R.ParseNothing(R.Feed(p, x));
      c', p' := c, p;
      assert c.honest by { AskingWatches(c, b, p); }
      LeadsNowhere(Scene(c));
    } else {
      var c1 := Dispatch(c, 1, Stm.ReadReady, Receives([x]));
      OctetAsked(c, b, p, x);
      AskingWatches(c, b, p);
      AskingWatches(c1, b, R.Feed(p, x));
      SceneTurns(c, 1, Stm.ReadReady, Receives([x]));
      c', p' := Asks(c1, b, R.Feed(p, x), message[1..], q);
      LeadsThrough(Scene(c), Scene(c1), Scene(c'));
    }
  }

  lemma AskingWatches(c: Context, b: nat, p: R.Request)
    requires Asking(c, b, p)
    ensures Watches(c, 1, Stm.ReadReady) && c.honest && c.anomalies == {}
  {
  }

  // ----- the name is resolved, and the connect is pending

  /** Waiting for the resolver thread. */
  ghost predicate Resolving(c: Context, b: nat, q: R.Request) {
    && Plain(c.(threads := multiset{}), b) && c.threads == multiset{Thread(0, 1)}
    && c.s.state.RequestResolv? && c.s.request == q
    && c.s.wb == Fifo.Empty(b) && c.items == map[0 := LISTENING, 1 := Mine(NOOP)]
  }

  lemma LastOctetAsked(c: Context, b: nat, p: R.Request, x: byte, q: R.Request)
    requires Asking(c, b, p) && b > 0 && R.Feed(p, x) == q && q.state.Done? && q.cmd == R.CONNECT && q.atyp == R.DOMAIN
    ensures var c' := Dispatch(c, 1, Stm.ReadReady, Receives([x]));
            Resolving(c', b, q) && c'.config == c.config
  {
    OctetTaken(c, b, p, x);
    assert c.items[1 := Mine(NOOP)] == map[0 := LISTENING, 1 := Mine(NOOP)];
    assert multiset{} + multiset{Thread(0, 1)} == multiset{Thread(0, 1)};
    hide TakeRequest, Receive, RequestConnect, R.Feed;
  }

  /** The session once its thread has stored n addresses and is gone. */
  ghost function WithAddresses(c: Context, n: nat): Context {
    c.(threads := multiset{}, s := c.s.(resolution := Resolution(n, 0, c.s.resolution.attempts)))
  }

  lemma ThreadReturns(c: Context, n: nat)
    requires c.id == 0 && c.threads == multiset{Thread(0, 1)} && c.honest && c.anomalies == {}
    ensures Leads(Scene(c), Scene(WithAddresses(c, n)).(place := Drain([1])))
  {
    hide Leads;
    var w, t := Scene(c), Thread(0, 1);
    var w1 := Scene(WithAddresses(c, n)).(telling := multiset{t});
    assert w.asking - multiset{t} == multiset{} && w.telling + multiset{t} == multiset{t};
    LeadsOn(w, ThreadResolves(t, n));
    assert Effect(w, ThreadResolves(t, n)) == w1;
    var w2 := Scene(WithAddresses(c, n)).(jobs := [1]);
    LeadsOn(w1, ThreadNotifies(t, true));
    assert Effect(w1, ThreadNotifies(t, true)) == w2;
    LeadsOn(w2, Interrupt);
    LeadsThrough(w, w1, w2);
    LeadsThrough(w, w2, Effect(w2, Interrupt));
  }

  /** The drain calls the session back and ends. */
  lemma JobServes(c: Context, a: Answers)
    requires c.id == 0 && c.honest && c.anomalies == {}
    requires 1 in c.items && c.items[1].handler.SocksSession? && c.items[1].data == 0
    requires var c' := Dispatch(c, 1, Stm.BlockReady, a); c'.config == c.config && c'.honest && c'.anomalies == {}
    ensures Leads(Scene(c).(place := Drain([1])), Scene(Dispatch(c, 1, Stm.BlockReady, a)))
  {
    hide Leads, Dispatch;
    var w, c', input := Scene(c).(place := Drain([1])), Dispatch(c, 1, Stm.BlockReady, a), Input(a, NO_MNG, NO_ACCEPT);
    var w1 := Scene(c').(place := Drain([]));
    assert ContextOf(w.(place := Drain([])), 0) == c;
    assert [Proxy(c.s)][0 := Proxy(c'.s)] == [Proxy(c'.s)] && [1][1..] == [];
    assert Effect(w, Block(input)) == w1;
    LeadsOn(w, Block(input));
    LeadsOn(w1, Block(input));
    LeadsThrough(w, w1, Scene(c'));
  }

  /** The pending connect. */
  ghost predicate ConnectPending(c: Context, b: nat, q: R.Request) {
    && c.id == 0 && c.s.live && c.s.clientFd == 1 && c.s.originFd == 2 && c.s.state.RequestConnecting?
    && c.s.request == q && c.s.wb == Fifo.Empty(b) && c.s.relay == NO_RELAY
    && c.items == map[0 := LISTENING, 1 := Mine(NOOP), 2 := Mine(WRITE)] && c.open == {0, 1, 2}
    && c.threads == multiset{} && c.anomalies == {} && c.honest && c.config.bufferSize == b
  }

  lemma ConnectStarts(c: Context, b: nat, q: R.Request, a: Answers)
    requires c.id == 0 && c.s.live && c.s.clientFd == 1 && c.s.originFd == -1 && c.s.request == q
    requires c.s.wb == Fifo.Empty(b) && c.s.relay == NO_RELAY && c.open == {0, 1}
    requires exists i :: c.items == map[0 := LISTENING, 1 := Mine(i)]
    requires c.threads == multiset{} && c.anomalies == {} && c.honest && c.config.bufferSize == b
    requires a.sockets == [Socket(2, true, InProgress)]
    ensures var n := RequestConnect(c, a, 0);
            n.st.RequestConnecting? && n.c.s == c.s.(originFd := 2, resolution := n.c.s.resolution)
            && n.c.s.resolution.addresses == c.s.resolution.addresses
            && n.c == c.(s := n.c.s, open := {0, 1, 2}, items := map[0 := LISTENING, 1 := Mine(NOOP), 2 := Mine(WRITE)])
  {
    var i :| c.items == map[0 := LISTENING, 1 := Mine(i)];
    assert c.items[2 := Mine(WRITE)][1 := Mine(NOOP)] == map[0 := LISTENING, 1 := Mine(NOOP), 2 := Mine(WRITE)];
    assert {0, 1} + {2} == {0, 1, 2};
  }

  lemma JobConnects(c: Context, b: nat, q: R.Request, n: nat)
    requires Resolving(c, b, q) && n > 0
    ensures var c' := Dispatch(WithAddresses(c, n), 1, Stm.BlockReady, Sends(0));
            && ConnectPending(c', b, q) && c'.config == c.config && c'.s.heap == IN_USE
            && c'.s.resolution.addresses == n && c'.s.resolution.current == 0
  {
    var r := WithAddresses(c, n);
    ConnectStarts(r, b, q, Sends(0));
    hide RequestConnect;
  }

  /** From the request to the pending connect to the first of n addresses. */
  lemma Resolves(c: Context, b: nat, q: R.Request, n: nat) returns (c': Context)
    requires Resolving(c, b, q) && n > 0
    ensures ConnectPending(c', b, q) && c'.config == c.config && Leads(Scene(c), Scene(c'))
    ensures c'.s.heap == IN_USE && c'.s.resolution.addresses == n && c'.s.resolution.current == 0
  {
    hide Leads, Dispatch;
    ThreadReturns(c, n);
    JobConnects(c, b, q, n);
    c' := Dispatch(WithAddresses(c, n), 1, Stm.BlockReady, Sends(0));
    JobServes(WithAddresses(c, n), Sends(0));
    LeadsThrough(Scene(c), Scene(WithAddresses(c, n)).(place := Drain([1])), Scene(c'));
  }

  /** A request for a name of 255 octets. */
  const LONG_NAME: R.Message := R.Message(R.CONNECT, 0, R.DOMAIN, 255, seq(255, _ => 97), [0, 80])

  lemma LongReply()
    ensures R.WellFormed(LONG_NAME) && |R.Reply(R.SUCCEEDED, R.Decoded(LONG_NAME))| == 262
  {
    CStringOfNulFree(LONG_NAME.addr);
  }

  lemma LongParsed()
    ensures var q := R.Decoded(LONG_NAME);
            && R.Encode(LONG_NAME) != [] && R.Parse(R.START, R.Encode(LONG_NAME)) == (q, [])
            && q.state.Done? && R.IsDone(q) && !R.IsDone(R.START) && q.cmd == R.CONNECT && q.atyp == R.DOMAIN
  {
    LongReply();
    hide R.Parse;
    R.RequestDecoded(LONG_NAME, []);
    assert R.Encode(LONG_NAME) + [] == R.Encode(LONG_NAME);
  }

  /** From the start to the pending connect for a long name with n addresses. */
  lemma Connects(config: Config, b: nat, n: nat) returns (c: Context)
    requires !config.auth && config.bufferSize == b >= 3 && n > 0
    ensures ConnectPending(c, b, R.Decoded(LONG_NAME)) && c.config == config && Leads(Opening(config), Scene(c))
    ensures c.s.heap == IN_USE && c.s.resolution.addresses == n && c.s.resolution.current == 0
  {
    hide Leads, Dispatch, Asking, Resolving, ConnectPending;
    hide R.Parse, R.Feed, R.Decoded, R.Encode, LONG_NAME;
    var c0 := Greets(config, b);
    var message, q := R.Encode(LONG_NAME), R.Decoded(LONG_NAME);
    LongParsed();
    var c1, p := Asks(c0, b, R.START, message, q);
    var x := message[|message| - 1];
    LastOctetAsked(c1, b, p, x, q);
    AskingWatches(c1, b, p);
    var c2 := Dispatch(c1, 1, Stm.ReadReady, Receives([x]));
    ResolvingSound(c2, b, q);
    SceneTurns(c1, 1, Stm.ReadReady, Receives([x]));
    c := Resolves(c2, b, q, n);
    LeadsThrough(Opening(config), Scene(c0), Scene(c1));
    LeadsThrough(Opening(config), Scene(c1), Scene(c2));
    LeadsThrough(Opening(config), Scene(c2), Scene(c));
  }

  // ----- the abort

  /** The connect succeeds, and the process is gone. */
  lemma ConnectAborts(c: Context, b: nat, q: R.Request)
    requires ConnectPending(c, b, q) && |R.Reply(R.SUCCEEDED, q)| > b
    ensures var c' := Dispatch(c, 2, Stm.WriteReady, Sends(0));
            c'.anomalies == {ReplyTooBig} && c'.honest && c'.config == c.config
  {
    hide R.Reply;
  }

  /** A run in which the buffer size is always b and which ends with the abort. */
  ghost predicate Aborts(ws: seq<World>, acts: seq<Action>, b: nat) {
    && Run(ws, acts) && (forall k :: 0 <= k < |ws| ==> ws[k].config.bufferSize == b)
    && ws[|acts|].anomalies == {ReplyTooBig}
  }

  lemma AbortReached(b: nat) returns (ws: seq<World>, acts: seq<Action>)
    requires 3 <= b < 262
    ensures Aborts(ws, acts, b)
  {
    hide Leads, Dispatch, ConnectPending, Run, Initial, R.Reply, LONG_NAME, R.Decoded;
    var config := Config(false, false, [], b, []);
    var c := Connects(config, b, 1);
    LongReply();
    ConnectAborts(c, b, R.Decoded(LONG_NAME));
    PendingWatches(c, b, R.Decoded(LONG_NAME));
    SceneCalls(c, 2, Stm.WriteReady, Sends(0));
    var last := SceneEnds(c, 2, Stm.WriteReady, Sends(0));
    AcceptTurn(config);
    LeadsThrough(Opening(config), Scene(c), last);
    ws, acts := LeadsToRun(Opening(config), last);
  }

  lemma ResolvingSound(c: Context, b: nat, q: R.Request)
    requires Resolving(c, b, q)
    ensures c.honest && c.anomalies == {}
  {
  }

  lemma PendingWatches(c: Context, b: nat, q: R.Request)
    requires ConnectPending(c, b, q)
    ensures Watches(c, 2, Stm.WriteReady)
  {
  }

  /** The event reaches its callback, whatever comes of it. */
  lemma SceneEnds(c: Context, key: int, e: Stm.Event, a: Answers) returns (w: World)
    requires Watches(c, key, e) && Dispatch(c, key, e, a).honest && Dispatch(c, key, e, a).config == c.config
    ensures Leads(Scene(c), w) && w == Scene(Dispatch(c, key, e, a)).(place := w.place)
  {
    hide Leads, Dispatch, After, Awaits;
    SceneCalls(c, key, e, a);
    var input := Input(a, NO_MNG, NO_ACCEPT);
    EventReaches(Scene(c), key, e, input);
    w := After(Scene(c), key, e, input).(place := PlaceAfter(Scene(c), key, e));
  }

  /**
   * Exactly the buffer sizes with which the process can be brought to abort: with
   * one and the same size all along, some run ends with a reply that does not fit
   * if and only if the size is at least 3 and at most 261.
   */
  lemma AbortReachableIff(b: nat)
    ensures (exists ws, acts :: Aborts(ws, acts, b)) <==> 3 <= b < 262
  {
    hide Run;
    if 3 <= b < 262 {
      var ws, acts := AbortReached(b);
      assert Aborts(ws, acts, b);
    }
    if ws, acts :| Aborts(ws, acts, b) && !(3 <= b < 262) {
      HarmlessSizesNeverAbort(ws, acts);
    }
  }

  // ----- octets read ahead that nobody watches

  /** A request for an address, with more octets behind it. */
  const SHORT: R.Message := R.Message(R.CONNECT, 0, R.IPV4, 0, [10, 0, 0, 1], [0, 80])

  lemma ShortParsed(ahead: seq<byte>)
    ensures var q := R.Decoded(SHORT);
            && R.WellFormed(SHORT) && |R.Encode(SHORT)| == 10 && (forall st: byte :: |R.Reply(st, q)| == 10)
            && R.Parse(R.START, R.Encode(SHORT) + ahead) == (q, ahead)
            && q.state.Done? && q.cmd == R.CONNECT && q.atyp == R.IPV4 && R.IsDone(q) && !R.IsError(q)
  {
    hide R.Parse;
    R.RequestDecoded(SHORT, ahead);
  }

  /** The parser takes the request and leaves the rest. */
  lemma ShortTaken(c: Context, b: nat, ahead: seq<byte>)
    requires c.s.rb == Fifo.Empty(b) && c.s.request == R.START && 10 + |ahead| <= b
    ensures var c1 := TakeRequest(Receive(c, Got(R.Encode(SHORT) + ahead)));
            && c1.s.request == R.Decoded(SHORT) && c1.honest == c.honest
            && c1.s.rb == if ahead == [] then Fifo.Empty(b) else Fifo.View(b, 10, ahead)
  {
    ShortParsed(ahead);
    hide R.Parse, R.Encode, R.Reply, R.Decoded, SHORT;
    assert [] + (R.Encode(SHORT) + ahead) == R.Encode(SHORT) + ahead;
    assert (R.Encode(SHORT) + ahead)[10..] == ahead;
  }

  lemma ShortAsked(c: Context, b: nat, ahead: seq<byte>)
    requires Asking(c, b, R.START) && ahead != [] && 10 + |ahead| <= b
    ensures var c' := Dispatch(c, 1, Stm.ReadReady, Receives(R.Encode(SHORT) + ahead));
            ConnectPending(c', b, R.Decoded(SHORT)) && c'.config == c.config && c'.s.rb == Fifo.View(b, 10, ahead)
  {
    ShortParsed(ahead);
    ShortTaken(c, b, ahead);
    var a := Receives(R.Encode(SHORT) + ahead);
    hide R.Parse, R.Encode, R.Reply, R.Decoded, SHORT, TakeRequest, Receive;
    ConnectStarts(TakeRequest(Receive(c, a.recv)), b, R.Decoded(SHORT), a);
    hide RequestConnect;
  }

  /** The reply to the successful connect waits. */
  ghost predicate Told(c: Context, b: nat, ahead: seq<byte>) {
    && c.id == 0 && c.s.live && c.s.clientFd == 1 && c.s.originFd == 2 && c.s.state.RequestWrite? && c.s.connected
    && c.s.status == R.SUCCEEDED && c.s.rb == Fifo.View(b, 10, ahead)
    && c.s.wb.capacity == b && c.s.wb.start == 0 && |c.s.wb.contents| == 10 && c.s.relay == NO_RELAY
    && c.items == map[0 := LISTENING, 1 := Mine(WRITE), 2 := Mine(NOOP)] && c.anomalies == {} && c.honest
  }

  lemma ConnectTold(c: Context, b: nat, ahead: seq<byte>)
    requires ConnectPending(c, b, R.Decoded(SHORT)) && b >= 10 && c.s.rb == Fifo.View(b, 10, ahead)
    ensures var c' := Dispatch(c, 2, Stm.WriteReady, Sends(0));
            Told(c', b, ahead) && c'.config == c.config
  {
    ShortParsed(ahead);
    hide R.Parse, R.Encode, R.Reply, R.Decoded, SHORT;
    assert c.items[1 := Mine(WRITE)][2 := Mine(NOOP)] == map[0 := LISTENING, 1 := Mine(WRITE), 2 := Mine(NOOP)];
  }

  /** The relay before its first event. */
  ghost predicate Holding(c: Context, b: nat, ahead: seq<byte>) {
    && c.id == 0 && c.s.state.Copy? && c.s.live && c.s.clientFd == 1 && c.s.originFd == 2
    && c.s.relay == NO_RELAY.(leftUp := ahead) && c.s.rb == Fifo.View(b, 10, ahead) && c.s.wb.contents == []
    && c.items == map[0 := LISTENING, 1 := Mine(READ), 2 := Mine(READ)] && c.honest && c.anomalies == {}
  }

  lemma RelayEntered(c: Context, b: nat, ahead: seq<byte>)
    requires Told(c, b, ahead)
    ensures var c' := Dispatch(c, 1, Stm.WriteReady, Sends(10));
            Holding(c', b, ahead) && c'.config == c.config
  {
    assert c.items[1 := Mine(READ)][2 := Mine(READ)] == map[0 := LISTENING, 1 := Mine(READ), 2 := Mine(READ)];
    ReplySent(c, b, ahead);
    hide Send;
  }

  lemma ReplySent(c: Context, b: nat, ahead: seq<byte>)
    requires Told(c, b, ahead)
    ensures var c1 := Send(c, 10); c1.s.wb.contents == [] && c1.honest
  {
  }

  lemma ToldWatches(c: Context, b: nat, ahead: seq<byte>)
    requires Told(c, b, ahead)
    ensures Watches(c, 1, Stm.WriteReady) && c.honest && c.anomalies == {}
  {
  }

  lemma HoldingWatches(c: Context, b: nat, ahead: seq<byte>)
    requires Holding(c, b, ahead)
    ensures Watches(c, 1, Stm.ReadReady) && c.honest && c.anomalies == {}
  {
  }

  /** From the start to a relay that holds these octets. */
  lemma Holds(config: Config, b: nat, ahead: seq<byte>) returns (c: Context)
    requires !config.auth && config.bufferSize == b && ahead != [] && 10 + |ahead| <= b
    ensures Holding(c, b, ahead) && c.config == config && Leads(Opening(config), Scene(c))
  {
    hide Leads, Dispatch, Asking, ConnectPending, Told, Holding, R.Encode, R.Decoded, SHORT;
    var c0 := Greets(config, b);
    AskingWatches(c0, b, R.START);
    ShortAsked(c0, b, ahead);
    var a := Receives(R.Encode(SHORT) + ahead);
    var c1 := Dispatch(c0, 1, Stm.ReadReady, a);
    PendingWatches(c1, b, R.Decoded(SHORT));
    SceneTurns(c0, 1, Stm.ReadReady, a);
    ConnectTold(c1, b, ahead);
    var c2 := Dispatch(c1, 2, Stm.WriteReady, Sends(0));
    ToldWatches(c2, b, ahead);
    SceneTurns(c1, 2, Stm.WriteReady, Sends(0));
    RelayEntered(c2, b, ahead);
    c := Dispatch(c2, 1, Stm.WriteReady, Sends(10));
    HoldingWatches(c, b, ahead);
    SceneTurns(c2, 1, Stm.WriteReady, Sends(10));
    LeadsThrough(Opening(config), Scene(c0), Scene(c1));
    LeadsThrough(Opening(config), Scene(c1), Scene(c2));
    LeadsThrough(Opening(config), Scene(c2), Scene(c));
  }

  /** The relay of session 0 holds octets for the origin, which is not watched for writing. */
  ghost predicate Stalls(w: World, ahead: seq<byte>) {
    && |w.conns| == 1 && w.conns[0].Proxy? && w.anomalies == {} && w.place.Idle?
    && var s := w.conns[0].s;
       && s.live && s.state.Copy? && s.rb.contents == ahead
       && s.originFd in w.items && !w.items[s.originFd].interest.write && !Watched(w.items, s)
  }

  /**
   * The failing side of Wakeups.NoLostWakeup is reached: a client that sends octets
   * behind its request and waits, before an origin that waits for them, is left
   * with them in the buffer and no event that would send them on.
   */
  lemma StallReached(b: nat, ahead: seq<byte>) returns (ws: seq<World>, acts: seq<Action>)
    requires ahead != [] && 10 + |ahead| <= b
    ensures Run(ws, acts) && Stalls(ws[|acts|], ahead)
  {
    var config := Config(false, false, [], b, []);
    var c := Holds(config, b, ahead);
    AcceptTurn(config);
    hide Leads, Run, Initial;
    ws, acts := LeadsToRun(Opening(config), Scene(c));
  }

  /** Session 0 is over, and the octets for the origin were not sent. */
  ghost predicate Loses(w: World, ahead: seq<byte>) {
    && |w.conns| == 1 && w.conns[0].Proxy? && w.anomalies == {} && w.place.Idle?
    && var s := w.conns[0].s;
       !s.live && s.ended && s.rb.contents == s.relay.leftUp == ahead && s.relay.toOrigin == []
  }

  /**
   * Wakeups.FullBufferLosesRelay is reached for every size of at least 11: the
   * octets behind the request fill the buffer, so that recv, called without room,
   * returns 0, and the session ends with none of them sent.
   */
  lemma LossReached(b: nat, ahead: seq<byte>) returns (ws: seq<World>, acts: seq<Action>)
    requires ahead != [] && 10 + |ahead| == b
    ensures Run(ws, acts) && Loses(ws[|acts|], ahead)
  {
    hide Leads, Run, Initial, Dispatch, Holding;
    var config, a := Config(false, false, [], b, []), Sends(0).(recv := Closed);
    var c := Holds(config, b, ahead);
    HoldingWatches(c, b, ahead);
    RelayLost(c, b, ahead, a);
    var c' := Dispatch(c, 1, Stm.ReadReady, a);
    SceneTurns(c, 1, Stm.ReadReady, a);
    AcceptTurn(config);
    LeadsThrough(Opening(config), Scene(c), Scene(c'));
    ws, acts := LeadsToRun(Opening(config), Scene(c'));
  }

  lemma RelayLost(c: Context, b: nat, ahead: seq<byte>, a: Answers)
    requires Holding(c, b, ahead) && ahead != [] && 10 + |ahead| == b && a.recv.Closed?
    ensures var c' := Dispatch(c, 1, Stm.ReadReady, a);
            && c'.honest && c'.anomalies == {} && c'.config == c.config
            && !c'.s.live && c'.s.ended && c'.s.rb.contents == c'.s.relay.leftUp == ahead && c'.s.relay.toOrigin == []
  {
    hide TearDown;
  }
}
