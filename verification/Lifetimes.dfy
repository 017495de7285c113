/** Runs in which a session is never freed, freed under its own callback, and freed twice. */
module Lifetimes {
  import opened Bytes
  import opened SelectorModule
  import opened Session
  import opened SessionInvariant
  import opened World
  import opened AuthGate
  import opened Fragments
  import opened Memory
  import opened Scenarios
  import Fifo
  import Stm
  import R = RequestParser

  // ----- never

  /** The only address refuses at once. */
  function Unwelcome(octets: seq<byte>): Answers {
    Receives(octets).(sockets := [Socket(2, true, Refused(R.EConnRefused))])
  }

  /** The refusal waits to be sent; the origin socket is open and was never registered. */
  ghost predicate RefusalWaits(c: Context, b: nat) {
    && c.id == 0 && c.s.live && c.s.clientFd == 1 && c.s.originFd == 2 && c.s.state.RequestWrite?
    && c.s.status != R.SUCCEEDED && c.s.heap == IN_USE
    && c.s.wb.capacity == b && c.s.wb.start == 0 && |c.s.wb.contents| == 10
    && c.items == map[0 := LISTENING, 1 := Mine(WRITE)] && c.anomalies == {} && c.honest
  }

  lemma RefusedAtOnce(c: Context, b: nat, a: Answers)
    requires c.id == 0 && c.s.live && c.s.clientFd == 1 && c.s.originFd == -1 && c.s.request == R.Decoded(SHORT)
    requires c.s.wb == Fifo.Empty(b) && b >= 10 && c.open == {0, 1} && c.s.resolution.addresses == 0 && c.s.heap == IN_USE
    requires c.items == map[0 := LISTENING, 1 := Mine(READ)] && c.anomalies == {} && c.honest
    requires a.sockets == [Socket(2, true, Refused(R.EConnRefused))]
    ensures var n := RequestConnect(c, a, 0);
            && n.st.RequestWrite? && n.c.s.request == c.s.request && n.c.config == c.config
            && RefusalWaits(n.c.(s := n.c.s.(state := RequestWrite)), b)
  {
    ShortParsed([]);
    hide R.Reply, R.Decoded, SHORT;
    assert c.items[1 := Mine(WRITE)] == map[0 := LISTENING, 1 := Mine(WRITE)];
  }

  lemma ShortRefused(c: Context, b: nat)
    requires Asking(c, b, R.START) && b >= 10
    ensures var c' := Dispatch(c, 1, Stm.ReadReady, Unwelcome(R.Encode(SHORT)));
            RefusalWaits(c', b) && c'.config == c.config
  {
    ShortParsed([]);
    ShortTaken(c, b, []);
    assert R.Encode(SHORT) + [] == R.Encode(SHORT);
    var a := Unwelcome(R.Encode(SHORT));
    hide R.Parse, R.Encode, R.Reply, R.Decoded, SHORT, TakeRequest, Receive;
    RefusedAtOnce(TakeRequest(Receive(c, a.recv)), b, a);
    hide RequestConnect;
  }

  lemma RefusalSent(c: Context, b: nat)
    requires RefusalWaits(c, b)
    ensures var c' := Dispatch(c, 1, Stm.WriteReady, Sends(10));
            && c'.config == c.config && c'.honest && c'.anomalies == {}
            && !c'.s.live && c'.s.heap.frees == 0 && !c'.s.heap.stale
  {
    assert Send(c, 10).s.wb.contents == [];
    hide Send;
  }

  lemma RefusalWatches(c: Context, b: nat)
    requires RefusalWaits(c, b)
    ensures Watches(c, 1, Stm.WriteReady) && c.honest && c.anomalies == {}
  {
  }

  /** Session 0 as the process holds it. */
  ghost predicate Leaves(w: World, live: bool, frees: nat, stale: bool) {
    && |w.conns| == 1 && w.conns[0].Proxy? && w.anomalies == {} && w.place.Idle?
    && w.conns[0].s.live == live && w.conns[0].s.heap.frees == frees && w.conns[0].s.heap.stale == stale
  }

  /** A session whose only address refuses at once is torn down and never freed. */
  lemma NeverFreedReached(b: nat) returns (ws: seq<World>, acts: seq<Action>)
    requires b >= 10
    ensures Run(ws, acts) && Leaves(ws[|acts|], false, 0, false)
  {
    hide Leads, Run, Initial, Dispatch, Asking, RefusalWaits, R.Encode, SHORT;
    var config, a := Config(false, false, [], b, []), Unwelcome(R.Encode(SHORT));
    var c0 := Greets(config, b);
    AskingWatches(c0, b, R.START);
    ShortRefused(c0, b);
    var c1 := Dispatch(c0, 1, Stm.ReadReady, a);
    RefusalWatches(c1, b);
    SceneTurns(c0, 1, Stm.ReadReady, a);
    RefusalSent(c1, b);
    var c2 := Dispatch(c1, 1, Stm.WriteReady, Sends(10));
    SceneTurns(c1, 1, Stm.WriteReady, Sends(10));
    AcceptTurn(config);
    LeadsThrough(Opening(config), Scene(c0), Scene(c1));
    LeadsThrough(Opening(config), Scene(c1), Scene(c2));
    ws, acts := LeadsToRun(Opening(config), Scene(c2));
  }

  // ----- under its own callback, and twice

  /** SO_ERROR says that the pending connect failed; a retry gets this socket. */
  function Fails(socket: Socket): Answers { Sends(0).(sockets := [socket], soError := Known(R.EConnRefused)) }

  /** The connect to address k of n is pending. */
  ghost predicate Trying(c: Context, b: nat, q: R.Request, n: nat, k: nat, h: Heap) {
    && ConnectPending(c, b, q)
    && c.s.resolution.addresses == n && c.s.resolution.current == k && c.s.heap == h
  }

  /** Giving up the registered origin leaves the table as before it was connected. */
  lemma OriginGone(c: Context, b: nat, q: R.Request, n: nat, k: nat, h: Heap)
    requires Trying(c, b, q, n, k, h)
    ensures DropOrigin(c) == c.(s := c.s.(heap := GiveUp(h, 2, true)),
                                items := map[0 := LISTENING, 1 := Mine(NOOP)], open := {0, 1})
  {
    assert c.items - {2} == map[0 := LISTENING, 1 := Mine(NOOP)];
    assert {0, 1, 2} - {2} == {0, 1};
    hide GiveUp;
  }

  /** Socket number 2 again, and its connect is pending. */
  lemma OriginBack(c: Context)
    requires c.items == map[0 := LISTENING, 1 := Mine(NOOP)] && c.open == {0, 1} && c.id == 0 && c.s.clientFd == 1
    ensures var n := OnConnectPending(OpenOrigin(c, Socket(2, true, InProgress)));
            && n.st.RequestConnecting?
            && n.c.s == c.s.(originFd := 2, resolution := c.s.resolution.(attempts := c.s.resolution.attempts + 1))
            && n.c == c.(s := n.c.s, open := {0, 1, 2}, items := map[0 := LISTENING, 1 := Mine(NOOP), 2 := Mine(WRITE)])
  {
    assert c.items[2 := Mine(WRITE)][1 := Mine(NOOP)] == map[0 := LISTENING, 1 := Mine(NOOP), 2 := Mine(WRITE)];
    assert {0, 1} + {2} == {0, 1, 2};
  }

  /** The session after an SO_ERROR, about to try the next address. */
  ghost function NextTry(c: Context): Context { Advance(WithStatus(c, R.ErrnoToSocks(R.EConnRefused))) }

  lemma NextTries(c: Context, b: nat, q: R.Request, n: nat, k: nat, h: Heap, socket: Socket)
    requires Trying(c, b, q, n, k, h) && k + 1 < n
    ensures Trying(NextTry(c), b, q, n, k + 1, h) && NextTry(c).config == c.config
    ensures OnConnecting(c, 2, Fails(socket)) == RequestConnect(NextTry(c), Fails(socket), 0)
  {
    hide RequestConnect, ReportConnection;
  }

  /** The origin is given up for the next address, whose connect is pending under the same number. */
  lemma Retries(c: Context, b: nat, q: R.Request, n: nat, k: nat, h: Heap)
    requires Trying(c, b, q, n, k, h) && k + 1 < n
    ensures var c' := Dispatch(c, 2, Stm.WriteReady, Fails(Socket(2, true, InProgress)));
            Trying(c', b, q, n, k + 1, GiveUp(h, 2, true)) && c'.config == c.config
  {
    var c1 := NextTry(c);
    NextTries(c, b, q, n, k, h, Socket(2, true, InProgress));
    OriginGone(c1, b, q, n, k + 1, h);
    OriginBack(DropOrigin(c1));
    hide GiveUp, DropOrigin, OpenOrigin, OnConnectPending, OnConnecting, NextTry;
  }

  /** The origin is given up, no socket is left, and the session is torn down. */
  lemma RetryFails(c: Context, b: nat, q: R.Request, n: nat, k: nat, h: Heap)
    requires Trying(c, b, q, n, k, h) && k + 1 < n
    ensures var c' := Dispatch(c, 2, Stm.WriteReady, Fails(Socket(-1, false, InProgress)));
            && c'.config == c.config && c'.honest && c'.anomalies == {}
            && !c'.s.live && c'.s.heap == TearDown(GiveUp(h, 2, true), -1, true, false)
  {
    var c1 := NextTry(c);
    NextTries(c, b, q, n, k, h, Socket(-1, false, InProgress));
    OriginGone(c1, b, q, n, k + 1, h);
    hide GiveUp, TearDown, DropOrigin, OnConnecting, NextTry;
  }

  /** The second origin given up frees the session, and its tear-down frees it again. */
  lemma GivenUpTwice()
    ensures var h := GiveUp(GiveUp(IN_USE, 2, true), 2, true);
            && h.frees == 1 && h.stale
            && TearDown(h, -1, true, false).frees == 2 && TearDown(h, -1, true, false).stale
  {
  }

  lemma TryingSound(c: Context, b: nat, q: R.Request, n: nat, k: nat, h: Heap)
    requires Trying(c, b, q, n, k, h)
    ensures Watches(c, 2, Stm.WriteReady) && c.honest && c.anomalies == {}
    ensures c.s.live && c.s.heap == h
  {
  }

  /** From the start to the second pending connect, one registered origin given up. */
  lemma RetriesOnce(config: Config, b: nat, n: nat) returns (c: Context)
    requires !config.auth && config.bufferSize == b >= 3 && n > 1
    ensures Trying(c, b, R.Decoded(LONG_NAME), n, 1, GiveUp(IN_USE, 2, true)) && c.config == config
    ensures Leads(Opening(config), Scene(c))
  {
    hide Leads, Dispatch, LONG_NAME, R.Decoded, GiveUp, ConnectPending;
    var a, q := Fails(Socket(2, true, InProgress)), R.Decoded(LONG_NAME);
    var c0 := Connects(config, b, n);
    TryingSound(c0, b, q, n, 0, IN_USE);
    Retries(c0, b, q, n, 0, IN_USE);
    c := Dispatch(c0, 2, Stm.WriteReady, a);
    TryingSound(c, b, q, n, 1, GiveUp(IN_USE, 2, true));
    SceneTurns(c0, 2, Stm.WriteReady, a);
    LeadsThrough(Opening(config), Scene(c0), Scene(c));
  }

  /**
   * With three addresses, two connects that fail later than at once leave a session
   * that is still served and whose memory is gone.
   */
  lemma StaleReached(b: nat) returns (ws: seq<World>, acts: seq<Action>)
    requires b >= 3
    ensures Run(ws, acts) && Leaves(ws[|acts|], true, 1, true)
  {
    GivenUpTwice();
    hide Leads, Run, Initial, Dispatch, Trying, LONG_NAME, R.Decoded, GiveUp, TearDown;
    var config, a, q := Config(false, false, [], b, []), Fails(Socket(2, true, InProgress)), R.Decoded(LONG_NAME);
    var h := GiveUp(IN_USE, 2, true);
    var c0 := RetriesOnce(config, b, 3);
    TryingSound(c0, b, q, 3, 1, h);
    Retries(c0, b, q, 3, 1, h);
    var c1 := Dispatch(c0, 2, Stm.WriteReady, a);
    TryingSound(c1, b, q, 3, 2, GiveUp(h, 2, true));
    SceneTurns(c0, 2, Stm.WriteReady, a);
    AcceptTurn(config);
    LeadsThrough(Opening(config), Scene(c0), Scene(c1));
    ws, acts := LeadsToRun(Opening(config), Scene(c1));
  }

  /**
   * The same, but the second retry gets no socket: the session is torn down and its
   * memory is freed a second time.
   */
  lemma FreedTwiceReached(b: nat) returns (ws: seq<World>, acts: seq<Action>)
    requires b >= 3
    ensures Run(ws, acts) && Leaves(ws[|acts|], false, 2, true)
  {
    GivenUpTwice();
    hide Leads, Run, Initial, Dispatch, Trying, LONG_NAME, R.Decoded, GiveUp, TearDown;
    var config, a, q := Config(false, false, [], b, []), Fails(Socket(-1, false, InProgress)), R.Decoded(LONG_NAME);
    var h := GiveUp(IN_USE, 2, true);
    var c0 := RetriesOnce(config, b, 3);
    TryingSound(c0, b, q, 3, 1, h);
    RetryFails(c0, b, q, 3, 1, h);
    var c1 := Dispatch(c0, 2, Stm.WriteReady, a);
    SceneTurns(c0, 2, Stm.WriteReady, a);
    AcceptTurn(config);
    LeadsThrough(Opening(config), Scene(c0), Scene(c1));
    ws, acts := LeadsToRun(Opening(config), Scene(c1));
  }
}
