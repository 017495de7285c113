/**
 * The gate of the management service, over whole runs: no session makes a
 * request before it showed the token, and nothing but a complete request of
 * such a session changes the configuration.
 */
module MngGate {
  import opened Bytes
  import opened ByteMachine
  import opened AdminForm
  import opened SelectorModule
  import opened ServerConfig
  import opened Session
  import opened Management
  import opened World
  import opened AuthGate
  import Fifo
  import Stm

  // ----- the login message

  /** The octets start with a login whose password, as a C string, is the token. */
  ghost predicate Shows(input: seq<byte>, password: seq<byte>, token: seq<byte>) {
    0 < |password| < 256 && CString(password) == token && Encode(CONNECT, [[0x00], password]) <= input
  }

  ghost predicate ShowsToken(input: seq<byte>, token: seq<byte>) { exists password :: Shows(input, password, token) }

  /** What arrives continues what was heard before. */
  lemma Continues(l: Layout, form: Form, heard: seq<byte>, more: seq<byte>)
    requires Parse(l, START, heard) == (form, []) && !IsDone(form)
    ensures Parse(l, START, heard + more) == Parse(l, form, more)
  {
    hide Feed;
    ConsumeSplit(Feeder(l), IsDone, START, heard, more);
  }

  /** The password of a login message is determined by its octets. */
  lemma OnePassword(input: seq<byte>, password: seq<byte>)
    requires 0 < |password| < 256 && Encode(CONNECT, [[0x00], password]) <= input
    ensures Parse(CONNECT, START, input).0 == Form(Finished, 2, [[0x00], password], [], 0)
  {
    var values: seq<seq<byte>> := [[0x00], password];
    assert Fits(CONNECT, values) by {
      assert FitsSlot(CONNECT[1], values[1]);
    }
    var tail := input[|Encode(CONNECT, values)|..];
    assert input == Encode(CONNECT, values) + tail;
    FormDecoded(CONNECT, values, tail);
  }

  /** The parser finishes on this password exactly when the octets start with its login. */
  lemma LoginParsedIff(input: seq<byte>, token: seq<byte>)
    ensures var f := Parse(CONNECT, START, input).0;
            f.phase.Finished? && CString(Value(f, 1)) == token <==> ShowsToken(input, token)
  {
    hide Parse;
    var f := Parse(CONNECT, START, input).0;
    if f.phase.Finished? {
      FormExplained(CONNECT, input);
      assert FitsSlot(CONNECT[0], f.stored[0]) && FitsSlot(CONNECT[1], f.stored[1]);
      assert f.stored == [[0x00], f.stored[1]];
      assert CString(f.stored[1]) == token ==> Shows(input, f.stored[1], token);
    }
    if password :| Shows(input, password, token) {
      OnePassword(input, password);
    }
  }

  // ----- what every callback keeps

  ghost predicate Sized(d: Desk) {
    d.rb.capacity == MNG_BUFFER_SIZE && d.wb.capacity == MNG_BUFFER_SIZE
  }

  /** The login so far: all of it went through the parser, which wants more. */
  ghost predicate LoggingIn(d: Desk, heard: seq<byte>) {
    && d.rb.contents == [] && d.wb == Fifo.Empty(MNG_BUFFER_SIZE)
    && !IsDone(d.form) && Parse(CONNECT, START, heard) == (d.form, [])
  }

  /** The request so far: all of it is in the parser, or its first octet is still in the buffer. */
  ghost predicate Ordering(l: Layout, d: Desk, order: seq<byte>) {
    && d.wb == Fifo.Empty(MNG_BUFFER_SIZE) && !IsDone(d.form)
    && ((d.form == START && d.rb.contents == order) || (d.rb.contents == [] && Parse(l, START, order) == (d.form, [])))
  }

  ghost predicate PastLogin(st: MngState) { st.Request? || IsAction(st) || st.Replies? }

  /** What the state of a session says about what it has heard. */
  ghost predicate Gated(m: Mng, token: seq<byte>) {
    && Sized(m.desk)
    && (m.state.ConnectRead? ==> LoggingIn(m.desk, m.heard))
    && (m.state.ConnectWrite? ==>
          (!m.closing <==> ShowsToken(m.heard, token)) && m.desk.wb.contents == [if m.closing then 0x04 else 0x00])
    && (PastLogin(m.state) ==> ShowsToken(m.heard, token))
    && (IsAction(m.state) ==> Ordering(LayoutFor(m.state), m.desk, m.order))
  }

  lemma DigestKeeps(l: Layout, d: Desk, octets: seq<byte>)
    requires Sized(d)
    ensures var d' := Digest(l, d, octets);
            && Sized(d') && d'.wb == d.wb && d'.form == Parse(l, d.form, d.rb.contents + octets).0
            && (!IsDone(d'.form) ==> d'.rb.contents == [] && Parse(l, d.form, d.rb.contents + octets).1 == [])
  {
    hide Feed;
  }

  /**
   * mng_connect_read, over any number of recvs: the session will go on exactly
   * when everything received so far starts with a login that shows the token.
   */
  lemma TokenDecides(m: Mng, config: Config, r: Recv)
    requires m.state.ConnectRead? && Sized(m.desk) && LoggingIn(m.desk, m.heard)
    ensures var t := OnConnectRead(m, config, r);
            && (t.next.ConnectWrite? && !t.m.closing <==> r.Got? && ShowsToken(m.heard + r.octets, config.token))
            && (t.next.ConnectWrite? ==> t.m.desk.wb.contents == [if t.m.closing then 0x04 else 0x00])
            && (t.next.ConnectRead? ==> LoggingIn(t.m.desk, t.m.heard))
            && (t.next.ConnectRead? || t.next.ConnectWrite? || t.next.MngError?)
            && Sized(t.m.desk) && (r.Got? ==> t.m.heard == m.heard + r.octets)
  {
    if r.Got? {
      Continues(CONNECT, m.desk.form, m.heard, r.octets);
      LoginParsedIff(m.heard + r.octets, config.token);
      DigestKeeps(CONNECT, m.desk, r.octets);
      assert [] + r.octets == r.octets;
    }
    hide Parse, ShowsToken, Digest, CString;
    assert forall b: byte :: [] + [b] == [b];
  }

  lemma ConnectReadKeeps(m: Mng, config: Config, metrics: Metrics, a: MngAnswers)
    requires m.state.ConnectRead? && Gated(m, config.token)
    ensures var t := MngCallback(m, config, metrics, a);
            Gated(MngJump(t.m, t.next), config.token)
  {
    TokenDecides(m, config, a.recv);
    hide OnConnectRead, OnAction, OnRequest, ShowsToken, LoggingIn, Ordering, Sized, LayoutFor;
  }

  lemma SendKeepsGate(m: Mng, config: Config, metrics: Metrics, a: MngAnswers)
    requires (m.state.ConnectWrite? || m.state.Replies?) && Gated(m, config.token)
    ensures var t := MngCallback(m, config, metrics, a);
            Gated(MngJump(t.m, t.next), config.token)
  {
    hide ShowsToken, LoggingIn, Ordering;
  }

  lemma RequestKeeps(m: Mng, config: Config, metrics: Metrics, a: MngAnswers)
    requires m.state.Request? && Gated(m, config.token)
    ensures var t := MngCallback(m, config, metrics, a);
            Gated(MngJump(t.m, t.next), config.token)
  {
    hide ShowsToken, LoggingIn, Parse;
    assert forall s: seq<byte> :: [] + s == s;
  }

  /** The octets of a request after another recv, and what its parser makes of them. */
  lemma OrderContinues(l: Layout, d: Desk, order: seq<byte>, octets: seq<byte>)
    requires Sized(d) && Ordering(l, d, order)
    ensures var d' := Digest(l, d, octets);
            && d'.form == Parse(l, START, order + octets).0
            && (!IsDone(d'.form) ==> Ordering(l, d', order + octets))
            && Sized(d') && d'.wb == d.wb
  {
    DigestKeeps(l, d, octets);
    if d.rb.contents == [] && Parse(l, START, order) == (d.form, []) {
      Continues(l, d.form, order, octets);
      assert d.rb.contents + octets == octets;
    }
    hide Parse, Digest;
  }

  /** The end of a request: an answer in the buffer, or the end of the session. */
  lemma ConcludeEnds(m: Mng, config: Config, metrics: Metrics, a: MngAnswers, honest: bool)
    ensures var t := Conclude(m, config, metrics, a, honest);
            && (t.next.Replies? || t.next.MngError?) && t.m == m.(desk := t.m.desk)
            && (Sized(m.desk) ==> Sized(t.m.desk))
  {
    hide Perform, ReplyTo;
  }

  /** One recv of a request, with everything a later one needs. */
  lemma ActionTurns(m: Mng, config: Config, metrics: Metrics, a: MngAnswers)
    requires IsAction(m.state) && Sized(m.desk)
    ensures var t := MngCallback(m, config, metrics, a);
            && t.m == m.(desk := t.m.desk, order := t.m.order) && Sized(t.m.desk)
            && (t.next.Replies? || t.next.MngError?
                || (t.next == m.state && a.recv.Got? && !IsDone(t.m.desk.form)
                    && t.m.desk == Digest(LayoutFor(m.state), m.desk, a.recv.octets) && t.m.order == m.order + a.recv.octets))
  {
    hide Conclude, LayoutFor, Digest, Sized;
    if a.recv.Got? {
      var d := Digest(LayoutFor(m.state), m.desk, a.recv.octets);
      DigestKeeps(LayoutFor(m.state), m.desk, a.recv.octets);
      ConcludeEnds(m.(desk := d, order := m.order + a.recv.octets), config, metrics, a,
                   Delivered(a.recv.octets, Fifo.Room(m.desk.rb)));
    }
  }

  lemma ActionKeeps(m: Mng, config: Config, metrics: Metrics, a: MngAnswers)
    requires IsAction(m.state) && Gated(m, config.token)
    ensures var t := MngCallback(m, config, metrics, a);
            Gated(MngJump(t.m, t.next), config.token)
  {
    if a.recv.Got? {
      OrderContinues(LayoutFor(m.state), m.desk, m.order, a.recv.octets);
    }
    ActionTurns(m, config, metrics, a);
    hide ShowsToken, LoggingIn, Ordering, Digest, MngCallback, LayoutFor, Sized;
  }

  lemma TurnKeepsGate(m: Mng, config: Config, metrics: Metrics, a: MngAnswers)
    requires Gated(m, config.token) && !IsFinal(m.state)
    ensures var t := MngCallback(m, config, metrics, a);
            Gated(MngJump(t.m, t.next), config.token)
  {
    hide MngCallback, MngJump, Gated;
    match m.state
    case ConnectRead => ConnectReadKeeps(m, config, metrics, a);
    case Request => RequestKeeps(m, config, metrics, a);
    case ConnectWrite => SendKeepsGate(m, config, metrics, a);
    case Replies => SendKeepsGate(m, config, metrics, a);
    case _ => ActionKeeps(m, config, metrics, a);
  }

  // ----- what one step can do to a management session and to the configuration

  ghost predicate IsAdmin(w: World, id: nat) { id < |w.conns| && w.conns[id].Admin? }

  /** In this step the session's state handled the event. */
  ghost predicate Called(w: World, act: Action, id: nat) {
    IsAdmin(w, id) && IsCallback(act) && Stm.Handles(MngDefinition(w.conns[id].m.state), EventOf(act))
  }

  ghost function TurnOf(w: World, act: Action, id: nat): Turn
    requires Called(w, act, id)
  {
    MngCallback(w.conns[id].m, w.config, w.metrics, act.input.mng)
  }

  /** What the callback left of the session. */
  ghost predicate Became(w: World, act: Action, id: nat, m': Mng) {
    Called(w, act, id) && var t := TurnOf(w, act, id); m' == MngJump(t.m, t.next).(live := m'.live)
  }

  /** The configuration is the one that this session's callback left. */
  ghost predicate Configured(w: World, act: Action, id: nat, config: Config) {
    Called(w, act, id) && config == TurnOf(w, act, id).config
  }

  ghost predicate Moves(w: World, act: Action, id: nat, w': World)
    requires IsAdmin(w, id)
  {
    IsAdmin(w', id) && (w'.conns[id].m == w.conns[id].m || Became(w, act, id, w'.conns[id].m))
  }

  ghost predicate Reconfigures(w: World, act: Action, w': World) {
    w'.config == w.config || exists id: nat :: Configured(w, act, id, w'.config)
  }

  lemma EventMoves(w: World, key: int, a: Input, act: Action, id: nat)
    requires IsAdmin(w, id) && IsCallback(act) && act.input == a
    ensures var w' := MngEvent(w, id, key, EventOf(act), a.mng);
            Moves(w, act, id, w') && Reconfigures(w, act, w')
  {
    hide MngCallback, MngJump, MngDefinition, AfterSetInterest;
    var w' := MngEvent(w, id, key, EventOf(act), a.mng);
    if Called(w, act, id) {
      assert Configured(w, act, id, w'.config);
    }
  }

  lemma AcceptConfigures(w: World, a: Accept)
    ensures SocksAccept(w, a).config == w.config && MngAccept(w, a).config == w.config
  {
  }

  lemma InvokeMoves(w: World, key: int, kind: Kind, data: nat, a: Input, act: Action)
    requires IsCallback(act) && act.input == a
    ensures var w' := Invoke(w, key, kind, data, EventOf(act), a);
            Reconfigures(w, act, w') && forall id: nat :: IsAdmin(w, id) ==> Moves(w, act, id, w')
  {
    hide Dispatch, MngEvent, SocksAccept, MngAccept, Became;
    AcceptsMake(w, a.accept);
    AcceptConfigures(w, a.accept);
    if kind.MngSession? && data < |w.conns| && w.conns[data].Admin? {
      EventElsewhere(w, data, key, EventOf(act), a.mng);
      EventMoves(w, key, a, act, data);
    }
  }

  /** Only the place of the process differs. */
  lemma ElsewhereMoves(w: World, w1: World, act: Action, w': World)
    requires w1 == w.(place := w1.place) && IsCallback(act)
    requires Reconfigures(w1, act, w') && forall id: nat :: IsAdmin(w1, id) ==> Moves(w1, act, id, w')
    ensures Reconfigures(w, act, w') && forall id: nat :: IsAdmin(w, id) ==> Moves(w, act, id, w')
  {
    hide MngCallback, MngJump, MngDefinition;
    forall id: nat | IsAdmin(w, id)
      ensures Moves(w, act, id, w')
    {
      assert Moves(w1, act, id, w');
    }
    if w'.config != w.config {
      var id: nat :| Configured(w1, act, id, w'.config);
      assert Configured(w, act, id, w'.config);
    }
  }

  lemma PlaceMoves(w: World, act: Action, w1: World, place: Place)
    requires Reconfigures(w, act, w1) && forall id: nat :: IsAdmin(w, id) ==> Moves(w, act, id, w1)
    ensures var w' := w1.(place := place);
            Reconfigures(w, act, w') && forall id: nat :: IsAdmin(w, id) ==> Moves(w, act, id, w')
  {
    hide Became, Configured;
    forall id: nat | IsAdmin(w, id)
      ensures Moves(w, act, id, w1.(place := place))
    {
      assert Moves(w, act, id, w1);
    }
  }

  lemma StepMoves(w: World, act: Action)
    requires Enabled(w, act)
    ensures var w' := Effect(w, act);
            Reconfigures(w, act, w') && forall id: nat :: IsAdmin(w, id) ==> Moves(w, act, id, w')
  {
    hide Invoke, Became, Configured;
    match act
    case Read(a) =>
      var p := w.place;
      if p.i in w.items {
        var item := w.items[p.i];
        InvokeMoves(w, p.i, item.handler, item.data, a, act);
        PlaceMoves(w, act, Invoke(w, p.i, item.handler, item.data, Stm.ReadReady, a), ScanWrite(p.i, p.n, p.ready, item.data));
      }
    case Write(a) =>
      var p := w.place;
      if p.i in w.items {
        var kind := w.items[p.i].handler;
        InvokeMoves(w, p.i, kind, p.data, a, act);
        PlaceMoves(w, act, Invoke(w, p.i, kind, p.data, Stm.WriteReady, a), Scan(p.i + 1, p.n, p.ready));
      }
    case Block(a) =>
      if w.place.rest != [] && w.place.rest[0] in w.items {
        var fd, w1 := w.place.rest[0], w.(place := Drain(w.place.rest[1..]));
        InvokeMoves(w1, fd, w1.items[fd].handler, w1.items[fd].data, a, act);
        ElsewhereMoves(w, w1, act, Effect(w, act));
      }
    case _ =>
  }

  lemma InvokeMakesAdmin(w: World, key: int, kind: Kind, data: nat, e: Stm.Event, a: Input, id: nat)
    requires !IsAdmin(w, id) && IsAdmin(Invoke(w, key, kind, data, e, a), id)
    ensures Invoke(w, key, kind, data, e, a).conns[id].m == MngNew(a.accept.fd)
  {
    hide Dispatch, MngEvent, SocksAccept, MngAccept;
    AcceptsMake(w, a.accept);
    if kind.MngSession? && data < |w.conns| && w.conns[data].Admin? {
      EventElsewhere(w, data, key, e, a.mng);
    }
  }

  /** A management session that was not there is a fresh one. */
  lemma StepMakesAdmin(w: World, act: Action, id: nat)
    requires !IsAdmin(w, id) && Enabled(w, act) && IsAdmin(Effect(w, act), id)
    ensures IsCallback(act) && Effect(w, act).conns[id].m == MngNew(act.input.accept.fd)
  {
    hide Invoke;
    match act
    case Read(a) =>
      if w.place.i in w.items {
        InvokeMakesAdmin(w, w.place.i, w.items[w.place.i].handler, w.items[w.place.i].data, Stm.ReadReady, a, id);
      }
    case Write(a) =>
      if w.place.i in w.items {
        InvokeMakesAdmin(w, w.place.i, w.items[w.place.i].handler, w.place.data, Stm.WriteReady, a, id);
      }
    case Block(a) =>
      if w.place.rest != [] && w.place.rest[0] in w.items {
        var fd, w1 := w.place.rest[0], w.(place := Drain(w.place.rest[1..]));
        InvokeMakesAdmin(w1, fd, w1.items[fd].handler, w1.items[fd].data, Stm.BlockReady, a, id);
      }
    case _ =>
  }

  // ----- runs

  ghost predicate AllGated(w: World, token: seq<byte>) {
    w.config.token == token && forall id: nat :: IsAdmin(w, id) ==> Gated(w.conns[id].m, token)
  }

  lemma NewGated(fd: int, token: seq<byte>)
    ensures Gated(MngNew(fd), token)
  {
  }

  lemma MoveGated(w: World, act: Action, id: nat, m': Mng)
    requires IsAdmin(w, id) && Gated(w.conns[id].m, w.config.token) && Became(w, act, id, m')
    ensures Gated(m', w.config.token)
  {
    TurnKeepsGate(w.conns[id].m, w.config, w.metrics, act.input.mng);
    hide MngCallback, MngJump, LoggingIn, Ordering, ShowsToken;
  }

  lemma StepKeepsGate(w: World, act: Action, token: seq<byte>)
    requires Enabled(w, act) && AllGated(w, token)
    ensures AllGated(Effect(w, act), token)
  {
    hide Effect, Enabled, Gated, Became, Configured;
    var w' := Effect(w, act);
    StepMoves(w, act);
    if w'.config != w.config {
      var id: nat :| Configured(w, act, id, w'.config);
      ConfiguredToken(w, act, id, w'.config);
    }
    forall id: nat | IsAdmin(w', id)
      ensures Gated(w'.conns[id].m, token)
    {
      if !IsAdmin(w, id) {
        StepMakesAdmin(w, act, id);
        NewGated(act.input.accept.fd, token);
      } else if w'.conns[id].m != w.conns[id].m {
        assert Moves(w, act, id, w');
        MoveGated(w, act, id, w'.conns[id].m);
      }
    }
  }

  lemma ConfiguredToken(w: World, act: Action, id: nat, config: Config)
    requires Configured(w, act, id, config)
    ensures config.token == w.config.token
  {
    hide MngCallback;
    TokenKept(w.conns[id].m, w.config, w.metrics, act.input.mng);
  }

  lemma {:induction false} RunKeepsGate(ws: seq<World>, acts: seq<Action>, k: nat)
    requires Run(ws, acts) && k <= |acts|
    ensures AllGated(ws[k], ws[0].config.token)
  {
    hide Effect, Enabled, Initial, Gated;
    if k == 0 {
      NoConns(ws[0]);
    } else {
      RunKeepsGate(ws, acts, k - 1);
      assert Enabled(ws[k - 1], acts[k - 1]) && ws[k] == Effect(ws[k - 1], acts[k - 1]);
      StepKeepsGate(ws[k - 1], acts[k - 1], ws[0].config.token);
    }
  }

  /**
   * The management gate. In every state of every run, a session that may make
   * requests has received octets that start with a login showing the token the
   * process started with. A session whose login is being answered goes on
   * exactly when it showed it.
   */
  lemma ManagementGate(ws: seq<World>, acts: seq<Action>, k: nat, id: nat)
    requires Run(ws, acts) && k <= |acts| && IsAdmin(ws[k], id)
    ensures var m, token := ws[k].conns[id].m, ws[0].config.token;
            && (PastLogin(m.state) ==> exists password :: Shows(m.heard, password, token))
            && (m.state.ConnectWrite? ==> (!m.closing <==> exists password :: Shows(m.heard, password, token)))
  {
    RunKeepsGate(ws, acts, k);
    hide Run, LoggingIn, Ordering, Shows;
  }

  /** The two histories change only by what this step's recv delivered, in the states they are about. */
  ghost predicate GrowsBy(m: Mng, m': Mng, act: Action) {
    && (m'.heard != m.heard ==>
          && m.state.ConnectRead? && act.Read? && act.input.mng.recv.Got?
          && m'.heard == m.heard + act.input.mng.recv.octets)
    && (m'.order != m.order ==>
          && act.Read?
          && (if IsAction(m.state) then act.input.mng.recv.Got? && m'.order == m.order + act.input.mng.recv.octets
              else m.state.Request? && (m'.order == [] || (act.input.mng.recv.Got? && m'.order == act.input.mng.recv.octets))))
  }

  /**
   * What a session has heard is what recv delivered to it while it logged in, in
   * order; its order is what recv delivered since it was last ready for a request.
   */
  lemma HeardIsReceived(ws: seq<World>, acts: seq<Action>, k: nat, id: nat)
    requires Run(ws, acts) && k < |acts| && IsAdmin(ws[k + 1], id)
    ensures var m', act := ws[k + 1].conns[id].m, acts[k];
            if !IsAdmin(ws[k], id) then m'.heard == m'.order == []
            else
              var m := ws[k].conns[id].m;
              GrowsBy(m, m', act)
  {
    var w, act := ws[k], acts[k];
    hide Effect, Enabled, Initial, Became;
    assert Enabled(w, act) && ws[k + 1] == Effect(w, act);
    if !IsAdmin(w, id) {
      StepMakesAdmin(w, act, id);
    } else {
      StepMoves(w, act);
      assert Moves(w, act, id, ws[k + 1]);
      if ws[k + 1].conns[id].m != w.conns[id].m {
        TurnHears(w, act, id, ws[k + 1].conns[id].m);
      }
    }
  }

  lemma TurnHears(w: World, act: Action, id: nat, m': Mng)
    requires Became(w, act, id, m')
    ensures GrowsBy(w.conns[id].m, m', act)
  {
    var m, a := w.conns[id].m, act.input.mng;
    hide MngCallback;
    match m.state
    case ConnectRead => LoginHears(m, w.config, w.metrics, a);
    case Request => RequestHears(m, w.config, w.metrics, a);
    case ConnectWrite => OthersHear(m, w.config, w.metrics, a);
    case Replies => OthersHear(m, w.config, w.metrics, a);
    case MngDone => OthersHear(m, w.config, w.metrics, a);
    case MngError => OthersHear(m, w.config, w.metrics, a);
    case _ => ActionHears(m, w.config, w.metrics, a);
  }

  lemma LoginHears(m: Mng, config: Config, metrics: Metrics, a: MngAnswers)
    requires m.state.ConnectRead?
    ensures var m' := MngCallback(m, config, metrics, a).m;
            m'.order == m.order && (m'.heard != m.heard ==> a.recv.Got? && m'.heard == m.heard + a.recv.octets)
  {
    hide Digest, CString;
  }

  lemma RequestHears(m: Mng, config: Config, metrics: Metrics, a: MngAnswers)
    requires m.state.Request?
    ensures var m' := MngCallback(m, config, metrics, a).m;
            m'.heard == m.heard && (m'.order == [] || (a.recv.Got? && m'.order == a.recv.octets))
  {
  }

  lemma OthersHear(m: Mng, config: Config, metrics: Metrics, a: MngAnswers)
    requires m.state.ConnectWrite? || m.state.Replies? || IsFinal(m.state)
    ensures var m' := MngCallback(m, config, metrics, a).m;
            m'.heard == m.heard && m'.order == m.order
  {
  }

  lemma ActionHears(m: Mng, config: Config, metrics: Metrics, a: MngAnswers)
    requires IsAction(m.state)
    ensures var m' := MngCallback(m, config, metrics, a).m;
            && m'.heard == m.heard
            && (m'.order != m.order ==> a.recv.Got? && m'.order == m.order + a.recv.octets)
  {
    hide Conclude, LayoutFor, Digest;
    if a.recv.Got? {
      ConcludeEnds(m.(desk := Digest(LayoutFor(m.state), m.desk, a.recv.octets), order := m.order + a.recv.octets),
                   config, metrics, a, Delivered(a.recv.octets, Fifo.Room(m.desk.rb)));
    }
  }

  /** The octets of a complete request, and what it does. */
  ghost predicate Requested(st: MngState, order: seq<byte>, values: seq<seq<byte>>, config: Config, config': Config) {
    && IsAction(st) && Fits(LayoutFor(st), values) && Encode(LayoutFor(st), values) <= order
    && config' == Perform(st, Form(Finished, |LayoutFor(st)|, values, [], 0), config).config
  }

  /** The session received the end of a complete request, having shown the token before. */
  ghost predicate Reached(w: World, act: Action, id: nat, token: seq<byte>, config: Config) {
    && IsAdmin(w, id) && act.Read? && act.input.mng.recv.Got?
    && var m := w.conns[id].m;
       && ShowsToken(m.heard, token)
       && exists values :: Requested(m.state, m.order + act.input.mng.recv.octets, values, w.config, config)
  }

  ghost predicate ByRequest(w: World, act: Action, token: seq<byte>, config: Config) {
    exists id: nat :: Reached(w, act, id, token, config)
  }

  /**
   * Nothing but requests changes the configuration. If a step of a run changes
   * it, in that step a session past login completed a request: the octets it had
   * received for it start with the message of an action, which is what the
   * change performs; and the session had shown the token.
   */
  lemma ConfigurationGate(ws: seq<World>, acts: seq<Action>, k: nat)
    requires Run(ws, acts) && k < |acts| && ws[k + 1].config != ws[k].config
    ensures acts[k].Read? && acts[k].input.mng.recv.Got?
    ensures ByRequest(ws[k], acts[k], ws[0].config.token, ws[k + 1].config)
  {
    var w, act := ws[k], acts[k];
    hide Effect, Enabled, Initial, Configured, Gated;
    RunKeepsGate(ws, acts, k);
    assert Enabled(w, act) && ws[k + 1] == Effect(w, act);
    StepMoves(w, act);
    var id: nat :| Configured(w, act, id, ws[k + 1].config);
    ConfiguredAdmin(w, act, id, ws[k + 1].config);
    ConfiguredByRequest(w, act, id, ws[k + 1].config);
  }

  lemma ConfiguredAdmin(w: World, act: Action, id: nat, config: Config)
    requires Configured(w, act, id, config)
    ensures IsAdmin(w, id)
  {
  }

  lemma ConfiguredByRequest(w: World, act: Action, id: nat, config: Config)
    requires IsAdmin(w, id) && Gated(w.conns[id].m, w.config.token)
    requires Configured(w, act, id, config) && config != w.config
    ensures act.Read? && act.input.mng.recv.Got?
    ensures Reached(w, act, id, w.config.token, config)
  {
    var m, a := w.conns[id].m, act.input.mng;
    TurnConfigures(m, w.config, w.metrics, a);
    var order := m.order + a.recv.octets;
    OrderContinues(LayoutFor(m.state), m.desk, m.order, a.recv.octets);
    var f := Parse(LayoutFor(m.state), START, order).0;
    hide Parse, Digest, Perform, MngCallback, Encode, Fits, ShowsToken, Ordering, LoggingIn;
    FormExplained(LayoutFor(m.state), order);
    FinishedForm(LayoutFor(m.state), order);
    assert Requested(m.state, order, f.stored, w.config, config);
  }

  /** A finished parser is exactly its values. */
  lemma FinishedForm(l: Layout, input: seq<byte>)
    requires Parse(l, START, input).0.phase.Finished?
    ensures var f := Parse(l, START, input).0;
            f == Form(Finished, |l|, f.stored, [], 0)
  {
    hide Parse, Encode;
    var (f, rest) := Parse(l, START, input);
    FormExplained(l, input);
    FormDecoded(l, f.stored, rest);
  }

  /** Which callbacks change the configuration, and how. */
  lemma TurnConfigures(m: Mng, config: Config, metrics: Metrics, a: MngAnswers)
    requires MngCallback(m, config, metrics, a).config != config
    ensures IsAction(m.state) && a.recv.Got?
    ensures var f := Digest(LayoutFor(m.state), m.desk, a.recv.octets).form;
            f.phase.Finished? && MngCallback(m, config, metrics, a).config == Perform(m.state, f, config).config
  {
    hide Digest, Perform, ReplyTo, LayoutFor, CString;
  }
}
