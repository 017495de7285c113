/**
 * What an honest manager gets. In every reachable state, what the octets of a
 * management session mean decides what it does next, what becomes of the
 * configuration, and what it is told; in the numbers of its protocol.
 */
module MngOutcomes {
  import opened Bytes
  import opened ByteMachine
  import opened AdminForm
  import opened SelectorModule
  import opened ServerConfig
  import opened Session
  import opened SessionInvariant
  import opened Management
  import opened World
  import opened WorldInvariant
  import opened Handoff
  import opened Accounts
  import opened Safety
  import opened AuthGate
  import opened Theorems
  import opened MngGate
  import opened Requests
  import Client = ManagementClient
  import Fifo
  import Stm

  // ----- any state

  /** A live management session of a run. */
  ghost predicate Managing(ws: seq<World>, acts: seq<Action>, k: nat, id: nat) {
    InRun(ws, acts, k) && IsAdmin(ws[k], id) && ws[k].conns[id].m.live
  }

  /** Its own next event. */
  function Event(w: World, id: nat, e: Stm.Event, a: MngAnswers): World
    requires id < |w.conns| && w.conns[id].Admin?
  {
    MngEvent(w, id, w.conns[id].m.clientFd, e, a)
  }

  /** The session goes on in this state, watched for this alone; nothing else of the process moved but the configuration. */
  ghost predicate OnTo(w: World, w': World, id: nat, st: MngState, i: Interest) {
    && IsAdmin(w, id) && IsAdmin(w', id) && w'.conns == w.conns[id := w'.conns[id]] && w'.open == w.open
    && w'.conns[id].m.live && w'.conns[id].m.state == st && w'.conns[id].m.clientFd == w.conns[id].m.clientFd
    && w.conns[id].m.clientFd in w.items
    && var fd := w.conns[id].m.clientFd; w'.items == w.items[fd := w.items[fd].(interest := i)]
  }

  /** The session is over: its descriptor is closed and no longer watched. */
  ghost predicate Gone(w: World, w': World, id: nat) {
    && IsAdmin(w, id) && IsAdmin(w', id) && !w'.conns[id].m.live && w'.conns == w.conns[id := w'.conns[id]]
    && w'.items == w.items - {w.conns[id].m.clientFd} && w'.open == w.open - {w.conns[id].m.clientFd}
  }

  /** What is waiting to be sent to the manager. */
  function Waiting(w: World, id: nat): seq<byte> {
    if id < |w.conns| && w.conns[id].Admin? then w.conns[id].m.desk.wb.contents else []
  }

  lemma ManagingKnows(ws: seq<World>, acts: seq<Action>, k: nat, id: nat)
    requires Managing(ws, acts, k, id)
    ensures var w := ws[k];
            && AdminFits(w.items, id, w.conns[id].m) && 0 <= w.conns[id].m.clientFd < MAX_SIZE
            && Gated(w.conns[id].m, w.config.token) && Accounted(w.metrics, w.conns)
  {
    Reachable(ws, acts, k);
    AdminOk(ws[k], id);
    RunKeepsGate(ws, acts, k);
    hide Run, Structure, Gated, Accounted, AdminFits, Handed;
  }

  /** The event is one the session is watched for. */
  ghost predicate Due(m: Mng, e: Stm.Event) {
    !e.BlockReady? && (e.ReadReady? ==> MngInterest(m.state).read) && (e.WriteReady? ==> MngInterest(m.state).write)
  }

  /** What an event makes of the session and the configuration is what its callback left. */
  lemma EventLeads(w: World, id: nat, e: Stm.Event, a: MngAnswers)
    requires IsAdmin(w, id) && w.conns[id].m.live && AdminFits(w.items, id, w.conns[id].m)
    requires 0 <= w.conns[id].m.clientFd < MAX_SIZE && Due(w.conns[id].m, e)
    ensures var w', t := Event(w, id, e, a), MngCallback(w.conns[id].m, w.config, w.metrics, a);
            && w'.config == t.config && IsAdmin(w', id) && w'.conns[id].m.desk == MngJump(t.m, t.next).desk
            && (if IsFinal(t.next) then Gone(w, w', id) else OnTo(w, w', id, t.next, MngInterest(t.next)))
  {
    var m := w.conns[id].m;
    var key := m.clientFd;
    TurnWants(m, w.config, w.metrics, a);
    Awaited(m, e);
    MngHas(w, id, key, e, a);
    hide MngCallback, MngDefinition, MngInterest, AdminFits, Due;
    EventTurns(w, id, e, a);
  }

  lemma EventTurns(w: World, id: nat, e: Stm.Event, a: MngAnswers)
    requires IsAdmin(w, id) && w.conns[id].m.clientFd in w.items && 0 <= w.conns[id].m.clientFd < MAX_SIZE
    requires Stm.Handles(MngDefinition(w.conns[id].m.state), e)
    ensures var w', t := Event(w, id, e, a), MngCallback(w.conns[id].m, w.config, w.metrics, a);
            && w'.config == t.config && IsAdmin(w', id)
            && w'.conns[id].m == MngJump(t.m, t.next).(live := !IsFinal(t.next) && MngJump(t.m, t.next).live)
  {
    hide MngCallback, MngDefinition, MngJump;
  }

  // ----- the login

  lemma LoginParsed(m: Mng, octets: seq<byte>, password: seq<byte>, surplus: seq<byte>)
    requires Sized(m.desk) && LoggingIn(m.desk, m.heard)
    requires 0 < |password| < 256 && m.heard + octets == [0x00, |password|] + password + surplus
    ensures var d := Digest(CONNECT, m.desk, octets);
            d.wb == Fifo.Empty(MNG_BUFFER_SIZE) && d.form.phase.Finished? && Value(d.form, 1) == password
  {
    Client.ConnectWire(password);
    OnePassword(m.heard + octets, password);
    DigestKeeps(CONNECT, m.desk, octets);
    assert [] + octets == octets;
    hide Parse, Digest, Encode;
    Continues(CONNECT, m.desk.form, m.heard, octets);
  }

  lemma LoginDecides(m: Mng, config: Config, metrics: Metrics, a: MngAnswers, password: seq<byte>, surplus: seq<byte>)
    requires m.state.ConnectRead? && Sized(m.desk) && LoggingIn(m.desk, m.heard) && a.recv.Got?
    requires 0 < |password| < 256 && m.heard + a.recv.octets == [0x00, |password|] + password + surplus
    ensures var t := MngCallback(m, config, metrics, a);
            && t.next.ConnectWrite? && t.config == config
            && t.m.desk.wb.contents == [if CString(password) == config.token then 0x00 else 0x04]
  {
    LoginParsed(m, a.recv.octets, password, surplus);
    hide Parse, Digest, CString, LoggingIn;
    assert forall b: byte :: [] + [b] == [b];
  }

  /**
   * A login that is complete is judged, however it arrived: whoever shows the
   * token is told 0, and anybody else is told 4.
   */
  lemma LoginAnswered(
    ws: seq<World>, acts: seq<Action>, k: nat, id: nat, a: MngAnswers, password: seq<byte>, surplus: seq<byte>)
    requires Managing(ws, acts, k, id) && ws[k].conns[id].m.state.ConnectRead? && a.recv.Got?
    requires 0 < |password| < 256
    requires ws[k].conns[id].m.heard + a.recv.octets == [0x00, |password|] + password + surplus
    ensures var w, w' := ws[k], Event(ws[k], id, Stm.ReadReady, a);
            && OnTo(w, w', id, ConnectWrite, Interest(false, true)) && w'.config == w.config
            && Waiting(w', id) == [if CString(password) == w.config.token then 0x00 else 0x04]
  {
    ManagingKnows(ws, acts, k, id);
    hide *;
    LoginLeads(ws[k], id, a, password, surplus);
  }

  /** Only the arrival in an action state touches parser or buffers. */
  lemma DeskStays(t: Turn)
    ensures !IsAction(t.next) ==> MngJump(t.m, t.next).desk == t.m.desk
  {
  }

  lemma AwaitsLogin(m: Mng, token: seq<byte>)
    requires Gated(m, token) && m.state.ConnectRead?
    ensures Due(m, Stm.ReadReady) && Sized(m.desk) && LoggingIn(m.desk, m.heard)
  {
    hide LoggingIn;
  }

  lemma LoginLeads(w: World, id: nat, a: MngAnswers, password: seq<byte>, surplus: seq<byte>)
    requires IsAdmin(w, id) && w.conns[id].m.live && AdminFits(w.items, id, w.conns[id].m)
    requires 0 <= w.conns[id].m.clientFd < MAX_SIZE && Gated(w.conns[id].m, w.config.token)
    requires w.conns[id].m.state.ConnectRead? && a.recv.Got? && 0 < |password| < 256
    requires w.conns[id].m.heard + a.recv.octets == [0x00, |password|] + password + surplus
    ensures var w' := Event(w, id, Stm.ReadReady, a);
            && OnTo(w, w', id, ConnectWrite, Interest(false, true)) && w'.config == w.config
            && Waiting(w', id) == [if CString(password) == w.config.token then 0x00 else 0x04]
  {
    var m := w.conns[id].m;
    var t := MngCallback(m, w.config, w.metrics, a);
    hide Gated, Due, Event, MngCallback, CString, AdminFits, OnTo, Gone, LoggingIn, Sized, Parse, MngJump, MngInterest;
    AwaitsLogin(m, w.config.token);
    LoginDecides(m, w.config, w.metrics, a, password, surplus);
    DeskStays(t);
    EventLeads(w, id, Stm.ReadReady, a);
    Onward(w, Event(w, id, Stm.ReadReady, a), id, ConnectWrite);
  }

  lemma Onward(w: World, w': World, id: nat, st: MngState)
    requires OnTo(w, w', id, st, MngInterest(st))
    ensures OnTo(w, w', id, st, if st.ConnectWrite? || st.Replies? then Interest(false, true) else Interest(true, false))
  {
    hide OnTo;
  }

  lemma LoginWaits(m: Mng, config: Config, metrics: Metrics, a: MngAnswers)
    requires m.state.ConnectRead? && Sized(m.desk) && LoggingIn(m.desk, m.heard) && a.recv.Got?
    ensures var t, f := MngCallback(m, config, metrics, a), Parse(CONNECT, START, m.heard + a.recv.octets).0;
            && t.config == config && (f.phase.Failed? ==> IsFinal(t.next))
            && (!IsDone(f) ==> t.next.ConnectRead? && t.m.heard == m.heard + a.recv.octets)
  {
    Continues(CONNECT, m.desk.form, m.heard, a.recv.octets);
    DigestKeeps(CONNECT, m.desk, a.recv.octets);
    assert [] + a.recv.octets == a.recv.octets;
    hide Parse, Digest, CString;
  }

  /** A login that is not complete is waited for, and one that cannot become one ends the session. */
  lemma LoginIncomplete(ws: seq<World>, acts: seq<Action>, k: nat, id: nat, a: MngAnswers)
    requires Managing(ws, acts, k, id) && ws[k].conns[id].m.state.ConnectRead? && a.recv.Got?
    ensures var w, w' := ws[k], Event(ws[k], id, Stm.ReadReady, a);
            var came := w.conns[id].m.heard + a.recv.octets;
            var f := Parse(CONNECT, START, came).0;
            && w'.config == w.config && (f.phase.Failed? ==> Gone(w, w', id))
            && (!IsDone(f) ==> OnTo(w, w', id, ConnectRead, Interest(true, false)) && w'.conns[id].m.heard == came)
  {
    ManagingKnows(ws, acts, k, id);
    hide *;
    LoginWaitsOn(ws[k], id, a);
  }

  lemma LoginWaitsOn(w: World, id: nat, a: MngAnswers)
    requires IsAdmin(w, id) && w.conns[id].m.live && AdminFits(w.items, id, w.conns[id].m)
    requires 0 <= w.conns[id].m.clientFd < MAX_SIZE && Gated(w.conns[id].m, w.config.token)
    requires w.conns[id].m.state.ConnectRead? && a.recv.Got?
    ensures var w' := Event(w, id, Stm.ReadReady, a);
            var came := w.conns[id].m.heard + a.recv.octets;
            var f := Parse(CONNECT, START, came).0;
            && w'.config == w.config && (f.phase.Failed? ==> Gone(w, w', id))
            && (!IsDone(f) ==> OnTo(w, w', id, ConnectRead, Interest(true, false)) && w'.conns[id].m.heard == came)
  {
    var m := w.conns[id].m;
    AwaitsLogin(m, w.config.token);
    Awaited(m, Stm.ReadReady);
    hide Gated, Due, Event, MngCallback, LoggingIn, Sized, AdminFits, OnTo, Gone, Parse;
    LoginWaits(m, w.config, w.metrics, a);
    EventLeads(w, id, Stm.ReadReady, a);
    var w' := Event(w, id, Stm.ReadReady, a);
    EventTurns(w, id, Stm.ReadReady, a);
    if OnTo(w, w', id, ConnectRead, MngInterest(ConnectRead)) {
      Onward(w, w', id, ConnectRead);
    }
  }

  /** Its answer, one octet, goes out; whoever was told 0 may make a request, and anybody else is sent away. */
  lemma LoginSent(ws: seq<World>, acts: seq<Action>, k: nat, id: nat, a: MngAnswers)
    requires Managing(ws, acts, k, id) && ws[k].conns[id].m.state.ConnectWrite?
    ensures var w, w' := ws[k], Event(ws[k], id, Stm.WriteReady, a);
            && (Waiting(w, id) == [0x00] || Waiting(w, id) == [0x04]) && w'.config == w.config
            && (if a.sent > 0 && Waiting(w, id) == [0x00] then OnTo(w, w', id, MngState.Request, Interest(true, false))
                else Gone(w, w', id))
  {
    var w := ws[k];
    ManagingKnows(ws, acts, k, id);
    AnswerSent(w.conns[id].m, w.config, w.metrics, a);
    hide Managing, Accounted, Event, MngCallback, Sized, AdminFits;
    EventLeads(w, id, Stm.WriteReady, a);
  }

  lemma AnswerSent(m: Mng, config: Config, metrics: Metrics, a: MngAnswers)
    requires m.state.ConnectWrite? && m.desk.wb.contents == [if m.closing then 0x04 else 0x00]
    ensures var t := MngCallback(m, config, metrics, a);
            && t.config == config
            && (if a.sent > 0 && !m.closing then t.next == MngState.Request else IsFinal(t.next))
  {
  }

  // ----- the request

  /** The six actions, by their octets. */
  ghost predicate Chooses(b: byte, st: MngState) {
    && (b == 0x00 <==> st.RequestGet?) && (b == 0x01 <==> st.RequestPut?) && (b == 0x02 <==> st.RequestEdit?)
    && (b == 0x03 <==> st.RequestBuffSize?) && (b == 0x04 <==> st.RequestConfigStatus?) && (b == 0x05 <==> st.RequestDelete?)
    && (b > 0x05 <==> st == MngState.Request)
  }

  /** The first octet of a request chooses what it is about; an unknown one is passed over. */
  lemma ActionChosen(ws: seq<World>, acts: seq<Action>, k: nat, id: nat, a: MngAnswers, b: byte)
    requires Managing(ws, acts, k, id) && ws[k].conns[id].m.state == MngState.Request && a.recv == Got([b])
    ensures var w, w' := ws[k], Event(ws[k], id, Stm.ReadReady, a);
            && Chooses(b, w'.conns[id].m.state) && OnTo(w, w', id, w'.conns[id].m.state, Interest(true, false))
            && w'.config == w.config && w'.conns[id].m.order == [b] && Waiting(w', id) == []
  {
    var w := ws[k];
    ManagingKnows(ws, acts, k, id);
    OctetChooses(w.conns[id].m, w.config, w.metrics, a, b);
    hide Managing, Accounted, Event, MngCallback, AdminFits, Chooses;
    EventLeads(w, id, Stm.ReadReady, a);
    assert Due(w.conns[id].m, Stm.ReadReady);
    Awaited(w.conns[id].m, Stm.ReadReady);
    EventTurns(w, id, Stm.ReadReady, a);
  }

  lemma OctetChooses(m: Mng, config: Config, metrics: Metrics, a: MngAnswers, b: byte)
    requires m.state == MngState.Request && Sized(m.desk) && a.recv == Got([b])
    ensures var t := MngCallback(m, config, metrics, a);
            && t.config == config && !IsFinal(t.next) && Chooses(b, t.next) && MngInterest(t.next) == Interest(true, false)
            && t.m.order == [b] && t.m.desk.wb.contents == []
  {
  }

  /** The session is over, or it has this to send. */
  ghost predicate Concludes(w: World, w': World, id: nat, reply: Option<seq<byte>>) {
    match reply
    case None => Gone(w, w', id)
    case Some(octets) => OnTo(w, w', id, Replies, Interest(false, true)) && Waiting(w', id) == octets
  }

  lemma ActionLeads(m: Mng, config: Config, metrics: Metrics, a: MngAnswers, values: seq<seq<byte>>, surplus: seq<byte>)
    requires IsAction(m.state) && Sized(m.desk) && Ordering(LayoutFor(m.state), m.desk, m.order) && a.recv.Got?
    requires Fits(LayoutFor(m.state), values)
    requires m.order + a.recv.octets == Encode(LayoutFor(m.state), values) + surplus
    ensures var t := MngCallback(m, config, metrics, a);
            var f := Stored(LayoutFor(m.state), values);
            var out := Perform(m.state, f, config);
            var reply := ReplyTo(m.state, f, out.status, MNG_BUFFER_SIZE, out.config, metrics, a.text, a.stale);
            && t.config == out.config
            && (if out.ok && reply.Some? then t.next.Replies? && t.m.desk.wb.contents == reply.value else t.next.MngError?)
  {
    var l := LayoutFor(m.state);
    OrderContinues(l, m.desk, m.order, a.recv.octets);
    FormDecoded(l, values, surplus);
    assert a.(recv := Got(a.recv.octets)) == a;
    assert m.desk.wb == Fifo.Empty(MNG_BUFFER_SIZE);
    hide Parse, Perform, Encode, Fits, ReplyTo, Ordering, LayoutFor, Digest;
    ActionConcludes(m, config, metrics, a);
    assert forall s: seq<byte> :: [] + s == s;
  }

  lemma ActionConcludes(m: Mng, config: Config, metrics: Metrics, a: MngAnswers)
    requires IsAction(m.state) && a.recv.Got? && Digest(LayoutFor(m.state), m.desk, a.recv.octets).form.phase.Finished?
    ensures var t, d := MngCallback(m, config, metrics, a), Digest(LayoutFor(m.state), m.desk, a.recv.octets);
            var out := Perform(m.state, d.form, config);
            var reply := ReplyTo(m.state, d.form, out.status, Fifo.Room(d.wb), out.config, metrics, a.text, a.stale);
            && t.config == out.config
            && (if out.ok && reply.Some? then t.next.Replies? && t.m.desk.wb.contents == d.wb.contents + reply.value
                else t.next.MngError?)
  {
    hide Perform, ReplyTo, Digest, LayoutFor, Fifo.Room;
  }

  /** A complete request, however it arrived, is performed with exactly its values and answered. */
  lemma RequestConcludes(
    ws: seq<World>, acts: seq<Action>, k: nat, id: nat, a: MngAnswers, values: seq<seq<byte>>, surplus: seq<byte>)
    requires Managing(ws, acts, k, id) && IsAction(ws[k].conns[id].m.state) && a.recv.Got?
    requires Fits(LayoutFor(ws[k].conns[id].m.state), values)
    requires ws[k].conns[id].m.order + a.recv.octets == Encode(LayoutFor(ws[k].conns[id].m.state), values) + surplus
    ensures var w, w', st := ws[k], Event(ws[k], id, Stm.ReadReady, a), ws[k].conns[id].m.state;
            var f := Stored(LayoutFor(st), values);
            var out := Perform(st, f, w.config);
            var reply := ReplyTo(st, f, out.status, MNG_BUFFER_SIZE, out.config, w.metrics, a.text, a.stale);
            w'.config == out.config && Concludes(w, w', id, if out.ok then reply else None)
  {
    var w := ws[k];
    ManagingKnows(ws, acts, k, id);
    assert Due(w.conns[id].m, Stm.ReadReady);
    assert Sized(w.conns[id].m.desk) && Ordering(LayoutFor(w.conns[id].m.state), w.conns[id].m.desk, w.conns[id].m.order);
    hide Managing, Gated, Due, Accounted, Event, MngCallback, AdminFits, Sized, Ordering, Perform, ReplyTo, Encode, Fits;
    hide LayoutFor, OnTo, Gone;
    ActionLeads(w.conns[id].m, w.config, w.metrics, a, values, surplus);
    EventLeads(w, id, Stm.ReadReady, a);
    var w' := Event(w, id, Stm.ReadReady, a);
    if OnTo(w, w', id, Replies, MngInterest(Replies)) {
      Onward(w, w', id, Replies);
    }
  }

  lemma ActionWaits(m: Mng, config: Config, metrics: Metrics, a: MngAnswers)
    requires IsAction(m.state) && Sized(m.desk) && Ordering(LayoutFor(m.state), m.desk, m.order) && a.recv.Got?
    ensures var t, f := MngCallback(m, config, metrics, a), Parse(LayoutFor(m.state), START, m.order + a.recv.octets).0;
            && (f.phase.Failed? ==> t.config == config && IsFinal(t.next))
            && (!IsDone(f) ==> t.config == config && t.next == m.state && t.m.order == m.order + a.recv.octets)
  {
    hide *;
    OrderContinues(LayoutFor(m.state), m.desk, m.order, a.recv.octets);
    ActionDigests(m, config, metrics, a);
  }

  lemma ActionDigests(m: Mng, config: Config, metrics: Metrics, a: MngAnswers)
    requires IsAction(m.state) && a.recv.Got?
    ensures var t, f := MngCallback(m, config, metrics, a), Digest(LayoutFor(m.state), m.desk, a.recv.octets).form;
            && (f.phase.Failed? ==> t.config == config && IsFinal(t.next))
            && (!IsDone(f) ==> t.config == config && t.next == m.state && t.m.order == m.order + a.recv.octets)
  {
    hide Digest, Perform, ReplyTo, LayoutFor;
  }

  /** A request that is not complete is waited for, and one that cannot become one ends the session; nothing is changed. */
  lemma ActionIncomplete(ws: seq<World>, acts: seq<Action>, k: nat, id: nat, a: MngAnswers)
    requires Managing(ws, acts, k, id) && IsAction(ws[k].conns[id].m.state) && a.recv.Got?
    ensures var w, w', st := ws[k], Event(ws[k], id, Stm.ReadReady, a), ws[k].conns[id].m.state;
            var came := w.conns[id].m.order + a.recv.octets;
            var f := Parse(LayoutFor(st), START, came).0;
            && (f.phase.Failed? ==> w'.config == w.config && Gone(w, w', id))
            && (!IsDone(f) ==>
                  w'.config == w.config && OnTo(w, w', id, st, Interest(true, false)) && w'.conns[id].m.order == came)
  {
    var w := ws[k];
    ManagingKnows(ws, acts, k, id);
    var m := w.conns[id].m;
    assert Due(m, Stm.ReadReady);
    assert Sized(m.desk) && Ordering(LayoutFor(m.state), m.desk, m.order);
    hide Managing, Gated, Due, Accounted, Event, MngCallback, Ordering, Sized, AdminFits, OnTo, Gone, Parse, LayoutFor;
    ActionWaits(m, w.config, w.metrics, a);
    EventLeads(w, id, Stm.ReadReady, a);
    var w' := Event(w, id, Stm.ReadReady, a);
    Awaited(m, Stm.ReadReady);
    EventTurns(w, id, Stm.ReadReady, a);
    if OnTo(w, w', id, m.state, MngInterest(m.state)) {
      Onward(w, w', id, m.state);
    }
  }

  // ----- GET

  lemma ActionStates()
    ensures IsAction(RequestGet) && IsAction(RequestPut) && IsAction(RequestEdit)
    ensures IsAction(RequestBuffSize) && IsAction(RequestConfigStatus) && IsAction(RequestDelete)
    ensures LayoutFor(RequestGet) == GET && LayoutFor(RequestBuffSize) == CONFIGBUFFSIZE
    ensures LayoutFor(RequestConfigStatus) == CONFIGSTATUS
  {
  }

  /** What the options of GET stand for: five numbers and switches, and the texts that are not modelled. */
  ghost predicate Informs(reply: seq<byte>, option: byte, config: Config, connects: int, ends: int, text: seq<byte>) {
    match option
    case 0x02 => Client.NumberIn(reply) == Some(config.bufferSize % 0x1_0000_0000)
    case 0x03 => reply == [0x00, 0x01, if config.auth then 0x00 else 0x01]
    case 0x04 => reply == [0x00, 0x01, if config.spoofing then 0x00 else 0x01]
    case 0x07 => Client.NumberIn(reply) == Some(connects % 0x1_0000_0000)
    case 0x08 => Client.NumberIn(reply) == Some((connects - ends) % 0x1_0000_0000)
    case _ => reply == [0x00, |text| % 256] + text
  }

  /** The client finds a number in its reply. */
  lemma NumberTold(n: nat)
    ensures var reply := [0x00, 0x04] + ToBigEndian(n);
            |reply| == 6 && Client.NumberIn(reply) == Some(n % 0x1_0000_0000)
  {
    BigEndianRoundTrip(n);
    hide ToBigEndian, FromBigEndian;
    assert ([0x00, 0x04] + ToBigEndian(n))[2..6] == ToBigEndian(n);
  }

  lemma ReplyInforms(option: byte, config: Config, metrics: Metrics, connects: int, ends: int, text: seq<byte>)
    requires option <= 8 && metrics.historic == connects && metrics.current == connects - ends
    ensures var reply := GetReply(option, config, metrics, text);
            && Informs(reply, option, config, connects, ends, text)
            && (|reply| <= 4096 <==> option in {0x02, 0x03, 0x04, 0x07, 0x08} || |text| <= 4094)
  {
    hide ToBigEndian, Client.NumberIn;
    if option == 0x02 {
      NumberTold(config.bufferSize);
    } else if option == 0x07 {
      NumberTold(connects % 0x1_0000_0000);
    } else if option == 0x08 {
      NumberTold((connects - ends) % 0x1_0000_0000);
    }
  }

  /**
   * GET is answered with what its option stands for, however it arrived: 2 with
   * the size of buffers, 3 and 4 with a switch, 7 with the number of sessions
   * ever connected, and 8 with those of them that have not ended; numbers modulo
   * 2^32.
   */
  lemma GetAnswered(ws: seq<World>, acts: seq<Action>, k: nat, id: nat, a: MngAnswers, option: byte, surplus: seq<byte>)
    requires Managing(ws, acts, k, id) && ws[k].conns[id].m.state.RequestGet? && a.recv.Got?
    requires option <= 8 && ws[k].conns[id].m.order + a.recv.octets == [0x00, option] + surplus
    ensures var w, w' := ws[k], Event(ws[k], id, Stm.ReadReady, a);
            && w'.config == w.config
            && (if option in {0x02, 0x03, 0x04, 0x07, 0x08} || |a.text| <= 4094 then
                  && OnTo(w, w', id, Replies, Interest(false, true))
                  && Informs(Waiting(w', id), option, w.config, Sum(w.conns, Connects()), Sum(w.conns, Ends()), a.text)
                else Gone(w, w', id))
  {
    var w := ws[k];
    ManagingKnows(ws, acts, k, id);
    GetFits(option);
    Client.ShortWires(option, 0, [0, 0, 0, 0]);
    ActionStates();
    GetPerformed(option, w.config, w.metrics, a);
    ReplyInforms(option, w.config, w.metrics, Sum(w.conns, Connects()), Sum(w.conns, Ends()), a.text);
    hide Managing, AdminFits, Gated, Event, Fits, Encode, LayoutFor, OnTo, Gone, Informs, GetReply, Perform, ReplyTo;
    RequestConcludes(ws, acts, k, id, a, [[0x00], [option]], surplus);
  }

  lemma GetPerformed(option: byte, config: Config, metrics: Metrics, a: MngAnswers)
    ensures var f, reply := Stored(GET, [[0x00], [option]]), GetReply(option, config, metrics, a.text);
            && Perform(RequestGet, f, config) == Outcome(config, 0x00, true)
            && ReplyTo(RequestGet, f, 0x00, MNG_BUFFER_SIZE, config, metrics, a.text, a.stale)
               == if |reply| <= 4096 then Some(reply) else None
  {
    hide GetReply;
  }

  // ----- requests that change the configuration

  /** The request was answered with this status and the session goes on to send it. */
  ghost predicate Answered(w: World, w': World, id: nat, status: byte) {
    OnTo(w, w', id, Replies, Interest(false, true)) && Waiting(w', id) != [] && Waiting(w', id)[0] == status
  }

  lemma StatusAnswered(w: World, w': World, id: nat, st: MngState, f: Form, out: Outcome, a: MngAnswers)
    requires !st.RequestGet? && out.ok
    requires Concludes(w, w', id, ReplyTo(st, f, out.status, MNG_BUFFER_SIZE, out.config, w.metrics, a.text, a.stale))
    ensures Answered(w, w', id, out.status)
  {
    StatusReplied(st, f, out.status, MNG_BUFFER_SIZE, out.config, w.metrics, a.text, a.stale);
    hide ReplyTo, OnTo, Gone;
  }

  /** A request about users: the table as it becomes, or the status that refuses it. */
  lemma TableChanges(
    ws: seq<World>, acts: seq<Action>, k: nat, id: nat, a: MngAnswers, st: MngState, l: Layout, values: seq<seq<byte>>,
    surplus: seq<byte>, users: Option<Users>, refusal: byte)
    requires Managing(ws, acts, k, id) && ws[k].conns[id].m.state == st && a.recv.Got?
    requires IsAction(st) && !st.RequestGet? && l == LayoutFor(st) && Fits(l, values)
    requires ws[k].conns[id].m.order + a.recv.octets == Encode(l, values) + surplus
    requires Perform(st, Stored(l, values), ws[k].config) == Tabled(ws[k].config, users, refusal)
    ensures var w, w' := ws[k], Event(ws[k], id, Stm.ReadReady, a);
            && w'.config == w.config.(users := if users.Some? then users.value else w.config.users)
            && Answered(w, w', id, if users.Some? then 0x00 else refusal)
  {
    var w, f := ws[k], Stored(l, values);
    var out := Tabled(w.config, users, refusal);
    assert out.ok && out.status == (if users.Some? then 0x00 else refusal);
    assert out.config == w.config.(users := if users.Some? then users.value else w.config.users);
    hide *;
    RequestConcludes(ws, acts, k, id, a, values, surplus);
    StatusAnswered(w, Event(w, id, Stm.ReadReady, a), id, st, f, out, a);
  }

  /** PUT adds exactly this user at the end, unless the table is full or the name is too long. */
  lemma UserAdded(
    ws: seq<World>, acts: seq<Action>, k: nat, id: nat, a: MngAnswers, name: seq<byte>, pass: seq<byte>, surplus: seq<byte>)
    requires Managing(ws, acts, k, id) && ws[k].conns[id].m.state.RequestPut? && a.recv.Got?
    requires 0 < |name| < 256 && 0 < |pass| < 256
    requires ws[k].conns[id].m.order + a.recv.octets == [0x01, 0x00, |name|] + name + [|pass|] + pass + surplus
    ensures var w, w' := ws[k], Event(ws[k], id, Stm.ReadReady, a);
            var ok := |w.config.users| < 9 && |CString(name)| <= 10;
            && w'.config == w.config.(users := w.config.users + if ok then [(CString(name), CString(pass))] else [])
            && Answered(w, w', id, if ok then 0x00 else 0x05)
  {
    var config := ws[k].config;
    UserLayouts();
    Client.PutWire(name, pass);
    PutFits(name, pass);
    PutPerformed(name, pass, config);
    assert config.users + [] == config.users;
    hide Managing, Answered, Event, CString, LayoutFor, Fits, Encode, Perform;
    TableChanges(ws, acts, k, id, a, RequestPut, PUT, PutValues(name, pass), surplus,
                 WithUser(config.users, CString(name), CString(pass)), 0x05);
  }

  /** The first user of this name is gone, and nobody else came or went. */
  ghost predicate Removed(users: Users, users': Users, name: seq<byte>) {
    exists i ::
      0 <= i < |users| && users[i].0 == name && (forall j :: 0 <= j < i ==> users[j].0 != name) && Lost(users, users', i)
  }

  ghost predicate Named(users: Users, name: seq<byte>) { exists i :: 0 <= i < |users| && users[i].0 == name }

  lemma RemovedFirst(users: Users, name: seq<byte>)
    ensures var r := WithoutUser(users, name);
            (r.Some? <==> Named(users, name)) && (r.Some? ==> Removed(users, r.value, name))
  {
    DeletedUser(users, name);
    hide WithoutUser, Lost;
  }

  /** DELETE removes the first user of this name, if there is one. */
  lemma UserRemoved(ws: seq<World>, acts: seq<Action>, k: nat, id: nat, a: MngAnswers, name: seq<byte>, surplus: seq<byte>)
    requires Managing(ws, acts, k, id) && ws[k].conns[id].m.state.RequestDelete? && a.recv.Got?
    requires 0 < |name| < 256 && ws[k].conns[id].m.order + a.recv.octets == [0x05, 0x00, |name|] + name + surplus
    ensures var w, w' := ws[k], Event(ws[k], id, Stm.ReadReady, a);
            && w'.config == w.config.(users := w'.config.users)
            && (if Named(w.config.users, CString(name)) then
                  Removed(w.config.users, w'.config.users, CString(name)) && Answered(w, w', id, 0x00)
                else w'.config == w.config && Answered(w, w', id, 0x05))
  {
    var config := ws[k].config;
    UserLayouts();
    Client.DeleteWire(name);
    DeleteFits(name);
    DeletePerformed(name, config);
    RemovedFirst(config.users, CString(name));
    hide Managing, Answered, Event, CString, LayoutFor, Fits, Encode, Perform, WithoutUser, Named, Removed;
    TableChanges(ws, acts, k, id, a, RequestDelete, DELETE, DeleteValues(name), surplus,
                 WithoutUser(config.users, CString(name)), 0x05);
  }

  /** One attribute of the first user of this name is the value: 0 stands for the name, 1 for the password. */
  ghost predicate Edited(users: Users, users': Users, name: seq<byte>, attr: byte, value: seq<byte>) {
    exists i :: 0 <= i < |users| && EditedAt(users, users', name, attr, value, i)
  }

  ghost predicate EditedAt(users: Users, users': Users, name: seq<byte>, attr: byte, value: seq<byte>, i: nat) {
    && i < |users| && users[i].0 == name && (forall j :: 0 <= j < i ==> users[j].0 != name)
    && users' == users[i := if attr == 0x00 then (value, users[i].1) else (name, value)]
  }

  lemma EditedFirst(users: Users, name: seq<byte>, attr: byte, value: seq<byte>)
    ensures var r := WithEdit(users, name, value, attr);
            (r.Some? <==> Named(users, name) && |value| < 10) && (r.Some? ==> Edited(users, r.value, name, attr, value))
  {
    if WithEdit(users, name, value, attr).Some? {
      assert EditedAt(users, WithEdit(users, name, value, attr).value, name, attr, value, Find(users, name).value);
    }
  }

  /** EDIT changes one attribute of the first user of this name, if there is one and the value is short enough. */
  lemma UserEdited(
    ws: seq<World>, acts: seq<Action>, k: nat, id: nat, a: MngAnswers, name: seq<byte>, attr: byte, value: seq<byte>,
    surplus: seq<byte>)
    requires Managing(ws, acts, k, id) && ws[k].conns[id].m.state.RequestEdit? && a.recv.Got?
    requires 0 < |name| < 256 && 0 < |value| < 256 && attr <= 1
    requires ws[k].conns[id].m.order + a.recv.octets == [0x02, 0x00, |name|] + name + [attr, |value|] + value + surplus
    ensures var w, w' := ws[k], Event(ws[k], id, Stm.ReadReady, a);
            && w'.config == w.config.(users := w'.config.users)
            && (if Named(w.config.users, CString(name)) && |CString(value)| < 10 then
                  && Edited(w.config.users, w'.config.users, CString(name), attr, CString(value))
                  && Answered(w, w', id, 0x00)
                else w'.config == w.config && Answered(w, w', id, 0x07))
  {
    var config := ws[k].config;
    UserLayouts();
    Client.EditWire(name, attr, value);
    EditFits(name, value, attr);
    EditPerformed(name, value, attr, config);
    EditedFirst(config.users, CString(name), attr, CString(value));
    hide Managing, Answered, Event, CString, LayoutFor, Fits, Encode, Perform, WithEdit, Named, Edited;
    TableChanges(ws, acts, k, id, a, RequestEdit, EDIT, EditValues(name, attr, value), surplus,
                 WithEdit(config.users, CString(name), CString(value), attr), 0x07);
  }

  lemma SettingsPerformed(n: nat, field: byte, status: byte, config: Config)
    requires 0 < n < 0x1_0000_0000
    ensures Perform(RequestBuffSize, Stored(CONFIGBUFFSIZE, [[0x03], ToBigEndian(n)]), config)
         == Outcome(config.(bufferSize := n), if n < 0x8000_0000 then 0x00 else 0x04, n < 0x8000_0000)
    ensures Perform(RequestConfigStatus, Stored(CONFIGSTATUS, [[0x04], [field], [status]]), config)
         == Outcome(if field == 0x03 then config.(auth := status == 0) else config.(spoofing := status == 0), 0x00, true)
  {
    BigEndianRoundTrip(n);
    hide ToBigEndian, FromBigEndian;
  }

  /** CONFIGBUFFSIZE sets the size for the sessions to come, and is answered only if it is a positive C int. */
  lemma SizeSet(ws: seq<World>, acts: seq<Action>, k: nat, id: nat, a: MngAnswers, n: nat, surplus: seq<byte>)
    requires Managing(ws, acts, k, id) && ws[k].conns[id].m.state.RequestBuffSize? && a.recv.Got?
    requires 0 < n < 0x1_0000_0000 && ws[k].conns[id].m.order + a.recv.octets == [0x03] + ToBigEndian(n) + surplus
    ensures var w, w' := ws[k], Event(ws[k], id, Stm.ReadReady, a);
            && w'.config == w.config.(bufferSize := n)
            && (if n < 0x8000_0000 then Answered(w, w', id, 0x00) else Gone(w, w', id))
  {
    var w, w', f := ws[k], Event(ws[k], id, Stm.ReadReady, a), Stored(CONFIGBUFFSIZE, [[0x03], ToBigEndian(n)]);
    SizeFits(n);
    Client.ShortWires(0, 0, ToBigEndian(n));
    ActionStates();
    SettingsPerformed(n, 0x03, 0x00, w.config);
    hide Managing, Event, Fits, Encode, LayoutFor, OnTo, Gone, Perform, ReplyTo, ToBigEndian, Answered;
    RequestConcludes(ws, acts, k, id, a, [[0x03], ToBigEndian(n)], surplus);
    if n < 0x8000_0000 {
      StatusAnswered(w, w', id, RequestBuffSize, f, Perform(RequestBuffSize, f, w.config), a);
    }
  }

  /** CONFIGSTATUS turns authentication, 3, or spoofing, 4, on with 0 and off with 1. */
  lemma SwitchSet(
    ws: seq<World>, acts: seq<Action>, k: nat, id: nat, a: MngAnswers, field: byte, status: byte, surplus: seq<byte>)
    requires Managing(ws, acts, k, id) && ws[k].conns[id].m.state.RequestConfigStatus? && a.recv.Got?
    requires 3 <= field <= 4 && status <= 1
    requires ws[k].conns[id].m.order + a.recv.octets == [0x04, field, status] + surplus
    ensures var w, w' := ws[k], Event(ws[k], id, Stm.ReadReady, a);
            && Answered(w, w', id, 0x00)
            && w'.config == if field == 3 then w.config.(auth := status == 0) else w.config.(spoofing := status == 0)
  {
    var w, w', f := ws[k], Event(ws[k], id, Stm.ReadReady, a), Stored(CONFIGSTATUS, [[0x04], [field], [status]]);
    StatusFits(field, status);
    Client.ShortWires(field, status, [0, 0, 0, 0]);
    ActionStates();
    SettingsPerformed(1, field, status, w.config);
    hide Managing, Event, Fits, Encode, LayoutFor, OnTo, Gone, Perform, ReplyTo, Answered;
    RequestConcludes(ws, acts, k, id, a, [[0x04], [field], [status]], surplus);
    StatusAnswered(w, w', id, RequestConfigStatus, f, Perform(RequestConfigStatus, f, w.config), a);
  }

  // ----- replies on their way out

  /** A reply goes out in as many pieces as send takes, and then the session is over. */
  lemma ReplyToManagerSent(ws: seq<World>, acts: seq<Action>, k: nat, id: nat, a: MngAnswers)
    requires Managing(ws, acts, k, id) && ws[k].conns[id].m.state.Replies? && a.sent <= |Waiting(ws[k], id)|
    ensures var w, w' := ws[k], Event(ws[k], id, Stm.WriteReady, a);
            && w'.config == w.config
            && (if 0 < a.sent < |Waiting(w, id)| then
                  OnTo(w, w', id, Replies, Interest(false, true)) && Waiting(w', id) == Waiting(w, id)[a.sent..]
                else Gone(w, w', id))
  {
    var w := ws[k];
    ManagingKnows(ws, acts, k, id);
    RepliesOut(w.conns[id].m, w.config, w.metrics, a);
    assert Due(w.conns[id].m, Stm.WriteReady);
    hide Managing, Gated, Due, Accounted, Event, MngCallback, AdminFits, OnTo, Gone;
    EventLeads(w, id, Stm.WriteReady, a);
    var w' := Event(w, id, Stm.WriteReady, a);
    if OnTo(w, w', id, Replies, MngInterest(Replies)) {
      Onward(w, w', id, Replies);
    }
  }

  lemma RepliesOut(m: Mng, config: Config, metrics: Metrics, a: MngAnswers)
    requires m.state.Replies? && a.sent <= |m.desk.wb.contents|
    ensures var t := MngCallback(m, config, metrics, a);
            && t.config == config
            && (if 0 < a.sent < |m.desk.wb.contents| then
                  t.next.Replies? && t.m.desk.wb.contents == m.desk.wb.contents[a.sent..]
                else IsFinal(t.next))
  {
  }
}
