/**
 * One management session: the callbacks of src/mng.c and the wrappers of
 * src/mng_handler.c, as functions from a session, the configuration and the
 * operating system's answers to a session and a configuration.
 */
module Management {
  import opened Bytes
  import opened ByteMachine
  import opened AdminForm
  import opened SelectorModule
  import opened ServerConfig
  import opened Session
  import Fifo
  import Stm

  // ----- the state table

  datatype MngState =
    | ConnectRead | ConnectWrite | Request
    | RequestGet | RequestPut | RequestEdit | RequestBuffSize | RequestConfigStatus | RequestDelete
    | Replies | MngDone | MngError

  /** mng_state_definition, entry by entry. */
  function MngDefinition(st: MngState): Stm.Definition {
    match st
    case ConnectRead => Stm.Definition(0, true, false, true, false, false)
    case ConnectWrite => Stm.Definition(1, false, false, false, true, false)
    case Request => Stm.Definition(2, false, false, true, false, false)
    case RequestGet => Stm.Definition(3, true, false, true, false, false)
    case RequestPut => Stm.Definition(4, true, false, true, false, false)
    case RequestEdit => Stm.Definition(5, true, false, true, false, false)
    case RequestBuffSize => Stm.Definition(6, true, false, true, false, false)
    case RequestConfigStatus => Stm.Definition(7, true, false, true, false, false)
    case RequestDelete => Stm.Definition(8, true, false, true, false, false)
    case Replies => Stm.Definition(9, false, false, false, true, false)
    case MngDone => Stm.Definition(10, false, false, false, false, false)
    case MngError => Stm.Definition(11, false, false, false, false, false)
  }

  predicate IsAction(st: MngState) {
    st.RequestGet? || st.RequestPut? || st.RequestEdit? || st.RequestBuffSize? || st.RequestConfigStatus? || st.RequestDelete?
  }

  predicate IsFinal(st: MngState) { st.MngDone? || st.MngError? }

  // ----- the data

  /** The parser of the current state and the two buffers. */
  datatype Desk = Desk(form: Form, rb: Fifo.View, wb: Fifo.View)

  /**
   * `closing` is the status CLOSE. Two fields are history, which no callback
   * reads: all octets received for the login, and all for the current request.
   */
  datatype Mng = Mng(
    state: MngState, live: bool, clientFd: int, closing: bool, desk: Desk, heard: seq<byte>, order: seq<byte>)

  const MNG_BUFFER_SIZE: nat := 4096

  /** mng_new followed by the initial arrival, mng_connect_read_init. */
  function MngNew(clientFd: int): Mng {
    Mng(ConnectRead, true, clientFd, false,
        Desk(START, Fifo.Empty(MNG_BUFFER_SIZE), Fifo.Empty(MNG_BUFFER_SIZE)), [], [])
  }

  /**
   * recv and send; the text of the options of GET that are not modelled; and
   * the memory behind the write pointer.
   */
  datatype MngAnswers = MngAnswers(recv: Recv, sent: int, text: seq<byte>, stale: seq<byte>)

  /**
   * What a callback leaves: the session, the configuration, the state it
   * returns, the interest it set, and whether the operating system kept its side.
   */
  datatype Turn = Turn(m: Mng, config: Config, next: MngState, want: Option<Interest>, honest: bool)

  // ----- login

  /** The consume loop of the state's parser, once the octets are in the buffer. */
  function Digest(l: Layout, d: Desk, octets: seq<byte>): Desk {
    var rb := Fifo.Put(d.rb, octets);
    var (f, rest) := Parse(l, d.form, rb.contents);
    d.(form := f, rb := Fifo.Take(rb, |rb.contents| - |rest|))
  }

  /** recv delivers at least one octet and no more than was asked for. */
  predicate Delivered(octets: seq<byte>, room: int) { 0 < |octets| <= room }

  function Value(f: Form, i: nat): seq<byte> { if i < |f.stored| then f.stored[i] else [] }

  /** The stored octet of a one-octet slot. */
  function Octet(f: Form, i: nat): byte { if |Value(f, i)| == 1 then Value(f, i)[0] else 0 }

  /** mng_connect_read. */
  function OnConnectRead(m: Mng, config: Config, r: Recv): Turn {
    if !r.Got? then Turn(m, config, MngError, None, true)
    else
      var d := Digest(CONNECT, m.desk, r.octets);
      var m1 := m.(desk := d, heard := m.heard + r.octets);
      var honest := Delivered(r.octets, Fifo.Room(m.desk.rb));
      if !IsDone(d.form) then Turn(m1, config, ConnectRead, None, honest)
      else
        var right := d.form.phase.Finished? && CString(Value(d.form, 1)) == config.token;
        if d.form.phase.Failed? || Fifo.Room(d.wb) < 1 then
          Turn(m1.(closing := !right), config, MngError, Some(WRITE), honest)
        else
          var reply: seq<byte> := [if right then 0x00 else 0x04];
          Turn(m1.(closing := !right, desk := d.(wb := Fifo.Put(d.wb, reply))), config, ConnectWrite, Some(WRITE), honest)
  }

  /** send takes n octets from the write buffer. */
  function MngSend(m: Mng, n: nat): Mng {
    m.(desk := m.desk.(wb := Fifo.Take(m.desk.wb, Min(n, |m.desk.wb.contents|))))
  }

  /** mng_connect_write. */
  function OnConnectWrite(m: Mng, config: Config, n: int): Turn {
    if n <= 0 then Turn(m, config, MngError, None, true)
    else
      var m1, honest := MngSend(m, n), n <= |m.desk.wb.contents|;
      if Fifo.CanRead(m1.desk.wb) then Turn(m1, config, ConnectWrite, None, honest)
      else if m.closing then Turn(m1, config, MngDone, None, honest)
      else Turn(m1, config, MngState.Request, Some(READ), honest)
  }

  // ----- requests

  /** The switch of mng_request. */
  function ActionFor(b: byte): MngState {
    match b
    case 0x00 => RequestGet
    case 0x01 => RequestPut
    case 0x02 => RequestEdit
    case 0x03 => RequestBuffSize
    case 0x04 => RequestConfigStatus
    case 0x05 => RequestDelete
    case _ => MngState.Request
  }

  /** The parser that the arrival in a state initialises. */
  function LayoutFor(st: MngState): Layout
    requires IsAction(st)
  {
    match st
    case RequestGet => GET
    case RequestPut => PUT
    case RequestEdit => EDIT
    case RequestBuffSize => CONFIGBUFFSIZE
    case RequestConfigStatus => CONFIGSTATUS
    case RequestDelete => DELETE
  }

  /**
   * mng_request: both buffers are emptied and one octet is read, which stays in
   * the buffer for the parser of the state it chooses. An unknown octet is
   * dropped by the next reset.
   */
  function OnRequest(m: Mng, config: Config, r: Recv): Turn {
    var rb, wb := Fifo.Empty(m.desk.rb.capacity), Fifo.Empty(m.desk.wb.capacity);
    var m1 := m.(desk := m.desk.(rb := rb, wb := wb), order := []);
    if Fifo.Room(rb) < 2 || !r.Got? then Turn(m1, config, MngError, None, true)
    else if |r.octets| != 1 then Turn(m1, config, MngError, None, false)
    else
      Turn(m1.(desk := m1.desk.(rb := Fifo.Put(rb, r.octets)), order := r.octets), config, ActionFor(r.octets[0]), None, true)
  }

  /** A C int made from a 32-bit number is positive. */
  predicate PositiveInt(n: nat) { 0 < n < 0x8000_0000 }

  /** The configuration after a request, the status to answer, and whether the session may go on. */
  datatype Outcome = Outcome(config: Config, status: byte, ok: bool)

  /** A change of the user table, or the status that refuses it. */
  function Tabled(config: Config, users: Option<Users>, refusal: byte): Outcome {
    match users
    case None => Outcome(config, refusal, true)
    case Some(table) => Outcome(config.(users := table), 0x00, true)
  }

  /** set_buff_size, whose result is a C int. */
  function SetSize(config: Config, n: nat): Outcome {
    Outcome(config.(bufferSize := n), if PositiveInt(n) then 0x00 else 0x04, PositiveInt(n))
  }

  /** set_status. */
  function SetStatus(config: Config, field: byte, status: byte): Outcome {
    Outcome(if field == 0x03 then config.(auth := status == 0) else config.(spoofing := status == 0), 0x00, true)
  }

  /** What a complete request does, before it is answered. */
  function Perform(st: MngState, f: Form, config: Config): Outcome {
    match st
    case RequestPut => Tabled(config, WithUser(config.users, CString(Value(f, 2)), CString(Value(f, 3))), 0x05)
    case RequestEdit =>
      Tabled(config, WithEdit(config.users, CString(Value(f, 2)), CString(Value(f, 4)), Octet(f, 3)), 0x07)
    case RequestDelete => Tabled(config, WithoutUser(config.users, CString(Value(f, 2))), 0x05)
    case RequestBuffSize => SetSize(config, if |Value(f, 1)| == 4 then FromBigEndian(Value(f, 1)) else 0)
    case RequestConfigStatus => SetStatus(config, Octet(f, 1), Octet(f, 2))
    case _ => Outcome(config, 0x00, true)
  }

  // ----- replies

  function Switch(on: bool): byte { if on then 0x00 else 0x01 }

  /** The octets that each option of GET puts in `res`. */
  function Answer(option: byte, config: Config, metrics: Metrics, text: seq<byte>): seq<byte> {
    match option
    case 0x02 => ToBigEndian(config.bufferSize)
    case 0x03 => [Switch(config.auth)]
    case 0x04 => [Switch(config.spoofing)]
    case 0x07 => ToBigEndian(metrics.historic % 0x1_0000_0000)
    case 0x08 => ToBigEndian(metrics.current % 0x1_0000_0000)
    case _ => text
  }

  /** admin_get_marshall: status, length, octets. */
  function GetReply(option: byte, config: Config, metrics: Metrics, text: seq<byte>): seq<byte> {
    var answer := Answer(option, config, metrics, text);
    [0x00, |answer| % 256] + answer
  }

  /** The octets that lie in memory, n of them. */
  function Lying(stale: seq<byte>, n: nat): seq<byte> { seq(n, i => if 0 <= i < |stale| then stale[i] else 0) }

  /** The other marshallers set one octet and advance by all the room there is. */
  function StatusReply(status: byte, room: nat, stale: seq<byte>): seq<byte>
    requires room > 0
  {
    [status] + Lying(stale, room - 1)
  }

  /** The marshaller of the state, if its reply fits. */
  function ReplyTo(
    st: MngState, f: Form, status: byte, room: int, config: Config, metrics: Metrics, text: seq<byte>, stale: seq<byte>)
    : Option<seq<byte>>
  {
    if st.RequestGet? then
      var reply := GetReply(Octet(f, 1), config, metrics, text);
      if room < |reply| then None else Some(reply)
    else if room < 1 then None
    else Some(StatusReply(status, room, stale))
  }

  /** The end of request_*_request: the request is performed and answered. */
  function Conclude(m: Mng, config: Config, metrics: Metrics, a: MngAnswers, honest: bool): Turn {
    var f := m.desk.form;
    if f.phase.Failed? then Turn(m, config, MngError, Some(WRITE), honest)
    else
      var out := Perform(m.state, f, config);
      match ReplyTo(m.state, f, out.status, Fifo.Room(m.desk.wb), out.config, metrics, a.text, a.stale)
      case None => Turn(m, out.config, MngError, Some(WRITE), honest)
      case Some(reply) =>
        var m1 := m.(desk := m.desk.(wb := Fifo.Put(m.desk.wb, reply)));
        Turn(m1, out.config, if out.ok then Replies else MngError, Some(WRITE), honest)
  }

  /** request_*_request. */
  function OnAction(m: Mng, config: Config, metrics: Metrics, a: MngAnswers): Turn
    requires IsAction(m.state)
  {
    if !a.recv.Got? then Turn(m, config, MngError, None, true)
    else
      var octets := a.recv.octets;
      var honest := Delivered(octets, Fifo.Room(m.desk.rb));
      var m1 := m.(desk := Digest(LayoutFor(m.state), m.desk, octets), order := m.order + octets);
      if !IsDone(m1.desk.form) then Turn(m1, config, m.state, None, honest)
      else Conclude(m1, config, metrics, a, honest)
  }

  /** mng_replies. */
  function OnReplies(m: Mng, config: Config, n: int): Turn {
    if n <= 0 then Turn(m, config, MngError, None, true)
    else
      var m1, honest := MngSend(m, n), n <= |m.desk.wb.contents|;
      if Fifo.CanRead(m1.desk.wb) then Turn(m1, config, Replies, None, honest)
      else Turn(m1, config, MngDone, Some(NOOP), honest)
  }

  function MngCallback(m: Mng, config: Config, metrics: Metrics, a: MngAnswers): Turn {
    match m.state
    case ConnectRead => OnConnectRead(m, config, a.recv)
    case ConnectWrite => OnConnectWrite(m, config, a.sent)
    case Request => OnRequest(m, config, a.recv)
    case Replies => OnReplies(m, config, a.sent)
    case MngDone => Turn(m, config, MngDone, None, true)
    case MngError => Turn(m, config, MngError, None, true)
    case _ => OnAction(m, config, metrics, a)
  }

  /** The jump to the state returned; arriving in an action state initialises its parser. */
  function MngJump(m: Mng, next: MngState): Mng {
    if next == m.state then m
    else m.(state := next, desk := if IsAction(next) then m.desk.(form := START) else m.desk)
  }

  // ----- what every callback keeps

  /** The interest of a management session, by its state. */
  function MngInterest(st: MngState): Interest {
    if st.ConnectWrite? || st.Replies? then WRITE else READ
  }

  /** A callback of a session that goes on leaves the interest that the next state needs. */
  lemma TurnWants(m: Mng, config: Config, metrics: Metrics, a: MngAnswers)
    requires !IsFinal(m.state)
    ensures var t := MngCallback(m, config, metrics, a);
            && t.m.state == m.state && t.m.live == m.live && t.m.clientFd == m.clientFd
            && (IsFinal(t.next)
                || (if t.want.Some? then t.want.value == MngInterest(t.next) else MngInterest(t.next) == MngInterest(m.state)))
  {
    hide Digest, Perform, ReplyTo, CString, Lying;
  }

  /** No request changes the token. */
  lemma TokenKept(m: Mng, config: Config, metrics: Metrics, a: MngAnswers)
    ensures MngCallback(m, config, metrics, a).config.token == config.token
  {
    hide Digest, ReplyTo, CString, WithUser, WithEdit, WithoutUser;
  }
}
