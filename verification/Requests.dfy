/** What management requests do, however they are cut: one request, and requests over two sessions. */
module Requests {
  import opened Bytes
  import opened ByteMachine
  import opened AdminForm
  import opened ServerConfig
  import opened Session
  import opened Management
  import Fifo
  import Client = ManagementClient

  // ----- the action octet read twice

  /** The octet that chose the parser is the one its first slot wants: no action parser ever refuses its action. */
  lemma ActionNeverRefused(b: byte)
    requires IsAction(ActionFor(b))
    ensures !Feed(LayoutFor(ActionFor(b)), START, b).phase.Failed?
    ensures LayoutFor(ActionFor(b))[0] == Literal(b)
  {
  }

  /** The action states and the octets that choose them correspond. */
  lemma ActionOf(st: MngState)
    requires IsAction(st)
    ensures LayoutFor(st)[0].Literal? && ActionFor(LayoutFor(st)[0].b) == st
  {
  }

  lemma FirstOctet(l: Layout, values: seq<seq<byte>>)
    requires Fits(l, values) && l[0].Literal?
    ensures Encode(l, values) != [] && Encode(l, values)[0] == l[0].b
  {
    assert FitsSlot(l[0], values[0]);
  }

  // ----- a session that receives

  predicate Listens(st: MngState) { st.ConnectRead? || st.Request? || IsAction(st) }

  /** A session handles one read event for each piece, until it has something to send or ends. */
  function Listen(m: Mng, config: Config, metrics: Metrics, os: MngAnswers, pieces: seq<seq<byte>>): (Mng, Config)
    decreases |pieces|
  {
    if pieces == [] || !Listens(m.state) then (m, config)
    else
      var t := MngCallback(m, config, metrics, os.(recv := Got(pieces[0])));
      Listen(MngJump(t.m, t.next), t.config, metrics, os, pieces[1..])
  }

  /** The outcome of a parser that is done: the next state, the octets to send and the configuration. */
  function Verdict(
    st: MngState, f: Form, room: int, config: Config, metrics: Metrics, os: MngAnswers)
    : (MngState, Option<seq<byte>>, Config)
  {
    if f.phase.Failed? then (MngError, None, config)
    else
      var out := Perform(st, f, config);
      var reply := ReplyTo(st, f, out.status, room, out.config, metrics, os.text, os.stale);
      (if out.ok && reply.Some? then Replies else MngError, reply, out.config)
  }

  ghost predicate Settled(d: Desk, r: (Mng, Config), v: (MngState, Option<seq<byte>>, Config)) {
    r.0.state == v.0 && r.1 == v.2 && (v.0.Replies? ==> v.1.Some? && r.0.desk.wb.contents == d.wb.contents + v.1.value)
  }

  /** One recv of an action state. */
  lemma ActionStep(m: Mng, config: Config, metrics: Metrics, os: MngAnswers, piece: seq<byte>)
    requires IsAction(m.state)
    ensures var d := Digest(LayoutFor(m.state), m.desk, piece);
            var t := MngCallback(m, config, metrics, os.(recv := Got(piece)));
            var m' := MngJump(t.m, t.next);
            && d.wb == m.desk.wb
            && (if IsDone(d.form) then
                  && Settled(m.desk, (m', t.config), Verdict(m.state, d.form, Fifo.Room(m.desk.wb), config, metrics, os))
                  && !Listens(m'.state)
                else m' == m.(desk := d, order := m.order + piece) && t.config == config)
  {
    hide Perform, Parse, ReplyTo, Fifo.Take, LayoutFor;
  }

  /** One recv of the parser's own loop. */
  lemma ReceiveFirst(l: Layout, d: Desk, pieces: seq<seq<byte>>)
    requires pieces != [] && !IsDone(d.form)
    ensures var d1 := Digest(l, d, pieces[0]);
            ReceiveAll(Feeder(l), IsDone, d.form, d.rb, pieces)
            == if IsDone(d1.form) then (d1.form, d1.rb, pieces[1..])
               else ReceiveAll(Feeder(l), IsDone, d1.form, d1.rb, pieces[1..])
  {
    hide Consume, Feed, Fifo.Take, Fifo.Put;
  }

  /** The recvs of an action state are those of its parser. */
  lemma {:induction false} ListenReceives(m: Mng, config: Config, metrics: Metrics, os: MngAnswers, pieces: seq<seq<byte>>)
    requires IsAction(m.state) && !IsDone(m.desk.form)
    ensures var f := ReceiveAll(Feeder(LayoutFor(m.state)), IsDone, m.desk.form, m.desk.rb, pieces).0;
            var r := Listen(m, config, metrics, os, pieces);
            if IsDone(f) then Settled(m.desk, r, Verdict(m.state, f, Fifo.Room(m.desk.wb), config, metrics, os))
            else r.0.state == m.state && r.1 == config
    decreases |pieces|
  {
    hide Verdict, MngCallback, MngJump, LayoutFor, Settled, Digest, Consume;
    if pieces != [] {
      ReceiveFirst(LayoutFor(m.state), m.desk, pieces);
      var d := Digest(LayoutFor(m.state), m.desk, pieces[0]);
      ActionStep(m, config, metrics, os, pieces[0]);
      if !IsDone(d.form) {
        var m1 := m.(desk := d, order := m.order + pieces[0]);
        ListenReceives(m1, config, metrics, os, pieces[1..]);
        var f := ReceiveAll(Feeder(LayoutFor(m.state)), IsDone, d.form, d.rb, pieces[1..]).0;
        if IsDone(f) {
          SameSettled(m1.desk, m.desk, Listen(m1, config, metrics, os, pieces[1..]),
                      Verdict(m.state, f, Fifo.Room(m.desk.wb), config, metrics, os));
        }
      }
    }
  }

  // ----- a request, in any pieces

  /** The pieces as they meet the parser: the first one behind the octet already there. */
  function Joined(first: byte, pieces: seq<seq<byte>>): seq<seq<byte>>
    requires pieces != []
  {
    [[first] + pieces[0]] + pieces[1..]
  }

  lemma JoinedFlat(first: byte, pieces: seq<seq<byte>>)
    requires pieces != []
    ensures Flatten(Joined(first, pieces)) == [first] + Flatten(pieces)
  {
    assert Joined(first, pieces)[1..] == pieces[1..];
    assert [first] + pieces[0] + Flatten(pieces[1..]) == [first] + (pieces[0] + Flatten(pieces[1..]));
  }

  lemma ReceiveJoined(l: Layout, capacity: nat, first: byte, pieces: seq<seq<byte>>)
    requires pieces != []
    ensures ReceiveAll(Feeder(l), IsDone, START, Fifo.Put(Fifo.Empty(capacity), [first]), pieces)
         == ReceiveAll(Feeder(l), IsDone, START, Fifo.Empty(capacity), Joined(first, pieces))
  {
    hide Consume, Fifo.Take, Feed;
    var joined := Joined(first, pieces);
    assert joined[1..] == pieces[1..];
    var one, two := Fifo.Put(Fifo.Put(Fifo.Empty(capacity), [first]), pieces[0]), Fifo.Put(Fifo.Empty(capacity), joined[0]);
    assert one == two by {
      assert [] + [first] + pieces[0] == [] + ([first] + pieces[0]);
    }
  }

  ghost predicate PiecesFit(capacity: nat, pieces: seq<seq<byte>>) {
    && pieces != [] && 1 + |pieces[0]| <= capacity
    && forall i :: 0 <= i < |pieces| ==> 0 < |pieces[i]| <= capacity
  }

  /**
   * However the rest of a request is cut, the state's parser ends as on the whole
   * stream at once, and what it leaves is what the one pass leaves.
   */
  lemma CutsDoNotMatter(l: Layout, capacity: nat, first: byte, pieces: seq<seq<byte>>)
    requires PiecesFit(capacity, pieces)
    ensures var (f, v, later) := ReceiveAll(Feeder(l), IsDone, START, Fifo.Put(Fifo.Empty(capacity), [first]), pieces);
            Parse(l, START, [first] + Flatten(pieces)) == (f, v.contents + Flatten(later))
  {
    hide Feed, Consume;
    ReceiveJoined(l, capacity, first, pieces);
    JoinedFlat(first, pieces);
    ChunkIndependence(Feeder(l), IsDone, START, capacity, Joined(first, pieces));
  }

  /** One octet a recv, as mng_request reads. */
  function Singles(octets: seq<byte>): seq<seq<byte>> {
    if octets == [] then [] else [[octets[0]]] + Singles(octets[1..])
  }

  ghost predicate Unknown(octets: seq<byte>) { forall b :: b in octets ==> b > 0x05 }

  /** mng_request on one octet. */
  lemma RequestStep(m: Mng, config: Config, metrics: Metrics, os: MngAnswers, b: byte)
    requires m.state.Request? && m.desk.rb.capacity >= 2
    ensures var t := MngCallback(m, config, metrics, os.(recv := Got([b])));
            var m' := MngJump(t.m, t.next);
            && t.config == config && m'.state == ActionFor(b)
            && m'.desk == Desk(if IsAction(ActionFor(b)) then START else m.desk.form,
                               Fifo.Put(Fifo.Empty(m.desk.rb.capacity), [b]), Fifo.Empty(m.desk.wb.capacity))
  {
    hide Fifo.Put;
  }

  lemma ListenFirst(m: Mng, config: Config, metrics: Metrics, os: MngAnswers, piece: seq<byte>, pieces: seq<seq<byte>>)
    requires Listens(m.state)
    ensures var t := MngCallback(m, config, metrics, os.(recv := Got(piece)));
            Listen(m, config, metrics, os, [piece] + pieces) == Listen(MngJump(t.m, t.next), t.config, metrics, os, pieces)
  {
    assert ([piece] + pieces)[1..] == pieces;
  }

  /**
   * A session waiting for a request, whatever its buffers hold: octets that are
   * no action are skipped, the next one chooses the parser, and the verdict is
   * that of the parser on the whole stream, however the rest of it is cut.
   */
  lemma {:induction false} VerdictOnStream(
    m: Mng, config: Config, metrics: Metrics, os: MngAnswers, unknown: seq<byte>, first: byte, pieces: seq<seq<byte>>)
    requires m.state.Request? && PiecesFit(m.desk.rb.capacity, pieces)
    requires Unknown(unknown) && IsAction(ActionFor(first))
    requires IsDone(Parse(LayoutFor(ActionFor(first)), START, [first] + Flatten(pieces)).0)
    ensures var st := ActionFor(first);
            var f := Parse(LayoutFor(st), START, [first] + Flatten(pieces)).0;
            var d := Desk(START, Fifo.Empty(m.desk.rb.capacity), Fifo.Empty(m.desk.wb.capacity));
            Settled(d, Listen(m, config, metrics, os, Singles(unknown) + ([[first]] + pieces)),
                    Verdict(st, f, m.desk.wb.capacity, config, metrics, os))
    decreases |unknown|
  {
    hide Parse, LayoutFor, MngCallback, MngJump, Listen, Verdict, Settled, ActionFor;
    if unknown == [] {
      assert Singles(unknown) + ([[first]] + pieces) == [[first]] + pieces;
      ListenFirst(m, config, metrics, os, [first], pieces);
      RequestStep(m, config, metrics, os, first);
      var t := MngCallback(m, config, metrics, os.(recv := Got([first])));
      var m' := MngJump(t.m, t.next);
      CutsDoNotMatter(LayoutFor(ActionFor(first)), m.desk.rb.capacity, first, pieces);
      ListenReceives(m', config, metrics, os, pieces);
      SameSettled(m'.desk, Desk(START, Fifo.Empty(m.desk.rb.capacity), Fifo.Empty(m.desk.wb.capacity)),
                  Listen(m', config, metrics, os, pieces),
                  Verdict(ActionFor(first), Parse(LayoutFor(ActionFor(first)), START, [first] + Flatten(pieces)).0,
                          m.desk.wb.capacity, config, metrics, os));
    } else {
      var u, more := unknown[0], unknown[1..];
      assert Singles(unknown) + ([[first]] + pieces) == [[u]] + (Singles(more) + ([[first]] + pieces));
      ListenFirst(m, config, metrics, os, [u], Singles(more) + ([[first]] + pieces));
      RequestStep(m, config, metrics, os, u);
      UnknownAction(u);
      assert u in unknown && forall b :: b in more ==> b in unknown;
      var t := MngCallback(m, config, metrics, os.(recv := Got([u])));
      VerdictOnStream(MngJump(t.m, t.next), config, metrics, os, more, first, pieces);
    }
  }

  lemma UnknownAction(b: byte)
    ensures b > 0x05 <==> ActionFor(b) == MngState.Request
    ensures b <= 0x05 <==> IsAction(ActionFor(b))
  {
  }

  lemma SameSettled(d: Desk, d': Desk, r: (Mng, Config), v: (MngState, Option<seq<byte>>, Config))
    requires d.wb == d'.wb && Settled(d, r, v)
    ensures Settled(d', r, v)
  {
  }

  /** The values of a request as its parser stores them. */
  function Stored(l: Layout, values: seq<seq<byte>>): Form { Form(Finished, |l|, values, [], 0) }

  /** A session waiting for a request hears this stream. */
  function Hears(
    m: Mng, config: Config, metrics: Metrics, os: MngAnswers, unknown: seq<byte>, first: byte, pieces: seq<seq<byte>>)
    : (Mng, Config)
  {
    Listen(m, config, metrics, os, Singles(unknown) + ([[first]] + pieces))
  }

  /** The session has the octets to send, and the configuration is this one. */
  ghost predicate Replied(r: (Mng, Config), reply: seq<byte>, config: Config) {
    r.0.state.Replies? && r.0.desk.wb.contents == reply && r.1 == config
  }

  /**
   * Every request is served as sent. Whatever the session's buffers held, after
   * any octets that are no action, and however the message arrives, the request
   * is performed with exactly its values and answered; the session ends instead
   * only when the request cannot be performed or the reply does not fit.
   */
  lemma RequestServed(
    m: Mng, config: Config, metrics: Metrics, os: MngAnswers, st: MngState, values: seq<seq<byte>>,
    surplus: seq<byte>, unknown: seq<byte>, first: byte, pieces: seq<seq<byte>>)
    requires m.state.Request? && PiecesFit(m.desk.rb.capacity, pieces) && Unknown(unknown)
    requires IsAction(st) && Fits(LayoutFor(st), values)
    requires [first] + Flatten(pieces) == Encode(LayoutFor(st), values) + surplus
    ensures var f := Stored(LayoutFor(st), values);
            var out := Perform(st, f, config);
            var reply := ReplyTo(st, f, out.status, m.desk.wb.capacity, out.config, metrics, os.text, os.stale);
            var r := Hears(m, config, metrics, os, unknown, first, pieces);
            && r.1 == out.config
            && (if out.ok && reply.Some? then Replied(r, reply.value, out.config) else r.0.state.MngError?)
  {
    var l := LayoutFor(st);
    FirstOctet(l, values);
    ActionOf(st);
    assert ([first] + Flatten(pieces))[0] == first && ActionFor(first) == st;
    FormDecoded(l, values, surplus);
    hide Perform, Encode, Fits, LayoutFor, Parse, ReplyTo, Listen, ActionFor;
    VerdictOnStream(m, config, metrics, os, unknown, first, pieces);
    assert forall s: seq<byte> :: [] + s == s;
  }

  // The values of the three requests about users, slot by slot.

  function PutValues(name: seq<byte>, pass: seq<byte>): (r: seq<seq<byte>>)
    ensures |r| == |PUT|
  {
    [[0x01], [0x00], name, pass]
  }

  function EditValues(name: seq<byte>, attr: byte, value: seq<byte>): (r: seq<seq<byte>>)
    ensures |r| == |EDIT|
  {
    [[0x02], [0x00], name, [attr], value]
  }

  function DeleteValues(name: seq<byte>): (r: seq<seq<byte>>)
    ensures |r| == |DELETE|
  {
    [[0x05], [0x00], name]
  }

  /** The names and values the client lets through, with anything but the empty text. */
  ghost predicate GoodText(s: seq<byte>) { 0 < |s| <= Client.MAX_TEXT }

  /** All six kinds of request fit their layouts exactly when the client's arguments make sense. */
  lemma RequestsFit(name: seq<byte>, value: seq<byte>, a: byte, b: byte, n: nat)
    requires GoodText(name) && GoodText(value) && n < 0x1_0000_0000
    ensures Fits(PUT, PutValues(name, value)) && Fits(DELETE, DeleteValues(name))
    ensures Fits(EDIT, EditValues(name, a, value)) <==> a <= 1
    ensures Fits(CONFIGSTATUS, [[0x04], [a], [b]]) <==> (a == 3 || a == 4) && b <= 1
    ensures Fits(GET, [[0x00], [a]]) <==> a <= 8
    ensures Fits(CONFIGBUFFSIZE, [[0x03], ToBigEndian(n)]) <==> n > 0
  {
    hide ToBigEndian, FromBigEndian;
    SizeFits(n);
    EditFits(name, value, a);
    StatusFits(a, b);
    PutFits(name, value);
    DeleteFits(name);
    GetFits(a);
    hide Fits;
  }

  lemma SizeFits(n: nat)
    requires n < 0x1_0000_0000
    ensures Fits(CONFIGBUFFSIZE, [[0x03], ToBigEndian(n)]) <==> n > 0
  {
    BigEndianRoundTrip(n);
    hide ToBigEndian, FromBigEndian;
    var values := [[0x03], ToBigEndian(n)];
    assert FitsSlot(CONFIGBUFFSIZE[1], values[1]) <==> n > 0;
  }

  lemma GetFits(a: byte)
    ensures Fits(GET, [[0x00], [a]]) <==> a <= 8
  {
    var get: seq<seq<byte>> := [[0x00], [a]];
    assert FitsSlot(GET[1], get[1]) <==> a <= 8;
  }

  lemma EditFits(name: seq<byte>, value: seq<byte>, a: byte)
    requires 0 < |name| < 256 && 0 < |value| < 256
    ensures Fits(EDIT, EditValues(name, a, value)) <==> a <= 1
  {
    var values := EditValues(name, a, value);
    assert FitsSlot(EDIT[3], values[3]) <==> a <= 1;
  }

  lemma PutFits(name: seq<byte>, value: seq<byte>)
    requires 0 < |name| < 256 && 0 < |value| < 256
    ensures Fits(PUT, PutValues(name, value))
  {
  }

  lemma DeleteFits(name: seq<byte>)
    requires 0 < |name| < 256
    ensures Fits(DELETE, DeleteValues(name))
  {
  }

  lemma StatusFits(a: byte, b: byte)
    ensures Fits(CONFIGSTATUS, [[0x04], [a], [b]]) <==> (a == 3 || a == 4) && b <= 1
  {
    var values: seq<seq<byte>> := [[0x04], [a], [b]];
    assert FitsSlot(CONFIGSTATUS[1], values[1]) <==> (a == 3 || a == 4);
    assert FitsSlot(CONFIGSTATUS[2], values[2]) <==> b <= 1;
  }

  // ----- a setting changed over one session and read over another

  /** A session waiting for a request is sent this stream, in any pieces, after octets that are no action. */
  ghost predicate Sent(m: Mng, unknown: seq<byte>, first: byte, pieces: seq<seq<byte>>, stream: seq<byte>) {
    && m.state.Request? && m.desk.wb.capacity >= 6 && PiecesFit(m.desk.rb.capacity, pieces) && Unknown(unknown)
    && [first] + Flatten(pieces) == stream
  }

  lemma GetServed(
    m: Mng, config: Config, metrics: Metrics, os: MngAnswers, option: byte, surplus: seq<byte>,
    unknown: seq<byte>, first: byte, pieces: seq<seq<byte>>)
    requires option <= 8 && Sent(m, unknown, first, pieces, [0x00, option] + surplus)
    ensures var reply := GetReply(option, config, metrics, os.text);
            var r := Hears(m, config, metrics, os, unknown, first, pieces);
            r.1 == config && (if |reply| <= m.desk.wb.capacity then Replied(r, reply, config) else r.0.state.MngError?)
  {
    GetFits(option);
    Client.ShortWires(option, 0, [0, 0, 0, 0]);
    hide Fits, Encode, Hears, GetReply, CString;
    RequestServed(m, config, metrics, os, RequestGet, [[0x00], [option]], surplus, unknown, first, pieces);
  }

  /** What CONFIGBUFFSIZE n does. */
  lemma SizeServed(
    m: Mng, config: Config, metrics: Metrics, os: MngAnswers, n: nat, surplus: seq<byte>,
    unknown: seq<byte>, first: byte, pieces: seq<seq<byte>>)
    requires n < 0x1_0000_0000 && Sent(m, unknown, first, pieces, [0x03] + ToBigEndian(n) + surplus)
    ensures var r := Hears(m, config, metrics, os, unknown, first, pieces);
            && r.1 == (if n == 0 then config else config.(bufferSize := n))
            && r.0.state == if PositiveInt(n) then Replies else MngError
  {
    if n > 0 {
      SizeFits(n);
      Client.ShortWires(0, 0, ToBigEndian(n));
      BigEndianRoundTrip(n);
      hide Fits, Encode, Hears, ToBigEndian, FromBigEndian, Lying;
      RequestServed(m, config, metrics, os, RequestBuffSize, [[0x03], ToBigEndian(n)], surplus, unknown, first, pieces);
    } else {
      ZeroSizeFails(surplus);
      hide Parse, ToBigEndian, Hears;
      assert first == ([first] + Flatten(pieces))[0] == 0x03;
      VerdictOnStream(m, config, metrics, os, unknown, first, pieces);
      assert Hears(m, config, metrics, os, unknown, first, pieces)
          == Listen(m, config, metrics, os, Singles(unknown) + ([[first]] + pieces)) by {
        HearsListens(m, config, metrics, os, unknown, first, pieces);
      }
    }
  }

  lemma HearsListens(
    m: Mng, config: Config, metrics: Metrics, os: MngAnswers, unknown: seq<byte>, first: byte, pieces: seq<seq<byte>>)
    ensures Hears(m, config, metrics, os, unknown, first, pieces)
         == Listen(m, config, metrics, os, Singles(unknown) + ([[first]] + pieces))
  {
  }

  lemma ZeroSizeFails(surplus: seq<byte>)
    ensures Parse(CONFIGBUFFSIZE, START, [0x03] + ToBigEndian(0) + surplus).0.phase.Failed?
  {
    hide Parse;
    var zero := ToBigEndian(0);
    BigEndianRoundTrip(0);
    ParseStep(CONFIGBUFFSIZE, START, [0x03] + zero + surplus);
    assert ([0x03] + zero + surplus)[1..] == zero + surplus && [] + [[0x03]] == [[0x03]];
    NumberPhase(CONFIGBUFFSIZE, 1, [[0x03]], zero, surplus);
  }

  /**
   * A size set over one session is read back over another, however either request
   * arrives. It is accepted exactly when it is a positive C int; a larger one ends
   * its session with an error and is stored, and read back, all the same.
   */
  lemma SizeSetThenRead(
    m: Mng, m': Mng, config: Config, metrics: Metrics, metrics': Metrics, os: MngAnswers, os': MngAnswers, n: nat,
    surplus: seq<byte>, unknown: seq<byte>, first: byte, pieces: seq<seq<byte>>,
    surplus': seq<byte>, unknown': seq<byte>, first': byte, pieces': seq<seq<byte>>)
    requires n < 0x1_0000_0000
    requires Sent(m, unknown, first, pieces, [0x03] + ToBigEndian(n) + surplus)
    requires Sent(m', unknown', first', pieces', [0x00, 0x02] + surplus')
    ensures var r := Hears(m, config, metrics, os, unknown, first, pieces);
            var r' := Hears(m', r.1, metrics', os', unknown', first', pieces');
            && (r.0.state.Replies? <==> 0 < n < 0x8000_0000)
            && (r.0.state.MngError? <==> n == 0 || n >= 0x8000_0000)
            && (n == 0 ==> r.1 == config)
            && (n > 0 ==> r'.0.state.Replies? && Client.NumberIn(r'.0.desk.wb.contents) == Some(n))
  {
    hide *;
    SizeServed(m, config, metrics, os, n, surplus, unknown, first, pieces);
    var r := Hears(m, config, metrics, os, unknown, first, pieces);
    GetServed(m', r.1, metrics', os', 0x02, surplus', unknown', first', pieces');
    PositiveMeans(n);
    if n > 0 {
      SizeTold(r.1, metrics', os'.text, n);
      SentRoom(m', unknown', first', pieces', [0x00, 0x02] + surplus');
      RepliedMeans(Hears(m', r.1, metrics', os', unknown', first', pieces'), GetReply(0x02, r.1, metrics', os'.text), r.1);
    }
  }

  lemma PositiveMeans(n: nat)
    ensures PositiveInt(n) <==> 0 < n < 0x8000_0000
  {
  }

  lemma SentRoom(m: Mng, unknown: seq<byte>, first: byte, pieces: seq<seq<byte>>, stream: seq<byte>)
    requires Sent(m, unknown, first, pieces, stream)
    ensures m.desk.wb.capacity >= 6
  {
  }

  lemma RepliedMeans(r: (Mng, Config), reply: seq<byte>, config: Config)
    requires Replied(r, reply, config)
    ensures r.0.state.Replies? && r.0.desk.wb.contents == reply
  {
  }

  /** The client finds the size in the reply to GET. */
  lemma SizeTold(config: Config, metrics: Metrics, text: seq<byte>, n: nat)
    requires config.bufferSize == n < 0x1_0000_0000
    ensures var reply := GetReply(0x02, config, metrics, text);
            |reply| == 6 && Client.NumberIn(reply) == Some(n)
  {
    BigEndianRoundTrip(n);
    hide ToBigEndian, FromBigEndian;
    assert GetReply(0x02, config, metrics, text)[2..6] == ToBigEndian(n);
  }

  /** A switch, authentication or spoofing, set over one session is read back over another. */
  lemma SwitchSetThenRead(
    m: Mng, m': Mng, config: Config, metrics: Metrics, metrics': Metrics, os: MngAnswers, os': MngAnswers,
    field: byte, status: byte,
    surplus: seq<byte>, unknown: seq<byte>, first: byte, pieces: seq<seq<byte>>,
    surplus': seq<byte>, unknown': seq<byte>, first': byte, pieces': seq<seq<byte>>)
    requires 3 <= field <= 4 && status <= 1
    requires Sent(m, unknown, first, pieces, [0x04, field, status] + surplus)
    requires Sent(m', unknown', first', pieces', [0x00, field] + surplus')
    ensures var r := Hears(m, config, metrics, os, unknown, first, pieces);
            var r' := Hears(m', r.1, metrics', os', unknown', first', pieces');
            && r.0.state.Replies? && r'.0.state.Replies? && r'.0.desk.wb.contents == [0x00, 0x01, status]
            && r.1 == (if field == 3 then config.(auth := status == 0) else config.(spoofing := status == 0))
  {
    StatusFits(field, status);
    Client.ShortWires(field, status, [0, 0, 0, 0]);
    hide Fits, Encode, Hears, CString, Lying;
    RequestServed(m, config, metrics, os, RequestConfigStatus, [[0x04], [field], [status]], surplus, unknown, first, pieces);
    var r := Hears(m, config, metrics, os, unknown, first, pieces);
    GetServed(m', r.1, metrics', os', field, surplus', unknown', first', pieces');
  }

  // ----- users changed by requests, as checkUser sees them

  lemma UserLayouts()
    ensures LayoutFor(RequestPut) == PUT && LayoutFor(RequestEdit) == EDIT && LayoutFor(RequestDelete) == DELETE
    ensures IsAction(RequestPut) && IsAction(RequestEdit) && IsAction(RequestDelete)
  {
  }

  /** What the three requests about users do. */
  lemma PutPerformed(name: seq<byte>, pass: seq<byte>, config: Config)
    ensures Perform(RequestPut, Stored(PUT, PutValues(name, pass)), config)
         == Tabled(config, WithUser(config.users, CString(name), CString(pass)), 0x05)
  {
    hide CString, WithUser;
  }

  lemma DeletePerformed(name: seq<byte>, config: Config)
    ensures Perform(RequestDelete, Stored(DELETE, DeleteValues(name)), config)
         == Tabled(config, WithoutUser(config.users, CString(name)), 0x05)
  {
    hide CString, WithoutUser;
  }

  lemma EditPerformed(name: seq<byte>, value: seq<byte>, attr: byte, config: Config)
    ensures Perform(RequestEdit, Stored(EDIT, EditValues(name, attr, value)), config)
         == Tabled(config, WithEdit(config.users, CString(name), CString(value), attr), 0x07)
  {
    hide CString, WithEdit;
  }

  /** Any other answer than that of GET starts with the status. */
  lemma StatusReplied(
    st: MngState, f: Form, status: byte, room: int, config: Config, metrics: Metrics, text: seq<byte>, stale: seq<byte>)
    requires !st.RequestGet? && room >= 1
    ensures var reply := ReplyTo(st, f, status, room, config, metrics, text, stale);
            reply.Some? && reply.value != [] && reply.value[0] == status
  {
    hide Lying;
  }

  /** The reply starts with the status, and the table changed only if it says so. */
  ghost predicate Tells(r: (Mng, Config), config: Config, users: Option<Users>, refusal: byte) {
    && r.0.state.Replies? && r.0.desk.wb.contents != []
    && r.0.desk.wb.contents[0] == (if users.Some? then 0x00 else refusal)
    && r.1 == if users.Some? then config.(users := users.value) else config
  }

  /** A request about users, once it is complete: the table, the status, and the session goes on. */
  lemma TableServed(
    m: Mng, config: Config, metrics: Metrics, os: MngAnswers, st: MngState, l: Layout, values: seq<seq<byte>>,
    surplus: seq<byte>, unknown: seq<byte>, first: byte, pieces: seq<seq<byte>>, users: Option<Users>, refusal: byte)
    requires IsAction(st) && !st.RequestGet? && l == LayoutFor(st) && Fits(l, values)
    requires Sent(m, unknown, first, pieces, Encode(l, values) + surplus)
    requires Perform(st, Stored(l, values), config) == Tabled(config, users, refusal)
    ensures Tells(Hears(m, config, metrics, os, unknown, first, pieces), config, users, refusal)
  {
    hide Fits, Encode, Hears, Perform, ReplyTo, LayoutFor;
    RequestServed(m, config, metrics, os, st, values, surplus, unknown, first, pieces);
    var f := Stored(l, values);
    var out := Perform(st, f, config);
    StatusReplied(st, f, out.status, m.desk.wb.capacity, out.config, metrics, os.text, os.stale);
  }

  lemma PutServed(
    m: Mng, config: Config, metrics: Metrics, os: MngAnswers, name: seq<byte>, pass: seq<byte>,
    surplus: seq<byte>, unknown: seq<byte>, first: byte, pieces: seq<seq<byte>>)
    requires 0 < |name| < 256 && 0 < |pass| < 256
    requires Sent(m, unknown, first, pieces, Encode(PUT, PutValues(name, pass)) + surplus)
    ensures Tells(Hears(m, config, metrics, os, unknown, first, pieces),
                  config, WithUser(config.users, CString(name), CString(pass)), 0x05)
  {
    hide *;
    UserLayouts();
    PutFits(name, pass);
    PutPerformed(name, pass, config);
    TableServed(m, config, metrics, os, RequestPut, PUT, PutValues(name, pass), surplus, unknown, first, pieces,
                WithUser(config.users, CString(name), CString(pass)), 0x05);
  }

  lemma DeleteServed(
    m: Mng, config: Config, metrics: Metrics, os: MngAnswers, name: seq<byte>,
    surplus: seq<byte>, unknown: seq<byte>, first: byte, pieces: seq<seq<byte>>)
    requires 0 < |name| < 256
    requires Sent(m, unknown, first, pieces, Encode(DELETE, DeleteValues(name)) + surplus)
    ensures Tells(Hears(m, config, metrics, os, unknown, first, pieces), config, WithoutUser(config.users, CString(name)), 0x05)
  {
    hide *;
    UserLayouts();
    DeleteFits(name);
    DeletePerformed(name, config);
    TableServed(m, config, metrics, os, RequestDelete, DELETE, DeleteValues(name), surplus, unknown, first, pieces,
                WithoutUser(config.users, CString(name)), 0x05);
  }

  lemma EditServed(
    m: Mng, config: Config, metrics: Metrics, os: MngAnswers, name: seq<byte>, attr: byte, value: seq<byte>,
    surplus: seq<byte>, unknown: seq<byte>, first: byte, pieces: seq<seq<byte>>)
    requires 0 < |name| < 256 && 0 < |value| < 256 && attr <= 1
    requires Sent(m, unknown, first, pieces, Encode(EDIT, EditValues(name, attr, value)) + surplus)
    ensures Tells(Hears(m, config, metrics, os, unknown, first, pieces),
                  config, WithEdit(config.users, CString(name), CString(value), attr), 0x07)
  {
    hide *;
    UserLayouts();
    EditFits(name, value, attr);
    EditPerformed(name, value, attr, config);
    TableServed(m, config, metrics, os, RequestEdit, EDIT, EditValues(name, attr, value), surplus, unknown, first, pieces,
                WithEdit(config.users, CString(name), CString(value), attr), 0x07);
  }

  /** PUT, once answered 0, adds exactly one user; it is refused exactly when the table is full or the name is too long. */
  lemma PutThenCheck(
    m: Mng, config: Config, metrics: Metrics, os: MngAnswers, name: seq<byte>, pass: seq<byte>,
    surplus: seq<byte>, unknown: seq<byte>, first: byte, pieces: seq<seq<byte>>, user: seq<byte>, password: seq<byte>)
    requires 0 < |name| < 256 && 0 < |pass| < 256
    requires Sent(m, unknown, first, pieces, Encode(PUT, PutValues(name, pass)) + surplus)
    ensures var r := Hears(m, config, metrics, os, unknown, first, pieces);
            var ok := |config.users| + 1 < MAX_SOCKS_USERS && |CString(name)| <= MAX_USERNAME_SIZE;
            && r.0.state.Replies? && r.0.desk.wb.contents != [] && (r.0.desk.wb.contents[0] == 0x00 <==> ok)
            && r.1 == config.(users := r.1.users)
            && (ok ==> |config.users| < |r.1.users| && Lost(r.1.users, config.users, |config.users|))
            && (CheckUser(r.1.users, user, password) <==>
                CheckUser(config.users, user, password)
                || (ok && CString(user) == CString(name) && CString(password) == CString(pass)))
  {
    hide Encode, Hears, CString, Sent, PUT, PutValues, Lost;
    AddedUser(config.users, CString(name), CString(pass));
    PutServed(m, config, metrics, os, name, pass, surplus, unknown, first, pieces);
  }

  /** DELETE, once answered 0, removes exactly the first user of that name; it is refused exactly when there is none. */
  lemma DeleteRemovesOne(
    m: Mng, config: Config, metrics: Metrics, os: MngAnswers, name: seq<byte>,
    surplus: seq<byte>, unknown: seq<byte>, first: byte, pieces: seq<seq<byte>>)
    requires 0 < |name| < 256
    requires Sent(m, unknown, first, pieces, Encode(DELETE, DeleteValues(name)) + surplus)
    ensures var r := Hears(m, config, metrics, os, unknown, first, pieces);
            var at := Find(config.users, CString(name));
            && r.0.state.Replies? && r.0.desk.wb.contents != []
            && r.0.desk.wb.contents[0] == (if at.Some? then 0x00 else 0x05)
            && r.1 == config.(users := r.1.users)
            && (at.None? ==> r.1 == config)
            && (at.Some? ==> Lost(config.users, r.1.users, at.value))
  {
    hide Encode, Hears, CString, Sent, Find, WithoutUser, Lost, DELETE, DeleteValues;
    DeleteServed(m, config, metrics, os, name, surplus, unknown, first, pieces);
    DeletedUser(config.users, CString(name));
    FindsFirst(config.users, CString(name));
  }

  lemma FindsFirst(users: Users, name: seq<byte>)
    ensures WithoutUser(users, name).Some? <==> Find(users, name).Some?
  {
  }

  /** EDIT, once answered 0, changes one attribute of the first user of that name; otherwise nothing changes. */
  lemma EditChangesOne(
    m: Mng, config: Config, metrics: Metrics, os: MngAnswers, name: seq<byte>, attr: byte, value: seq<byte>,
    surplus: seq<byte>, unknown: seq<byte>, first: byte, pieces: seq<seq<byte>>)
    requires 0 < |name| < 256 && 0 < |value| < 256 && attr <= 1
    requires Sent(m, unknown, first, pieces, Encode(EDIT, EditValues(name, attr, value)) + surplus)
    ensures var r := Hears(m, config, metrics, os, unknown, first, pieces);
            var at := Find(config.users, CString(name));
            var ok := at.Some? && |CString(value)| < MAX_USERNAME_SIZE;
            && r.0.state.Replies? && r.0.desk.wb.contents != [] && r.0.desk.wb.contents[0] == (if ok then 0x00 else 0x07)
            && r.1 == config.(users := r.1.users)
            && (if !ok then r.1 == config
                else
                  && |r.1.users| == |config.users|
                  && (forall k :: 0 <= k < |config.users| && k != at.value ==> r.1.users[k] == config.users[k])
                  && r.1.users[at.value] == if attr == 0 then (CString(value), config.users[at.value].1)
                                            else (CString(name), CString(value)))
  {
    hide Encode, Hears, CString, Sent, Find, WithEdit, EDIT, EditValues;
    EditServed(m, config, metrics, os, name, attr, value, surplus, unknown, first, pieces);
    EditedUser(config.users, CString(name), CString(value), attr);
    EditsFirst(config.users, CString(name), CString(value), attr);
  }

  lemma EditsFirst(users: Users, name: seq<byte>, value: seq<byte>, attr: byte)
    ensures WithEdit(users, name, value, attr).Some? <==> Find(users, name).Some? && |value| < MAX_USERNAME_SIZE
  {
  }

  // ----- what login leaves behind

  /** What is left once mng_request has skipped the octets that are no action. */
  function Skip(stream: seq<byte>): seq<byte> {
    if stream == [] then [] else if stream[0] > 0x05 then Skip(stream[1..]) else stream
  }

  /** The server takes the stream as exactly this request. */
  ghost predicate Understands(stream: seq<byte>, st: MngState, values: seq<seq<byte>>)
    requires IsAction(st)
  {
    var s := Skip(stream);
    s != [] && ActionFor(s[0]) == st && Parse(LayoutFor(st), START, s) == (Stored(LayoutFor(st), values), [])
  }

  lemma {:induction false} SkipAppend(late: seq<byte>, message: seq<byte>)
    requires message != [] && message[0] <= 0x05
    ensures Skip(late + message) == Skip(late) + message
    decreases |late|
  {
    if late == [] {
      assert late + message == message && Skip(late) + message == message;
    } else {
      assert (late + message)[1..] == late[1..] + message;
      if late[0] > 0x05 {
        SkipAppend(late[1..], message);
      }
    }
  }

  /** Octets in front of a request are harmless exactly when none of them is an action. */
  lemma UnderstoodIff(st: MngState, values: seq<seq<byte>>, late: seq<byte>)
    requires IsAction(st) && Fits(LayoutFor(st), values)
    ensures Understands(late + Encode(LayoutFor(st), values), st, values) <==> Skip(late) == []
  {
    var l := LayoutFor(st);
    var message := Encode(l, values);
    ActionOf(st);
    FirstOctet(l, values);
    SkipAppend(late, message);
    hide Parse, Encode;
    if Skip(late) == [] {
      FormDecoded(l, values, []);
      assert Skip(late) + message == message && message + [] == message;
    } else if Understands(late + message, st, values) {
      FormExplained(l, Skip(late) + message);
      assert false;
    }
  }

  /**
   * login sends two octets too many, a NUL and one of unknown value. What came
   * with the password is dropped; of what is still on its way, the next request
   * survives nothing, or the unknown octet alone when it is no action.
   */
  lemma LoginSurplusIff(st: MngState, values: seq<seq<byte>>, junk: byte, late: seq<byte>)
    requires IsAction(st) && Fits(LayoutFor(st), values)
    requires late == [0x00, junk] || late == [junk] || late == []
    ensures Understands(late + Encode(LayoutFor(st), values), st, values) <==> late == [] || (late == [junk] && junk > 0x05)
  {
    UnderstoodIff(st, values, late);
    assert late == [junk] ==> late[1..] == [];
  }

  /**
   * When both are late, the session is served GET of the unknown octet, whatever
   * was asked behind it, or ends if there is no such option.
   */
  lemma SurplusServedAsGet(
    m: Mng, config: Config, metrics: Metrics, os: MngAnswers, junk: byte, asked: seq<byte>, pieces: seq<seq<byte>>)
    requires m.state.Request? && m.desk.wb.capacity >= 6 && PiecesFit(m.desk.rb.capacity, pieces)
    requires Flatten(pieces) == [junk] + asked
    ensures var r := Hears(m, config, metrics, os, [], 0x00, pieces);
            var reply := GetReply(junk, config, metrics, os.text);
            && r.1 == config
            && (if junk <= 8 && |reply| <= m.desk.wb.capacity then Replied(r, reply, config) else r.0.state.MngError?)
  {
    assert [0x00] + Flatten(pieces) == [0x00, junk] + asked;
    if junk <= 8 {
      GetServed(m, config, metrics, os, junk, asked, [], 0x00, pieces);
    } else {
      BadOption(junk, asked);
      hide Parse, GetReply;
      VerdictOnStream(m, config, metrics, os, [], 0x00, pieces);
    }
  }

  lemma BadOption(junk: byte, asked: seq<byte>)
    requires junk > 8
    ensures Parse(GET, START, [0x00, junk] + asked).0.phase.Failed?
  {
    hide Parse;
    ParseStep(GET, START, [0x00, junk] + asked);
    assert ([0x00, junk] + asked)[1..] == [junk] + asked;
    ParseStep(GET, Feed(GET, START, 0x00), [junk] + asked);
  }
}
