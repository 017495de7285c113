/** src/parsers/request.c: the SOCKS request and its reply (sections 4, 5 and 6 of RFC 1928). */
module RequestParser {
  import opened Bytes
  import opened ByteMachine
  import opened BufferModule
  import Fifo

  const CONNECT: byte := 0x01
  const IPV4: byte := 0x01
  const DOMAIN: byte := 0x03
  const IPV6: byte := 0x04

  datatype State =
    | Version | Cmd | Rsv | Atyp | FqdnLen | Addr | Port | Done
    | Error | BadVersion | BadAtyp | BadCmd

  /** `addr` and `port` are the octets stored so far; `total` is total_bytes_to_read. */
  datatype Request = Request(state: State, cmd: byte, atyp: byte, addr: seq<byte>, port: seq<byte>, total: byte)

  const START := Request(Version, 0, 0, [], [], 0)

  predicate IsError(p: Request) {
    p.state.Error? || p.state.BadVersion? || p.state.BadAtyp? || p.state.BadCmd?
  }

  predicate IsDone(p: Request) { p.state.Done? || IsError(p) }

  function FeedAtyp(p: Request, b: byte): Request {
    var q := p.(atyp := b);
    if b == IPV4 then q.(state := Addr, total := 4)
    else if b == IPV6 then q.(state := Addr, total := 16)
    else if b == DOMAIN then q.(state := FqdnLen)
    else q.(state := BadAtyp)
  }

  function Feed(p: Request, b: byte): Request {
    match p.state
    case Version => p.(state := if b == 0x05 then Cmd else BadVersion)
    case Cmd => if b == 0x01 || b == 0x03 || b == 0x04 then p.(cmd := b, state := Rsv) else p.(state := BadCmd)
    case Rsv => p.(state := Atyp)
    case Atyp => FeedAtyp(p, b)
    case FqdnLen => p.(state := Addr, total := b)
    case Addr =>
      var q := p.(addr := p.addr + [b]);
      if |q.addr| >= p.total then q.(state := Port, total := 2) else q
    case Port =>
      var q := p.(port := p.port + [b]);
      if |q.port| >= p.total then q.(state := Done) else q
    case _ => p
  }

  function Feeder(): (Request, byte) -> Request { (p: Request, b: byte) => Feed(p, b) }

  function Parse(p: Request, input: seq<byte>): (r: (Request, seq<byte>))
    ensures |r.1| <= |input|
  {
    Consume(Feeder(), IsDone, p, input)
  }

  /** The outcome of the loop in terms of Parse. */
  lemma ConsumedParses(p: Request, v: Fifo.View, p': Request, v': Fifo.View)
    requires Consumed(Feeder(), IsDone, p, v, p', v')
    ensures var (q, rest) := Parse(p, v.contents);
            p' == q && v' == Fifo.Take(v, |v.contents| - |rest|)
  {
  }

  lemma ParseStep(p: Request, input: seq<byte>)
    requires input != []
    ensures Parse(p, input) ==
            var p' := Feed(p, input[0]);
            if IsDone(p') then (p', input[1..]) else Parse(p', input[1..])
  {
  }

  /** How many address octets the parser takes after the type (and length) octet. */
  function AddrSize(atyp: byte, len: byte): nat {
    if atyp == IPV4 then 4 else if atyp == IPV6 then 16 else if len == 0 then 1 else len
  }

  /** A message in the shape the parser recognises; `len` matters for domains only. */
  datatype Message = Message(cmd: byte, rsv: byte, atyp: byte, len: byte, addr: seq<byte>, port: seq<byte>)

  ghost predicate WellFormed(m: Message) {
    && (m.cmd == 0x01 || m.cmd == 0x03 || m.cmd == 0x04)
    && (m.atyp == IPV4 || m.atyp == DOMAIN || m.atyp == IPV6)
    && |m.addr| == AddrSize(m.atyp, m.len) && |m.port| == 2
  }

  function Encode(m: Message): seq<byte> {
    [0x05, m.cmd, m.rsv, m.atyp] + (if m.atyp == DOMAIN then [m.len] else []) + m.addr + m.port
  }

  function AtAddr(m: Message, got: seq<byte>): Request {
    Request(Addr, m.cmd, m.atyp, got, [], if m.atyp == IPV4 then 4 else if m.atyp == IPV6 then 16 else m.len)
  }

  function Decoded(m: Message): Request { Request(Done, m.cmd, m.atyp, m.addr, m.port, 2) }

  lemma {:induction false} AddrPhase(m: Message, got: seq<byte>, more: seq<byte>, tail: seq<byte>)
    requires WellFormed(m) && m.addr == got + more && more != []
    ensures Parse(AtAddr(m, got), more + tail) == Parse(Request(Port, m.cmd, m.atyp, m.addr, [], 2), tail)
    decreases |more|
  {
    hide Parse;
    ParseStep(AtAddr(m, got), more + tail);
    assert (more + tail)[1..] == more[1..] + tail;
    if |more| == 1 {
      assert more == [more[0]] && more[1..] + tail == tail;
    } else {
      assert got + [more[0]] + more[1..] == got + more;
      AddrPhase(m, got + [more[0]], more[1..], tail);
    }
  }

  lemma PortPhase(m: Message, tail: seq<byte>)
    requires WellFormed(m)
    ensures Parse(Request(Port, m.cmd, m.atyp, m.addr, [], 2), m.port + tail) == (Decoded(m), tail)
  {
    hide Parse;
    var a, b := m.port[0], m.port[1];
    assert m.port == [a] + [b];
    ParseStep(Request(Port, m.cmd, m.atyp, m.addr, [], 2), m.port + tail);
    assert (m.port + tail)[1..] == [b] + tail;
    assert [] + [a] == [a];
    ParseStep(Request(Port, m.cmd, m.atyp, m.addr, [a], 2), [b] + tail);
    assert ([b] + tail)[1..] == tail;
  }

  lemma HeaderPhase(m: Message, tail: seq<byte>)
    requires WellFormed(m)
    ensures Parse(START, Encode(m) + tail) == Parse(AtAddr(m, []), m.addr + (m.port + tail))
  {
    hide Parse;
    var body := m.addr + (m.port + tail);
    var atLen: seq<byte> := if m.atyp == DOMAIN then [m.len] + body else body;
    assert Encode(m) + tail == [0x05] + ([m.cmd] + ([m.rsv] + ([m.atyp] + atLen)));
    ParseStep(START, [0x05] + ([m.cmd] + ([m.rsv] + ([m.atyp] + atLen))));
    ParseStep(START.(state := Cmd), [m.cmd] + ([m.rsv] + ([m.atyp] + atLen)));
    ParseStep(START.(state := Rsv, cmd := m.cmd), [m.rsv] + ([m.atyp] + atLen));
    ParseStep(START.(state := Atyp, cmd := m.cmd), [m.atyp] + atLen);
    if m.atyp == DOMAIN {
      ParseStep(Request(FqdnLen, m.cmd, DOMAIN, [], [], 0), atLen);
    }
  }

  /** Every well-formed request is consumed exactly and its fields are stored. */
  lemma RequestDecoded(m: Message, tail: seq<byte>)
    requires WellFormed(m)
    ensures Parse(START, Encode(m) + tail) == (Decoded(m), tail)
  {
    hide Parse;
    HeaderPhase(m, tail);
    assert [] + m.addr == m.addr;
    AddrPhase(m, [], m.addr, m.port + tail);
    PortPhase(m, tail);
  }

  ghost predicate GoodHeader(p: Request) {
    && (p.cmd == 0x01 || p.cmd == 0x03 || p.cmd == 0x04)
    && (p.atyp == IPV4 || p.atyp == DOMAIN || p.atyp == IPV6)
  }

  /** The message whose octets are `heard` and whose fields are those stored in p. */
  function AsMessage(p: Request, heard: seq<byte>): Message
    requires |heard| >= 5
  {
    Message(p.cmd, heard[2], p.atyp, if p.atyp == DOMAIN then heard[4] else 0, p.addr, p.port)
  }

  /** `heard` is what a parser in this state must have read. */
  ghost predicate Explains(p: Request, heard: seq<byte>) {
    match p.state
    case Version => heard == [] && p == START
    case Cmd => heard == [0x05] && p == START.(state := Cmd)
    case Rsv => heard == [0x05, p.cmd] && GoodHeader(p.(atyp := IPV4)) && p.addr == p.port == []
    case Atyp =>
      |heard| == 3 && heard == [0x05, p.cmd, heard[2]] && GoodHeader(p.(atyp := IPV4)) && p.addr == p.port == []
    case FqdnLen =>
      |heard| == 4 && heard == [0x05, p.cmd, heard[2], DOMAIN] && p.atyp == DOMAIN && GoodHeader(p) && p.addr == p.port == []
    case Addr =>
      && GoodHeader(p) && p.port == []
      && (p.atyp == IPV4 ==> p.total == 4) && (p.atyp == IPV6 ==> p.total == 16)
      && |p.addr| < AddrSize(p.atyp, p.total)
      && |heard| >= 4
      && heard == [0x05, p.cmd, heard[2], p.atyp] + (if p.atyp == DOMAIN then [p.total] else []) + p.addr
    case Port => p.total == 2 && |p.port| < 2 && ExplainsAll(p, heard)
    case Done => p.total == 2 && |p.port| == 2 && ExplainsAll(p, heard)
    case BadVersion => |heard| == 1 && heard[0] != 0x05
    case BadCmd => |heard| == 2 && heard[0] == 0x05 && !(heard[1] == 0x01 || heard[1] == 0x03 || heard[1] == 0x04)
    case BadAtyp =>
      && |heard| == 4 && heard[0] == 0x05 && (heard[1] == 0x01 || heard[1] == 0x03 || heard[1] == 0x04)
      && !(heard[3] == IPV4 || heard[3] == DOMAIN || heard[3] == IPV6)
    case Error => false
  }

  ghost predicate ExplainsAll(p: Request, heard: seq<byte>) {
    && GoodHeader(p) && |heard| >= 5
    && |p.addr| == AddrSize(p.atyp, AsMessage(p, heard).len)
    && heard == Encode(AsMessage(p, heard))
  }

  lemma ExplainsAddrStep(p: Request, heard: seq<byte>, b: byte)
    requires Explains(p, heard) && p.state.Addr?
    ensures Explains(Feed(p, b), heard + [b])
  {
    var p', heard' := Feed(p, b), heard + [b];
    var len: seq<byte> := if p.atyp == DOMAIN then [p.total] else [];
    assert heard' == [0x05, p.cmd, heard[2], p.atyp] + len + (p.addr + [b]);
    assert p'.state.Port? ==> heard' == Encode(AsMessage(p', heard'));
  }

  lemma ExplainsPortStep(p: Request, heard: seq<byte>, b: byte)
    requires Explains(p, heard) && p.state.Port?
    ensures Explains(Feed(p, b), heard + [b])
  {
    var p', heard' := Feed(p, b), heard + [b];
    var m := AsMessage(p, heard);
    assert AsMessage(p', heard') == m.(port := p.port + [b]);
    assert Encode(m.(port := p.port + [b])) == Encode(m) + [b];
  }

  lemma ExplainsStep(p: Request, heard: seq<byte>, b: byte)
    requires Explains(p, heard) && !IsDone(p)
    ensures Explains(Feed(p, b), heard + [b])
  {
    match p.state
    case Addr => ExplainsAddrStep(p, heard, b);
    case Port => ExplainsPortStep(p, heard, b);
    case _ =>
  }

  /** What a parser took explains its state, wherever it started and over any number of inputs. */
  lemma {:induction false} ParseExplained(p: Request, heard: seq<byte>, input: seq<byte>)
    requires Explains(p, heard) && !IsDone(p)
    ensures var (q, rest) := Parse(p, input);
            Explains(q, heard + input[..|input| - |rest|]) && input[|input| - |rest|..] == rest
    decreases |input|
  {
    hide Explains, Feed, IsDone;
    if input == [] {
      assert heard + [] == heard && Parse(p, input) == (p, []);
    } else {
      hide Parse;
      var b, later := input[0], input[1..];
      ParseStep(p, input);
      ExplainsStep(p, heard, b);
      if !IsDone(Feed(p, b)) {
        ParseExplained(Feed(p, b), heard + [b], later);
        Onwards(heard, input, |Parse(Feed(p, b), later).1|);
      } else {
        Onwards(heard, input, |later|);
        assert input[..1] == [b];
      }
    }
  }

  /** A parser that stopped on an error never holds a request to connect to a known kind of address. */
  ghost predicate Sane(p: Request) {
    && !p.state.Error?
    && (p.state.Version? || p.state.Cmd? || p.state.BadVersion? || p.state.BadCmd? ==> p.cmd == 0)
    && (p.state.BadAtyp? ==> p.atyp != IPV4 && p.atyp != DOMAIN && p.atyp != IPV6)
  }

  lemma {:induction false} ParseKeepsSane(p: Request, input: seq<byte>)
    requires Sane(p) && !IsDone(p)
    ensures Sane(Parse(p, input).0)
    decreases |input|
  {
    hide Parse;
    if input == [] {
      ParseNothing(p);
    } else {
      ParseStep(p, input);
      if !IsDone(Feed(p, input[0])) {
        ParseKeepsSane(Feed(p, input[0]), input[1..]);
      }
    }
  }

  /** Address and port stay within what a length octet can announce. */
  ghost predicate Snug(p: Request) {
    && |p.addr| <= 255 && |p.port| <= 2
    && (p.state.Addr? ==> |p.addr| < AddrSize(DOMAIN, p.total) && p.port == [])
    && (p.state.Version? || p.state.Cmd? || p.state.Rsv? || p.state.Atyp? || p.state.FqdnLen? ==> p.addr == p.port == [])
    && (p.state.Port? ==> p.total == 2 && |p.port| < 2)
  }

  lemma {:induction false} ParseKeepsSnug(p: Request, input: seq<byte>)
    requires Snug(p) && !IsDone(p)
    ensures Snug(Parse(p, input).0)
    decreases |input|
  {
    hide Parse;
    if input == [] {
      ParseNothing(p);
    } else {
      ParseStep(p, input);
      if !IsDone(Feed(p, input[0])) {
        ParseKeepsSnug(Feed(p, input[0]), input[1..]);
      }
    }
  }

  /** However the request arrived, the reply to it has at most 262 octets. */
  lemma SnugReplyFits(p: Request, status: byte)
    requires Snug(p)
    ensures |Reply(status, p)| <= 262
  {
  }

  lemma ParseNothing(p: Request)
    ensures Parse(p, []) == (p, [])
  {
  }

  ghost predicate Carries(input: seq<byte>, m: Message) {
    WellFormed(m) && Encode(m) <= input
  }

  /** What a finished parser stored is what the octets it took encode. */
  lemma RequestExplained(input: seq<byte>) returns (m: Message)
    requires Parse(START, input).0.state.Done?
    ensures WellFormed(m) && Parse(START, input).0 == Decoded(m)
    ensures input == Encode(m) + Parse(START, input).1
  {
    hide Parse;
    var (p, rest) := Parse(START, input);
    var heard := input[..|input| - |rest|];
    ParseExplained(START, [], input);
    assert [] + heard == heard && input == heard + rest;
    m := AsMessage(p, heard);
  }

  /** The accepted requests, exactly. */
  lemma RequestAcceptedIff(input: seq<byte>)
    ensures Parse(START, input).0.state.Done? <==> exists m :: Carries(input, m)
  {
    if Parse(START, input).0.state.Done? {
      var m := RequestExplained(input);
      assert Carries(input, m);
    }
    if m :| Carries(input, m) {
      var tail := input[|Encode(m)|..];
      assert input == Encode(m) + tail;
      RequestDecoded(m, tail);
    }
  }

  /** No request starts like this: a wrong version, command or kind of address. */
  ghost predicate Broken(input: seq<byte>) {
    || (|input| >= 1 && input[0] != 0x05)
    || (|input| >= 2 && !(input[1] == 0x01 || input[1] == 0x03 || input[1] == 0x04))
    || (|input| >= 4 && !(input[3] == 0x01 || input[3] == 0x03 || input[3] == 0x04))
  }

  lemma ExplainedBroken(p: Request, heard: seq<byte>, rest: seq<byte>)
    requires Explains(p, heard) && (IsDone(p) || rest == [])
    ensures Broken(heard + rest) <==> IsError(p)
  {
    var all := heard + rest;
    assert forall i :: 0 <= i < |heard| ==> all[i] == heard[i];
    if p.state.Addr? {
      assert heard[..4] == [0x05, p.cmd, heard[2], p.atyp];
    }
  }

  /** The parser stops on an error exactly where no request goes on. */
  lemma RequestRefusedIff(input: seq<byte>)
    ensures IsError(Parse(START, input).0) <==> Broken(input)
    ensures !IsDone(Parse(START, input).0) ==> Parse(START, input).1 == []
  {
    hide Parse, Explains, Broken;
    var (p, rest) := Parse(START, input);
    var heard := input[..|input| - |rest|];
    NothingExplains();
    ParseExplained(START, [], input);
    assert [] + heard == heard && input == heard + rest;
    ParseLeaves(START, input);
    ExplainedBroken(p, heard, rest);
  }

  lemma NothingExplains()
    ensures Explains(START, []) && !IsDone(START)
  {
  }

  /** Octets are left only by a parser that is done. */
  lemma ParseLeaves(p: Request, input: seq<byte>)
    ensures Parse(p, input).1 != [] ==> IsDone(Parse(p, input).0)
  {
  }

  /** The bound address of a reply: a domain is sent as its C string with a length octet. */
  function BoundAddress(r: Request): seq<byte> {
    if r.atyp == DOMAIN then
      var name := CString(r.addr);
      [|name| % 256] + name
    else r.addr
  }

  /** request_marshalll: the octets of a reply. */
  function Reply(status: byte, r: Request): seq<byte> {
    [0x05, status, 0x00, r.atyp] + BoundAddress(r) + r.port
  }

  /** An echo is the request with the command replaced by the status and RSV zeroed. */
  ghost predicate Echoes(reply: seq<byte>, request: seq<byte>, status: byte) {
    |request| >= 3 && reply == request[1 := status][2 := 0x00]
  }

  /**
   * The reply to an accepted request echoes it exactly when it names an IP
   * address or a non-empty domain free of NUL octets.
   */
  lemma ReplyEchoesIff(m: Message, status: byte)
    requires WellFormed(m)
    ensures Echoes(Reply(status, Decoded(m)), Encode(m), status) <==>
            (m.atyp == DOMAIN ==> m.len != 0 && 0 !in m.addr)
  {
    if m.atyp != DOMAIN {
      ReplyEchoesAddress(m, status);
    } else if m.len == 0 {
      ReplyToEmptyDomain(m, status);
    } else if 0 !in m.addr {
      CStringOfNulFree(m.addr);
      ReplyEchoesAddress(m, status);
    } else {
      assert |CString(m.addr)| < |m.addr|;
      assert |Encode(m)| == 7 + |m.addr|;
      assert |Reply(status, Decoded(m))| == 7 + |CString(m.addr)|;
    }
  }

  lemma HeaderUpdate(header: seq<byte>, rest: seq<byte>, status: byte)
    requires |header| == 4
    ensures (header + rest)[1 := status][2 := 0x00] == [header[0], status, 0x00, header[3]] + rest
  {
  }

  /** Everything behind the first four octets. */
  function Body(m: Message): seq<byte> { (if m.atyp == DOMAIN then [m.len] else []) + m.addr + m.port }

  lemma EncodeSplit(m: Message)
    ensures Encode(m) == [0x05, m.cmd, m.rsv, m.atyp] + Body(m)
  {
  }

  lemma ReplySplit(m: Message, status: byte)
    requires WellFormed(m) && (m.atyp == DOMAIN ==> m.len != 0 && CString(m.addr) == m.addr)
    ensures Reply(status, Decoded(m)) == [0x05, status, 0x00, m.atyp] + Body(m)
  {
    assert BoundAddress(Decoded(m)) == (if m.atyp == DOMAIN then [m.len] else []) + m.addr;
  }

  lemma ReplyEchoesAddress(m: Message, status: byte)
    requires WellFormed(m) && (m.atyp == DOMAIN ==> m.len != 0 && CString(m.addr) == m.addr)
    ensures Echoes(Reply(status, Decoded(m)), Encode(m), status)
  {
    hide Encode, Reply;
    EncodeSplit(m);
    ReplySplit(m, status);
    HeaderUpdate([0x05, m.cmd, m.rsv, m.atyp], Body(m), status);
  }

  lemma ReplyToEmptyDomain(m: Message, status: byte)
    requires WellFormed(m) && m.atyp == DOMAIN && m.len == 0
    ensures !Echoes(Reply(status, Decoded(m)), Encode(m), status)
  {
    var name := CString(m.addr);
    assert Encode(m)[4] == 0 && |Encode(m)| == 8;
    assert Reply(status, Decoded(m))[4] == |name| && |Reply(status, Decoded(m))| == 7 + |name|;
  }

  // Reply codes of section 6 of RFC 1928, and two private ones of the server.
  const SUCCEEDED: byte := 0x00
  const GENERAL_FAILURE: byte := 0x01
  const NETWORK_UNREACHABLE: byte := 0x03
  const HOST_UNREACHABLE: byte := 0x04
  const CONNECTION_REFUSED: byte := 0x05
  const TTL_EXPIRED: byte := 0x06
  const COMMAND_NOT_SUPPORTED: byte := 0x07
  const ADDRESS_TYPE_NOT_SUPPORTED: byte := 0x08
  const CLOSE: byte := 0x09
  const CONNECTING: byte := 0x10

  datatype Errno = NoError | EHostUnreach | EConnRefused | ETimedOut | EAfNoSupport | ENetUnreach | OtherError

  function ErrnoToSocks(e: Errno): byte {
    match e
    case NoError => SUCCEEDED
    case EHostUnreach => HOST_UNREACHABLE
    case EConnRefused => CONNECTION_REFUSED
    case ETimedOut => TTL_EXPIRED
    case EAfNoSupport => ADDRESS_TYPE_NOT_SUPPORTED
    case ENetUnreach => NETWORK_UNREACHABLE
    case OtherError => GENERAL_FAILURE
  }

  /**
   * struct request_parser with the request it fills. The union of addresses is
   * one block of octets; a 255-octet domain has a cell for its terminator.
   */
  class Parser {
    var state: State
    var cmd: byte
    var atyp: byte
    const addr: array<byte>
    const port: array<byte>
    var total_bytes_to_read: byte
    var bytes_read: byte
    ghost var stored: nat  // address octets stored once the address is complete

    ghost predicate Valid()
      reads this, addr, port
    {
      && addr != port && addr.Length == 256 && port.Length == 2
      && AddrCount() <= 255 && PortCount() <= 2
      && (forall i :: AddrCount() <= i < 256 ==> addr[i] == 0)
      && (state.Version? || state.Cmd? || state.Rsv? || state.Atyp? || state.FqdnLen? ==> stored == 0)
      && (state.Addr? ==> bytes_read < AddrSize(DOMAIN, total_bytes_to_read))
      && (state.Addr? || state.Port? || state.Done? ==> atyp == IPV4 || atyp == DOMAIN || atyp == IPV6)
      && (state.FqdnLen? ==> atyp == DOMAIN)
      && (atyp == IPV4 ==> (state.Addr? ==> total_bytes_to_read == 4) && (state.Port? || state.Done? ==> stored == 4))
      && (atyp == IPV6 ==> (state.Addr? ==> total_bytes_to_read == 16) && (state.Port? || state.Done? ==> stored == 16))
      && (state.Port? ==> total_bytes_to_read == 2 && bytes_read < 2)
    }

    ghost function AddrCount(): nat
      reads this
    {
      if state.Addr? then bytes_read else stored
    }

    ghost function PortCount(): nat
      reads this
    {
      if state.Port? then bytes_read else if state.Done? then 2 else 0
    }

    ghost function Value(): Request
      requires Valid()
      reads this, addr, port
    {
      Request(state, cmd, atyp, addr[..AddrCount()], port[..PortCount()], total_bytes_to_read)
    }

    /** request_parser_init. */
    constructor ()
      ensures Valid() && fresh(addr) && fresh(port)
      ensures Value() == START
    {
      state := Version;
      cmd, atyp, total_bytes_to_read, bytes_read := 0, 0, 0, 0;
      stored := 0;
      addr := new byte[256](_ => 0);
      port := new byte[2](_ => 0);
    }

    method FeedByte(b: byte)
      requires Valid()
      modifies this, addr, port
      ensures Valid() && Value() == Feed(old(Value()), b)
    {
      match state {
        case Version =>
          state := if b == 0x05 then Cmd else BadVersion;
        case Cmd =>
          if b == 0x01 || b == 0x03 || b == 0x04 {
            cmd := b;
            state := Rsv;
          } else {
            state := BadCmd;
          }
        case Rsv =>
          state := Atyp;
        case Atyp =>
          atyp := b;
          if atyp == IPV4 {
            total_bytes_to_read, bytes_read := 4, 0;
            state := Addr;
          } else if atyp == IPV6 {
            total_bytes_to_read, bytes_read := 16, 0;
            state := Addr;
          } else if atyp == DOMAIN {
            state := FqdnLen;
          } else {
            state := BadAtyp;
          }
        case FqdnLen =>
          total_bytes_to_read, bytes_read := b, 0;
          if b > 0 {
            addr[b - 1] := 0;
          }
          state := Addr;
        case Addr =>
          FeedAddr(b);
        case Port =>
          FeedPort(b);
        case _ =>
      }
    }

    method FeedAddr(b: byte)
      requires Valid() && state.Addr?
      modifies this, addr
      ensures Valid() && Value() == Feed(old(Value()), b)
    {
      addr[bytes_read] := b;
      bytes_read := bytes_read + 1;
      assert addr[..bytes_read] == old(addr[..bytes_read]) + [b];
      if bytes_read >= total_bytes_to_read {
        stored := bytes_read;
        total_bytes_to_read, bytes_read := 2, 0;
        state := Port;
      }
    }

    method FeedPort(b: byte)
      requires Valid() && state.Port?
      modifies this, port
      ensures Valid() && Value() == Feed(old(Value()), b)
    {
      port[bytes_read] := b;
      bytes_read := bytes_read + 1;
      assert port[..bytes_read] == old(port[..bytes_read]) + [b];
      if bytes_read >= total_bytes_to_read {
        state := Done;
      }
    }

    /** request_consume. */
    method ConsumeBuffer(buff: Buffer)
      requires Valid() && buff.Valid() && buff.data != addr && buff.data != port
      modifies this, addr, port, buff, buff.data
      ensures Valid() && buff.Valid()
      ensures Consumed(Feeder(), IsDone, old(Value()), old(buff.View()), Value(), buff.View())
    {
      hide Progress, Consumed, Feed;
      ghost var feed, v, p := Feeder(), buff.View(), Value();
      ProgressStart(feed, IsDone, p, v);
      var more := buff.CanRead();
      while more
        invariant Valid() && buff.Valid() && more == Fifo.CanRead(buff.View())
        invariant Progress(feed, IsDone, p, v, Value(), buff.View())
        decreases |buff.View().contents|
      {
        ghost var q, w := Value(), buff.View();
        ProgressStep(feed, IsDone, p, v, q, w);
        var c := buff.Read();
        FeedByte(c);
        assert Value() == feed(q, w.contents[0]) && buff.View() == Fifo.Take(w, 1);
        if state == Done || state == Error || state == BadVersion || state == BadAtyp || state == BadCmd {
          return;
        }
        more := buff.CanRead();
      }
      ProgressEnd(feed, IsDone, p, v, Value(), buff.View());
    }

    /** strlen of the stored domain. */
    method NameLength() returns (n: nat)
      requires Valid() && state.Done?
      ensures n < 256 && addr[..n] == CString(Value().addr)
    {
      n := 0;
      while addr[n] != 0
        invariant n <= AddrCount() <= 255
        invariant 0 !in addr[..n]
        decreases 256 - n
      {
        assert addr[..n + 1] == addr[..n] + [addr[n]];
        n := n + 1;
      }
      if n < AddrCount() {
        assert addr[..AddrCount()][..n] == addr[..n];
        CStringAt(addr[..AddrCount()], n);
      } else {
        CStringOfNulFree(addr[..n]);
      }
    }

    /** The octets request_marshalll puts together. */
    method ReplyOctets(status: byte) returns (reply: seq<byte>)
      requires Valid() && state.Done?
      ensures reply == Reply(status, Value())
    {
      var aux: seq<byte> := [];
      if atyp == IPV4 {
        aux := addr[..4];
      } else if atyp == IPV6 {
        aux := addr[..16];
      } else if atyp == DOMAIN {
        var size := NameLength();
        aux := [size] + addr[..size];
      }
      assert aux == BoundAddress(Value()) && port[..] == Value().port;
      hide BoundAddress;
      reply := [0x05, status, 0x00, atyp] + aux + port[..];
    }

    /** request_marshalll: the reply is written whole or not at all. */
    method Marshall(b: Buffer, status: byte) returns (n: int)
      requires Valid() && state.Done? && b.Valid() && b.data != addr && b.data != port
      modifies b, b.data
      ensures Valid() && Value() == old(Value()) && b.Valid()
      ensures var reply := Reply(status, Value());
              if Fifo.Room(old(b.View())) < |reply| then n == -1 && b.View() == old(b.View())
              else n == |reply| && b.View() == Fifo.Put(old(b.View()), reply)
    {
      hide Reply;
      var room := b.WritePtr();
      var reply := ReplyOctets(status);
      if room < |reply| {
        return -1;
      }
      b.Place(reply);
      b.WriteAdv(|reply|);
      return |reply|;
    }
  }
}
