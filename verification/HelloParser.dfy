/** src/parsers/hello.c and on_hello_method: method negotiation (section 3 of RFC 1928). */
module HelloParser {
  import opened Bytes
  import opened ByteMachine
  import opened BufferModule
  import Fifo

  const NO_AUTH: byte := 0x00
  const USER_PASS: byte := 0x02
  const NO_ACCEPTABLE: byte := 0xFF

  datatype State = Version | NMethods | Methods | Done | BadVersion

  /** The parser and the method its callback has selected so far. */
  datatype Hello = Hello(state: State, remaining: byte, selected: byte)

  const START := Hello(Version, 0, NO_ACCEPTABLE)

  predicate IsDone(p: Hello) { p.state.Done? || p.state.BadVersion? }

  predicate IsError(p: Hello) { p.state.BadVersion? }

  /** The method the server wants, by whether it asks for credentials. */
  function Wanted(auth: bool): byte { if auth then USER_PASS else NO_AUTH }

  /** on_hello_method. */
  function Select(auth: bool, selected: byte, offered: byte): byte {
    if offered == Wanted(auth) then offered else selected
  }

  function Feed(auth: bool, p: Hello, b: byte): Hello {
    match p.state
    case Version => p.(state := if b == 0x05 then NMethods else BadVersion)
    case NMethods => p.(remaining := b, state := if b <= 0 then Done else Methods)
    case Methods =>
      var left := (p.remaining + 255) % 256;  // uint8_t decrement
      Hello(if left <= 0 then Done else Methods, left, Select(auth, p.selected, b))
    case Done => p
    case BadVersion => p
  }

  function Feeder(auth: bool): (Hello, byte) -> Hello { (p: Hello, b: byte) => Feed(auth, p, b) }

  function Parse(auth: bool, p: Hello, input: seq<byte>): (r: (Hello, seq<byte>))
    ensures |r.1| <= |input|
  {
    Consume(Feeder(auth), IsDone, p, input)
  }

  /** The outcome of the loop in terms of Parse. */
  lemma ConsumedParses(auth: bool, p: Hello, v: Fifo.View, p': Hello, v': Fifo.View)
    requires Consumed(Feeder(auth), IsDone, p, v, p', v')
    ensures var (q, rest) := Parse(auth, p, v.contents);
            p' == q && v' == Fifo.Take(v, |v.contents| - |rest|)
  {
  }

  lemma ParseStep(auth: bool, p: Hello, input: seq<byte>)
    requires input != []
    ensures Parse(auth, p, input) ==
            var p' := Feed(auth, p, input[0]);
            if IsDone(p') then (p', input[1..]) else Parse(auth, p', input[1..])
  {
  }

  /** Declarative answer to a list of offered methods. */
  function Answer(auth: bool, offered: seq<byte>): byte {
    if Wanted(auth) in offered then Wanted(auth) else NO_ACCEPTABLE
  }

  function Encode(offered: seq<byte>): seq<byte>
    requires |offered| < 256
  {
    [0x05, |offered|] + offered
  }

  lemma {:induction false} MethodsPhase(auth: bool, selected: byte, offered: seq<byte>, tail: seq<byte>)
    requires 0 < |offered| < 256
    ensures Parse(auth, Hello(Methods, |offered|, selected), offered + tail) ==
            (Hello(Done, 0, if Wanted(auth) in offered then Wanted(auth) else selected), tail)
    decreases |offered|
  {
    hide Parse;
    var start := Hello(Methods, |offered|, selected);
    var p := Feed(auth, start, offered[0]);
    ParseStep(auth, start, offered + tail);
    assert (offered + tail)[1..] == offered[1..] + tail;
    assert offered == [offered[0]] + offered[1..];
    if |offered| > 1 {
      MethodsPhase(auth, p.selected, offered[1..], tail);
    } else {
      assert offered[1..] + tail == tail;
    }
  }

  /** Any well-formed hello is consumed exactly and answered as section 3 of RFC 1928 asks. */
  lemma HelloDecoded(auth: bool, offered: seq<byte>, tail: seq<byte>)
    requires |offered| < 256
    ensures Parse(auth, START, Encode(offered) + tail) == (Hello(Done, 0, Answer(auth, offered)), tail)
  {
    var input := Encode(offered) + tail;
    assert input[1..] == [|offered|] + (offered + tail);
    ParseStep(auth, START, input);
    ParseStep(auth, Hello(NMethods, 0, NO_ACCEPTABLE), input[1..]);
    assert input[1..][1..] == offered + tail;
    if offered != [] {
      MethodsPhase(auth, NO_ACCEPTABLE, offered, tail);
    } else {
      assert offered + tail == tail;
    }
  }

  /** `heard` is what a parser in this state must have read. */
  ghost predicate Explains(auth: bool, p: Hello, heard: seq<byte>) {
    match p.state
    case Version => heard == [] && p.selected == NO_ACCEPTABLE
    case NMethods => heard == [0x05] && p.selected == NO_ACCEPTABLE
    case Methods =>
      && |heard| >= 2 && heard[..2] == [0x05, heard[1]]
      && p.remaining == heard[1] - (|heard| - 2) && p.remaining > 0
      && p.selected == Answer(auth, heard[2..])
    case Done => |heard| >= 2 && |heard[2..]| < 256 && heard == Encode(heard[2..]) && p.selected == Answer(auth, heard[2..])
    case BadVersion => |heard| == 1 && heard[0] != 0x05
  }

  lemma ExplainsStep(auth: bool, p: Hello, heard: seq<byte>, b: byte)
    requires Explains(auth, p, heard) && !IsDone(p)
    ensures Explains(auth, Feed(auth, p, b), heard + [b])
  {
    if p.state.Methods? {
      assert (heard + [b])[2..] == heard[2..] + [b];
      assert (heard + [b])[..2] == heard[..2];
      var p' := Feed(auth, p, b);
      if p'.state.Done? {
        assert heard + [b] == [0x05, heard[1]] + (heard + [b])[2..];
      }
    } else if p.state.NMethods? {
      assert (heard + [b])[2..] == [];
    }
  }

  /** What a parser took explains its state, wherever it started and over any number of inputs. */
  lemma {:induction false} ParseExplained(auth: bool, p: Hello, heard: seq<byte>, input: seq<byte>)
    requires Explains(auth, p, heard) && !IsDone(p)
    ensures var (q, rest) := Parse(auth, p, input);
            Explains(auth, q, heard + input[..|input| - |rest|]) && input[|input| - |rest|..] == rest
    decreases |input|
  {
    hide Explains, Feed, IsDone;
    if input == [] {
      assert heard + [] == heard && Parse(auth, p, input) == (p, []);
    } else {
      hide Parse;
      var b, later := input[0], input[1..];
      ParseStep(auth, p, input);
      ExplainsStep(auth, p, heard, b);
      if !IsDone(Feed(auth, p, b)) {
        ParseExplained(auth, Feed(auth, p, b), heard + [b], later);
        Onwards(heard, input, |Parse(auth, Feed(auth, p, b), later).1|);
      } else {
        Onwards(heard, input, |later|);
        assert input[..1] == [b];
      }
    }
  }

  lemma StartExplains(auth: bool)
    ensures Explains(auth, START, [])
  {
  }

  lemma DoneExplains(auth: bool, p: Hello, heard: seq<byte>)
    requires Explains(auth, p, heard) && p.state.Done?
    ensures |heard| >= 2 && |heard[2..]| < 256 && heard == Encode(heard[2..]) && p.selected == Answer(auth, heard[2..])
  {
  }

  /** The first n + 2 octets are a hello offering n methods. */
  ghost predicate StartsWithHello(input: seq<byte>, n: nat) {
    n < 256 && n + 2 <= |input| && input[..n + 2] == Encode(input[2..n + 2])
  }

  /** The parser ends in Done exactly on a complete well-formed hello. */
  lemma HelloAcceptedIff(auth: bool, input: seq<byte>)
    ensures Parse(auth, START, input).0.state.Done? <==>
            exists n :: StartsWithHello(input, n)
    ensures var (p, rest) := Parse(auth, START, input);
            p.state.Done? ==> |input| - |rest| >= 2 && p.selected == Answer(auth, input[2..|input| - |rest|])
  {
    hide Parse, Explains;
    var (p, rest) := Parse(auth, START, input);
    var heard := input[..|input| - |rest|];
    StartExplains(auth);
    ParseExplained(auth, START, [], input);
    assert [] + heard == heard;
    if p.state.Done? {
      DoneExplains(auth, p, heard);
      var n := |heard| - 2;
      assert input[..n + 2] == heard && input[2..n + 2] == heard[2..];
      assert StartsWithHello(input, n);
    }
    if n :| StartsWithHello(input, n) {
      HelloDecoded(auth, input[2..n + 2], input[n + 2..]);
      assert Encode(input[2..n + 2]) + input[n + 2..] == input;
    }
  }

  /** hello_marshalll: the two octets of the reply. */
  function Reply(selected: byte): seq<byte> { [0x05, selected] }

  /** struct hello_parser with the selected method its `data` points at. */
  class Parser {
    var state: State
    var remaining: byte
    var selected: byte

    ghost function Value(): Hello
      reads this
    {
      Hello(state, remaining, selected)
    }

    /** hello_parser_init plus the selection reset of hello_read_init. */
    constructor ()
      ensures Value() == START
    {
      state, remaining, selected := Version, 0, NO_ACCEPTABLE;
    }

    method FeedByte(auth: bool, b: byte)
      modifies this
      ensures Value() == Feed(auth, old(Value()), b)
    {
      match state {
        case Version =>
          state := if b == 0x05 then NMethods else BadVersion;
        case NMethods =>
          remaining := b;
          state := if b <= 0 then Done else Methods;
        case Methods =>
          if auth {
            if b == USER_PASS { selected := b; }
          } else {
            if b == NO_AUTH { selected := b; }
          }
          remaining := (remaining + 255) % 256;
          if remaining <= 0 { state := Done; }
        case Done =>
        case BadVersion =>
      }
    }

    /** hello_consume; authentication cannot be switched while the loop runs. */
    method ConsumeBuffer(auth: bool, buff: Buffer)
      requires buff.Valid()
      modifies this, buff, buff.data
      ensures buff.Valid()
      ensures Consumed(Feeder(auth), IsDone, old(Value()), old(buff.View()), Value(), buff.View())
    {
      hide Progress, Consumed, Feed;
      ghost var feed, v, p := Feeder(auth), buff.View(), Value();
      ProgressStart(feed, IsDone, p, v);
      var more := buff.CanRead();
      while more
        invariant buff.Valid() && more == Fifo.CanRead(buff.View())
        invariant Progress(feed, IsDone, p, v, Value(), buff.View())
        decreases |buff.View().contents|
      {
        ghost var q, w := Value(), buff.View();
        ProgressStep(feed, IsDone, p, v, q, w);
        var c := buff.Read();
        FeedByte(auth, c);
        assert Value() == feed(q, w.contents[0]) && buff.View() == Fifo.Take(w, 1);
        if state == Done || state == BadVersion {
          return;
        }
        more := buff.CanRead();
      }
      ProgressEnd(feed, IsDone, p, v, Value(), buff.View());
    }
  }

  method Marshall(b: Buffer, selected: byte) returns (n: int)
    requires b.Valid()
    modifies b, b.data
    ensures b.Valid()
    ensures if Fifo.Room(old(b.View())) < 2 then n == -1 && b.View() == old(b.View())
            else n == 2 && b.View() == Fifo.Put(old(b.View()), Reply(selected))
  {
    var room := b.WritePtr();
    if room < 2 {
      return -1;
    }
    b.Place(Reply(selected));
    b.WriteAdv(2);
    return 2;
  }
}
