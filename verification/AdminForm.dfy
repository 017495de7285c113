/**
 * The seven parsers of the management protocol, src/parsers/admin_*.c. Each
 * reads a fixed list of slots, so they share one machine, which a layout turns
 * into a particular parser.
 */
module AdminForm {
  import opened Bytes
  import opened ByteMachine
  import Fifo

  /** A required octet, one of some octets, a counted text, or a four-octet number other than zero. */
  datatype Slot = Literal(b: byte) | Choice(allowed: set<byte>) | Text | Number

  type Layout = l: seq<Slot> | 0 < |l| < 256 witness [Text]

  // admin_connect.c, admin_get.c, admin_put.c, admin_edit.c, admin_configbuffsize.c, admin_configstatus.c, admin_delete.c
  const CONNECT: Layout := [Literal(0x00), Text]
  const GET: Layout := [Literal(0x00), Choice({0, 1, 2, 3, 4, 5, 6, 7, 8})]
  const PUT: Layout := [Literal(0x01), Literal(0x00), Text, Text]
  const EDIT: Layout := [Literal(0x02), Literal(0x00), Text, Choice({0, 1}), Text]
  const CONFIGBUFFSIZE: Layout := [Literal(0x03), Number]
  const CONFIGSTATUS: Layout := [Literal(0x04), Choice({3, 4}), Choice({0, 1})]
  const DELETE: Layout := [Literal(0x05), Literal(0x00), Text]

  /** Slot `index` is next or, with `inside`, half read; `stored` are the values of the slots before it. */
  datatype Phase = Reading | Inside | Finished | Failed

  datatype Form = Form(phase: Phase, index: nat, stored: seq<seq<byte>>, got: seq<byte>, remaining: byte)

  const START := Form(Reading, 0, [], [], 0)

  predicate IsDone(f: Form) { f.phase.Finished? || f.phase.Failed? }

  function Fail(f: Form): Form { f.(phase := Failed) }

  /** The slot is complete: on to the next one, or done. */
  function Store(l: Layout, f: Form, value: seq<byte>): Form {
    Form(if f.index + 1 >= |l| then Finished else Reading, f.index + 1, f.stored + [value], [], 0)
  }

  function FeedText(l: Layout, f: Form, b: byte): Form {
    if f.phase.Inside? then
      var got := f.got + [b];
      if |got| >= f.remaining then Store(l, f, got) else f.(got := got)
    else if b <= 0 then Fail(f)
    else f.(phase := Inside, remaining := b, got := [])
  }

  function FeedNumber(l: Layout, f: Form, b: byte): Form {
    var got := f.got + [b];
    if |got| < 4 then f.(got := got)
    else if FromBigEndian(got[..4]) <= 0 then Fail(f)
    else Store(l, f, got)
  }

  function Feed(l: Layout, f: Form, b: byte): Form {
    if IsDone(f) || f.index >= |l| then f
    else
      match l[f.index]
      case Literal(x) => if b == x then Store(l, f, [b]) else Fail(f)
      case Choice(allowed) => if b in allowed then Store(l, f, [b]) else Fail(f)
      case Text => FeedText(l, f, b)
      case Number => FeedNumber(l, f, b)
  }

  function Feeder(l: Layout): (Form, byte) -> Form { (f: Form, b: byte) => Feed(l, f, b) }

  function Parse(l: Layout, f: Form, input: seq<byte>): (r: (Form, seq<byte>))
    ensures |r.1| <= |input|
  {
    Consume(Feeder(l), IsDone, f, input)
  }

  lemma ParseStep(l: Layout, f: Form, input: seq<byte>)
    requires input != []
    ensures Parse(l, f, input) ==
            var f' := Feed(l, f, input[0]);
            if IsDone(f') then (f', input[1..]) else Parse(l, f', input[1..])
  {
  }

  /** The outcome of the loop in terms of Parse. */
  lemma ConsumedParses(l: Layout, f: Form, v: Fifo.View, f': Form, v': Fifo.View)
    requires Consumed(Feeder(l), IsDone, f, v, f', v')
    ensures var (q, rest) := Parse(l, f, v.contents);
            f' == q && v' == Fifo.Take(v, |v.contents| - |rest|)
  {
  }

  // ----- the wire format

  ghost predicate FitsSlot(s: Slot, value: seq<byte>) {
    match s
    case Literal(b) => value == [b]
    case Choice(allowed) => |value| == 1 && value[0] in allowed
    case Text => 0 < |value| < 256
    case Number => |value| == 4 && FromBigEndian(value) > 0
  }

  ghost predicate Fits(l: Layout, values: seq<seq<byte>>) {
    |values| == |l| && forall i :: 0 <= i < |l| ==> FitsSlot(l[i], values[i])
  }

  function EncodeSlot(s: Slot, value: seq<byte>): seq<byte> {
    if s.Text? && |value| < 256 then [|value|] + value else value
  }

  /** The slots from i on. */
  function EncodeFrom(l: Layout, values: seq<seq<byte>>, i: nat): seq<byte>
    requires |values| == |l|
    decreases |l| - i
  {
    if i >= |l| then [] else EncodeSlot(l[i], values[i]) + EncodeFrom(l, values, i + 1)
  }

  function Encode(l: Layout, values: seq<seq<byte>>): seq<byte>
    requires |values| == |l|
  {
    EncodeFrom(l, values, 0)
  }

  // ----- decode after encode

  ghost function At(i: nat, stored: seq<seq<byte>>): Form { Form(Reading, i, stored, [], 0) }

  /** What follows when slot i has just been settled. */
  ghost function Onward(l: Layout, f: Form, tail: seq<byte>): (Form, seq<byte>) {
    if IsDone(f) then (f, tail) else Parse(l, f, tail)
  }

  lemma {:induction false} TextPhase(
    l: Layout, i: nat, stored: seq<seq<byte>>, got: seq<byte>, more: seq<byte>, n: byte, tail: seq<byte>)
    requires i < |l| && l[i].Text? && |got| < n == |got| + |more|
    ensures var f := Form(Inside, i, stored, got, n);
            Parse(l, f, more + tail) == Onward(l, Store(l, f, got + more), tail)
    decreases |more|
  {
    hide Parse;
    var f := Form(Inside, i, stored, got, n);
    ParseStep(l, f, more + tail);
    assert (more + tail)[1..] == more[1..] + tail;
    if |more| == 1 {
      assert more == [more[0]] && more[1..] + tail == tail;
    } else {
      TextPhase(l, i, stored, got + [more[0]], more[1..], n, tail);
      assert got + [more[0]] + more[1..] == got + more;
    }
  }

  lemma NumberPhase(l: Layout, i: nat, stored: seq<seq<byte>>, value: seq<byte>, tail: seq<byte>)
    requires i < |l| && l[i].Number? && |value| == 4
    ensures var f := At(i, stored);
            Parse(l, f, value + tail) ==
            Onward(l, if FromBigEndian(value) > 0 then Store(l, f, value) else Fail(f.(got := value[..3])), tail)
  {
    hide Parse;
    var f := At(i, stored);
    var rest3: seq<byte> := [value[3]] + tail;
    var rest2: seq<byte> := [value[2]] + rest3;
    var rest1: seq<byte> := [value[1]] + rest2;
    assert value + tail == [value[0]] + rest1;
    assert ([value[0]] + rest1)[1..] == rest1 && rest1[1..] == rest2 && rest2[1..] == rest3 && rest3[1..] == tail;
    ParseStep(l, f, [value[0]] + rest1);
    assert [] + [value[0]] == [value[0]];
    ParseStep(l, f.(got := [value[0]]), rest1);
    assert [value[0]] + [value[1]] == [value[0], value[1]];
    ParseStep(l, f.(got := [value[0], value[1]]), rest2);
    assert [value[0], value[1]] + [value[2]] == [value[0], value[1], value[2]];
    ParseStep(l, f.(got := [value[0], value[1], value[2]]), rest3);
    assert [value[0], value[1], value[2]] + [value[3]] == value && value[..4] == value;
    assert value[..3] == [value[0], value[1], value[2]];
  }

  lemma SlotPhase(l: Layout, i: nat, stored: seq<seq<byte>>, value: seq<byte>, tail: seq<byte>)
    requires i < |l| && FitsSlot(l[i], value)
    ensures Parse(l, At(i, stored), EncodeSlot(l[i], value) + tail) == Onward(l, Store(l, At(i, stored), value), tail)
  {
    hide Parse;
    match l[i]
    case Text =>
      ParseStep(l, At(i, stored), [|value|] + value + tail);
      assert ([|value|] + value + tail)[1..] == value + tail;
      TextPhase(l, i, stored, [], value, |value|, tail);
      assert [] + value == value;
    case Number => NumberPhase(l, i, stored, value, tail);
    case _ =>
      ParseStep(l, At(i, stored), value + tail);
      assert (value + tail)[1..] == tail && value == [value[0]];
  }

  lemma {:induction false} SlotsDecoded(l: Layout, values: seq<seq<byte>>, i: nat, tail: seq<byte>)
    requires Fits(l, values) && i < |l|
    ensures Parse(l, At(i, values[..i]), EncodeFrom(l, values, i) + tail) == (Form(Finished, |l|, values, [], 0), tail)
    decreases |l| - i
  {
    hide Parse, EncodeSlot, FitsSlot;
    var later := EncodeFrom(l, values, i + 1) + tail;
    assert EncodeFrom(l, values, i) + tail == EncodeSlot(l[i], values[i]) + later;
    SlotPhase(l, i, values[..i], values[i], later);
    assert values[..i] + [values[i]] == values[..i + 1];
    if i + 1 < |l| {
      SlotsDecoded(l, values, i + 1, tail);
    } else {
      assert values[..i + 1] == values && later == tail;
    }
  }

  /** Every message of every layout is consumed exactly and its values are stored. */
  lemma FormDecoded(l: Layout, values: seq<seq<byte>>, tail: seq<byte>)
    requires Fits(l, values)
    ensures Parse(l, START, Encode(l, values) + tail) == (Form(Finished, |l|, values, [], 0), tail)
  {
    assert values[..0] == [];
    SlotsDecoded(l, values, 0, tail);
  }

  // ----- encode after decode

  /** The octets of the slots before i. */
  function Prefix(l: Layout, stored: seq<seq<byte>>): seq<byte>
    requires |stored| <= |l|
  {
    if stored == [] then []
    else
      var n := |stored| - 1;
      Prefix(l, stored[..n]) + EncodeSlot(l[n], stored[n])
  }

  ghost predicate StoredFit(l: Layout, stored: seq<seq<byte>>) {
    |stored| <= |l| && forall i :: 0 <= i < |stored| ==> FitsSlot(l[i], stored[i])
  }

  /** `heard` is what a parser in this state must have read. */
  ghost predicate Explains(l: Layout, f: Form, heard: seq<byte>) {
    && StoredFit(l, f.stored)
    && match f.phase
       case Reading =>
         && f.index == |f.stored| < |l| && heard == Prefix(l, f.stored) + f.got
         && (if l[f.index].Number? then |f.got| < 4 else f.got == [])
       case Inside =>
         && f.index == |f.stored| < |l| && l[f.index].Text? && |f.got| < f.remaining
         && heard == Prefix(l, f.stored) + [f.remaining] + f.got
       case Finished => |f.stored| == |l| && heard == Prefix(l, f.stored)
       case Failed => true
  }

  lemma PrefixSnoc(l: Layout, stored: seq<seq<byte>>, value: seq<byte>)
    requires |stored| < |l|
    ensures Prefix(l, stored + [value]) == Prefix(l, stored) + EncodeSlot(l[|stored|], value)
  {
    assert (stored + [value])[..|stored|] == stored;
  }

  lemma StoredSnoc(l: Layout, stored: seq<seq<byte>>, value: seq<byte>)
    requires StoredFit(l, stored) && |stored| < |l| && FitsSlot(l[|stored|], value)
    ensures StoredFit(l, stored + [value])
  {
    hide FitsSlot;
  }

  lemma StoreExplains(l: Layout, f: Form, heard: seq<byte>, value: seq<byte>)
    requires |f.stored| == f.index < |l| && FitsSlot(l[f.index], value) && StoredFit(l, f.stored)
    requires heard == Prefix(l, f.stored) + EncodeSlot(l[f.index], value)
    ensures Explains(l, Store(l, f, value), heard)
  {
    PrefixSnoc(l, f.stored, value);
    StoredSnoc(l, f.stored, value);
    hide Prefix, EncodeSlot, FitsSlot, StoredFit;
    var f' := Store(l, f, value);
    assert heard + f'.got == heard;
  }

  lemma ExplainsStep(l: Layout, f: Form, heard: seq<byte>, b: byte)
    requires Explains(l, f, heard) && !IsDone(f)
    ensures Explains(l, Feed(l, f, b), heard + [b])
  {
    hide Prefix;
    var before := Prefix(l, f.stored);
    match l[f.index]
    case Literal(x) =>
      if b == x {
        StoreExplains(l, f, heard + [b], [b]);
      }
    case Choice(allowed) =>
      if b in allowed {
        StoreExplains(l, f, heard + [b], [b]);
      }
    case Text =>
      var got := f.got + [b];
      if f.phase.Inside? {
        assert heard + [b] == before + [f.remaining] + got;
        if |got| >= f.remaining {
          assert heard + [b] == before + ([f.remaining] + got);
          StoreExplains(l, f, heard + [b], got);
        }
      } else {
        assert heard + [b] == before + [b] + [];
      }
    case Number =>
      var got := f.got + [b];
      assert heard + [b] == before + got;
      if |got| == 4 {
        assert got[..4] == got;
        if FromBigEndian(got) > 0 {
          StoreExplains(l, f, heard + [b], got);
        }
      }
  }

  lemma {:induction false} PrefixIsEncode(l: Layout, values: seq<seq<byte>>, i: nat)
    requires |values| == |l| && i <= |l|
    ensures Prefix(l, values[..i]) + EncodeFrom(l, values, i) == Encode(l, values)
    decreases i
  {
    if i > 0 {
      PrefixIsEncode(l, values, i - 1);
      assert values[..i][..i - 1] == values[..i - 1];
      assert Prefix(l, values[..i]) + EncodeFrom(l, values, i)
          == Prefix(l, values[..i - 1]) + (EncodeSlot(l[i - 1], values[i - 1]) + EncodeFrom(l, values, i));
    }
  }

  /** What a parser took explains its state, wherever it started and over any number of inputs. */
  lemma {:induction false} ParseExplained(l: Layout, p: Form, heard: seq<byte>, input: seq<byte>)
    requires Explains(l, p, heard) && !IsDone(p)
    ensures var (q, rest) := Parse(l, p, input);
            Explains(l, q, heard + input[..|input| - |rest|]) && input[|input| - |rest|..] == rest
    decreases |input|
  {
    hide Explains, Feed, IsDone;
    if input == [] {
      assert heard + [] == heard && Parse(l, p, input) == (p, []);
    } else {
      hide Parse;
      var b, later := input[0], input[1..];
      ParseStep(l, p, input);
      ExplainsStep(l, p, heard, b);
      if !IsDone(Feed(l, p, b)) {
        ParseExplained(l, Feed(l, p, b), heard + [b], later);
        Onwards(heard, input, |Parse(l, Feed(l, p, b), later).1|);
      } else {
        Onwards(heard, input, |later|);
        assert input[..1] == [b];
      }
    }
  }

  lemma StartExplains(l: Layout)
    ensures Explains(l, START, [])
  {
  }

  lemma FinishedExplains(l: Layout, f: Form, heard: seq<byte>)
    requires Explains(l, f, heard) && f.phase.Finished?
    ensures Fits(l, f.stored) && heard == Encode(l, f.stored)
  {
    hide Prefix;
    PrefixIsEncode(l, f.stored, |l|);
    assert f.stored[..|l|] == f.stored;
  }

  /** What a finished parser stored is what the octets it took encode. */
  lemma FormExplained(l: Layout, input: seq<byte>)
    requires Parse(l, START, input).0.phase.Finished?
    ensures var (f, rest) := Parse(l, START, input);
            Fits(l, f.stored) && input == Encode(l, f.stored) + rest
  {
    hide Explains, Encode, Fits, Parse;
    var (f, rest) := Parse(l, START, input);
    var heard := input[..|input| - |rest|];
    StartExplains(l);
    ParseExplained(l, START, [], input);
    assert [] + heard == heard && input == heard + rest;
    FinishedExplains(l, f, heard);
  }

  ghost predicate Carries(l: Layout, input: seq<byte>, values: seq<seq<byte>>) {
    Fits(l, values) && Encode(l, values) <= input
  }

  /** The accepted messages of each action, exactly. */
  lemma FormAcceptedIff(l: Layout, input: seq<byte>)
    ensures Parse(l, START, input).0.phase.Finished? <==> exists values :: Carries(l, input, values)
  {
    hide Parse, Encode;
    if Parse(l, START, input).0.phase.Finished? {
      FormExplained(l, input);
      assert Carries(l, input, Parse(l, START, input).0.stored);
    }
    if values :| Carries(l, input, values) {
      var tail := input[|Encode(l, values)|..];
      assert input == Encode(l, values) + tail;
      FormDecoded(l, values, tail);
    }
  }
}
