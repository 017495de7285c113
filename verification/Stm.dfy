/** src/stm.c: the table-driven engine that turns selector events into state changes. */
module Stm {
  import opened Bytes

  datatype Event = ReadReady | WriteReady | BlockReady

  /** struct state_definition: its identifier and which callbacks are not NULL. */
  datatype Definition = Definition(
    state: nat, onArrival: bool, onDeparture: bool, onRead: bool, onWrite: bool, onBlock: bool)

  predicate Handles(d: Definition, e: Event) {
    match e
    case ReadReady => d.onRead
    case WriteReady => d.onWrite
    case BlockReady => d.onBlock
  }

  /** What stm_init checks: states are numbered by their position and the initial one is not the last. */
  ghost predicate GoodTable(table: seq<Definition>, initial: nat) {
    && initial < |table| - 1
    && forall i :: 0 <= i < |table| ==> table[i].state == i
  }

  /** A callback slot the engine reaches, whether or not the table fills it. */
  datatype Call = Arrive(state: nat) | Depart(state: nat) | On(event: Event, state: nat)

  predicate Filled(table: seq<Definition>, c: Call) {
    c.state < |table| &&
    match c
    case Arrive(s) => table[s].onArrival
    case Depart(s) => table[s].onDeparture
    case On(e, s) => Handles(table[s], e)
  }

  /** The callbacks that really run. */
  function Visible(table: seq<Definition>, calls: seq<Call>): seq<Call> {
    if calls == [] then []
    else
      var last := calls[|calls| - 1];
      Visible(table, calls[..|calls| - 1]) + if Filled(table, last) then [last] else []
  }

  lemma VisibleSnoc(table: seq<Definition>, calls: seq<Call>, c: Call)
    ensures Visible(table, calls + [c]) == Visible(table, calls) + if Filled(table, c) then [c] else []
  {
    assert (calls + [c])[..|calls|] == calls;
  }

  /** `current` is None while stm->current is NULL; `calls` is the history of slots reached. */
  datatype Engine = Engine(current: Option<nat>, calls: seq<Call>)

  const FRESH := Engine(None, [])

  datatype Outcome = Ran(engine: Engine) | Aborted

  function First(e: Engine, initial: nat): Engine {
    if e.current.None? then Engine(Some(initial), e.calls + [Arrive(initial)]) else e
  }

  function Jump(e: Engine, next: nat): Engine
    requires e.current.Some?
  {
    if e.current == Some(next) then e
    else Engine(Some(next), e.calls + [Depart(e.current.value), Arrive(next)])
  }

  /** stm_handler_read, _write and _block: `answer` is what the state's callback returns. */
  function Handle(table: seq<Definition>, initial: nat, e: Engine, event: Event, answer: nat): Outcome
    requires initial < |table|
  {
    var e1 := First(e, initial);
    if e1.current.value >= |table| || !Handles(table[e1.current.value], event) then Aborted
    else if answer >= |table| then Aborted
    else Ran(Jump(e1.(calls := e1.calls + [On(event, e1.current.value)]), answer))
  }

  datatype Step = Step(event: Event, answer: nat)

  function Run(table: seq<Definition>, initial: nat, steps: seq<Step>): Outcome
    requires initial < |table|
  {
    if steps == [] then Ran(FRESH)
    else
      match Run(table, initial, steps[..|steps| - 1])
      case Aborted => Aborted
      case Ran(e) => Handle(table, initial, e, steps[|steps| - 1].event, steps[|steps| - 1].answer)
  }

  /**
   * Independent reference: a checker that reads a history and knows which
   * state, if any, it is inside of. None means the history is ill formed.
   */
  function Inside(calls: seq<Call>): Option<Option<nat>> {
    if calls == [] then Some(None)
    else
      match Inside(calls[..|calls| - 1])
      case None => None
      case Some(at) =>
        match calls[|calls| - 1]
        case Arrive(s) => if at.None? then Some(Some(s)) else None
        case Depart(s) => if at == Some(s) then Some(None) else None
        case On(_, s) => if at == Some(s) then Some(at) else None
  }

  lemma InsideSnoc(calls: seq<Call>, c: Call)
    requires Inside(calls).Some?
    ensures var at := Inside(calls).value;
            Inside(calls + [c]) ==
            match c
            case Arrive(s) => if at.None? then Some(Some(s)) else None
            case Depart(s) => if at == Some(s) then Some(None) else None
            case On(_, s) => if at == Some(s) then Some(at) else None
  {
    assert (calls + [c])[..|calls|] == calls;
  }

  function Arrivals(calls: seq<Call>): nat {
    if calls == [] then 0
    else Arrivals(calls[..|calls| - 1]) + if calls[|calls| - 1].Arrive? then 1 else 0
  }

  lemma ArrivalsSnoc(calls: seq<Call>, c: Call)
    ensures Arrivals(calls + [c]) == Arrivals(calls) + if c.Arrive? then 1 else 0
  {
    assert (calls + [c])[..|calls|] == calls;
  }

  /** The state the machine is in before step i: the initial one, then the last answer. */
  function Before(initial: nat, steps: seq<Step>, i: nat): nat
    requires i <= |steps|
  {
    if i == 0 then initial else steps[i - 1].answer
  }

  /** Steps that really change the state. */
  function Changes(initial: nat, steps: seq<Step>): nat {
    if steps == [] then 0
    else
      var n := |steps| - 1;
      Changes(initial, steps[..n]) + if steps[n].answer != Before(initial, steps, n) then 1 else 0
  }

  lemma HandleKeepsHistory(table: seq<Definition>, initial: nat, e: Engine, event: Event, answer: nat)
    requires initial < |table|
    requires Inside(e.calls) == Some(e.current) && (e.calls != [] ==> e.calls[0] == Arrive(initial))
    requires e.current.None? <==> e.calls == []
    requires Handle(table, initial, e, event, answer).Ran?
    ensures var e' := Handle(table, initial, e, event, answer).engine;
            var at := if e.current.None? then initial else e.current.value;
            && Inside(e'.calls) == Some(e'.current) && e'.current == Some(answer)
            && e'.calls != [] && e'.calls[0] == Arrive(initial)
            && Arrivals(e'.calls) == Arrivals(e.calls) + (if e.current.None? then 1 else 0) + (if answer != at then 1 else 0)
  {
    hide Inside, Arrivals;
    var e1 := First(e, initial);
    var at := e1.current.value;
    InsideSnoc(e.calls, Arrive(initial));
    ArrivalsSnoc(e.calls, Arrive(initial));
    assert Inside(e1.calls) == Some(Some(at));
    var calls := e1.calls + [On(event, at)];
    InsideSnoc(e1.calls, On(event, at));
    ArrivalsSnoc(e1.calls, On(event, at));
    InsideSnoc(calls, Depart(at));
    ArrivalsSnoc(calls, Depart(at));
    if answer != at {
      InsideSnoc(calls + [Depart(at)], Arrive(answer));
      ArrivalsSnoc(calls + [Depart(at)], Arrive(answer));
      assert calls + [Depart(at), Arrive(answer)] == calls + [Depart(at)] + [Arrive(answer)];
    }
  }

  /**
   * For any table and any events and answers: the history is well bracketed,
   * it opens with the initial arrival at the first event, and there is one more
   * arrival for each real change and for nothing else.
   */
  lemma {:induction false} HistoryIsBracketed(table: seq<Definition>, initial: nat, steps: seq<Step>)
    requires initial < |table| && Run(table, initial, steps).Ran?
    ensures var e := Run(table, initial, steps).engine;
            && Inside(e.calls) == Some(e.current)
            && (e.current.None? <==> e.calls == [])
            && (steps == [] <==> e.calls == [])
            && (steps != [] ==> e.calls[0] == Arrive(initial) && e.current == Some(Before(initial, steps, |steps|)))
            && Arrivals(e.calls) == (if steps == [] then 0 else 1) + Changes(initial, steps)
  {
    if steps != [] {
      var n := |steps| - 1;
      HistoryIsBracketed(table, initial, steps[..n]);
      var e := Run(table, initial, steps[..n]).engine;
      HandleKeepsHistory(table, initial, e, steps[n].event, steps[n].answer);
      assert Before(initial, steps, n) == Before(initial, steps[..n], n);
    }
  }

  /** A bracketed history only has events of the state it is inside of. */
  lemma {:induction false} EventsInsideTheirState(calls: seq<Call>, k: nat)
    requires Inside(calls).Some? && k < |calls| && calls[k].On?
    ensures Inside(calls[..k]) == Some(Some(calls[k].state))
  {
    if k < |calls| - 1 {
      EventsInsideTheirState(calls[..|calls| - 1], k);
      assert calls[..|calls| - 1][..k] == calls[..k];
    } else {
      assert calls[..k] == calls[..|calls| - 1];
    }
  }

  /** The engine runs to the end exactly when no step meets a hole or a state outside the table. */
  lemma {:induction false} RunsIff(table: seq<Definition>, initial: nat, steps: seq<Step>)
    requires initial < |table|
    ensures Run(table, initial, steps).Ran? <==>
            forall i :: 0 <= i < |steps| ==> Answered(table, initial, steps, i)
  {
    if steps != [] {
      var n := |steps| - 1;
      RunsIff(table, initial, steps[..n]);
      forall i | 0 <= i < n
        ensures Answered(table, initial, steps[..n], i) == Answered(table, initial, steps, i)
      {
        assert Before(initial, steps, i) == Before(initial, steps[..n], i);
      }
      if Run(table, initial, steps[..n]).Ran? {
        HistoryIsBracketed(table, initial, steps[..n]);
        assert Before(initial, steps, n) == Before(initial, steps[..n], n);
        assert Run(table, initial, steps).Ran? <==> Answered(table, initial, steps, n);
      }
    }
  }

  ghost predicate Answered(table: seq<Definition>, initial: nat, steps: seq<Step>, i: nat)
    requires i < |steps|
  {
    var at := Before(initial, steps, i);
    at < |table| && Handles(table[at], steps[i].event) && steps[i].answer < |table|
  }

  /** struct state_machine. A negative `current` is the NULL pointer. */
  class StateMachine {
    const initial: nat
    const states: seq<Definition>
    var current: int
    var ran: seq<Call>         // callbacks that ran
    ghost var calls: seq<Call> // every slot reached

    ghost predicate Valid()
      reads this
    {
      && GoodTable(states, initial)
      && current < |states|
      && ran == Visible(states, calls)
    }

    ghost function Value(): Engine
      requires Valid()
      reads this
    {
      Engine(if current < 0 then None else Some(current), calls)
    }

    /** The fields socks5_new and mng_new fill in before stm_init. */
    constructor (states: seq<Definition>, initial: nat)
      ensures this.states == states && this.initial == initial
      ensures current == 0 && ran == [] && calls == []
    {
      this.states, this.initial := states, initial;
      current, ran, calls := 0, [], [];
    }

    /** stm_init; false is abort(). */
    method Init() returns (ok: bool)
      requires states != [] && ran == [] && calls == []
      modifies this
      ensures ok == GoodTable(states, initial)
      ensures ok ==> Valid() && Value() == FRESH
    {
      var i := 0;
      while i <= |states| - 1
        invariant 0 <= i <= |states|
        invariant forall k :: 0 <= k < i ==> states[k].state == k
      {
        if i != states[i].state {
          return false;
        }
        i := i + 1;
      }
      if initial < |states| - 1 {
        current := -1;
        return true;
      }
      return false;
    }

    method Call(c: Call)
      requires c.state < |states| && ran == Visible(states, calls)
      modifies this`ran, this`calls
      ensures calls == old(calls) + [c] && ran == Visible(states, calls)
    {
      VisibleSnoc(states, calls, c);
      if Filled(states, c) {
        ran := ran + [c];
      }
      calls := calls + [c];
    }

    method HandleFirst()
      requires Valid()
      modifies this
      ensures Valid() && Value() == First(old(Value()), initial)
    {
      if current < 0 {
        current := initial;
        Call(Arrive(initial));
      }
    }

    method JumpTo(next: nat) returns (ok: bool)
      requires Valid() && current >= 0
      modifies this
      ensures ok == (next < |states|)
      ensures ok ==> Valid() && Value() == Jump(old(Value()), next)
    {
      if next > |states| - 1 {
        return false;
      }
      if current != next {
        Call(Depart(current));
        current := next;
        Call(Arrive(next));
        assert calls == old(calls) + [Depart(old(current)), Arrive(next)];
      }
      return true;
    }

    /** stm_handler_read, stm_handler_write and stm_handler_block; false is abort(). */
    method HandleEvent(event: Event, answer: nat) returns (ok: bool)
      requires Valid()
      modifies this
      ensures ok == Handle(states, initial, old(Value()), event, answer).Ran?
      ensures ok ==> Valid() && Handle(states, initial, old(Value()), event, answer) == Ran(Value())
    {
      hide Visible, GoodTable;
      HandleFirst();
      ghost var e1 := Value();
      assert e1 == First(old(Value()), initial);
      if !Handles(states[current], event) {
        return false;
      }
      Call(On(event, current));
      assert Value() == e1.(calls := e1.calls + [On(event, e1.current.value)]);
      ok := JumpTo(answer);
    }

    /** stm_state. */
    method State() returns (s: nat)
      requires Valid()
      ensures s == if Value().current.Some? then Value().current.value else initial
    {
      s := if current >= 0 then states[current].state else initial;
    }
  }
}
