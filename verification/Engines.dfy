/** The state tables of src/socks5.c and src/mng_handler.c run by the engine of src/stm.c. */
module Engines {
  import opened Bytes
  import opened SelectorModule
  import opened Session
  import opened Management
  import opened World
  import Stm

  /** socks_state_definition. */
  const SOCKS_TABLE: seq<Stm.Definition> :=
    [Definition(HelloRead), Definition(HelloWrite), Definition(AuthRead), Definition(AuthWrite),
     Definition(RequestRead), Definition(RequestResolv), Definition(RequestConnecting), Definition(RequestWrite),
     Definition(Copy), Definition(Done), Definition(Error)]

  /** mng_state_definition. */
  const MNG_TABLE: seq<Stm.Definition> :=
    [MngDefinition(ConnectRead), MngDefinition(ConnectWrite), MngDefinition(Request),
     MngDefinition(RequestGet), MngDefinition(RequestPut), MngDefinition(RequestEdit),
     MngDefinition(RequestBuffSize), MngDefinition(RequestConfigStatus), MngDefinition(RequestDelete),
     MngDefinition(Replies), MngDefinition(MngDone), MngDefinition(MngError)]

  function Number(st: State): nat { Definition(st).state }

  function MngNumber(st: MngState): nat { MngDefinition(st).state }

  /** Both tables pass the checks of stm_init, with HELLO_READ and CONNECT_READ as initial states. */
  lemma TablesAreGood()
    ensures Stm.GoodTable(SOCKS_TABLE, Number(HelloRead))
    ensures Stm.GoodTable(MNG_TABLE, MngNumber(ConnectRead))
  {
    forall i | 0 <= i < |SOCKS_TABLE|
      ensures SOCKS_TABLE[i].state == i
    {
    }
    forall i | 0 <= i < |MNG_TABLE|
      ensures MNG_TABLE[i].state == i
    {
    }
  }

  lemma Entry(st: State)
    ensures Number(st) < |SOCKS_TABLE| && SOCKS_TABLE[Number(st)] == Definition(st)
  {
  }

  /**
   * A session event is a step of the engine: it aborts exactly where the table has
   * no callback, and otherwise the session is in the state the engine is in.
   */
  lemma DispatchIsEngineStep(c: Context, key: int, e: Stm.Event, a: Answers, calls: seq<Stm.Call>)
    ensures var answer := Number(Callback(c, key, e, a).st);
            match Stm.Handle(SOCKS_TABLE, Number(HelloRead), Stm.Engine(Some(Number(c.s.state)), calls), e, answer)
            case Aborted => Dispatch(c, key, e, a) == Note(c, MissingHandler)
            case Ran(engine) => engine.current == Some(Number(Dispatch(c, key, e, a).s.state))
  {
    var n := Callback(c, key, e, a);
    Entry(c.s.state);
    Entry(n.st);
    hide Callback, Definition, SOCKS_TABLE;
    if Stm.Handles(Definition(c.s.state), e) {
      JumpsTo(n);
    }
  }

  lemma JumpsTo(n: Next)
    ensures (if n.st == Done || n.st == Error then Finish(Jump(n)) else Jump(n)).s.state == n.st
  {
  }

  lemma MngEntry(st: MngState)
    ensures MngNumber(st) < |MNG_TABLE| && MNG_TABLE[MngNumber(st)] == MngDefinition(st)
  {
  }

  /**
   * The same for a management session: it aborts exactly where the table has no
   * callback, and otherwise, unless an interest is refused, it is in the state the
   * engine is in.
   */
  lemma MngEventIsEngineStep(w: World, id: nat, key: int, e: Stm.Event, a: MngAnswers, calls: seq<Stm.Call>)
    requires id < |w.conns| && w.conns[id].Admin?
    ensures var m, w' := w.conns[id].m, MngEvent(w, id, key, e, a);
            var answer := MngNumber(MngCallback(m, w.config, w.metrics, a).next);
            match Stm.Handle(MNG_TABLE, MngNumber(ConnectRead), Stm.Engine(Some(MngNumber(m.state)), calls), e, answer)
            case Aborted => w' == Wrong(w, MissingHandler)
            case Ran(engine) =>
              InterestRefused !in w'.anomalies ==>
                w'.conns[id].Admin? && engine.current == Some(MngNumber(w'.conns[id].m.state))
  {
    var t := MngCallback(w.conns[id].m, w.config, w.metrics, a);
    MngEntry(w.conns[id].m.state);
    MngEntry(t.next);
    EventSettles(w, id, key, e, a);
    hide MngEvent, MngCallback, MngDefinition, MNG_TABLE;
  }

  /** Without a callback nothing happens; otherwise the session is in the state it returned. */
  lemma EventSettles(w: World, id: nat, key: int, e: Stm.Event, a: MngAnswers)
    requires id < |w.conns| && w.conns[id].Admin?
    ensures var m, w' := w.conns[id].m, MngEvent(w, id, key, e, a);
            if Stm.Handles(MngDefinition(m.state), e) then
              InterestRefused in w'.anomalies
              || (id < |w'.conns| && w'.conns[id].Admin?
                  && w'.conns[id].m.state == MngCallback(m, w.config, w.metrics, a).next)
            else w' == Wrong(w, MissingHandler)
  {
    hide MngCallback, MngDefinition, MngJump, MngSettle, AfterSetInterest;
    var t := MngCallback(w.conns[id].m, w.config, w.metrics, a);
    var items := if t.want.Some? then AfterSetInterest(w.items, key, t.want.value).0 else w.items;
    StateSettles(w.(items := items, config := t.config, honest := w.honest && t.honest), id, t);
  }

  lemma StateSettles(w: World, id: nat, t: Turn)
    requires id < |w.conns|
    ensures var w' := MngSettle(w, id, t);
            id < |w'.conns| && w'.conns[id].Admin? && w'.conns[id].m.state == t.next
  {
  }
}
