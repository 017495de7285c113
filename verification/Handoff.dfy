/** Resolver results: every waiting session has exactly one, on its way or lost. */
module Handoff {
  import opened SelectorModule
  import opened Session
  import opened SessionInvariant
  import opened World
  import opened WorldInvariant

  ghost predicate IsLive(n: Conn) { n.Proxy? && n.s.live }

  ghost predicate Waits(n: Conn) { IsLive(n) && n.s.state.RequestResolv? }

  /** Client descriptors queued for the drain, or left in the drain under way. */
  ghost function Queued(w: World): multiset<int> {
    multiset(w.jobs) + if w.place.Drain? then multiset(w.place.rest) else multiset{}
  }

  /** Everything under way for session `id` and its client descriptor, and every notification lost. */
  ghost function Tokens(w: World, id: nat, fd: int): nat {
    var t := Thread(id, fd);
    w.asking[t] + w.telling[t] + w.lost[t] + Queued(w)[fd]
  }

  ghost predicate ThreadOk(conns: seq<Conn>, t: Thread) {
    t.id < |conns| && IsLive(conns[t.id]) && conns[t.id].s.clientFd == t.fd
  }

  ghost predicate ThreadsOk(w: World) {
    forall t :: t in w.asking || t in w.telling || t in w.lost ==> ThreadOk(w.conns, t)
  }

  ghost predicate JobOk(items: map<int, Item<Kind>>, conns: seq<Conn>, fd: int) {
    && fd in items && items[fd].handler.SocksSession?
    && items[fd].data < |conns| && IsLive(conns[items[fd].data]) && conns[items[fd].data].s.clientFd == fd
  }

  ghost predicate JobsOk(w: World) {
    forall fd :: fd in Queued(w) ==> JobOk(w.items, w.conns, fd)
  }

  /** `served` is the session whose job the drain has just taken off the list, or -1. */
  ghost predicate Balanced(w: World, served: int) {
    forall id :: 0 <= id < |w.conns| && IsLive(w.conns[id]) ==>
      Tokens(w, id, w.conns[id].s.clientFd) + (if id == served then 1 else 0) == if Waits(w.conns[id]) then 1 else 0
  }

  ghost predicate Handed(w: World, served: int) { ThreadsOk(w) && JobsOk(w) && Balanced(w, served) }

  /** What a change of connection `id` must do about threads: start one exactly on beginning to wait. */
  ghost predicate Started(w: World, w': World, id: nat, n: Conn) {
    && w'.asking == w.asking + (if Waits(n) then multiset{Thread(id, n.s.clientFd)} else multiset{})
    && w'.telling == w.telling && w'.lost == w.lost && Queued(w') == Queued(w)
    && (id < |w.conns| && IsLive(w.conns[id]) ==>
          && Tokens(w, id, w.conns[id].s.clientFd) == 0
          && (IsLive(n) ==> n.s.clientFd == w.conns[id].s.clientFd))
    && (id < |w.conns| && IsLive(n) ==> IsLive(w.conns[id]))
  }

  /** A job's descriptor is held by the session it is for. */
  lemma JobHeld(w: World, fd: int)
    requires JobOk(w.items, w.conns, fd) && Structure(w)
    ensures fd in Holds(w.conns[w.items[fd].data])
  {
    assert ItemOk(w.items[fd], fd, w.passive, w.conns) by {
      hide ConnsOk, Apart;
    }
  }

  lemma JobUntouched(w: World, w': World, id: nat, n: Conn, fd: int)
    requires Structure(w) && Changed(w, w', id, n) && JobOk(w.items, w.conns, fd) && w.items[fd].data != id
    ensures JobOk(w'.items, w'.conns, fd)
  {
    hide ConnsOk, ItemsOk, Holds;
    JobHeld(w, fd);
    assert Holds(w.conns[w.items[fd].data]) !! HeldBefore(w.conns, id);
  }

  lemma ChangeThreads(w: World, w': World, id: nat, n: Conn, served: int)
    requires Changed(w, w', id, n) && Handed(w, served) && Started(w, w', id, n)
    ensures ThreadsOk(w')
  {
    hide Touched, JobsOk, Balanced;
    forall t | t in w'.asking || t in w'.telling || t in w'.lost
      ensures ThreadOk(w'.conns, t)
    {
      if t in w.asking || t in w.telling || t in w.lost {
        assert ThreadOk(w.conns, t);
      }
    }
  }

  lemma ChangeJobs(w: World, w': World, id: nat, n: Conn, served: int)
    requires Structure(w) && Changed(w, w', id, n) && Handed(w, served) && Started(w, w', id, n)
    ensures JobsOk(w')
  {
    hide Structure, Touched, ThreadsOk, Balanced;
    forall fd | fd in Queued(w')
      ensures JobOk(w'.items, w'.conns, fd)
    {
      assert JobOk(w.items, w.conns, fd);
      JobUntouched(w, w', id, n, fd);
    }
  }

  lemma ChangeTokens(w: World, w': World, id: nat, n: Conn, j: nat, fd: int)
    requires Started(w, w', id, n)
    ensures Tokens(w', j, fd) == Tokens(w, j, fd) + if Waits(n) && j == id && fd == n.s.clientFd then 1 else 0
  {
  }

  lemma ChangeHands(w: World, w': World, id: nat, n: Conn, served: int)
    requires Structure(w) && Changed(w, w', id, n) && Handed(w, served) && Started(w, w', id, n)
    requires served == -1 || served == id
    ensures Handed(w', -1)
  {
    ChangeThreads(w, w', id, n, served);
    ChangeJobs(w, w', id, n, served);
    hide Structure, Touched, Tokens, JobsOk, ThreadsOk;
    forall j: nat | j < |w'.conns| && IsLive(w'.conns[j])
      ensures Tokens(w', j, w'.conns[j].s.clientFd) == if Waits(w'.conns[j]) then 1 else 0
    {
      ChangeTokens(w, w', id, n, j, w'.conns[j].s.clientFd);
      if j == id && id == |w.conns| {
        NewHasNone(w, w', id, n, served);
      }
    }
  }

  /** Nothing can be under way for a session that did not exist. */
  lemma NewHasNone(w: World, w': World, id: nat, n: Conn, served: int)
    requires Structure(w) && Changed(w, w', id, n) && Handed(w, served)
    requires id == |w.conns| && IsLive(n)
    ensures Tokens(w, id, n.s.clientFd) == 0
  {
    hide ConnsOk, Apart;
    var fd := n.s.clientFd;
    assert -1 !in w.open;
    assert HeldBefore(w.conns, id) == {} && w.open - {} == w.open;
    assert fd in w.open ==> fd in Holds(n);
    forall g | g in Queued(w)
      ensures g != fd
    {
      assert JobOk(w.items, w.conns, g);
    }
    assert Thread(id, fd) !in w.asking && Thread(id, fd) !in w.telling && Thread(id, fd) !in w.lost;
  }

  /** Steps that only move tokens around. */
  lemma MoveHands(w: World, w': World, served: int)
    requires Handed(w, served)
    requires w'.conns == w.conns && w'.items == w.items
    requires w'.asking + w'.telling + w'.lost == w.asking + w.telling + w.lost && Queued(w') == Queued(w)
    ensures Handed(w', served)
  {
    var all := w.asking + w.telling + w.lost;
    forall t | t in w'.asking || t in w'.telling || t in w'.lost
      ensures ThreadOk(w'.conns, t)
    {
      assert t in w'.asking + w'.telling + w'.lost;
      assert t in all;
    }
    forall id: nat, fd
      ensures Tokens(w', id, fd) == Tokens(w, id, fd)
    {
      var t := Thread(id, fd);
      assert (w'.asking + w'.telling + w'.lost)[t] == all[t];
    }
  }

  /** A thread of getaddrinfo stores its list: the session stays in order. */
  lemma ResolveKeeps(w: World, t: Thread, n: nat)
    requires Structure(w) && Handed(w, -1) && t in w.asking
    ensures ThreadOk(w.conns, t) && Waits(w.conns[t.id])
    ensures var w' := Resolve(w, t, n);
            Structure(w') && Handed(w', -1)
  {
    assert ThreadOk(w.conns, t);
    var id, s := t.id, w.conns[t.id].s;
    assert Tokens(w, id, s.clientFd) >= 1;
    var w' := Resolve(w, t, n);
    var s' := w'.conns[id].s;
    ResolvedOk(w, id, s');
    HeldSame(w, w', id);
    var w0 := w.(conns := w'.conns);
    ChangedConn(w, w0, id, Proxy(s'));
    MoveHands(w0, w', -1);
  }

  lemma ResolvedOk(w: World, id: nat, s': Session)
    requires Structure(w) && id < |w.conns| && Waits(w.conns[id])
    requires s' == w.conns[id].s.(resolution := s'.resolution) && s'.resolution.current == 0
    requires s'.resolution.attempts == w.conns[id].s.resolution.attempts
    ensures Good(ContextOf(w.(conns := w.conns[id := Proxy(s')]), id))
  {
    hide ItemsOk, Apart, Table;
    assert ConnOk(w, id);
  }

  /** The stored list changes nothing that descriptors depend on. */
  lemma HeldSame(w: World, w': World, id: nat)
    requires Structure(w) && id < |w.conns| && IsLive(w.conns[id])
    requires |w'.conns| == |w.conns| && w'.conns == w.conns[id := w'.conns[id]]
    requires w'.conns[id].Proxy? && w'.conns[id].s == w.conns[id].s.(resolution := w'.conns[id].s.resolution)
    requires w'.items == w.items && w'.open == w.open && w'.passive == w.passive
    requires Good(ContextOf(w.(conns := w'.conns), id))
    ensures Structure(w')
  {
    hide ItemsOk, Good, ConnsOk;
    SameGood(ContextOf(w.(conns := w'.conns), id), ContextOf(w', id));
    assert ConnOk(w', id);
    OwnTouched(w, id);
    ChangeKeeps(w, w', id, w'.conns[id]);
  }

  lemma OwnTouched(w: World, id: nat)
    requires Structure(w) && id < |w.conns| && IsLive(w.conns[id])
    ensures var held := Holds(w.conns[id]);
            Touched(w.items, w.open, w.items, w.open, id, SocksSession, held, held)
  {
    hide Good;
    var held := Holds(w.conns[id]);
    assert w.open == (w.open - held) + held;
    forall j: nat | j < |w.conns| && j != id
      ensures Holds(w.conns[j]) !! held
    {
    }
    forall fd | fd in w.items && fd in held
      ensures w.items[fd].handler == SocksSession && w.items[fd].data == id
    {
      assert ItemOk(w.items[fd], fd, w.passive, w.conns);
    }
  }

  lemma ChangedConn(w: World, w0: World, id: nat, n: Conn)
    requires Handed(w, -1) && id < |w.conns| && Waits(w.conns[id]) && Waits(n) && n.s.clientFd == w.conns[id].s.clientFd
    requires w0 == w.(conns := w.conns[id := n])
    ensures Handed(w0, -1)
  {
    forall fd | fd in Queued(w0)
      ensures JobOk(w0.items, w0.conns, fd)
    {
      assert JobOk(w.items, w.conns, fd);
    }
    forall j: nat | j < |w0.conns| && IsLive(w0.conns[j])
      ensures Tokens(w0, j, w0.conns[j].s.clientFd) == if Waits(w0.conns[j]) then 1 else 0
    {
      assert IsLive(w.conns[j]);
      assert Tokens(w0, j, w0.conns[j].s.clientFd) == Tokens(w, j, w.conns[j].s.clientFd);
    }
  }

  /** selector_notify_block moves the token of a thread to the list, or loses it. */
  lemma NotifyKeeps(w: World, t: Thread, memory: bool)
    requires Handed(w, -1) && Structure(w) && t in w.telling && !w.place.Drain?
    ensures Handed(Notify(w, t, memory), -1)
  {
    hide Apart, ItemsOk;
    var w' := Notify(w, t, memory);
    assert ThreadOk(w.conns, t);
    if memory {
      assert multiset([t.fd] + w.jobs) == multiset{t.fd} + multiset(w.jobs);
      OwnClient(w, t.id);
      NotifiedBalance(w, w', t);
    } else {
      assert w'.asking + w'.telling + w'.lost == w.asking + w.telling + w.lost;
      MoveHands(w, w', -1);
    }
  }

  lemma OwnClient(w: World, id: nat)
    requires Structure(w) && id < |w.conns| && IsLive(w.conns[id])
    ensures JobOk(w.items, w.conns, w.conns[id].s.clientFd) && w.items[w.conns[id].s.clientFd].data == id
  {
    hide ItemsOk, Apart, Table;
    assert ConnOk(w, id);
  }

  /** One token of `t` becomes one job; nobody else's count moves. */
  lemma NotifiedTokens(w: World, w': World, t: Thread, id: nat, fd: int)
    requires w' == w.(telling := w.telling - multiset{t}, jobs := w'.jobs) && t in w.telling
    requires Queued(w') == Queued(w) + multiset{t.fd}
    requires Thread(id, fd) == t <==> fd == t.fd
    ensures Tokens(w', id, fd) == Tokens(w, id, fd)
  {
  }

  lemma NotifiedBalance(w: World, w': World, t: Thread)
    requires Handed(w, -1) && t in w.telling && ThreadOk(w.conns, t) && JobOk(w.items, w.conns, t.fd)
    requires w.items[t.fd].data == t.id && Structure(w)
    requires w' == w.(telling := w.telling - multiset{t}, jobs := w'.jobs)
    requires Queued(w') == Queued(w) + multiset{t.fd}
    ensures Handed(w', -1)
  {
    hide Structure, Tokens, Queued;
    assert JobsOk(w') && ThreadsOk(w');
    forall j: nat | j < |w'.conns| && IsLive(w'.conns[j])
      ensures Tokens(w', j, w'.conns[j].s.clientFd) == if Waits(w'.conns[j]) then 1 else 0
    {
      OwnClient(w, j);
      NotifiedTokens(w, w', t, j, w.conns[j].s.clientFd);
    }
  }

  /** The job taken off the list counted for its own session and no other. */
  lemma TakenTokens(w: World, w1: World, taken: int, id: nat, fd: int)
    requires Queued(w) == Queued(w1) + multiset{taken}
    requires w1 == w.(place := w1.place)
    ensures Tokens(w, id, fd) == Tokens(w1, id, fd) + if fd == taken then 1 else 0
  {
  }

  /** The drain takes one job: its session is the one to be served, and it is waiting. */
  lemma TakeJob(w: World, w1: World)
    requires Handed(w, -1) && Structure(w) && w.place.Drain? && w.place.rest != []
    requires w1 == w.(place := Drain(w.place.rest[1..]))
    ensures var fd := w.place.rest[0];
            && JobOk(w.items, w.conns, fd) && Handed(w1, w.items[fd].data) && Waits(w.conns[w.items[fd].data])
  {
    hide Structure, Tokens;
    var fd, rest := w.place.rest[0], w.place.rest;
    assert rest == [fd] + rest[1..];
    assert Queued(w) == Queued(w1) + multiset{fd};
    assert fd in Queued(w);
    hide Queued;
    assert JobOk(w.items, w.conns, fd);
    assert JobsOk(w1) && ThreadsOk(w1);
    var id := w.items[fd].data;
    TakenTokens(w, w1, fd, id, fd);
    forall j: nat | j < |w1.conns| && IsLive(w1.conns[j])
      ensures Tokens(w1, j, w1.conns[j].s.clientFd) + (if j == id then 1 else 0) == if Waits(w1.conns[j]) then 1 else 0
    {
      OwnClient(w, j);
      TakenTokens(w, w1, fd, j, w.conns[j].s.clientFd);
      assert Tokens(w, j, w.conns[j].s.clientFd) == if Waits(w.conns[j]) then 1 else 0;
    }
  }

  /** The drain starts with the whole list. */
  lemma DrainStarts(w: World)
    requires Handed(w, -1) && !w.place.Drain?
    ensures Handed(StartDrain(w), -1)
  {
    MoveHands(w, StartDrain(w), -1);
  }
}
