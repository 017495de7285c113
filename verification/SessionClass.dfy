/**
 * struct socks5 in memory: the callbacks of src/socks5*.c over buffers, parsers
 * and the selector, each proved to do what its specification in Session says.
 */
module SessionClass {
  import opened Bytes
  import opened ByteMachine
  import opened BufferModule
  import opened SelectorModule
  import opened ServerConfig
  import opened SelectorClass
  import opened Session
  import Spec = Session
  import Fifo
  import H = HelloParser
  import A = AuthParser
  import R = RequestParser

  /**
   * What every phase of a session works on: the two buffers, the selector at its
   * full size, the globals, and the kernel's side of the process. `rest` is
   * always the part of the session that the phase at hand does not touch.
   */
  class Channel {
    const id: nat
    const rb: Buffer
    const wb: Buffer
    const selector: Selector<Kind>
    var config: Config
    var metrics: Metrics
    ghost var open: set<int>
    ghost var threads: multiset<Thread>
    ghost var anomalies: set<Anomaly>
    ghost var honest: bool
    ghost var script: Script  // history of the conversation
    var heap: Heap            // toFree, and what became of the memory

    ghost predicate Valid()
      reads this, rb, rb.data, wb, wb.data, selector, selector.fds
    {
      && rb != wb && rb.data != wb.data && rb.Valid() && wb.Valid()
      && selector.Valid() && selector.fds.Length > MAX_SIZE
    }

    /** The session and the process as the specification sees them. */
    ghost function Seen(rest: Session): Context
      requires Valid()
      reads this, rb, rb.data, wb, wb.data, selector, selector.fds
    {
      Context(id, rest.(rb := rb.View(), wb := wb.View(), script := script, heap := heap), selector.Items(),
              open, config, metrics, threads, anomalies, honest)
    }

    /** socks5_new: both buffers have the configured size. */
    constructor (id: nat, selector: Selector<Kind>, config: Config)
      requires selector.Valid() && selector.fds.Length > MAX_SIZE
      ensures Valid() && fresh(rb) && fresh(rb.data) && fresh(wb) && fresh(wb.data) && this.selector == selector
      ensures rb.View() == wb.View() == Fifo.Empty(config.bufferSize) && script == Script([], [], [], [], []) && heap == IN_USE
    {
      this.id, this.selector, this.config, metrics := id, selector, config, Metrics(0, 0, 0, 0);
      rb := new Buffer(config.bufferSize);
      wb := new Buffer(config.bufferSize);
      open, threads, anomalies, honest := {}, multiset{}, {}, true;
      script, heap := Script([], [], [], [], []), IN_USE;
    }

    lemma PutNothing(v: Fifo.View)
      ensures Fifo.Put(v, []) == v
    {
    }

    lemma SeenBuffers(rest: Session)
      requires Valid()
      ensures var s := Seen(rest).s;
              s.rb == rb.View() && s.wb == wb.View() && s.script == script
    {
    }

    /** recv: at least one octet and no more than there is room for, or none. */
    method Receive(r: Recv, ghost rest: Session)
      requires Valid() && (r.Got? ==> 0 < |r.octets| <= Fifo.Room(rb.View()))
      modifies this`script, rb, rb.data
      ensures Valid() && Seen(rest) == Spec.Receive(old(Seen(rest)), r)
    {
      hide Selector.Valid, Selector.Items, Fifo.Put, Hear;
      PutNothing(rb.View());
      if r.Got? {
        rb.Append(r.octets);
      }
      script := Hear(script, Octets(r));
    }

    /** send took n octets; `more` tells whether some are left. */
    method Send(n: nat, ghost rest: Session) returns (more: bool)
      requires Valid() && n <= |wb.View().contents|
      modifies this`script, wb, wb.data
      ensures Valid() && Seen(rest) == Spec.Send(old(Seen(rest)), n)
      ensures more == Fifo.CanRead(Seen(rest).s.wb)
    {
      SeenBuffers(rest);
      hide Selector.Valid, Selector.Items, Fifo.Take, Buffer.View, Tell;
      script := Tell(script, wb.View().contents[..n]);
      wb.ReadAdv(n);
      more := wb.CanRead();
    }

    /** selector_set_interest, noting a refusal. */
    method SetInterest(fd: int, i: Interest, ghost rest: Session) returns (ok: bool)
      requires Valid()
      modifies this`anomalies, selector, selector.fds
      ensures Valid() && selector.fds == old(selector.fds)
      ensures (Seen(rest), ok) == SetInterestOf(old(Seen(rest)), fd, i)
    {
      hide Buffer.View, Buffer.Valid, Selector.Valid, Selector.Items;
      var status, stray := selector.SetInterest(fd, i);
      ok := status == Success;
      if !ok {
        anomalies := anomalies + {InterestRefused};
      }
    }

    /** selector_register of an origin socket for writing, noting a double registration. */
    method Register(fd: int, ghost rest: Session) returns (ok: bool)
      requires Valid()
      modifies this`anomalies, selector, selector.fds
      ensures Valid() && selector.fds == old(selector.fds)
      ensures (Seen(rest), ok) == RegisterOrigin(old(Seen(rest)), fd)
    {
      hide Buffer.View, Buffer.Valid, Selector.Valid, Selector.Items;
      var status, stray := selector.Register(fd, Some(SocksSession), WRITE, id, false);
      ok := status == Success;
      if status == FdInUse {
        anomalies := anomalies + {FdAlreadyRegistered};
      }
    }

    /** socks5_close, called for a descriptor that was registered. */
    method OnClose(origin: int)
      modifies this`heap
      ensures heap == SocksClose(old(heap), origin)
    {
      if origin == -1 || heap.toFree > 0 {
        heap := Touch(heap).(frees := heap.frees + 1);
      } else {
        heap := Touch(heap).(toFree := heap.toFree + 1);
      }
    }

    /** The close callback of an origin given up, after which the caller goes on with the session. */
    method GoOn(origin: int, registered: bool)
      modifies this`heap
      ensures heap == GiveUp(old(heap), origin, registered)
    {
      if registered {
        OnClose(origin);
        heap := Touch(heap).(givenUp := heap.givenUp + 1);
      } else {
        heap := Touch(heap);
      }
    }

    /** selector_unregister_fd and close, on a retry. */
    method Release(fd: int, ghost rest: Session)
      requires Valid() && rest.originFd == fd
      modifies this`open, this`heap, selector, selector.fds
      ensures Valid() && selector.fds == old(selector.fds)
      ensures var c := old(Seen(rest));
              var (items, status) := AfterUnregister(c.items, fd);
              Seen(rest) == c.(s := c.s.(heap := GiveUp(c.s.heap, fd, status.Success?)), items := items, open := c.open - {fd})
    {
      hide Buffer.View, Buffer.Valid, Selector.Valid, Selector.Items, GiveUp;
      var status, stray := selector.Unregister(fd);
      GoOn(fd, status == Success);
      open := open - {fd};
    }

    /** One turn of the loop of socks5_done; tells whether the descriptor was registered. */
    method Close(fd: int, origin: int) returns (was: bool)
      requires Valid()
      modifies this`open, this`heap, selector, selector.fds
      ensures Valid() && selector.fds == old(selector.fds)
      ensures selector.Items() == old(selector.Items()) - {fd} && open == old(open) - {fd}
      ensures was == (fd != -1 && fd in old(selector.Items()))
      ensures heap == CloseIf(old(heap), origin, was)
    {
      hide Buffer.View, Buffer.Valid;
      was := false;
      if fd != -1 {
        var st, stray := selector.Unregister(fd);
        was := st == Success;
      }
      if was {
        OnClose(origin);
      }
      open := open - {fd};
    }

    /** The loop of socks5_done; tells whether the origin was still registered. */
    method CloseBoth(client: int, origin: int) returns (was: bool)
      requires Valid()
      modifies this`open, this`heap, selector, selector.fds
      ensures Valid() && selector.fds == old(selector.fds)
      ensures selector.Items() == old(selector.Items()) - {client, origin} && open == old(open) - {client, origin}
      ensures var items := old(selector.Items());
              && was == (origin != -1 && origin in items && origin != client)
              && heap == CloseIf(CloseIf(old(heap), origin, client != -1 && client in items), origin, was)
    {
      var fds := [client, origin];
      was := false;
      ghost var items, openBefore, memory := selector.Items(), open, heap;
      hide Selector.Items, Buffer.View, Buffer.Valid, Selector.Valid, CloseIf;
      var i := 0;
      while i < 2
        invariant 0 <= i <= 2 && Valid() && selector.fds == old(selector.fds)
        invariant selector.Items() ==
                  if i == 0 then items else if i == 1 then items - {client} else items - {client} - {origin}
        invariant open ==
                  if i == 0 then openBefore else if i == 1 then openBefore - {client} else openBefore - {client} - {origin}
        invariant i == 0 ==> heap == memory
        invariant i == 1 ==> heap == CloseIf(memory, origin, client != -1 && client in items)
        invariant i == 2 ==>
                    && was == (origin != -1 && origin in items && origin != client)
                    && heap == CloseIf(CloseIf(memory, origin, client != -1 && client in items), origin, was)
      {
        was := Close(fds[i], origin);
        i := i + 1;
      }
      assert items - {client} - {origin} == items - {client, origin};
      assert openBefore - {client} - {origin} == openBefore - {client, origin};
    }

    /**
     * socks5_done: both descriptors are unregistered and closed, the memory is
     * freed or not as toFree says, and a relay that ended is counted.
     */
    method Finish(client: int, origin: int, status: byte, ghost rest: Session)
      requires Valid() && rest.clientFd == client && rest.originFd == origin && rest.status == status
      modifies this`open, this`metrics, this`heap, selector, selector.fds
      ensures Valid() && selector.fds == old(selector.fds)
      ensures Seen(rest.(live := false, ended := status == R.CLOSE)) == Spec.Finish(old(Seen(rest)))
    {
      hide Selector.Items, Buffer.View, Buffer.Valid, Selector.Valid, CloseIf, Touch;
      if status == R.CLOSE {
        metrics := metrics.(current := metrics.current - 1);
      }
      heap := Touch(heap);
      var was := CloseBoth(client, origin);
      heap := heap.(watched := was);
    }

    /** The kernel opened a descriptor, one that was not open if it keeps its side. */
    ghost method Opened(fd: int, rest: Session)
      requires Valid()
      modifies this`open, this`honest
      ensures Valid()
      ensures var c := old(Seen(rest)); Seen(rest) == Doubt(c.(open := c.open + {fd}), fd >= 0 && fd !in c.open)
    {
      hide Buffer.View, Buffer.Valid, Selector.Valid, Selector.Items;
      honest := honest && fd >= 0 && fd !in open;
      open := open + {fd};
    }
  }

  /** struct hello_data. */
  class HelloData {
    const ch: Channel
    const parser: H.Parser

    constructor (ch: Channel)
      ensures this.ch == ch && fresh(parser) && parser.Value() == H.START
    {
      this.ch := ch;
      parser := new H.Parser();
    }

    ghost function Seen(rest: Session): Context
      requires ch.Valid()
      reads this, parser, ch, ch.rb, ch.rb.data, ch.wb, ch.wb.data, ch.selector, ch.selector.fds
    {
      ch.Seen(rest.(hello := parser.Value()))
    }

    method Consume(ghost rest: Session) returns (st: H.State)
      requires ch.Valid()
      modifies ch`script, ch.rb, ch.rb.data, parser
      ensures ch.Valid() && Seen(rest) == TakeHello(old(Seen(rest))) && st == Seen(rest).s.hello.state
    {
      hide Buffer.View, Buffer.Valid, Selector.Valid, Selector.Items, H.Parse, Consumed, Fifo.Take, Gone;
      ghost var p, v := parser.Value(), ch.rb.View();
      parser.ConsumeBuffer(ch.config.auth, ch.rb);
      H.ConsumedParses(ch.config.auth, p, v, parser.Value(), ch.rb.View());
      ch.script := ch.script.(greeting := ch.script.greeting + Gone(v, H.Parse(ch.config.auth, p, v.contents).1));
      st := parser.state;
    }

    method Reply(ghost rest: Session) returns (ok: bool)
      requires ch.Valid()
      modifies ch.wb, ch.wb.data
      ensures ch.Valid() && ok == (Fifo.Room(old(Seen(rest)).s.wb) >= 2)
      ensures Seen(rest) == if ok then Append(old(Seen(rest)), H.Reply(Seen(rest).s.hello.selected)) else old(Seen(rest))
    {
      hide Buffer.View, Buffer.Valid, Selector.Valid, Selector.Items;
      var n := H.Marshall(ch.wb, parser.selected);
      ok := n != -1;
    }

    /** recv and hello_consume. */
    method Hear(r: Recv, ghost rest: Session) returns (st: H.State)
      requires ch.Valid() && (r.Got? ==> 0 < |r.octets| <= Fifo.Room(ch.rb.View()))
      modifies ch`script, ch.rb, ch.rb.data, parser
      ensures ch.Valid() && Seen(rest) == TakeHello(Spec.Receive(old(Seen(rest)), r)) && st == Seen(rest).s.hello.state
    {
      hide Channel.Seen, Channel.Valid, Spec.Receive, TakeHello;
      ch.Receive(r, rest.(hello := parser.Value()));
      st := Consume(rest);
    }

    method HelloRead(key: int, r: Recv, ghost rest: Session) returns (st: State)
      requires ch.Valid() && (r.Got? ==> 0 < |r.octets| <= Fifo.Room(ch.rb.View()))
      modifies ch`anomalies, ch`script, ch.rb, ch.rb.data, ch.wb, ch.wb.data, ch.selector, ch.selector.fds, parser
      ensures ch.Valid() && ch.selector.fds == old(ch.selector.fds)
      ensures Next(Seen(rest), st) == OnHelloRead(old(Seen(rest)), key, r)
    {
      if !r.Got? {
        return Error;
      }
      hide Channel.Seen, Channel.Valid, Spec.Receive, TakeHello, SetInterestOf, Append, H.Reply, Fifo.Room;
      var p := Hear(r, rest);
      if p != H.Done && p != H.BadVersion {
        return Error;
      }
      var ok := ch.SetInterest(key, WRITE, rest.(hello := parser.Value()));
      if !ok {
        return Error;
      }
      ok := Reply(rest);
      if !ok || p == H.BadVersion {
        return Error;
      }
      return State.HelloWrite;
    }

    method HelloWrite(key: int, n: int, ghost rest: Session) returns (st: State)
      requires ch.Valid() && n <= |ch.wb.View().contents|
      modifies ch`anomalies, ch`script, ch.wb, ch.wb.data, ch.selector, ch.selector.fds
      ensures ch.Valid() && ch.selector.fds == old(ch.selector.fds)
      ensures Next(Seen(rest), st) == OnHelloWrite(old(Seen(rest)), key, n)
    {
      if n < 0 {
        return Error;
      }
      hide Channel.Valid, SetInterestOf;
      ghost var whole := rest.(hello := parser.Value());
      var more := ch.Send(n, whole);
      if more {
        return State.HelloWrite;
      }
      var ok := ch.SetInterest(key, READ, whole);
      if !ok {
        return Error;
      }
      if parser.selected == H.USER_PASS && ch.config.auth {
        return State.AuthRead;
      } else if parser.selected == H.NO_AUTH && !ch.config.auth {
        return State.RequestRead;
      } else {
        return Done;
      }
    }
  }

  /** checkUser. */
  method CheckCredentials(users: Users, user: seq<byte>, pass: seq<byte>) returns (found: bool)
    ensures found == ((user, pass) in users)
  {
    var i := 0;
    while i < |users|
      invariant i <= |users| && (user, pass) !in users[..i]
    {
      if users[i].0 == user {
        if users[i].1 == pass {
          return true;
        }
      }
      i := i + 1;
    }
    assert users[..i] == users;
    return false;
  }

  /** struct auth_data. */
  class AuthData {
    const ch: Channel
    const parser: A.Parser
    var status: byte

    constructor (ch: Channel)
      requires ch.Valid()
      ensures this.ch == ch && fresh(parser) && fresh(parser.username) && fresh(parser.passwd)
      ensures Valid() && parser.Value() == A.START
    {
      this.ch := ch;
      parser := new A.Parser();
      status := A.FAIL;
    }

    ghost predicate Valid()
      reads this, parser, parser.username, parser.passwd
      reads ch, ch.rb, ch.rb.data, ch.wb, ch.wb.data, ch.selector, ch.selector.fds
    {
      && ch.Valid() && parser.Valid()
      && ch.rb.data != parser.username && ch.rb.data != parser.passwd
      && ch.wb.data != parser.username && ch.wb.data != parser.passwd
    }

    ghost function Seen(rest: Session): Context
      requires Valid()
      reads this, parser, parser.username, parser.passwd
      reads ch, ch.rb, ch.rb.data, ch.wb, ch.wb.data, ch.selector, ch.selector.fds
    {
      ch.Seen(rest.(auth := parser.Value(), authStatus := status))
    }

    method Receive(r: Recv, ghost rest: Session)
      requires Valid() && (r.Got? ==> 0 < |r.octets| <= Fifo.Room(ch.rb.View()))
      modifies ch`script, ch.rb, ch.rb.data
      ensures Valid() && Seen(rest) == Spec.Receive(old(Seen(rest)), r)
    {
      hide Channel.Seen, Channel.Valid, Spec.Receive, A.Parser.Valid, A.Parser.Value;
      ch.Receive(r, rest.(auth := parser.Value(), authStatus := status));
    }

    method Consume(ghost rest: Session) returns (st: A.State)
      requires Valid()
      modifies ch`script, ch.rb, ch.rb.data, parser, parser.username, parser.passwd
      ensures Valid() && Seen(rest) == TakeCredentials(old(Seen(rest))) && st == Seen(rest).s.auth.state
    {
      hide Buffer.View, Buffer.Valid, Selector.Valid, Selector.Items, A.Parse, Consumed, Fifo.Take, Gone;
      hide A.Parser.Valid;
      ghost var p, v := parser.Value(), ch.rb.View();
      parser.ConsumeBuffer(ch.rb);
      A.ConsumedParses(p, v, parser.Value(), ch.rb.View());
      ch.script := ch.script.(credentials := ch.script.credentials + Gone(v, A.Parse(p, v.contents).1));
      st := parser.state;
    }

    method SetInterest(key: int, i: Interest, ghost rest: Session) returns (ok: bool)
      requires Valid()
      modifies ch`anomalies, ch.selector, ch.selector.fds
      ensures Valid() && ch.selector.fds == old(ch.selector.fds)
      ensures (Seen(rest), ok) == SetInterestOf(old(Seen(rest)), key, i)
    {
      hide Channel.Seen, Channel.Valid, SetInterestOf, A.Parser.Valid, A.Parser.Value;
      ok := ch.SetInterest(key, i, rest.(auth := parser.Value(), authStatus := status));
    }

    /** check_credentials. */
    method Check(ghost rest: Session)
      requires Valid() && A.IsDone(Seen(rest).s.auth)
      modifies this`status
      ensures Valid()
      ensures var c := old(Seen(rest));
              && Seen(rest) == WithVerdict(c, status)
              && status == if CheckUser(c.config.users, c.s.auth.user, c.s.auth.pass) then A.SUCCESS else A.FAIL
    {
      hide Channel.Valid, A.Parser.Valid, A.Parser.Value;
      parser.StoredStrings();
      var found := CheckCredentials(ch.config.users, CString(parser.username[..]), CString(parser.passwd[..]));
      status := if found then A.SUCCESS else A.FAIL;
    }

    method Reply(ghost rest: Session) returns (ok: bool)
      requires Valid()
      modifies ch.wb, ch.wb.data
      ensures Valid() && ok == (Fifo.Room(old(Seen(rest)).s.wb) >= 2)
      ensures Seen(rest) == if ok then Append(old(Seen(rest)), A.Reply(status)) else old(Seen(rest))
    {
      hide Buffer.View, Buffer.Valid, Selector.Valid, Selector.Items, A.Parser.Valid, A.Parser.Value;
      var n := A.Marshall(ch.wb, status);
      ok := n != -1;
    }

    /** recv and auth_consume. */
    method Hear(r: Recv, ghost rest: Session) returns (st: A.State)
      requires Valid() && (r.Got? ==> 0 < |r.octets| <= Fifo.Room(ch.rb.View()))
      modifies ch`script, ch.rb, ch.rb.data, parser, parser.username, parser.passwd
      ensures Valid() && Seen(rest) == TakeCredentials(Spec.Receive(old(Seen(rest)), r)) && st == Seen(rest).s.auth.state
    {
      hide Seen, Valid, Spec.Receive, TakeCredentials;
      Receive(r, rest);
      st := Consume(rest);
    }

    /** auth_process. */
    method Process(ghost rest: Session) returns (ok: bool)
      requires Valid() && A.IsDone(Seen(rest).s.auth)
      modifies this`status, ch.wb, ch.wb.data
      ensures Valid()
      ensures var c := old(Seen(rest));
              var verdict := if CheckUser(c.config.users, c.s.auth.user, c.s.auth.pass) then A.SUCCESS else A.FAIL;
              var c4 := WithVerdict(c, verdict);
              && ok == (Fifo.Room(c4.s.wb) >= 2)
              && Seen(rest) == if ok then Append(c4, A.Reply(verdict)) else c4
    {
      hide Seen, Valid, CheckUser;
      Check(rest);
      ok := Reply(rest);
    }

    method Answer(key: int, p: A.State, ghost rest: Session) returns (st: State)
      requires Valid() && A.IsDone(Seen(rest).s.auth) && p == Seen(rest).s.auth.state
      modifies this`status, ch`anomalies, ch.wb, ch.wb.data, ch.selector, ch.selector.fds
      ensures Valid() && ch.selector.fds == old(ch.selector.fds)
      ensures Next(Seen(rest), st) == AnswerCredentials(old(Seen(rest)), key)
    {
      hide Seen, Valid, SetInterestOf, Append, A.Reply, Fifo.Room, CheckUser;
      var ok := SetInterest(key, WRITE, rest);
      if !ok {
        return Error;
      }
      ok := Process(rest);
      if !ok || p != A.Done {
        return Error;
      }
      return State.AuthWrite;
    }

    method AuthRead(key: int, r: Recv, ghost rest: Session) returns (st: State)
      requires Valid() && (r.Got? ==> 0 < |r.octets| <= Fifo.Room(ch.rb.View()))
      modifies this`status, ch`anomalies, ch`script, ch.rb, ch.rb.data, ch.wb, ch.wb.data, ch.selector, ch.selector.fds
      modifies parser, parser.username, parser.passwd
      ensures Valid() && ch.selector.fds == old(ch.selector.fds)
      ensures Next(Seen(rest), st) == OnAuthRead(old(Seen(rest)), key, r)
    {
      if r.Failed? {
        return Error;
      }
      hide Seen, Valid, Spec.Receive, TakeCredentials, AnswerCredentials;
      var p := Hear(r, rest);
      if p == A.Done || p == A.BadVersion || p == A.Error || p == A.BadUserLen || p == A.BadPassLen {
        st := Answer(key, p, rest);
      } else {
        st := State.AuthRead;
      }
    }

    method AuthWrite(key: int, n: int, ghost rest: Session) returns (st: State)
      requires Valid() && n <= |ch.wb.View().contents|
      modifies ch`anomalies, ch`script, ch.wb, ch.wb.data, ch.selector, ch.selector.fds
      ensures Valid() && ch.selector.fds == old(ch.selector.fds)
      ensures Next(Seen(rest), st) == OnAuthWrite(old(Seen(rest)), key, n)
    {
      if n < 0 {
        return Error;
      }
      hide Channel.Valid, A.Parser.Valid, A.Parser.Value, SetInterestOf;
      ghost var whole := rest.(auth := parser.Value(), authStatus := status);
      var more := ch.Send(n, whole);
      if more {
        return State.AuthWrite;
      }
      if status != A.SUCCESS {
        return Done;
      }
      var ok := ch.SetInterest(key, READ, whole);
      return if ok then State.RequestRead else Error;
    }
  }
}
