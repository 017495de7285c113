/** src/socks5_request.c in memory: request_read to request_write, with the recursive connect. */
module RequestClass {
  import opened Bytes
  import opened ByteMachine
  import opened BufferModule
  import opened SelectorModule
  import opened SelectorClass
  import opened Session
  import opened SessionClass
  import Spec = Session
  import Fifo
  import R = RequestParser

  /** struct request_data with the fields of struct socks5 its pointers lead to. */
  class RequestData {
    const ch: Channel
    const parser: R.Parser
    var client_fd: int
    var final_server_fd: int
    var status: byte
    var resolution: Resolution
    ghost var connected: bool

    /** request_init on a session that has no origin socket yet. */
    constructor (ch: Channel, client: int)
      requires ch.Valid()
      ensures this.ch == ch && fresh(parser) && fresh(parser.addr) && fresh(parser.port)
      ensures Valid() && parser.Value() == R.START
      ensures client_fd == client && final_server_fd == -1 && status == R.CONNECTING
      ensures resolution == Resolution(0, 0, 0) && !connected
    {
      this.ch := ch;
      parser := new R.Parser();
      client_fd, final_server_fd, status, resolution := client, -1, R.CONNECTING, Resolution(0, 0, 0);
      connected := false;
    }

    ghost predicate Valid()
      reads this, parser, parser.addr, parser.port, ch, ch.rb, ch.rb.data, ch.wb, ch.wb.data, ch.selector, ch.selector.fds
    {
      && ch.Valid() && parser.Valid()
      && ch.rb.data != parser.addr && ch.rb.data != parser.port
      && ch.wb.data != parser.addr && ch.wb.data != parser.port
    }

    /** The whole session, this phase's fields in their place. */
    ghost function Whole(rest: Session): Session
      requires Valid()
      reads this, parser, parser.addr, parser.port, ch, ch.rb, ch.rb.data, ch.wb, ch.wb.data, ch.selector, ch.selector.fds
    {
      rest.(clientFd := client_fd, originFd := final_server_fd, status := status,
            request := parser.Value(), resolution := resolution, connected := connected)
    }

    ghost function Seen(rest: Session): Context
      requires Valid()
      reads this, parser, parser.addr, parser.port, ch, ch.rb, ch.rb.data, ch.wb, ch.wb.data, ch.selector, ch.selector.fds
    {
      ch.Seen(Whole(rest))
    }

    // ----- single steps

    method Receive(r: Recv, ghost rest: Session)
      requires Valid() && (r.Got? ==> 0 < |r.octets| <= Fifo.Room(ch.rb.View()))
      modifies ch`script, ch.rb, ch.rb.data
      ensures Valid() && Seen(rest) == Spec.Receive(old(Seen(rest)), r)
    {
      hide Channel.Seen, Channel.Valid, Spec.Receive, R.Parser.Valid, R.Parser.Value;
      ch.Receive(r, Whole(rest));
    }

    method Consume(ghost rest: Session) returns (st: R.State)
      requires Valid()
      modifies ch`script, ch.rb, ch.rb.data, parser, parser.addr, parser.port
      ensures Valid() && Seen(rest) == TakeRequest(old(Seen(rest))) && st == Seen(rest).s.request.state
    {
      hide Buffer.View, Buffer.Valid, Selector.Valid, Selector.Items, R.Parser.Valid, R.Parser.Value;
      hide R.Parse, Consumed, Fifo.Take, Gone;
      ghost var p, v := parser.Value(), ch.rb.View();
      parser.ConsumeBuffer(ch.rb);
      R.ConsumedParses(p, v, parser.Value(), ch.rb.View());
      ch.script := ch.script.(order := ch.script.order + Gone(v, R.Parse(p, v.contents).1));
      st := StateOf(rest);
    }

    method StateOf(ghost rest: Session) returns (st: R.State)
      requires Valid()
      ensures st == Seen(rest).s.request.state
    {
      hide Buffer.View, Buffer.Valid, Selector.Valid, Selector.Items, R.Parser.Valid;
      st := parser.state;
    }

    method SetInterest(fd: int, i: Interest, ghost rest: Session) returns (ok: bool)
      requires Valid()
      modifies ch`anomalies, ch.selector, ch.selector.fds
      ensures Valid() && ch.selector.fds == old(ch.selector.fds)
      ensures (Seen(rest), ok) == SetInterestOf(old(Seen(rest)), fd, i)
    {
      hide Channel.Seen, Channel.Valid, SetInterestOf, R.Parser.Valid, R.Parser.Value;
      ok := ch.SetInterest(fd, i, Whole(rest));
    }

    method SetStatus(st: byte, ghost rest: Session)
      requires Valid()
      modifies this`status
      ensures Valid() && Seen(rest) == WithStatus(old(Seen(rest)), st)
    {
      hide Buffer.View, Buffer.Valid, Selector.Valid, Selector.Items, R.Parser.Valid, R.Parser.Value;
      status := st;
    }

    /** request_marshalll: true when the reply fitted. */
    method Reply(ghost rest: Session) returns (ok: bool)
      requires Valid() && Seen(rest).s.request.state.Done?
      modifies ch.wb, ch.wb.data
      ensures Valid()
      ensures var c := old(Seen(rest));
              var reply := R.Reply(c.s.status, c.s.request);
              ok == (Fifo.Room(c.s.wb) >= |reply|) && Seen(rest) == if ok then Append(c, reply) else c
    {
      hide Buffer.View, Buffer.Valid, Selector.Valid, Selector.Items, R.Parser.Valid, R.Reply;
      var n := parser.Marshall(ch.wb, status);
      ok := n != -1;
    }

    /** next_ip. */
    method NextIp(ghost rest: Session) returns (ok: bool)
      requires Valid()
      modifies this`resolution
      ensures Valid() && ok == HasNext(old(Seen(rest)).s.resolution) == HasNext(old(resolution))
      ensures resolution == if ok then old(resolution).(current := old(resolution).current + 1) else old(resolution)
      ensures Seen(rest) == if ok then Advance(old(Seen(rest))) else old(Seen(rest))
    {
      hide Buffer.View, Buffer.Valid, Selector.Valid, Selector.Items, R.Parser.Valid, R.Parser.Value;
      if resolution.addresses == 0 || resolution.current + 1 >= resolution.addresses {
        return false;
      }
      resolution := resolution.(current := resolution.current + 1);
      return true;
    }

    /** The first lines of request_connect: the old origin socket is given up. */
    method Drop(ghost rest: Session)
      requires Valid()
      modifies ch`open, ch`heap, ch.selector, ch.selector.fds
      ensures Valid() && ch.selector.fds == old(ch.selector.fds)
      ensures Seen(rest) == DropOrigin(old(Seen(rest)))
    {
      hide Channel.Seen, Channel.Valid, R.Parser.Valid, R.Parser.Value, AfterUnregister;
      ghost var c := Seen(rest);
      assert c.s.originFd == final_server_fd && c.open == ch.open by { SeenFds(rest); }
      if final_server_fd != -1 {
        ch.Release(final_server_fd, Whole(rest));
      }
    }

    /** socket(). */
    method Open(socket: Socket, ghost rest: Session)
      requires Valid()
      modifies this`final_server_fd, this`resolution, ch`open, ch`honest
      ensures Valid() && final_server_fd == socket.fd
      ensures Seen(rest) == OpenOrigin(old(Seen(rest)), socket)
      ensures resolution == old(resolution).(attempts := old(resolution).attempts + 1)
    {
      hide Channel.Seen, Channel.Valid, R.Parser.Valid, R.Parser.Value;
      ghost var c := Seen(rest);
      Attempt(socket.fd, rest);
      if socket.fd != -1 {
        ch.Opened(socket.fd, Whole(rest));
      }
    }

    /** The descriptor is stored, whatever it is. */
    method Attempt(fd: int, ghost rest: Session)
      requires Valid()
      modifies this`final_server_fd, this`resolution
      ensures Valid() && final_server_fd == fd && resolution == old(resolution).(attempts := old(resolution).attempts + 1)
      ensures var c := old(Seen(rest));
              && Seen(rest) == c.(s := c.s.(originFd := fd, resolution := resolution))
              && c.s.resolution == old(resolution)
    {
      hide Buffer.View, Buffer.Valid, Selector.Valid, Selector.Items, R.Parser.Valid, R.Parser.Value;
      final_server_fd := fd;
      resolution := resolution.(attempts := resolution.attempts + 1);
    }

    /** connect() is pending. */
    method Pending(ghost rest: Session) returns (st: State)
      requires Valid()
      modifies ch`anomalies, ch.selector, ch.selector.fds
      ensures Valid() && ch.selector.fds == old(ch.selector.fds)
      ensures Next(Seen(rest), st) == OnConnectPending(old(Seen(rest)))
    {
      hide Channel.Seen, Channel.Valid, SetInterestOf, RegisterOrigin, R.Parser.Valid, R.Parser.Value;
      ghost var c := Seen(rest);
      assert c.s.originFd == final_server_fd && c.s.clientFd == client_fd by { SeenFds(rest); }
      var ok := ch.Register(final_server_fd, Whole(rest));
      if !ok {
        return Error;
      }
      ok := ch.SetInterest(client_fd, NOOP, Whole(rest));
      return if ok then State.RequestConnecting else Error;
    }

    lemma SeenFds(rest: Session)
      requires Valid()
      ensures var s := Seen(rest).s;
              && Seen(rest).open == ch.open
              && s.originFd == final_server_fd && s.clientFd == client_fd && s.status == status && s.resolution == resolution
              && s.wb == ch.wb.View() && s.rb == ch.rb.View() && s.state == rest.state
    {
    }

    /** No address is left: the client is told. */
    method Refused(ghost rest: Session) returns (st: State)
      requires Valid() && Seen(rest).s.request.state.Done?
      modifies ch`anomalies, ch.wb, ch.wb.data, ch.selector, ch.selector.fds
      ensures Valid() && ch.selector.fds == old(ch.selector.fds)
      ensures Next(Seen(rest), st) == OnConnectRefused(old(Seen(rest)))
    {
      hide Seen, Valid, SetInterestOf, R.Reply, Fifo.Room;
      SeenFds(rest);
      var fits := Reply(rest);
      var ok := SetInterest(client_fd, WRITE, rest);
      return if ok && fits then State.RequestWrite else Error;
    }

    /** request_connect. */
    method Connect(a: Answers, k: nat, ghost rest: Session) returns (st: State)
      requires Valid() && Seen(rest).s.request.state.Done?
      modifies this`final_server_fd, this`status, this`resolution
      modifies ch`open, ch`heap, ch`honest, ch`anomalies, ch.wb, ch.wb.data, ch.selector, ch.selector.fds
      ensures Valid() && ch.selector.fds == old(ch.selector.fds)
      ensures Next(Seen(rest), st) == RequestConnect(old(Seen(rest)), a, k)
      decreases resolution.addresses - resolution.current
    {
      hide Seen, Valid, OpenOrigin, DropOrigin, OnConnectPending, OnConnectRefused;
      var socket := SocketAt(a, k);
      Drop(rest);
      Open(socket, rest);
      if socket.fd == -1 || !socket.nonBlocking {
        return Error;
      }
      match socket.connect {
        case Connected => return Error;
        case InProgress => st := Pending(rest);
        case Refused(e) =>
          Failure(e, rest);
          var more := NextIp(rest);
          if more {
            st := Connect(a, k + 1, rest);
          } else {
            st := Refused(rest);
          }
      }
    }

    /** connect() failed with this errno; it never fails with none. */
    method Failure(e: R.Errno, ghost rest: Session)
      requires Valid()
      modifies this`status, ch`honest
      ensures Valid() && Seen(rest) == WithStatus(Doubt(old(Seen(rest)), e != R.NoError), R.ErrnoToSocks(e))
    {
      hide Seen, Valid, Doubt, WithStatus;
      ghost var c := Seen(rest);
      Doubted(e != R.NoError, rest);
      SetStatus(R.ErrnoToSocks(e), rest);
    }

    /** The kernel's side is kept only if this holds. */
    ghost method Doubted(fact: bool, rest: Session)
      requires Valid()
      modifies ch`honest
      ensures Valid() && Seen(rest) == Doubt(old(Seen(rest)), fact)
    {
      hide Buffer.View, Buffer.Valid, Selector.Valid, Selector.Items, R.Parser.Valid, R.Parser.Value;
      ch.honest := ch.honest && fact;
    }

    // ----- the callbacks

    /** The branches of request_process that only set a status. */
    method Decline(key: int, st: byte, ghost rest: Session) returns (next: State)
      requires Valid()
      modifies this`status, ch`anomalies, ch.selector, ch.selector.fds
      ensures Valid() && ch.selector.fds == old(ch.selector.fds)
      ensures Next(Seen(rest), next) == Spec.Decline(old(Seen(rest)), key, st)
    {
      hide Seen, Valid, SetInterestOf;
      SetStatus(st, rest);
      var ok := SetInterest(key, WRITE, rest);
      return State.RequestWrite;
    }

    /** pthread_create succeeded. */
    method Spawn(key: int, ghost rest: Session) returns (next: State)
      requires Valid()
      modifies ch`threads, ch`anomalies, ch.selector, ch.selector.fds
      ensures Valid() && ch.selector.fds == old(ch.selector.fds)
      ensures Next(Seen(rest), next) == Next(SetInterestOf(Spec.Spawn(old(Seen(rest)), key), key, NOOP).0, RequestResolv)
    {
      hide Buffer.View, Buffer.Valid, Selector.Valid, Selector.Items, R.Parser.Valid, R.Parser.Value, SetInterestOf;
      ghost var c := Seen(rest);
      ch.threads := ch.threads + multiset{Thread(ch.id, key)};
      assert Seen(rest) == Spec.Spawn(c, key);
      var ok := SetInterest(key, NOOP, rest);
      return State.RequestResolv;
    }

    /** request_process. */
    method Process(key: int, a: Answers, ghost rest: Session) returns (st: State)
      requires Valid() && R.Sane(Seen(rest).s.request) && R.IsDone(Seen(rest).s.request)
      modifies this`final_server_fd, this`status, this`resolution
      modifies ch`open, ch`heap, ch`honest, ch`anomalies, ch`threads, ch.wb, ch.wb.data, ch.selector, ch.selector.fds
      ensures Valid() && ch.selector.fds == old(ch.selector.fds)
      ensures Next(Seen(rest), st) == RequestProcess(old(Seen(rest)), key, a)
    {
      SeenHeader(rest);
      hide Seen, Valid, RequestConnect, Spec.Decline, Spec.Spawn, SetInterestOf;
      if parser.cmd == R.CONNECT {
        if parser.atyp == R.IPV4 || parser.atyp == R.IPV6 {
          st := Connect(a, 0, rest);
        } else if parser.atyp == R.DOMAIN {
          if !a.thread {
            st := Decline(key, R.GENERAL_FAILURE, rest);
          } else {
            st := Spawn(key, rest);
          }
        } else {
          st := Decline(key, R.ADDRESS_TYPE_NOT_SUPPORTED, rest);
        }
      } else {
        st := Decline(key, R.COMMAND_NOT_SUPPORTED, rest);
      }
    }

    lemma SeenHeader(rest: Session)
      requires Valid()
      ensures Seen(rest).s.request.cmd == parser.cmd && Seen(rest).s.request.atyp == parser.atyp
    {
    }

    /** recv and request_consume. */
    method ReceiveRequest(r: Recv, ghost rest: Session) returns (st: R.State)
      requires Valid() && (r.Got? ==> 0 < |r.octets| <= Fifo.Room(ch.rb.View()))
      modifies ch`script, ch.rb, ch.rb.data, parser, parser.addr, parser.port
      ensures Valid() && Seen(rest) == TakeRequest(Spec.Receive(old(Seen(rest)), r)) && st == Seen(rest).s.request.state
    {
      hide Seen, Valid, Spec.Receive, TakeRequest;
      Receive(r, rest);
      st := Consume(rest);
    }

    method RequestRead(key: int, a: Answers, ghost rest: Session) returns (st: State)
      requires Valid() && (a.recv.Got? ==> 0 < |a.recv.octets| <= Fifo.Room(ch.rb.View()))
      requires R.Sane(Seen(rest).s.request) && !R.IsDone(Seen(rest).s.request)
      modifies this`final_server_fd, this`status, this`resolution
      modifies ch`open, ch`heap, ch`honest, ch`anomalies, ch`threads, ch`script, ch.rb, ch.rb.data, ch.wb, ch.wb.data
      modifies ch.selector, ch.selector.fds, parser, parser.addr, parser.port
      ensures Valid() && ch.selector.fds == old(ch.selector.fds)
      ensures Next(Seen(rest), st) == OnRequestRead(old(Seen(rest)), key, a)
    {
      if a.recv.Failed? {
        return Error;
      }
      hide Seen, Valid, Spec.Receive, TakeRequest, RequestProcess, R.Sane;
      TakenIsSane(Seen(rest), a.recv);
      var p := ReceiveRequest(a.recv, rest);
      if p == R.Done || p == R.Error || p == R.BadVersion || p == R.BadAtyp || p == R.BadCmd {
        st := Process(key, a, rest);
        if p != R.Done {
          return Error;
        }
        return;
      }
      return State.RequestRead;
    }

    lemma TakenIsSane(c: Context, r: Recv)
      requires R.Sane(c.s.request) && !R.IsDone(c.s.request)
      ensures R.Sane(TakeRequest(Spec.Receive(c, r)).s.request)
    {
      hide R.Parse;
      R.ParseKeepsSane(c.s.request, Spec.Receive(c, r).s.rb.contents);
    }

    /** request_resolv_done. */
    method ResolvDone(a: Answers, ghost rest: Session) returns (st: State)
      requires Valid() && Seen(rest).s.request.state.Done?
      modifies this`final_server_fd, this`status, this`resolution
      modifies ch`open, ch`heap, ch`honest, ch`anomalies, ch.wb, ch.wb.data, ch.selector, ch.selector.fds
      ensures Valid() && ch.selector.fds == old(ch.selector.fds)
      ensures Next(Seen(rest), st) == OnResolved(old(Seen(rest)), a)
    {
      hide Seen, Valid, RequestConnect;
      SeenFds(rest);
      if resolution.addresses == 0 {
        SetStatus(R.GENERAL_FAILURE, rest);
      }
      st := Connect(a, 0, rest);
    }

    /** The connect succeeded. */
    method Succeed(key: int, ghost rest: Session)
      requires Valid()
      modifies this`final_server_fd, this`status, this`connected, ch`metrics
      ensures Valid() && Seen(rest) == OnConnected(old(Seen(rest)), key)
    {
      hide Buffer.View, Buffer.Valid, Selector.Valid, Selector.Items, R.Parser.Valid, R.Parser.Value;
      status := R.SUCCEEDED;
      final_server_fd := key;
      connected := true;
      ch.metrics := ch.metrics.(historic := ch.metrics.historic + 1, current := ch.metrics.current + 1);
    }

    /** The end of request_connecting; abort() leaves the process noted as dead. */
    method Report(key: int, ghost rest: Session) returns (st: State)
      requires Valid() && Seen(rest).s.request.state.Done?
      modifies ch`anomalies, ch.wb, ch.wb.data, ch.selector, ch.selector.fds
      ensures Valid() && ch.selector.fds == old(ch.selector.fds)
      ensures Next(Seen(rest), st) == ReportConnection(old(Seen(rest)), key)
    {
      SeenFds(rest);
      hide Seen, Valid, SetInterestOf, R.Reply, Fifo.Room;
      var fits := Reply(rest);
      if !fits {
        Abort(rest);
        return Error;
      }
      var ok1 := SetInterest(client_fd, WRITE, rest);
      var ok2 := SetInterest(key, NOOP, rest);
      return if ok1 && ok2 then State.RequestWrite else Error;
    }

    method Abort(ghost rest: Session)
      requires Valid()
      modifies ch`anomalies
      ensures Valid() && Seen(rest) == Note(old(Seen(rest)), ReplyTooBig)
    {
      hide Buffer.View, Buffer.Valid, Selector.Valid, Selector.Items, R.Parser.Valid, R.Parser.Value;
      ch.anomalies := ch.anomalies + {ReplyTooBig};
    }

    /** request_connecting. */
    method Connecting(key: int, a: Answers, ghost rest: Session) returns (st: State)
      requires Valid() && Seen(rest).s.request.state.Done?
      modifies this`final_server_fd, this`status, this`resolution, this`connected
      modifies ch`open, ch`heap, ch`honest, ch`anomalies, ch`metrics, ch.wb, ch.wb.data, ch.selector, ch.selector.fds
      ensures Valid() && ch.selector.fds == old(ch.selector.fds)
      ensures Next(Seen(rest), st) == OnConnecting(old(Seen(rest)), key, a)
    {
      hide Seen, Valid, RequestConnect, ReportConnection;
      match a.soError {
        case Unknown => SetStatus(R.GENERAL_FAILURE, rest);
        case Known(e) =>
          if e == R.NoError {
            Succeed(key, rest);
          } else {
            SetStatus(R.ErrnoToSocks(e), rest);
            var more := NextIp(rest);
            if more {
              st := Connect(a, 0, rest);
              return;
            }
          }
      }
      st := Report(key, rest);
    }

    method RequestWrite(n: int, ghost rest: Session) returns (st: State)
      requires Valid() && n <= |ch.wb.View().contents|
      modifies ch`anomalies, ch`script, ch.wb, ch.wb.data, ch.selector, ch.selector.fds
      ensures Valid() && ch.selector.fds == old(ch.selector.fds)
      ensures Next(Seen(rest), st) == OnRequestWrite(old(Seen(rest)), n)
    {
      if n < 0 {
        return Error;
      }
      hide Channel.Valid, R.Parser.Valid, R.Parser.Value, SetInterestOf, Spec.Send;
      var more := ch.Send(n, Whole(rest));
      SeenFds(rest);
      hide Seen, Valid;
      if more {
        return State.RequestWrite;
      }
      var ok: bool;
      if status == R.SUCCEEDED {
        ok := SetInterest(client_fd, READ, rest);
        ok := SetInterest(final_server_fd, READ, rest);
        return State.Copy;
      } else {
        ok := SetInterest(client_fd, NOOP, rest);
        return State.Done;
      }
    }
  }
}
