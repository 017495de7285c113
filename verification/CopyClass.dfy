/** src/socks5_copy.c in memory: the relay between the client and the origin server. */
module CopyClass {
  import opened Bytes
  import opened BufferModule
  import opened SelectorModule
  import opened SelectorClass
  import opened Session
  import opened SessionClass
  import Spec = Session
  import Fifo
  import R = RequestParser

  /**
   * The two struct copy_data of a session: the client's reads into rb and writes
   * from wb, the origin's the other way round.
   */
  class CopyData {
    const ch: Channel
    const client_fd: int
    const final_server_fd: int
    var status: byte
    var client: Interest
    var server: Interest
    ghost var relay: Relay

    /** copy_init. */
    constructor (ch: Channel, client_fd: int, final_server_fd: int, status: byte)
      requires ch.Valid()
      ensures this.ch == ch && this.client_fd == client_fd && this.final_server_fd == final_server_fd && this.status == status
      ensures client == server == Interest(true, true)
      ensures relay == NO_RELAY.(leftUp := ch.rb.View().contents, leftDown := ch.wb.View().contents)
    {
      this.ch, this.client_fd, this.final_server_fd, this.status := ch, client_fd, final_server_fd, status;
      client, server := Interest(true, true), Interest(true, true);
      relay := NO_RELAY.(leftUp := ch.rb.View().contents, leftDown := ch.wb.View().contents);
    }

    ghost function Whole(rest: Session): Session
      reads this
    {
      rest.(clientFd := client_fd, originFd := final_server_fd, status := status,
            clientCopy := client, originCopy := server, relay := relay)
    }

    ghost function Seen(rest: Session): Context
      requires ch.Valid()
      reads this, ch, ch.rb, ch.rb.data, ch.wb, ch.wb.data, ch.selector, ch.selector.fds
    {
      ch.Seen(Whole(rest))
    }

    /** The buffer a side reads into; the other side writes from it. */
    function In(isClient: bool): Buffer { if isClient then ch.rb else ch.wb }

    // ----- single steps

    /** The octets recv left at the write pointer become readable. */
    method Fill(isClient: bool, octets: seq<byte>, ghost rest: Session)
      requires ch.Valid() && |octets| <= Fifo.Room(In(isClient).View())
      modifies In(isClient), In(isClient).data
      ensures ch.Valid()
      ensures var c := old(Seen(rest));
              Seen(rest) == c.(s := if isClient then c.s.(rb := Fifo.Put(c.s.rb, octets))
                                    else c.s.(wb := Fifo.Put(c.s.wb, octets)))
    {
      hide Selector.Valid, Selector.Items, Buffer.Valid, Buffer.View, Fifo.Put;
      var buff := In(isClient);
      buff.Append(octets);
    }

    /** recv on one side. */
    method Receive(isClient: bool, octets: seq<byte>, ghost rest: Session)
      requires ch.Valid() && 0 < |octets| <= Fifo.Room(In(isClient).View())
      modifies this`relay, ch`metrics, ch`script, In(isClient), In(isClient).data
      ensures ch.Valid()
      ensures var c := old(Seen(rest));
              Seen(rest) == if isClient then ReceiveFromClient(c, octets) else ReceiveFromOrigin(c, octets)
    {
      SeenMasks(rest);
      hide Seen, Channel.Valid, Fifo.Put;
      Fill(isClient, octets, rest);
      Record(if isClient then relay.(fromClient := relay.fromClient + octets)
             else relay.(fromOrigin := relay.fromOrigin + octets),
             if isClient then Hear(ch.script, octets) else ch.script, rest);
      if isClient {
        Count(ch.metrics.(sent := ch.metrics.sent + |octets|), rest);
      }
    }

    /** send on one side. */
    method Send(isClient: bool, n: nat, ghost rest: Session)
      requires ch.Valid() && n <= |In(!isClient).View().contents|
      modifies this`relay, ch`metrics, ch`script, In(!isClient), In(!isClient).data
      ensures ch.Valid()
      ensures var c := old(Seen(rest));
              Seen(rest) == if isClient then SendToClient(c, n) else SendToOrigin(c, n)
    {
      SeenMasks(rest);
      ghost var sent := In(!isClient).View().contents[..n];
      hide Seen, Channel.Valid, Fifo.Take;
      Empty(isClient, n, rest);
      Record(if isClient then relay.(toClient := relay.toClient + sent) else relay.(toOrigin := relay.toOrigin + sent),
             if isClient then Tell(ch.script, sent) else ch.script, rest);
      if isClient {
        Count(ch.metrics.(received := ch.metrics.received + n), rest);
      }
    }

    /** The octets that were sent leave the buffer. */
    method Empty(isClient: bool, n: nat, ghost rest: Session)
      requires ch.Valid() && n <= |In(!isClient).View().contents|
      modifies In(!isClient), In(!isClient).data
      ensures ch.Valid()
      ensures var c := old(Seen(rest));
              Seen(rest) == c.(s := if isClient then c.s.(wb := Fifo.Take(c.s.wb, n)) else c.s.(rb := Fifo.Take(c.s.rb, n)))
    {
      hide Selector.Valid, Selector.Items, Fifo.Take;
      var buff := In(!isClient);
      buff.ReadAdv(n);
    }

    /** The two histories. */
    ghost method Record(relay: Relay, script: Script, rest: Session)
      requires ch.Valid()
      modifies this`relay, ch`script
      ensures ch.Valid()
      ensures var c := old(Seen(rest)); Seen(rest) == c.(s := c.s.(relay := relay, script := script))
    {
      hide Selector.Valid, Selector.Items, Buffer.Valid, Buffer.View;
      this.relay := relay;
      ch.script := script;
    }

    /** add_sent_byte or add_received_bytes. */
    method Count(metrics: Metrics, ghost rest: Session)
      requires ch.Valid()
      modifies ch`metrics
      ensures ch.Valid() && Seen(rest) == old(Seen(rest)).(metrics := metrics)
    {
      hide Selector.Valid, Selector.Items, Buffer.Valid, Buffer.View;
      ch.metrics := metrics;
    }

    ghost method Stir(rest: Session)
      requires ch.Valid()
      modifies this`relay
      ensures var c := old(Seen(rest)); Seen(rest) == c.(s := Spec.Stir(c.s))
    {
      hide Channel.Valid, Buffer.View;
      relay := relay.(stirred := true);
    }

    /** The end of one direction: that side and its peer lose one bit of their masks each. */
    method Shut(isClient: bool, reading: bool, ghost rest: Session)
      requires ch.Valid()
      modifies this`status, this`client, this`server
      ensures var c := old(Seen(rest));
              Seen(rest) == c.(s := if reading then ShutRead(c.s, isClient) else ShutWrite(c.s, isClient))
    {
      SeenMasks(rest);
      hide Channel.Valid, Seen;
      var c, v := client, server;
      if isClient {
        c := if reading then c.(read := false) else c.(write := false);
        if final_server_fd != -1 {
          v := if reading then v.(write := false) else v.(read := false);
        }
      } else {
        v := if reading then v.(read := false) else v.(write := false);
        if client_fd != -1 {
          c := if reading then c.(write := false) else c.(read := false);
        }
      }
      SetMasks(c, v, rest);
    }

    method SetMasks(c: Interest, v: Interest, ghost rest: Session)
      requires ch.Valid()
      modifies this`status, this`client, this`server
      ensures var w := old(Seen(rest));
              Seen(rest) == w.(s := w.s.(status := R.CLOSE, clientCopy := c, originCopy := v))
    {
      hide Channel.Valid, Buffer.View;
      status, client, server := R.CLOSE, c, v;
    }

    method SetInterest(fd: int, i: Interest, ghost rest: Session)
      requires ch.Valid()
      modifies ch`anomalies, ch.selector, ch.selector.fds
      ensures ch.Valid() && ch.selector.fds == old(ch.selector.fds)
      ensures Seen(rest) == SetInterestOf(old(Seen(rest)), fd, i).0
    {
      hide Channel.Valid, Channel.Seen, SetInterestOf;
      var ok := ch.SetInterest(fd, i, Whole(rest));
    }

    /** The part of a side's mask that its buffers allow. */
    method Allowed(isClient: bool, ghost rest: Session) returns (ret: Interest)
      requires ch.Valid()
      ensures ret == if isClient then ClientWants(Seen(rest).s) else OriginWants(Seen(rest).s)
    {
      SeenMasks(rest);
      hide Seen, Selector.Valid, Buffer.Valid, Buffer.View, Fifo.CanRead, Fifo.CanWrite;
      var room, waiting: bool;
      if isClient {
        room := ch.rb.CanWrite();
        waiting := ch.wb.CanRead();
        ret := Interest(client.read && room, client.write && waiting);
      } else {
        room := ch.wb.CanWrite();
        waiting := ch.rb.CanRead();
        ret := Interest(server.read && room, server.write && waiting);
      }
    }

    /** copy_determine_interests. */
    method DetermineInterests(isClient: bool, ghost rest: Session)
      requires ch.Valid()
      modifies ch`anomalies, ch.selector, ch.selector.fds
      ensures ch.Valid() && ch.selector.fds == old(ch.selector.fds)
      ensures Seen(rest) == SettleSide(old(Seen(rest)), isClient)
    {
      SeenMasks(rest);
      hide Seen, Channel.Valid, SetInterestOf, ClientWants, OriginWants;
      var ret := Allowed(isClient, rest);
      SetInterest(if isClient then client_fd else final_server_fd, ret, rest);
    }

    /** The common end of copy_read and copy_write. */
    method Settle(isClient: bool, st: State, ghost rest: Session) returns (next: State)
      requires ch.Valid()
      modifies ch`anomalies, ch.selector, ch.selector.fds
      ensures ch.Valid() && ch.selector.fds == old(ch.selector.fds)
      ensures Next(Seen(rest), next) == Spec.Settle(old(Seen(rest)), isClient, st)
    {
      SeenMasks(rest);
      hide Seen, Channel.Valid, SettleSide;
      DetermineInterests(isClient, rest);
      DetermineInterests(!isClient, rest);
      return if (if isClient then client else server) == NOOP then Done else st;
    }

    lemma SeenMasks(rest: Session)
      requires ch.Valid()
      ensures var s := Seen(rest).s;
              && s.clientCopy == client && s.originCopy == server && s.clientFd == client_fd && s.originFd == final_server_fd
              && s.rb == ch.rb.View() && s.wb == ch.wb.View() && s.relay == relay && s.script == ch.script
              && Seen(rest).metrics == ch.metrics
    {
      hide Channel.Valid, Buffer.View;
    }

    // ----- the callbacks

    method CopyRead(key: int, r: Recv, ghost rest: Session) returns (st: State)
      requires ch.Valid() && (r.Got? ==> 0 < |r.octets| <= Fifo.Room(In(key == client_fd).View()))
      modifies this`relay, this`status, this`client, this`server
      modifies ch`metrics, ch`anomalies, ch`script, ch.rb, ch.rb.data, ch.wb, ch.wb.data, ch.selector, ch.selector.fds
      ensures ch.Valid() && ch.selector.fds == old(ch.selector.fds)
      ensures Next(Seen(rest), st) == OnCopyRead(old(Seen(rest)), key, r)
    {
      SeenMasks(rest);
      hide Seen, Channel.Valid, Spec.Settle, ReceiveFromClient, ReceiveFromOrigin, ShutRead, Spec.Stir;
      var isClient := key == client_fd;
      Stir(rest);
      if r.Got? {
        Receive(isClient, r.octets, rest);
        st := Settle(isClient, State.Copy, rest);
      } else {
        Shut(isClient, true, rest);
        st := Settle(isClient, Done, rest);
      }
    }

    method CopyWrite(key: int, n: int, ghost rest: Session) returns (st: State)
      requires ch.Valid() && n <= |In(key != client_fd).View().contents|
      modifies this`relay, this`status, this`client, this`server
      modifies ch`metrics, ch`anomalies, ch`script, ch.rb, ch.rb.data, ch.wb, ch.wb.data, ch.selector, ch.selector.fds
      ensures ch.Valid() && ch.selector.fds == old(ch.selector.fds)
      ensures Next(Seen(rest), st) == OnCopyWrite(old(Seen(rest)), key, n)
    {
      SeenMasks(rest);
      hide Seen, Channel.Valid, Spec.Settle, SendToClient, SendToOrigin, ShutWrite, Spec.Stir;
      var isClient := key == client_fd;
      Stir(rest);
      if n >= 0 {
        Send(isClient, n, rest);
        st := Settle(isClient, State.Copy, rest);
      } else {
        Shut(isClient, false, rest);
        st := Settle(isClient, Done, rest);
      }
    }
  }
}
