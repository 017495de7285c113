/** src/buffer.c: a block of memory with a read and a write index. */
module BufferModule {
  import opened Bytes
  import Fifo

  class Buffer {
    const data: array<byte>
    var read: nat
    var write: nat

    ghost predicate Valid()
      reads this, data
    {
      && read <= write <= data.Length
      && (read == write ==> read == 0)
    }

    /** The meaning of the pointers and the block. */
    ghost function View(): (v: Fifo.View)
      requires Valid()
      reads this, data
      ensures Fifo.Ok(v) && v.capacity == data.Length && v.start == read && |v.contents| == write - read
    {
      Fifo.View(data.Length, read, data[read..write])
    }

    constructor (n: nat)
      ensures Valid() && fresh(data)
      ensures View() == Fifo.Empty(n)
    {
      data := new byte[n](_ => 0);
      read, write := 0, 0;
    }

    method Reset()
      modifies this
      ensures Valid() && View() == Fifo.Empty(data.Length)
    {
      read, write := 0, 0;
    }

    method CanWrite() returns (yes: bool)
      requires Valid()
      ensures yes == Fifo.CanWrite(View())
    {
      yes := data.Length - write > 0;
    }

    method CanRead() returns (yes: bool)
      requires Valid()
      ensures yes == Fifo.CanRead(View())
    {
      yes := write - read > 0;
    }

    /** How much may be copied to data[write..]. */
    method WritePtr() returns (room: nat)
      requires Valid()
      ensures room == Fifo.Room(View())
    {
      room := data.Length - write;
    }

    /** How much may be copied from data[read..]. */
    method ReadPtr() returns (size: nat)
      requires Valid()
      ensures size == |View().contents|
    {
      size := write - read;
    }

    /** The kernel (recv) or a marshaller copies octets to the write pointer; no pointer moves. */
    method Place(octets: seq<byte>)
      requires Valid() && |octets| <= data.Length - write
      modifies data
      ensures Valid() && View() == old(View())
      ensures data[write..write + |octets|] == octets
    {
      var i := 0;
      while i < |octets|
        invariant i <= |octets|
        invariant data[..write] == old(data[..write])
        invariant forall k :: 0 <= k < i ==> data[write + k] == octets[k]
      {
        data[write + i] := octets[i];
        i := i + 1;
      }
      assert View().contents == data[..write][read..];
    }

    /** A negative count, an error of recv, is ignored. */
    method WriteAdv(n: int)
      requires Valid() && n <= data.Length - write
      modifies this
      ensures Valid()
      ensures n <= 0 ==> View() == old(View())
      ensures n > 0 ==> View() == Fifo.Put(old(View()), old(data[write..write + n]))
    {
      if n > -1 {
        write := write + n;
        assert data[read..write] == old(data[read..write]) + old(data[write..write + n]);
      }
    }

    /** recv or a marshaller, and the count it reports. */
    method Append(octets: seq<byte>)
      requires Valid() && |octets| <= Fifo.Room(View())
      modifies this, data
      ensures Valid() && View() == Fifo.Put(old(View()), octets)
    {
      Place(octets);
      WriteAdv(|octets|);
      assert octets == [] ==> Fifo.Put(old(View()), octets) == old(View());
    }

    method ReadAdv(n: int)
      requires Valid() && n <= write - read
      modifies this, data
      ensures Valid()
      ensures View() == if n > -1 then Fifo.Take(old(View()), n) else old(View())
    {
      if n > -1 {
        read := read + n;
        if read == write {
          Compact();
        } else {
          assert data[read..write] == old(data[read..write])[n..];
        }
      }
    }

    /** buffer_read: the next octet, or 0 when there is none. */
    method Read() returns (c: byte)
      requires Valid()
      modifies this, data
      ensures Valid()
      ensures if Fifo.CanRead(old(View()))
              then c == old(View()).contents[0] && View() == Fifo.Take(old(View()), 1)
              else c == 0 && View() == old(View())
    {
      var any := CanRead();
      if any {
        c := data[read];
        ReadAdv(1);
      } else {
        c := 0;
      }
    }

    /** buffer_write: one octet, silently dropped when there is no room. */
    method Write(c: byte)
      requires Valid()
      modifies this, data
      ensures Valid()
      ensures View() == if Fifo.CanWrite(old(View())) then Fifo.Put(old(View()), [c]) else old(View())
    {
      var any := CanWrite();
      if any {
        data[write] := c;
        assert data[read..write] == old(data[read..write]);
        assert data[write..write + 1] == [c];
        WriteAdv(1);
      }
    }

    /**
     * The two branches that move something rewind the window; the move is an
     * overlapping one, done front to back. The precondition is weaker than
     * Valid because ReadAdv calls this with an empty window off the base.
     */
    method Compact()
      requires read <= write <= data.Length
      modifies this, data
      ensures Valid()
      ensures read == 0 && write == old(write) - old(read)
      ensures data[..write] == old(data[read..write])
      ensures old(Valid()) ==> View() == Fifo.Compact(old(View()))
    {
      if read == 0 {
      } else if read == write {
        read, write := 0, 0;
      } else {
        var n := write - read;
        var i := 0;
        while i < n
          invariant 0 <= i <= n && n == write - read && 0 < read && write <= data.Length
          invariant read == old(read) && write == old(write)
          invariant forall k :: 0 <= k < i ==> data[k] == old(data[read + k])
          invariant forall k :: i <= k < data.Length ==> data[k] == old(data[k])
        {
          data[i] := data[read + i];
          i := i + 1;
        }
        read, write := 0, n;
      }
      assert data[read..write] == data[..write];
    }
  }
}
