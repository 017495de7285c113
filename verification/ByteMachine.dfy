/**
 * The consume loop shared by every parser of the server: take octets from a
 * buffer and feed them one by one until the parser says it is done.
 */
module ByteMachine {
  import opened Bytes
  import Fifo

  /** The parser after the loop, and the octets it left in the buffer. */
  function Consume<S>(feed: (S, byte) -> S, done: S -> bool, s: S, input: seq<byte>): (r: (S, seq<byte>))
    ensures |r.1| <= |input| && r.1 == input[|input| - |r.1|..]
    ensures r.1 != [] ==> done(r.0) && |r.1| < |input|
    decreases |input|
  {
    if input == [] then (s, [])
    else
      var s' := feed(s, input[0]);
      if done(s') then (s', input[1..]) else Consume(feed, done, s', input[1..])
  }

  /** Running on a then on b is running on a + b, when a does not finish the job. */
  lemma {:induction false} ConsumeSplit<S>(feed: (S, byte) -> S, done: S -> bool, s: S, a: seq<byte>, b: seq<byte>)
    requires !done(s)
    ensures var (mid, rest) := Consume(feed, done, s, a);
            Consume(feed, done, s, a + b) ==
            if done(mid) then (mid, rest + b) else Consume(feed, done, mid, b)
    decreases |a|
  {
    if a == [] {
      assert a + b == b;
    } else {
      assert (a + b)[1..] == a[1..] + b;
      if !done(feed(s, a[0])) {
        ConsumeSplit(feed, done, feed(s, a[0]), a[1..], b);
      }
    }
  }

  /**
   * The invariant of the loop in a class: it started on parser s with window v
   * and is now at parser s' with window v', with the same final outcome ahead.
   */
  ghost predicate Progress<S>(feed: (S, byte) -> S, done: S -> bool, s: S, v: Fifo.View, s': S, v': Fifo.View) {
    && Fifo.Ok(v) && |v'.contents| <= |v.contents|
    && v' == Fifo.Take(v, |v.contents| - |v'.contents|)
    && Consume(feed, done, s, v.contents) == Consume(feed, done, s', v'.contents)
  }

  /** The outcome of the loop. */
  ghost predicate Consumed<S>(feed: (S, byte) -> S, done: S -> bool, s: S, v: Fifo.View, s': S, v': Fifo.View) {
    var (p, rest) := Consume(feed, done, s, v.contents);
    s' == p && v' == Fifo.Take(v, |v.contents| - |rest|)
  }

  lemma ProgressStart<S>(feed: (S, byte) -> S, done: S -> bool, s: S, v: Fifo.View)
    requires Fifo.Ok(v)
    ensures Progress(feed, done, s, v, s, v)
  {
    if v.contents != [] {
      assert v.contents[0..] == v.contents;
    }
  }

  lemma ProgressStep<S>(feed: (S, byte) -> S, done: S -> bool, s: S, v: Fifo.View, s': S, v': Fifo.View)
    requires Progress(feed, done, s, v, s', v') && Fifo.CanRead(v')
    ensures var after, w := feed(s', v'.contents[0]), Fifo.Take(v', 1);
            if done(after) then Consumed(feed, done, s, v, after, w)
            else Progress(feed, done, s, v, after, w)
  {
    Fifo.TakeTwice(v, |v.contents| - |v'.contents|, 1);
    assert Fifo.Take(v', 1).contents == v'.contents[1..];
  }

  lemma ProgressEnd<S>(feed: (S, byte) -> S, done: S -> bool, s: S, v: Fifo.View, s': S, v': Fifo.View)
    requires Progress(feed, done, s, v, s', v') && !Fifo.CanRead(v')
    ensures Consumed(feed, done, s, v, s', v')
  {
  }

  function Flatten(chunks: seq<seq<byte>>): seq<byte> {
    if chunks == [] then [] else chunks[0] + Flatten(chunks[1..])
  }

  /**
   * A session in one reading state: every recv appends a chunk to the buffer
   * and the parser consumes; once done, no more chunks are read.
   */
  function ReceiveAll<S>(feed: (S, byte) -> S, done: S -> bool, s: S, v: Fifo.View, chunks: seq<seq<byte>>)
    : (S, Fifo.View, seq<seq<byte>>)
    decreases |chunks|
  {
    if chunks == [] || done(s) then (s, v, chunks)
    else
      var filled := Fifo.Put(v, chunks[0]);
      var (s', rest) := Consume(feed, done, s, filled.contents);
      ReceiveAll(feed, done, s', Fifo.Take(filled, |filled.contents| - |rest|), chunks[1..])
  }

  /**
   * Chunk independence. However the stream is cut, as long as each piece fits in
   * the whole buffer, the parser ends as in one pass; unread octets keep
   * their order; and while it is not done every piece meets an empty buffer
   * with its full capacity, so a capacity of one octet is enough.
   */
  lemma {:induction false} ChunkIndependence<S>(
    feed: (S, byte) -> S, done: S -> bool, s: S, capacity: nat, chunks: seq<seq<byte>>)
    requires !done(s)
    requires forall i :: 0 <= i < |chunks| ==> 0 < |chunks[i]| <= capacity
    ensures var (s', v, later) := ReceiveAll(feed, done, s, Fifo.Empty(capacity), chunks);
            && Consume(feed, done, s, Flatten(chunks)) == (s', v.contents + Flatten(later))
            && Fifo.Ok(v) && v.capacity == capacity
            && (!done(s') ==> v == Fifo.Empty(capacity) && later == [])
    decreases |chunks|
  {
    if chunks == [] {
      assert Fifo.Empty(capacity).contents + Flatten(chunks) == [];
    } else {
      var first, others := chunks[0], Flatten(chunks[1..]);
      var filled := Fifo.Put(Fifo.Empty(capacity), first);
      assert filled.contents == first;
      var (s', rest) := Consume(feed, done, s, first);
      var v := Fifo.Take(filled, |first| - |rest|);
      Fifo.RoomComesBackOnDrain(filled, |first| - |rest|);
      ConsumeSplit(feed, done, s, first, others);
      if done(s') {
        assert v.contents == rest;
        assert ReceiveAll(feed, done, s', v, chunks[1..]) == (s', v, chunks[1..]);
      } else {
        assert v == Fifo.Empty(capacity);
        ChunkIndependence(feed, done, s', capacity, chunks[1..]);
      }
    }
  }

  /** A complete message is one that finishes the parser with nothing left over. */
  ghost predicate Complete<S>(feed: (S, byte) -> S, done: S -> bool, s: S, message: seq<byte>) {
    var (s', rest) := Consume(feed, done, s, message);
    done(s') && rest == []
  }

  /** The complete messages of any of these parsers form a prefix-free language. */
  lemma PrefixFree<S>(feed: (S, byte) -> S, done: S -> bool, s: S, a: seq<byte>, b: seq<byte>)
    requires !done(s) && a <= b
    requires Complete(feed, done, s, a) && Complete(feed, done, s, b)
    ensures a == b
  {
    assert b == a + b[|a|..];
    ConsumeSplit(feed, done, s, a, b[|a|..]);
  }

  /** One octet more, then what was left to take: the induction step of every account of what a parser took. */
  lemma Onwards(heard: seq<byte>, input: seq<byte>, rest: nat)
    requires input != [] && rest < |input|
    ensures heard + [input[0]] + input[1..][..|input| - 1 - rest] == heard + input[..|input| - rest]
    ensures input[1..][|input| - 1 - rest..] == input[|input| - rest..]
  {
    assert [input[0]] + input[1..][..|input| - 1 - rest] == input[..|input| - rest];
    assert heard + [input[0]] + input[1..][..|input| - 1 - rest] == heard + ([input[0]] + input[1..][..|input| - 1 - rest]);
  }
}
