/**
 * What a `struct buffer` means: a window of octets inside a fixed block of
 * memory. The operations here are the specification of class Buffer.
 */
module Fifo {
  import opened Bytes

  /** `start` is how far the read pointer has moved from the base of the block. */
  datatype View = View(capacity: nat, start: nat, contents: seq<byte>)

  /** The pointers are ordered, and an empty window sits at the base of the block. */
  ghost predicate Ok(v: View) {
    && v.start + |v.contents| <= v.capacity
    && (v.contents == [] ==> v.start == 0)
  }

  function Empty(capacity: nat): View { View(capacity, 0, []) }

  /** Octets that still fit behind the write pointer. */
  function Room(v: View): int { v.capacity - v.start - |v.contents| }

  predicate CanRead(v: View) { v.contents != [] }

  predicate CanWrite(v: View) { Room(v) > 0 }

  /** Octets placed at the write pointer, then made readable. */
  function Put(v: View, octets: seq<byte>): View {
    v.(contents := v.contents + octets)
  }

  /** The first n octets are dropped; draining the window rewinds it. */
  function Take(v: View, n: nat): View
    requires n <= |v.contents|
  {
    if n == |v.contents| then Empty(v.capacity)
    else View(v.capacity, v.start + n, v.contents[n..])
  }

  function Compact(v: View): View { View(v.capacity, 0, v.contents) }

  /** One use of a buffer. Offered(b) is a source that may deliver any prefix of b. */
  datatype Op = Write(octets: seq<byte>) | Read(n: nat) | Squeeze | Clear

  ghost predicate Legal(v: View, op: Op) {
    match op
    case Write(octets) => |octets| <= Room(v)
    case Read(n) => n <= |v.contents|
    case Squeeze => true
    case Clear => true
  }

  function Apply(v: View, op: Op): View {
    match op
    case Write(octets) => Put(v, octets)
    case Read(n) => if n <= |v.contents| then Take(v, n) else v
    case Squeeze => Compact(v)
    case Clear => Empty(v.capacity)
  }

  function Run(v: View, ops: seq<Op>): View {
    if ops == [] then v else Apply(Run(v, ops[..|ops| - 1]), ops[|ops| - 1])
  }

  ghost predicate LegalRun(v: View, ops: seq<Op>) {
    ops == [] || (LegalRun(v, ops[..|ops| - 1]) && Legal(Run(v, ops[..|ops| - 1]), ops[|ops| - 1]))
  }

  /** Independent reference: an unbounded queue with no pointers at all. */
  datatype Queue = Queue(waiting: seq<byte>, accepted: seq<byte>, delivered: seq<byte>, dropped: bool)

  function QueueStep(q: Queue, op: Op): Queue {
    match op
    case Write(octets) => q.(waiting := q.waiting + octets, accepted := q.accepted + octets)
    case Read(n) =>
      if n <= |q.waiting| then q.(waiting := q.waiting[n..], delivered := q.delivered + q.waiting[..n]) else q
    case Squeeze => q
    case Clear => Queue([], q.accepted, q.delivered, true)
  }

  function QueueRun(q: Queue, ops: seq<Op>): Queue {
    if ops == [] then q else QueueStep(QueueRun(q, ops[..|ops| - 1]), ops[|ops| - 1])
  }

  /**
   * Over any run the window is well formed, holds exactly what the reference
   * queue holds, and, unless it was cleared, what was accepted is what was
   * delivered followed by what still waits: nothing lost, repeated or reordered.
   */
  lemma {:induction false} RunRefinesQueue(capacity: nat, ops: seq<Op>)
    requires LegalRun(Empty(capacity), ops)
    ensures Ok(Run(Empty(capacity), ops)) && Run(Empty(capacity), ops).capacity == capacity
    ensures Run(Empty(capacity), ops).contents == QueueRun(Queue([], [], [], false), ops).waiting
    ensures var q := QueueRun(Queue([], [], [], false), ops);
            !q.dropped ==> q.accepted == q.delivered + q.waiting
  {
    if ops != [] {
      var before, op := ops[..|ops| - 1], ops[|ops| - 1];
      RunRefinesQueue(capacity, before);
      var q := QueueRun(Queue([], [], [], false), before);
      match op
      case Write(octets) =>
        assert (q.delivered + q.waiting) + octets == q.delivered + (q.waiting + octets);
      case Read(n) =>
        assert q.waiting == q.waiting[..n] + q.waiting[n..];
        assert (q.delivered + q.waiting[..n]) + q.waiting[n..] == q.delivered + q.waiting;
      case Squeeze =>
      case Clear =>
    }
  }

  /** Compaction keeps the contents and recovers every octet already read. */
  lemma CompactRecoversRoom(v: View)
    requires Ok(v)
    ensures Ok(Compact(v)) && Compact(v).contents == v.contents
    ensures Room(Compact(v)) == v.capacity - |v.contents|
    ensures v.start == 0 <==> Compact(v) == v
  {
  }

  /** Without an explicit compaction, room comes back only when the window drains. */
  lemma RoomComesBackOnDrain(v: View, n: nat)
    requires Ok(v) && n <= |v.contents|
    ensures Ok(Take(v, n))
    ensures n < |v.contents| ==> Room(Take(v, n)) == Room(v)
    ensures n == |v.contents| ==> Room(Take(v, n)) == v.capacity
  {
  }

  /** Reading in two goes is reading once. */
  lemma TakeTwice(v: View, m: nat, n: nat)
    requires Ok(v) && m + n <= |v.contents|
    ensures Take(Take(v, m), n) == Take(v, m + n)
  {
    if m < |v.contents| {
      assert v.contents[m..][n..] == v.contents[m + n..];
    }
  }

  /** A buffer of positive capacity is never both unreadable and unwritable. */
  lemma NeverStuck(v: View)
    requires Ok(v) && v.capacity > 0
    ensures CanRead(v) || CanWrite(v)
  {
  }
}
