/** The packet queue of the player: a singly linked list with a tail pointer,
    three running counters and a serial that every flush packet bumps. */
module PacketQueue {

  // What read_thread queues. `Flush` is the one global flush packet; `Null` is the
  // empty packet that asks a decoder to drain.
  datatype Packet = Flush | Null | Data(id: nat, bytes: nat, ticks: int) {
    function Size(): nat { if Data? then bytes else 0 }
    function Duration(): int { if Data? then ticks else 0 }
  }

  datatype Entry = Entry(pkt: Packet, serial: nat)

  // The queue as a value; every operation runs under the queue's mutex, so it is
  // one atomic change of this value.
  datatype QueueState = QueueState(items: seq<Entry>, abort: bool, serial: nat)

  datatype GetResult = Aborted | Got(entry: Entry) | Empty | MustWait

  // sizeof(MyAVPacketList), counted in for every queued packet.
  const NODE_BYTES: nat := 104

  function Bytes(items: seq<Entry>): nat {
    if items == [] then 0 else items[0].pkt.Size() + NODE_BYTES + Bytes(items[1..])
  }

  function Ticks(items: seq<Entry>): int {
    if items == [] then 0 else items[0].pkt.Duration() + Ticks(items[1..])
  }

  /** Serials go up by one at each flush packet, never otherwise, and the tail
      carries the serial of the queue. */
  ghost predicate Serialled(items: seq<Entry>, serial: int) {
    items == [] ||
    var tail := items[|items| - 1];
    && tail.serial == serial
    && (tail.pkt.Flush? ==> serial > 0)
    && Serialled(items[..|items| - 1], serial - if tail.pkt.Flush? then 1 else 0)
  }

  function PutEntry(q: QueueState, pkt: Packet): Entry {
    Entry(pkt, q.serial + if pkt.Flush? then 1 else 0)
  }

  function Put(q: QueueState, pkt: Packet): QueueState {
    if q.abort then q
    else QueueState(q.items + [PutEntry(q, pkt)], false, PutEntry(q, pkt).serial)
  }

  function Cleared(q: QueueState): QueueState { q.(items := []) }

  function Stopped(q: QueueState): QueueState { q.(abort := true) }

  function Started(q: QueueState): QueueState { Put(q.(abort := false), Flush) }

  function GetOutcome(q: QueueState, block: bool): GetResult {
    if q.abort then Aborted
    else if q.items != [] then Got(q.items[0])
    else if block then MustWait else Empty
  }

  function AfterGet(q: QueueState): QueueState {
    if q.abort || q.items == [] then q else q.(items := q.items[1..])
  }

  lemma {:induction false} SumsAppend(items: seq<Entry>, e: Entry)
    ensures Bytes(items + [e]) == Bytes(items) + e.pkt.Size() + NODE_BYTES
    ensures Ticks(items + [e]) == Ticks(items) + e.pkt.Duration()
  {
    if items == [] {
      assert items + [e] == [e];
    } else {
      assert (items + [e])[1..] == items[1..] + [e];
      SumsAppend(items[1..], e);
    }
  }

  /** The counters are the sums over the list, and its serials are in order. */
  ghost predicate Tallied(q: QueueState, nbPackets: nat, size: int, duration: int) {
    && nbPackets == |q.items|
    && size == Bytes(q.items)
    && duration == Ticks(q.items)
    && Serialled(q.items, q.serial)
  }

  lemma PutKeepsTally(q: QueueState, pkt: Packet, nbPackets: nat, size: int, duration: int)
    requires Tallied(q, nbPackets, size, duration) && !q.abort
    ensures Tallied(Put(q, pkt), nbPackets + 1, size + pkt.Size() + NODE_BYTES, duration + pkt.Duration())
  {
    SumsAppend(q.items, PutEntry(q, pkt));
    assert (q.items + [PutEntry(q, pkt)])[..|q.items|] == q.items;
  }

  lemma {:induction false} SerialledTail(items: seq<Entry>, serial: int)
    requires Serialled(items, serial) && items != []
    ensures Serialled(items[1..], serial)
  {
    if |items| > 1 {
      var init := items[..|items| - 1];
      SerialledTail(init, serial - if items[|items| - 1].pkt.Flush? then 1 else 0);
      assert items[1..][..|items| - 2] == init[1..];
    }
  }

  lemma GetKeepsTally(q: QueueState, nbPackets: nat, size: int, duration: int)
    requires Tallied(q, nbPackets, size, duration) && !q.abort && q.items != []
    ensures nbPackets > 0
    ensures Tallied(AfterGet(q), nbPackets - 1, size - (q.items[0].pkt.Size() + NODE_BYTES),
                    duration - q.items[0].pkt.Duration())
  {
    SerialledTail(q.items, q.serial);
  }

  /** The number of flush packets in a list. */
  function Flushes(items: seq<Entry>): nat {
    if items == [] then 0
    else Flushes(items[..|items| - 1]) + if items[|items| - 1].pkt.Flush? then 1 else 0
  }

  /** The serial of any queued packet is the serial of the queue less the number of
      flush packets behind it: serials never fall along the list and rise only at a flush. */
  lemma {:induction false} SerialCountsFlushesBehind(items: seq<Entry>, serial: int, i: nat)
    requires Serialled(items, serial) && i < |items|
    ensures items[i].serial + Flushes(items[i + 1..]) == serial
    decreases |items|
  {
    var init := items[..|items| - 1];
    if i < |init| {
      SerialCountsFlushesBehind(init, serial - if items[|items| - 1].pkt.Flush? then 1 else 0, i);
      assert items[i + 1..][..|init| - i - 1] == init[i + 1..];
    }
  }

  // ----- whole runs -----

  datatype Op = PutOp(pkt: Packet) | GetOp(block: bool) | FlushOp | AbortOp | StartOp

  // A run's queue, every entry it ever took in, and every entry that left it, by a get or
  // a flush of the queue.
  datatype Record = Record(q: QueueState, taken: seq<Entry>, left: seq<Entry>)

  function Recorded(r: Record, op: Op): Record {
    match op
    case PutOp(pkt) =>
      Record(Put(r.q, pkt), if r.q.abort then r.taken else r.taken + [PutEntry(r.q, pkt)], r.left)
    case GetOp(block) =>
      Record(AfterGet(r.q), r.taken,
             r.left + match GetOutcome(r.q, block) case Got(e) => [e] case _ => [])
    case FlushOp => Record(Cleared(r.q), r.taken, r.left + r.q.items)
    case AbortOp => r.(q := Stopped(r.q))
    case StartOp =>
      Record(Started(r.q), r.taken + [PutEntry(r.q.(abort := false), Flush)], r.left)
  }

  function Replay(ops: seq<Op>): Record {
    if ops == [] then Record(QueueState([], true, 0), [], [])
    else Recorded(Replay(ops[..|ops| - 1]), ops[|ops| - 1])
  }

  /** The queue was started and not aborted since. */
  predicate Open(ops: seq<Op>) {
    ops != [] &&
    (ops[|ops| - 1].StartOp? || (!ops[|ops| - 1].AbortOp? && Open(ops[..|ops| - 1])))
  }

  /** What the queue has to take in: the packets put while it is open, and the flush packet
      of each start. */
  function Offered(ops: seq<Op>): seq<Packet> {
    if ops == [] then []
    else
      var before, op := ops[..|ops| - 1], ops[|ops| - 1];
      Offered(before) + match op
        case PutOp(pkt) => if Open(before) then [pkt] else []
        case StartOp => [Flush]
        case _ => []
  }

  function Pkts(items: seq<Entry>): seq<Packet> {
    seq(|items|, i requires 0 <= i < |items| => items[i].pkt)
  }

  /** Each entry's serial is the number of flush packets up to it, itself included. */
  ghost predicate Numbered(items: seq<Entry>) {
    forall i :: 0 <= i < |items| ==> items[i].serial == Flushes(items[..i + 1])
  }

  /** What left the queue and what is still in it are, in order and each once, what it took
      in; that is what was offered; and serials count flush packets. */
  ghost predicate InOrder(r: Record, offered: seq<Packet>, open: bool) {
    && r.taken == r.left + r.q.items
    && Pkts(r.taken) == offered
    && r.q.serial == Flushes(r.taken) && Numbered(r.taken)
    && (!r.q.abort <==> open)
  }

  /** So it is over any run, from the queue's first use on. */
  lemma {:induction false} FirstInFirstOut(ops: seq<Op>)
    ensures InOrder(Replay(ops), Offered(ops), Open(ops))
  {
    hide InOrder, Recorded;
    if ops == [] {
      NothingOffered();
    } else {
      FirstInFirstOut(ops[..|ops| - 1]);
      OneOp(Replay(ops[..|ops| - 1]), ops[|ops| - 1], Offered(ops[..|ops| - 1]), Open(ops[..|ops| - 1]));
    }
  }

  lemma NothingOffered()
    ensures InOrder(Replay([]), Offered([]), Open([]))
  {
  }

  lemma OneOp(r: Record, op: Op, offered: seq<Packet>, open: bool)
    requires InOrder(r, offered, open)
    ensures InOrder(Recorded(r, op), offered + match op
                                               case PutOp(pkt) => if open then [pkt] else []
                                               case StartOp => [Flush]
                                               case _ => [],
                    op.StartOp? || (!op.AbortOp? && open))
  {
    hide Flushes, Numbered, Pkts;
    match op
    case PutOp(pkt) =>
      if r.q.abort { assert offered + [] == offered; } else { TakeOne(r, PutEntry(r.q, pkt)); }
    case StartOp => TakeOne(r, PutEntry(r.q, Flush));
    case GetOp(block) =>
      assert offered + [] == offered;
      if !r.q.abort && r.q.items != [] {
        assert r.left + [r.q.items[0]] + r.q.items[1..] == r.left + r.q.items;
      } else {
        assert r.left + [] == r.left;
      }
    case FlushOp =>
      assert offered + [] == offered;
      assert r.left + r.q.items + [] == r.taken;
    case AbortOp => assert offered + [] == offered;
  }

  lemma TakeOne(r: Record, e: Entry)
    requires r.taken == r.left + r.q.items && r.q.serial == Flushes(r.taken) && Numbered(r.taken)
    requires e.serial == r.q.serial + if e.pkt.Flush? then 1 else 0
    ensures r.taken + [e] == r.left + (r.q.items + [e])
    ensures Pkts(r.taken + [e]) == Pkts(r.taken) + [e.pkt]
    ensures Flushes(r.taken + [e]) == e.serial && Numbered(r.taken + [e])
  {
    hide Flushes, Pkts, Numbered;
    assert r.taken + [e] == r.left + (r.q.items + [e]);
    FlushesMore(r.taken, e);
    PktsMore(r.taken, e);
    NumberedMore(r.taken, e);
  }

  lemma FlushesMore(items: seq<Entry>, e: Entry)
    ensures Flushes(items + [e]) == Flushes(items) + if e.pkt.Flush? then 1 else 0
  {
    assert (items + [e])[..|items|] == items;
  }

  lemma PktsMore(items: seq<Entry>, e: Entry)
    ensures Pkts(items + [e]) == Pkts(items) + [e.pkt]
  {
  }

  lemma NumberedMore(items: seq<Entry>, e: Entry)
    requires Numbered(items) && e.serial == Flushes(items + [e])
    ensures Numbered(items + [e])
  {
    hide Flushes;
    var all := items + [e];
    assert all[..|all|] == all;
    forall i | 0 <= i < |all| ensures all[i].serial == Flushes(all[..i + 1]) {
      if i < |items| { assert all[..i + 1] == items[..i + 1]; }
    }
  }

  /** A get waits, or is told there is nothing, only when the queue is open and empty; it is
      refused exactly after an abort. */
  lemma GetAnswers(q: QueueState, block: bool)
    ensures GetOutcome(q, block) == Aborted <==> q.abort
    ensures GetOutcome(q, block) == MustWait <==> !q.abort && q.items == [] && block
    ensures GetOutcome(q, block) == Empty <==> !q.abort && q.items == [] && !block
  {
  }

  class Node {
    var pkt: Packet
    var next: Node?
    var serial: nat

    constructor (pkt: Packet, serial: nat)
      ensures this.pkt == pkt && this.serial == serial && next == null
    {
      this.pkt, this.serial, next := pkt, serial, null;
    }
  }

  class Queue {
    var firstPkt: Node?
    var lastPkt: Node?
    var nbPackets: nat
    var size: int
    var duration: int
    var abortRequest: bool
    var serial: nat
    ghost var nodes: seq<Node>
    ghost var items: seq<Entry>  // what the nodes hold, first to last

    ghost predicate Linked()
      reads `firstPkt, `lastPkt, `nodes, `items, nodes
    {
      && |items| == |nodes|
      && (forall i, j :: 0 <= i < j < |nodes| ==> nodes[i] != nodes[j])
      && (forall i :: 0 <= i < |nodes| ==> items[i] == Entry(nodes[i].pkt, nodes[i].serial))
      && (forall i, j {:trigger nodes[i], nodes[j]} :: 0 <= i < j < |nodes| && j == i + 1 ==>
            nodes[i].next == nodes[j])
      && (if nodes == [] then firstPkt == null && lastPkt == null
          else firstPkt == nodes[0] && lastPkt == nodes[|nodes| - 1] && nodes[|nodes| - 1].next == null)
    }

    ghost function State(): QueueState
      reads this
    {
      QueueState(items, abortRequest, serial)
    }

    /** The recorded tail is the real one, and the counters and serials fit the list. */
    ghost predicate Valid()
      reads this, nodes
    {
      Linked() && Tallied(State(), nbPackets, size, duration)
    }

    constructor ()
      ensures Valid() && State() == QueueState([], true, 0)
    {
      firstPkt, lastPkt := null, null;
      nbPackets, size, duration, serial := 0, 0, 0, 0;
      abortRequest := true;
      nodes, items := [], [];
    }

    /** The pointer half of packet_queue_put_private. */
    method LinkTail(pkt: Packet, serial: nat)
      requires Linked()
      modifies `firstPkt, `lastPkt, `nodes, `items, lastPkt
      ensures Linked() && items == old(items) + [Entry(pkt, serial)]
      ensures |nodes| == old(|nodes|) + 1 && nodes == old(nodes) + [nodes[old(|nodes|)]]
      ensures fresh(nodes[old(|nodes|)])
    {
      var pkt1 := new Node(pkt, serial);
      if lastPkt == null {
        firstPkt := pkt1;
      } else {
        lastPkt.next := pkt1;
      }
      lastPkt := pkt1;
      nodes, items := nodes + [pkt1], items + [Entry(pkt, serial)];
    }

    lemma TailIs()
      requires Linked()
      ensures lastPkt != null ==> lastPkt in nodes
    {
    }

    method PutPrivate(pkt: Packet) returns (ret: int)
      requires Valid()
      modifies this, nodes
      ensures Valid() && State() == Put(old(State()), pkt)
      ensures ret == if old(abortRequest) then -1 else 0
      ensures old(nodes) <= nodes && forall n <- nodes[old(|nodes|)..] :: fresh(n)
    {
      hide Linked, Tallied, Bytes, Ticks;
      TailIs();
      if abortRequest {
        return -1;
      }
      PutKeepsTally(State(), pkt, nbPackets, size, duration);
      if pkt.Flush? {
        serial := serial + 1;
      }
      nbPackets := nbPackets + 1;
      size := size + pkt.Size() + NODE_BYTES;
      duration := duration + pkt.Duration();
      LinkTail(pkt, serial);
      return 0;
    }

    /** Walks and frees the whole list; `released` is what was queued, in order. */
    method Flush() returns (released: seq<Entry>)
      requires Valid()
      modifies this
      ensures Valid() && State() == Cleared(old(State()))
      ensures released == old(items)
    {
      released := [];
      var pkt := firstPkt;
      ghost var k := 0;
      while pkt != null
        invariant 0 <= k <= |nodes|
        invariant pkt == if k < |nodes| then nodes[k] else null
        invariant released == items[..k]
        decreases |nodes| - k
      {
        var pkt1 := pkt.next;
        released := released + [Entry(pkt.pkt, pkt.serial)];
        k := k + 1;
        pkt := pkt1;
      }
      lastPkt := null;
      firstPkt := null;
      nbPackets, size, duration := 0, 0, 0;
      nodes, items := [], [];
    }

    method Abort()
      requires Valid()
      modifies this`abortRequest
      ensures Valid() && State() == Stopped(old(State()))
    {
      abortRequest := true;
    }

    method Start()
      requires Valid()
      modifies this, nodes
      ensures Valid() && State() == Started(old(State()))
      ensures old(nodes) <= nodes && forall n <- nodes[old(|nodes|)..] :: fresh(n)
    {
      abortRequest := false;
      var _ := PutPrivate(Packet.Flush);
    }

    /** The pointer half of packet_queue_get. */
    method UnlinkHead() returns (pkt1: Node)
      requires Linked() && nodes != []
      modifies `firstPkt, `lastPkt, `nodes, `items
      ensures Linked() && nodes == old(nodes)[1..] && items == old(items)[1..]
      ensures pkt1 == old(nodes)[0] && Entry(pkt1.pkt, pkt1.serial) == old(items)[0]
    {
      pkt1 := firstPkt;
      firstPkt := pkt1.next;
      if firstPkt == null {
        lastPkt := null;
      }
      nodes, items := nodes[1..], items[1..];
    }

    lemma HeadIs()
      requires Linked()
      ensures (firstPkt == null <==> items == []) && |nodes| == |items|
      ensures firstPkt != null ==> items[0] == Entry(firstPkt.pkt, firstPkt.serial)
    {
    }

    /** One pass of the loop in packet_queue_get; `MustWait` is the pass that goes to
        sleep on the condition variable. */
    method Get(block: bool) returns (r: GetResult)
      requires Valid()
      modifies this
      ensures Valid() && State() == AfterGet(old(State()))
      ensures r == GetOutcome(old(State()), block)
    {
      hide Linked, Tallied, Bytes, Ticks;
      HeadIs();
      if abortRequest {
        return Aborted;
      }
      if firstPkt != null {
        GetKeepsTally(State(), nbPackets, size, duration);
        nbPackets := nbPackets - 1;
        size := size - (firstPkt.pkt.Size() + NODE_BYTES);
        duration := duration - firstPkt.pkt.Duration();
        var pkt1 := UnlinkHead();
        return Got(Entry(pkt1.pkt, pkt1.serial));
      } else if !block {
        return Empty;
      } else {
        return MustWait;
      }
    }
  }
}
