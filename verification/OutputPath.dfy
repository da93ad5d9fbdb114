/** The chain of bitstream filters in front of the muxer: one index walks the chain so
    that every packet is pushed as far down as it goes before the next is fetched. */
module OutputPath {
  import opened Common
  import opened Mux

  // What a filter does with one more packet, given all it has taken so far: the packets
  // it puts out, and whether it then reports an error instead of asking for more.
  datatype Reply = Reply(out: seq<Packet>, failed: bool)

  type Filter = seq<Packet> -> Reply

  datatype FilterState = FilterState(
    filter: Filter,
    history: seq<Packet>,    // packets taken in so far
    input: Option<Packet>,   // sent, not yet taken in (buffer_pkt)
    pending: seq<Packet>,    // produced, not yet received
    failing: bool)           // an error follows the pending packets

  datatype Received = Got(p: Packet) | Again | Failed

  predicate IsDrained(f: FilterState) { f.input == None && f.pending == [] && !f.failing }

  ghost predicate AllDrained(s: seq<FilterState>) { forall i :: 0 <= i < |s| ==> IsDrained(s[i]) }

  // ----- reference: the filters one after the other, each on its whole input -----

  /** All a filter puts out for a whole list of packets. */
  function Through(f: Filter, history: seq<Packet>, ps: seq<Packet>): seq<Packet>
    decreases |ps|
  {
    if ps == [] then []
    else f(history + [ps[0]]).out + Through(f, history + [ps[0]], ps[1..])
  }

  predicate FailsOn(f: Filter, history: seq<Packet>, ps: seq<Packet>)
    decreases |ps|
  {
    ps != [] && (f(history + [ps[0]]).failed || FailsOn(f, history + [ps[0]], ps[1..]))
  }

  /** What comes out of the first `k` filters for the packets `ps`. */
  function Composed(s: seq<FilterState>, k: nat, ps: seq<Packet>): seq<Packet>
    requires k <= |s|
  {
    if k == 0 then ps else Through(s[k - 1].filter, s[k - 1].history, Composed(s, k - 1, ps))
  }

  ghost predicate SomeFilterFails(s: seq<FilterState>, p: Packet) {
    exists k :: 0 <= k < |s| && FailsOn(s[k].filter, s[k].history, Composed(s, k, [p]))
  }

  lemma {:induction false} ThroughAppend(f: Filter, history: seq<Packet>, ps: seq<Packet>, qs: seq<Packet>)
    ensures Through(f, history, ps + qs) == Through(f, history, ps) + Through(f, history + ps, qs)
    decreases |ps|
  {
    if ps == [] {
      assert ps + qs == qs && history + ps == history;
    } else {
      assert (ps + qs)[1..] == ps[1..] + qs;
      assert history + [ps[0]] + ps[1..] == history + ps;
      ThroughAppend(f, history + [ps[0]], ps[1..], qs);
    }
  }

  /** In `t` the first `k` filters of `s` have taken in all that `ps` gives them. */
  ghost predicate LeftBy(s: seq<FilterState>, t: seq<FilterState>, k: nat, ps: seq<Packet>)
    requires k <= |s| == |t|
  {
    k > 0 ==>
      && LeftBy(s, t, k - 1, ps)
      && t[k - 1].filter == s[k - 1].filter
      && t[k - 1].history == s[k - 1].history + Composed(s, k - 1, ps)
  }

  /** Packets sent one after the other, each from the states the last one left, come out
      as the composition of the filters on the whole stream of them. */
  lemma {:induction false} StreamsCompose(s: seq<FilterState>, t: seq<FilterState>, k: nat,
                                          ps: seq<Packet>, qs: seq<Packet>)
    requires k <= |s| == |t| && LeftBy(s, t, k, ps)
    ensures Composed(s, k, ps + qs) == Composed(s, k, ps) + Composed(t, k, qs)
  {
    if k > 0 {
      hide Through;
      StreamsCompose(s, t, k - 1, ps, qs);
      ThroughAppend(s[k - 1].filter, s[k - 1].history, Composed(s, k - 1, ps), Composed(t, k - 1, qs));
    }
  }

  // ----- what is still inside a chain -----

  function OwnOut(f: FilterState): seq<Packet> {
    match f.input
    case None => f.pending
    case Some(p) => f.pending + f.filter(f.history + [p]).out
  }

  function OwnHistory(f: FilterState): seq<Packet> {
    match f.input case None => f.history case Some(p) => f.history + [p]
  }

  predicate OwnFailure(f: FilterState) {
    f.failing || (f.input.Some? && f.filter(f.history + [f.input.value]).failed)
  }

  function Next(f: FilterState, upstream: seq<Packet>): seq<Packet> {
    OwnOut(f) + Through(f.filter, OwnHistory(f), upstream)
  }

  /** Everything that will still come out of the first `k` filters, errors aside. */
  function Flow(s: seq<FilterState>, k: nat): seq<Packet>
    requires k <= |s|
  {
    if k == 0 then [] else Next(s[k - 1], Flow(s, k - 1))
  }

  /** All that a filter has taken in or will, given what is to come from above it. */
  function Intake(f: FilterState, upstream: seq<Packet>): seq<Packet> { OwnHistory(f) + upstream }

  predicate FailureAhead(f: FilterState, upstream: seq<Packet>) {
    OwnFailure(f) || FailsOn(f.filter, OwnHistory(f), upstream)
  }

  // The chain after filter `j` has been sent a packet.
  function SentTo(s: seq<FilterState>, j: nat, p: Packet): (t: seq<FilterState>)
    requires j < |s|
    ensures |t| == |s|
  {
    s[j := s[j].(input := Some(p))]
  }

  function Offered(s: seq<FilterState>, p: Packet): seq<FilterState>
    requires s != []
  {
    SentTo(s, 0, p)
  }

  /** What the muxer is to get for a packet, errors aside. */
  function Due(s: seq<FilterState>, p: Packet): seq<Packet> {
    if s == [] then [p] else Flow(Offered(s, p), |s|)
  }

  // Packets still to be received from the first `k` filters: the measure of the loop.
  function Work(s: seq<FilterState>, k: nat): nat
    requires k <= |s|
  {
    if k == 0 then 0 else |Flow(s, k)| + Work(s, k - 1)
  }

  // Taking the sent packet in, when there is nothing else to do.
  function TakenIn(f: FilterState): FilterState {
    if f.pending == [] && !f.failing && f.input.Some? then
      var reply := f.filter(f.history + [f.input.value]);
      FilterState(f.filter, f.history + [f.input.value], None, reply.out, reply.failed)
    else f
  }

  function AfterReceive(f: FilterState): (FilterState, Received) {
    var g := TakenIn(f);
    if g.pending != [] then (g.(pending := g.pending[1..]), Got(g.pending[0]))
    else if g.failing then (g.(failing := false), Failed)
    else (g, Again)
  }

  // The chain after filter `j` has been asked for a packet.
  function Asked(s: seq<FilterState>, j: nat): (t: seq<FilterState>)
    requires j < |s|
    ensures |t| == |s|
  {
    s[j := AfterReceive(s[j]).0]
  }

  function Answer(s: seq<FilterState>, j: nat): Received
    requires j < |s|
  {
    AfterReceive(s[j]).1
  }

  predicate Accepts(s: seq<FilterState>, j: nat)
    requires j < |s|
  {
    s[j].input == None
  }

  /** Two states of one filter that nobody downstream can tell apart. */
  ghost predicate Alike(f: FilterState, g: FilterState) {
    && f.filter == g.filter
    && OwnOut(f) == OwnOut(g)
    && OwnHistory(f) == OwnHistory(g)
    && (OwnFailure(f) <==> OwnFailure(g))
  }

  lemma TakenInAlike(f: FilterState)
    ensures Alike(f, TakenIn(f))
  {
  }

  lemma NextAlike(f: FilterState, g: FilterState, upstream: seq<Packet>)
    requires Alike(f, g)
    ensures Next(f, upstream) == Next(g, upstream)
  {
  }

  lemma {:induction false} FlowAlike(s: seq<FilterState>, t: seq<FilterState>, lo: nat, k: nat)
    requires lo <= k <= |s| == |t| && Flow(s, lo) == Flow(t, lo)
    requires forall i :: lo <= i < k ==> Alike(s[i], t[i])
    ensures Flow(s, k) == Flow(t, k)
  {
    hide Next, OwnOut, Alike, Through;
    if k > lo {
      FlowAlike(s, t, lo, k - 1);
      assert Alike(s[k - 1], t[k - 1]);
      NextAlike(s[k - 1], t[k - 1], Flow(s, k - 1));
    }
  }

  // One filter takes a packet in or passes it on: `s[j]` becomes `f`.
  lemma AgainKeepsFlow(s: seq<FilterState>, j: nat, k: nat)
    requires j < |s| && k <= |s|
    ensures Flow(s[j := TakenIn(s[j])], k) == Flow(s, k)
  {
    TakenInAlike(s[j]);
    FlowAlike(s, s[j := TakenIn(s[j])], 0, k);
  }

  /** The packet at the head of filter `j` moves into the next filter, or out. */
  function Moved(s: seq<FilterState>, j: nat): seq<FilterState>
    requires j < |s| && TakenIn(s[j]).pending != []
  {
    var f := TakenIn(s[j]);
    var t := s[j := f.(pending := f.pending[1..])];
    if j + 1 < |s| then t[j + 1 := s[j + 1].(input := Some(f.pending[0]))] else t
  }

  lemma PopHead(f: FilterState, upstream: seq<Packet>)
    requires TakenIn(f).pending != []
    ensures var g := TakenIn(f).(pending := TakenIn(f).pending[1..]);
            && Next(f, upstream) == [TakenIn(f).pending[0]] + Next(g, upstream)
            && g.filter == f.filter && OwnHistory(g) == OwnHistory(f)
            && (OwnFailure(g) <==> OwnFailure(f))
  {
    var g := TakenIn(f).(pending := TakenIn(f).pending[1..]);
    TakenInAlike(f);
    assert OwnOut(f) == [TakenIn(f).pending[0]] + OwnOut(g);
  }

  lemma PushIn(f: FilterState, p: Packet, upstream: seq<Packet>)
    requires f.input == None
    ensures var g := f.(input := Some(p));
            && Next(f, [p] + upstream) == Next(g, upstream)
            && Intake(f, [p] + upstream) == Intake(g, upstream)
            && (FailureAhead(f, [p] + upstream) <==> FailureAhead(g, upstream))
  {
    assert ([p] + upstream)[1..] == upstream;
  }

  /** Moving a packet takes it off the flow of that filter and changes no other flow. */
  lemma MoveKeepsFlow(s: seq<FilterState>, j: nat, k: nat)
    requires j < |s| && k <= |s| && TakenIn(s[j]).pending != []
    requires j + 1 < |s| ==> Accepts(s, j + 1)
    ensures var t := Moved(s, j);
            Flow(s, k) == if k == j + 1 then [TakenIn(s[j]).pending[0]] + Flow(t, k) else Flow(t, k)
  {
    hide Next, OwnOut, OwnFailure, Through, TakenIn;
    var t := Moved(s, j);
    if k <= j {
      FlowAlike(s, t, 0, k);
    } else {
      FlowAlike(s, t, 0, j);
      PopHead(s[j], Flow(s, j));
      if k > j + 1 {
        PushIn(s[j + 1], TakenIn(s[j]).pending[0], Flow(t, j + 1));
        FlowAlike(s, t, j + 2, k);
      }
    }
  }

  lemma MoveKeepsFuture(s: seq<FilterState>, j: nat, k: nat)
    requires j < |s| && k < |s| && TakenIn(s[j]).pending != []
    requires j + 1 < |s| ==> Accepts(s, j + 1)
    ensures var t := Moved(s, j);
            && s[k].filter == t[k].filter
            && Intake(s[k], Flow(s, k)) == Intake(t[k], Flow(t, k))
            && (FailureAhead(s[k], Flow(s, k)) <==> FailureAhead(t[k], Flow(t, k)))
  {
    hide Next, OwnOut, Through, FailsOn, Flow;
    MoveKeepsFlow(s, j, k);
    PopHead(s[j], Flow(s, j));
    if k == j + 1 {
      PushIn(s[j + 1], TakenIn(s[j]).pending[0], Flow(Moved(s, j), j + 1));
    }
  }

  lemma {:induction false} WorkAgain(s: seq<FilterState>, j: nat, n: nat)
    requires j < |s| && n <= |s|
    ensures Work(s[j := TakenIn(s[j])], n) == Work(s, n)
  {
    hide Flow, TakenIn;
    if n > 0 {
      WorkAgain(s, j, n - 1);
      AgainKeepsFlow(s, j, n);
    }
  }

  lemma {:induction false} WorkMoved(s: seq<FilterState>, j: nat, n: nat)
    requires j < |s| && n <= |s| && TakenIn(s[j]).pending != []
    requires j + 1 < |s| ==> Accepts(s, j + 1)
    ensures Work(Moved(s, j), n) == Work(s, n) - if n > j then 1 else 0
  {
    hide Flow, TakenIn;
    if n > 0 {
      WorkMoved(s, j, n - 1);
      MoveKeepsFlow(s, j, n);
    }
  }

  /** For a drained chain that is offered a packet, the flow is the composition. */
  lemma {:induction false} DrainedFlow(s: seq<FilterState>, p: Packet, k: nat)
    requires AllDrained(s) && 0 < k <= |s|
    ensures Flow(Offered(s, p), k) == Composed(s, k, [p])
  {
    if k > 1 {
      DrainedFlow(s, p, k - 1);
      assert Next(s[k - 1], Composed(s, k - 1, [p])) == Composed(s, k, [p]);
    } else {
      PushIn(s[0], p, []);
      assert [p] + [] == [p];
    }
  }

  lemma DrainedFuture(s: seq<FilterState>, p: Packet, k: nat)
    requires AllDrained(s) && k < |s|
    ensures var t := Offered(s, p);
            && Intake(t[k], Flow(t, k)) == s[k].history + Composed(s, k, [p])
            && (FailureAhead(t[k], Flow(t, k)) <==> FailsOn(s[k].filter, s[k].history, Composed(s, k, [p])))
  {
    if k > 0 {
      DrainedFlow(s, p, k);
    } else {
      PushIn(s[0], p, []);
      assert [p] + [] == [p];
    }
  }

  lemma NothingIn(f: FilterState)
    requires IsDrained(f)
    ensures Next(f, []) == [] && Intake(f, []) == f.history && !FailureAhead(f, [])
  {
  }

  lemma {:induction false} DrainedIsSilent(s: seq<FilterState>, k: nat)
    requires AllDrained(s) && k <= |s|
    ensures Flow(s, k) == []
    ensures k < |s| ==> Intake(s[k], Flow(s, k)) == s[k].history && !FailureAhead(s[k], Flow(s, k))
  {
    hide Through, FailsOn, Next;
    if k > 0 {
      DrainedIsSilent(s, k - 1);
      NothingIn(s[k - 1]);
    }
    if k < |s| {
      NothingIn(s[k]);
    }
  }

  /** What the loop keeps: delivered and still to come together are what was due, and
      every filter's intake and failures are what they were going to be. */
  ghost predicate LoopInv(start: seq<FilterState>, s: seq<FilterState>, delivered: seq<Packet>) {
    && |s| == |start|
    && delivered + Flow(s, |s|) == Flow(start, |s|)
    && (forall k :: 0 <= k < |s| ==> SameFuture(start, s, k))
  }

  ghost predicate SameFuture(s: seq<FilterState>, t: seq<FilterState>, k: nat)
    requires k < |s| == |t|
  {
    && s[k].filter == t[k].filter
    && Intake(s[k], Flow(s, k)) == Intake(t[k], Flow(t, k))
    && (FailureAhead(s[k], Flow(s, k)) <==> FailureAhead(t[k], Flow(t, k)))
  }

  lemma AgainKeepsLoop(start: seq<FilterState>, s: seq<FilterState>, delivered: seq<Packet>, j: nat)
    requires LoopInv(start, s, delivered) && j < |s|
    ensures LoopInv(start, s[j := TakenIn(s[j])], delivered)
  {
    hide Flow, FailsOn, TakenIn;
    var t := s[j := TakenIn(s[j])];
    AgainKeepsFlow(s, j, |s|);
    TakenInAlike(s[j]);
    forall k | 0 <= k < |s| ensures SameFuture(start, t, k) {
      assert SameFuture(start, s, k);
      AgainKeepsFlow(s, j, k);
    }
  }

  lemma MoveKeepsLoop(start: seq<FilterState>, s: seq<FilterState>, delivered: seq<Packet>, j: nat)
    requires LoopInv(start, s, delivered) && j < |s| && TakenIn(s[j]).pending != []
    requires j + 1 < |s| ==> Accepts(s, j + 1)
    ensures LoopInv(start, Moved(s, j),
                    if j + 1 == |s| then delivered + [TakenIn(s[j]).pending[0]] else delivered)
  {
    hide Flow, FailsOn, TakenIn, Intake, FailureAhead;
    MoveKeepsFlow(s, j, |s|);
    forall k | 0 <= k < |s| ensures SameFuture(start, Moved(s, j), k) {
      assert SameFuture(start, s, k);
      MoveKeepsFuture(s, j, k);
    }
  }

  /** Once everything is drained the whole composition has been delivered, every filter
      has taken in exactly its share, and none of them had an error to report. */
  lemma DrainedLoopIsDone(s0: seq<FilterState>, p: Packet, s: seq<FilterState>, delivered: seq<Packet>)
    requires s0 != [] && AllDrained(s0) && DrainedFrom(s, 0) && LoopInv(Offered(s0, p), s, delivered)
    ensures delivered == Composed(s0, |s0|, [p]) && !SomeFilterFails(s0, p) && AllDrained(s)
    ensures forall k :: 0 <= k < |s| ==>
              s[k].filter == s0[k].filter && s[k].history == s0[k].history + Composed(s0, k, [p])
  {
    hide Flow, FailsOn, Intake, FailureAhead, Composed;
    DrainedFlow(s0, p, |s0|);
    DrainedIsSilent(s, |s|);
    assert delivered + [] == delivered;
    forall k | 0 <= k < |s|
      ensures s[k].filter == s0[k].filter && s[k].history == s0[k].history + Composed(s0, k, [p])
      ensures !FailsOn(s0[k].filter, s0[k].history, Composed(s0, k, [p]))
    {
      assert SameFuture(Offered(s0, p), s, k);
      DrainedFuture(s0, p, k);
      DrainedIsSilent(s, k);
    }
  }

  lemma FailureWasDue(s0: seq<FilterState>, p: Packet, s: seq<FilterState>, delivered: seq<Packet>, k: nat)
    requires s0 != [] && AllDrained(s0) && LoopInv(Offered(s0, p), s, delivered)
    requires k < |s| && Answer(s, k) == Failed
    ensures SomeFilterFails(s0, p)
  {
    assert OwnFailure(s[k]);
    hide Flow, FailsOn, Intake, Composed;
    assert SameFuture(Offered(s0, p), s, k);
    DrainedFuture(s0, p, k);
  }

  ghost predicate DrainedFrom(s: seq<FilterState>, idx: nat) {
    forall i :: idx <= i < |s| ==> IsDrained(s[i])
  }

  // What each answer of filter `j` means for the states of the chain.
  lemma AnswerAgain(s: seq<FilterState>, j: nat)
    requires j < |s| && Answer(s, j) == Again
    ensures Asked(s, j) == s[j := TakenIn(s[j])]
    ensures DrainedFrom(s, j + 1) ==> DrainedFrom(Asked(s, j), j)
  {
  }

  lemma AnswerGot(s: seq<FilterState>, j: nat)
    requires j < |s| && Answer(s, j).Got?
    ensures var p := Answer(s, j).p;
            && TakenIn(s[j]).pending != [] && TakenIn(s[j]).pending[0] == p
            && Moved(s, j) == (if j + 1 < |s| then SentTo(Asked(s, j), j + 1, p) else Asked(s, j))
            && (j + 1 < |s| ==> (Accepts(Asked(s, j), j + 1) <==> Accepts(s, j + 1)))
            && (DrainedFrom(s, j + 1) ==> DrainedFrom(Moved(s, j), if j + 1 < |s| then j + 2 else j + 1))
            && (DrainedFrom(s, j + 1) && j + 1 < |s| ==> Accepts(Asked(s, j), j + 1))
  {
  }

  lemma LoopStart(s0: seq<FilterState>, p: Packet)
    requires s0 != []
    ensures LoopInv(Offered(s0, p), Offered(s0, p), [])
    ensures Offered(s0, p) == SentTo(s0, 0, p)
    ensures AllDrained(s0) ==> DrainedFrom(Offered(s0, p), 1) && Accepts(s0, 0)
  {
  }

  /** The loop at index `idx`, for a chain that was in states `s0` when `p` came. */
  ghost predicate LoopAt(s0: seq<FilterState>, p: Packet, s: seq<FilterState>, delivered: seq<Packet>, idx: nat) {
    && s0 != [] && |s| == |s0| && idx <= |s|
    && LoopInv(Offered(s0, p), s, delivered)
    && (AllDrained(s0) ==> DrainedFrom(s, idx))
  }

  lemma AgainCase(s0: seq<FilterState>, p: Packet, s: seq<FilterState>, delivered: seq<Packet>, idx: nat)
    requires LoopAt(s0, p, s, delivered, idx) && idx > 0 && Answer(s, idx - 1) == Again
    ensures LoopAt(s0, p, Asked(s, idx - 1), delivered, idx - 1)
    ensures Work(Asked(s, idx - 1), |s|) == Work(s, |s|)
  {
    hide LoopInv, Asked, AllDrained, DrainedFrom, Answer, TakenIn, Work;
    AnswerAgain(s, idx - 1);
    AgainKeepsLoop(Offered(s0, p), s, delivered, idx - 1);
    WorkAgain(s, idx - 1, |s|);
  }

  lemma GotCase(s0: seq<FilterState>, p: Packet, s: seq<FilterState>, delivered: seq<Packet>, idx: nat)
    requires LoopAt(s0, p, s, delivered, idx) && idx > 0 && Answer(s, idx - 1).Got?
    ensures idx < |s| && AllDrained(s0) ==> Accepts(Asked(s, idx - 1), idx)
    ensures idx < |s| && Accepts(Asked(s, idx - 1), idx) ==>
              && LoopAt(s0, p, SentTo(Asked(s, idx - 1), idx, Answer(s, idx - 1).p), delivered, idx + 1)
              && Work(SentTo(Asked(s, idx - 1), idx, Answer(s, idx - 1).p), |s|) < Work(s, |s|)
    ensures idx == |s| ==>
              && LoopAt(s0, p, Asked(s, idx - 1), delivered + [Answer(s, idx - 1).p], idx)
              && Work(Asked(s, idx - 1), |s|) < Work(s, |s|)
  {
    hide LoopInv, Asked, AllDrained, DrainedFrom, Answer, TakenIn, Work, Moved, SentTo, Accepts;
    AnswerGot(s, idx - 1);
    if idx == |s| || Accepts(Asked(s, idx - 1), idx) {
      MoveKeepsLoop(Offered(s0, p), s, delivered, idx - 1);
      WorkMoved(s, idx - 1, |s|);
    }
  }

  // What one pass of the loop comes to, for each answer of the filter asked.
  lemma PassCases(s0: seq<FilterState>, p: Packet, s: seq<FilterState>, delivered: seq<Packet>, idx: nat)
    requires LoopAt(s0, p, s, delivered, idx) && idx > 0
    ensures delivered <= Due(s0, p)
    ensures
      var s1 := Asked(s, idx - 1);
      && |s1| == |s|
      && match Answer(s, idx - 1)
         case Again => LoopAt(s0, p, s1, delivered, idx - 1) && Work(s1, |s|) == Work(s, |s|)
         case Failed => AllDrained(s0) ==> SomeFilterFails(s0, p)
         case Got(pkt) =>
           if idx == |s| then
             && LoopAt(s0, p, s1, delivered + [pkt], idx) && Work(s1, |s|) < Work(s, |s|)
             && delivered + [pkt] <= Due(s0, p)
           else if Accepts(s1, idx) then
             && |SentTo(s1, idx, pkt)| == |s| && LoopAt(s0, p, SentTo(s1, idx, pkt), delivered, idx + 1)
             && Work(SentTo(s1, idx, pkt), |s|) < Work(s, |s|)
           else !AllDrained(s0)
  {
    DeliveredIsDue(s0, p, s, delivered, idx);
    match Answer(s, idx - 1)
    case Again => AgainCase(s0, p, s, delivered, idx);
    case Failed =>
      if AllDrained(s0) {
        FailedCase(s0, p, s, delivered, idx);
      }
    case Got(pkt) =>
      GotCase(s0, p, s, delivered, idx);
      if idx == |s| {
        DeliveredIsDue(s0, p, Asked(s, idx - 1), delivered + [pkt], idx);
      }
  }

  lemma StartCase(s0: seq<FilterState>, p: Packet)
    requires s0 != []
    ensures LoopAt(s0, p, SentTo(s0, 0, p), [], 1) && (AllDrained(s0) ==> Accepts(s0, 0))
  {
    hide LoopInv;
    LoopStart(s0, p);
  }

  lemma FailedCase(s0: seq<FilterState>, p: Packet, s: seq<FilterState>, delivered: seq<Packet>, idx: nat)
    requires LoopAt(s0, p, s, delivered, idx) && 0 < idx && AllDrained(s0) && Answer(s, idx - 1) == Failed
    ensures SomeFilterFails(s0, p)
  {
    FailureWasDue(s0, p, s, delivered, idx - 1);
  }

  lemma DoneCase(s0: seq<FilterState>, p: Packet, s: seq<FilterState>, delivered: seq<Packet>)
    requires LoopAt(s0, p, s, delivered, 0) && AllDrained(s0)
    ensures FullyPassed(s0, p, s, delivered) && !SomeFilterFails(s0, p)
  {
    DrainedLoopIsDone(s0, p, s, delivered);
    AllLeft(s0, p, s, |s0|);
  }

  lemma {:induction false} AllLeft(s0: seq<FilterState>, p: Packet, s: seq<FilterState>, k: nat)
    requires k <= |s0| == |s|
    requires forall i :: 0 <= i < |s| ==>
               s[i].filter == s0[i].filter && s[i].history == s0[i].history + Composed(s0, i, [p])
    ensures LeftBy(s0, s, k, [p])
  {
    hide Composed;
    if k > 0 {
      AllLeft(s0, p, s, k - 1);
    }
  }

  /** The whole composition has gone out, everything is drained again, and every filter
      has taken in exactly what the filters before it put out. */
  ghost predicate FullyPassed(s0: seq<FilterState>, p: Packet, s: seq<FilterState>, delivered: seq<Packet>) {
    && |s| == |s0|
    && delivered == Composed(s0, |s0|, [p])
    && AllDrained(s)
    && LeftBy(s0, s, |s0|, [p])
  }

  lemma DeliveredIsDue(s0: seq<FilterState>, p: Packet, s: seq<FilterState>, delivered: seq<Packet>, idx: nat)
    requires LoopAt(s0, p, s, delivered, idx)
    ensures delivered <= Due(s0, p)
  {
  }

  lemma NothingDelivered(s0: seq<FilterState>, p: Packet)
    ensures [] <= Due(s0, p)
  {
  }

  // ----- the loop -----

  class Bsf {
    const filter: Filter
    var history: seq<Packet>
    var input: Option<Packet>
    var pending: seq<Packet>
    var failing: bool

    ghost function Value(): FilterState
      reads this
    {
      FilterState(filter, history, input, pending, failing)
    }

    constructor (filter: Filter)
      ensures this.filter == filter && IsDrained(Value()) && history == []
    {
      this.filter := filter;
      history, input, pending, failing := [], None, [], false;
    }

    /** av_bsf_send_packet: refused while the last packet sent has not been taken in. */
    method Send(p: Packet) returns (ok: bool)
      modifies `input
      ensures ok <==> old(input) == None
      ensures Value() == if ok then old(Value()).(input := Some(p)) else old(Value())
    {
      if input.Some? {
        return false;
      }
      input := Some(p);
      return true;
    }

    /** av_bsf_receive_packet. */
    method Receive() returns (r: Received)
      modifies this
      ensures (Value(), r) == AfterReceive(old(Value()))
    {
      if pending == [] && !failing && input.Some? {
        history := history + [input.value];
        var reply := filter(history);
        input, pending, failing := None, reply.out, reply.failed;
      }
      if pending != [] {
        var p := pending[0];
        pending := pending[1..];
        return Got(p);
      }
      if failing {
        failing := false;
        return Failed;
      }
      return Again;
    }
  }

  /** The packets written one after the other, until the program exits. */
  function WriteAll(c: Config, header: bool, st: StreamState, ps: seq<Packet>): (StreamState, bool)
    decreases |ps|
  {
    if ps == [] then (st, false)
    else
      var (st1, fate) := Write(c, header, st, ps[0], false);
      if fate == Exited then (st1, true) else WriteAll(c, header, st1, ps[1..])
  }

  lemma {:induction false} WriteAllAppend(c: Config, header: bool, st: StreamState, ps: seq<Packet>, p: Packet)
    requires !WriteAll(c, header, st, ps).1
    ensures var (st1, fate) := Write(c, header, WriteAll(c, header, st, ps).0, p, false);
            WriteAll(c, header, st, ps + [p]) == (st1, fate == Exited)
    decreases |ps|
  {
    if ps == [] {
      assert ps + [p] == [p];
    } else {
      assert (ps + [p])[1..] == ps[1..] + [p];
      WriteAllAppend(c, header, Write(c, header, st, ps[0], false).0, ps[1..], p);
    }
  }

  datatype Outcome = Done | FilterError | ProgramExit

  class Path {
    const ost: OutputStream
    const chain: seq<Bsf>

    ghost predicate Valid() {
      forall i, j :: 0 <= i < j < |chain| ==> chain[i] != chain[j]
    }

    constructor (ost: OutputStream, chain: seq<Bsf>)
      requires forall i, j :: 0 <= i < j < |chain| ==> chain[i] != chain[j]
      ensures Valid() && this.ost == ost && this.chain == chain
    {
      this.ost, this.chain := ost, chain;
    }

    ghost predicate Matches(s: seq<FilterState>)
      reads chain
    {
      |s| == |chain| && forall i :: 0 <= i < |s| ==> chain[i].Value() == s[i]
    }

    method ReceiveFrom(j: nat, ghost s: seq<FilterState>) returns (got: Received)
      requires Valid() && j < |chain| && Matches(s)
      modifies chain[j]
      ensures Matches(Asked(s, j)) && got == Answer(s, j)
    {
      got := chain[j].Receive();
    }

    method SendTo(j: nat, p: Packet, ghost s: seq<FilterState>) returns (ok: bool)
      requires Valid() && j < |chain| && Matches(s)
      modifies chain[j]
      ensures ok <==> Accepts(s, j)
      ensures Matches(if ok then SentTo(s, j, p) else s)
    {
      ok := chain[j].Send(p);
    }

    // The call of write_packet, as one more packet delivered since `st0`.
    method WriteOut(header: bool, pkt: Packet, ghost st0: StreamState, ghost delivered: seq<Packet>)
      returns (r: Outcome)
      requires (ost.Value(), false) == WriteAll(ost.c, header, st0, delivered)
      modifies ost
      ensures (ost.Value(), r == ProgramExit) == WriteAll(ost.c, header, st0, delivered + [pkt])
      ensures r != FilterError
    {
      WriteAllAppend(ost.c, header, st0, delivered, pkt);
      var fate := ost.WritePacket(header, pkt, false);
      return if fate == Exited then ProgramExit else Done;
    }

    /** One pass of the loop in output_packet. */
    method Pass(header: bool, idx: nat, ghost s0: seq<FilterState>, ghost p: Packet, ghost st0: StreamState,
                ghost s: seq<FilterState>, ghost delivered: seq<Packet>)
      returns (r: Outcome, idx': nat, ghost s': seq<FilterState>, ghost delivered': seq<Packet>)
      requires Valid() && 0 < idx <= |chain| && Matches(s) && LoopAt(s0, p, s, delivered, idx)
      requires (ost.Value(), false) == WriteAll(ost.c, header, st0, delivered)
      modifies ost, chain
      ensures Matches(s')
      ensures (ost.Value(), r == ProgramExit) == WriteAll(ost.c, header, st0, delivered')
      ensures r == Done ==> LoopAt(s0, p, s', delivered', idx') && idx' <= |chain|
      ensures r == Done ==> Work(s', |s'|) < Work(s, |s|) || (Work(s', |s'|) == Work(s, |s|) && idx' < idx)
      ensures r != Done ==> delivered' <= Due(s0, p)
      ensures r == FilterError && AllDrained(s0) ==> SomeFilterFails(s0, p)
    {
      hide *;
      PassCases(s0, p, s, delivered, idx);
      var got := ReceiveFrom(idx - 1, s);
      s' := Asked(s, idx - 1);
      match got
      case Again =>
        return Done, idx - 1, s', delivered;
      case Failed =>
        return FilterError, idx, s', delivered;
      case Got(pkt) =>
        if idx == |chain| {
          r := WriteOut(header, pkt, st0, delivered);
          return r, idx, s', delivered + [pkt];
        }
        var ok := SendTo(idx, pkt, s');
        if ok {
          return Done, idx + 1, SentTo(s', idx, pkt), delivered;
        }
        return FilterError, idx, s', delivered;
    }

    /** output_packet, for a chain in states `s0`. `delivered` is what write_packet was
        called with, in order: never anything but the start of what is due; and, from a
        drained chain, all of the composition, unless some filter reports an error. `exits`
        says that the program ends: with write_packet, or after an error with exit_on_error. */
    method OutputPacket(header: bool, packet: Packet, ghost s0: seq<FilterState>)
      returns (r: Outcome, exits: bool, ghost s: seq<FilterState>, ghost delivered: seq<Packet>)
      requires Valid() && Matches(s0)
      modifies ost, chain
      ensures Matches(s) && (exits <==> r == ProgramExit || (r == FilterError && ost.c.exitOnError))
      ensures (ost.Value(), r == ProgramExit) == old(WriteAll(ost.c, header, ost.Value(), delivered))
      ensures delivered <= Due(s0, packet)
      ensures AllDrained(s0) && r != ProgramExit ==> (r == Done <==> !SomeFilterFails(s0, packet))
      ensures AllDrained(s0) && r == Done ==> FullyPassed(s0, packet, s, delivered)
    {
      delivered, s := [], s0;
      var n := |chain|;
      assert |s0| == n;
      assert WriteAll(ost.c, header, ost.Value(), []) == (ost.Value(), false);
      if n == 0 {
        r := WriteOut(header, packet, ost.Value(), []);
        delivered := [packet];
        exits := r == ProgramExit;
        return;
      }
      StartCase(s0, packet);
      NothingDelivered(s0, packet);
      ghost var st0 := ost.Value();
      hide *;
      var sent := SendTo(0, packet, s);
      if !sent {
        return FilterError, ost.c.exitOnError, s, [];
      }
      s := SentTo(s0, 0, packet);
      var idx := 1;
      while idx > 0
        invariant 0 <= idx <= n == |s| && Matches(s)
        invariant LoopAt(s0, packet, s, delivered, idx)
        invariant (ost.Value(), false) == WriteAll(ost.c, header, st0, delivered)
        decreases Work(s, |s|), idx
      {
        r, idx, s, delivered := Pass(header, idx, s0, packet, st0, s, delivered);
        if r != Done {
          exits := r == ProgramExit || ost.c.exitOnError;
          return;
        }
      }
      DeliveredIsDue(s0, packet, s, delivered, 0);
      if AllDrained(s0) {
        DoneCase(s0, packet, s, delivered);
      }
      r, exits := Done, false;
    }
  }
}
