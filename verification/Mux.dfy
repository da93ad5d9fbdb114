/** The last stage of the transcoder: packets are counted against the frame limit,
    buffered until the header is written, and have their timestamps repaired. */
module Mux {
  import opened Common

  // AV_NOPTS_VALUE; every real timestamp is greater.
  const NOPTS: int := -0x8000_0000_0000_0000

  datatype Packet = Packet(pts: int, dts: int, duration: int, size: nat, data: nat) {
    predicate Ok() { pts >= NOPTS && dts >= NOPTS }
    predicate Stamped() { pts != NOPTS && dts != NOPTS }
  }

  datatype MediaType = Video | Audio | OtherMedia

  datatype Config = Config(
    kind: MediaType,
    encodingNeeded: bool,
    vp9Copy: bool,             // VP9 and stream copy
    dropStamps: bool,          // vsync drop for video, a negative async for audio
    cfrDuration: Option<int>,  // one frame in the muxer's time base, when frame_rate and is_cfr
    noTimestamps: bool,        // AVFMT_NOTIMESTAMPS
    nonStrict: bool,           // AVFMT_TS_NONSTRICT
    exitOnError: bool,
    maxFrames: int,
    maxQueue: int)             // max_muxing_queue_size as given, in packets

  const PACKET_BYTES: int := 88  // sizeof(AVPacket)

  datatype StreamState = StreamState(
    frameNumber: int,
    lastMuxDts: int,
    packetsWritten: nat,
    dataSize: nat,
    queue: seq<Packet>,
    capacity: int,        // of the muxing queue, in bytes
    muxed: seq<Packet>)   // what av_interleaved_write_frame was given

  datatype Fate = Muxed | Queued | Dropped | Exited

  function NewStream(): StreamState { StreamState(0, NOPTS, 0, 0, [], 8 * PACKET_BYTES, []) }

  // ----- timestamp repair -----

  function Strictness(c: Config): int { if c.nonStrict then 0 else 1 }

  /** Audio and video streams of a muxer with timestamps, other than copied VP9. */
  predicate Ordered(c: Config) { c.kind != OtherMedia && !c.vp9Copy && !c.noTimestamps }

  function Prepared(c: Config, p: Packet): Packet {
    var p1 := if c.dropStamps then p.(pts := NOPTS, dts := NOPTS) else p;
    if c.kind == Video && c.cfrDuration.Some? then p1.(duration := c.cfrDuration.value) else p1
  }

  predicate Inverted(c: Config, p: Packet) {
    !c.noTimestamps && p.Stamped() && p.dts > p.pts
  }

  /** An inverted pair of stamps becomes the value nearest `last + 1` between them. */
  function Guessed(c: Config, last: int, p: Packet): Packet {
    if !Inverted(c, p) then p
    else
      var t := Max(p.pts, Min(p.dts, last + 1));
      p.(pts := t, dts := t)
  }

  predicate Backward(c: Config, last: int, p: Packet) {
    Ordered(c) && p.dts != NOPTS && last != NOPTS && p.dts < last + Strictness(c)
  }

  function Raised(c: Config, last: int, p: Packet): Packet {
    if !Backward(c, last, p) then p
    else
      var least := last + Strictness(c);
      p.(dts := least, pts := if p.pts >= p.dts then Max(p.pts, least) else p.pts)
  }

  function Repaired(c: Config, last: int, p: Packet): Packet {
    Raised(c, last, Guessed(c, last, Prepared(c, p)))
  }

  /** With exit_on_error a backward dts ends the program. */
  predicate Fatal(c: Config, last: int, p: Packet) {
    c.exitOnError && Backward(c, last, Guessed(c, last, Prepared(c, p)))
  }

  /** A whole run through the repair, from the stream's `last_mux_dts` on. */
  function RepairedRun(c: Config, last: int, ps: seq<Packet>): (ws: seq<Packet>)
    ensures |ws| == |ps|
    decreases |ps|
  {
    if ps == [] then []
    else
      var w := Repaired(c, last, ps[0]);
      [w] + RepairedRun(c, w.dts, ps[1..])
  }

  function LastDts(last: int, ws: seq<Packet>): int {
    if ws == [] then last else ws[|ws| - 1].dts
  }

  lemma {:induction false} RepairedRunAppend(c: Config, last: int, ps: seq<Packet>, p: Packet)
    ensures RepairedRun(c, last, ps + [p])
            == RepairedRun(c, last, ps) + [Repaired(c, LastDts(last, RepairedRun(c, last, ps)), p)]
    decreases |ps|
  {
    if ps == [] {
      assert ps + [p] == [p];
    } else {
      var w := Repaired(c, last, ps[0]);
      assert (ps + [p])[1..] == ps[1..] + [p];
      RepairedRunAppend(c, w.dts, ps[1..], p);
      assert LastDts(last, RepairedRun(c, last, ps)) == LastDts(w.dts, RepairedRun(c, w.dts, ps[1..]));
    }
  }

  // ----- what the repair leaves alone, and the least it changes -----

  // The dts before packet `i` of a run that leaves as `ws`.
  function DtsBefore(last: int, ws: seq<Packet>, i: nat): int
    requires i <= |ws|
  {
    if i == 0 then last else ws[i - 1].dts
  }

  lemma {:induction false} RunAt(c: Config, last: int, ps: seq<Packet>, i: nat)
    requires i < |ps|
    ensures var ws := RepairedRun(c, last, ps);
            ws[i] == Repaired(c, DtsBefore(last, ws, i), ps[i])
    decreases i
  {
    if i > 0 {
      RunAt(c, Repaired(c, last, ps[0]).dts, ps[1..], i - 1);
    }
  }

  lemma {:induction false} RunDts(c: Config, last: int, ps: seq<Packet>, i: nat)
    requires i <= |ps| && last >= NOPTS && forall p <- ps :: p.Ok()
    ensures DtsBefore(last, RepairedRun(c, last, ps), i) >= NOPTS
  {
    if i > 0 {
      RunDts(c, last, ps, i - 1);
      RunAt(c, last, ps, i - 1);
      assert ps[i - 1].Ok();
    }
  }

  /** The check of the order applies: a dts after a dts, on a stream it is made for. */
  predicate Checked(c: Config, before: int, p: Packet) {
    && !c.noTimestamps && !c.vp9Copy && (c.kind == Audio || c.kind == Video)
    && p.dts != NOPTS && before != NOPTS
  }

  // The earliest dts after `before` that the muxer takes.
  function Earliest(c: Config, before: int): int { if c.nonStrict then before else before + 1 }

  /** Nothing about the packet calls for a repair: its dts is not after its pts, and not
      too early after the one before. */
  predicate Healthy(c: Config, before: int, p: Packet) {
    && (c.noTimestamps || p.pts == NOPTS || p.dts == NOPTS || p.dts <= p.pts)
    && (Checked(c, before, p) ==> Earliest(c, before) <= p.dts)
  }

  predicate AllHealthy(c: Config, last: int, ps: seq<Packet>)
    decreases |ps|
  {
    ps != [] ==> Healthy(c, last, ps[0]) && AllHealthy(c, ps[0].dts, ps[1..])
  }

  /** A run that keeps its stamps and durations passes unchanged exactly when every packet
      of it is healthy after the one before. */
  lemma {:induction false} UnchangedExactly(c: Config, last: int, ps: seq<Packet>)
    requires !c.dropStamps && !(c.kind == Video && c.cfrDuration.Some?)
    ensures RepairedRun(c, last, ps) == ps <==> AllHealthy(c, last, ps)
    decreases |ps|
  {
    if ps != [] {
      var w, rest := Repaired(c, last, ps[0]), ps[1..];
      UnchangedExactly(c, ps[0].dts, rest);
      assert w == ps[0] <==> Healthy(c, last, ps[0]);
      assert ps == [ps[0]] + rest;
      assert ([w] + RepairedRun(c, w.dts, rest))[1..] == RepairedRun(c, w.dts, rest);
    }
  }

  /** In particular a stream in decoding order, every picture shown no earlier than it is
      decoded, reaches the muxer as it is. */
  lemma {:induction false} ReorderedPicturesPass(c: Config, last: int, ps: seq<Packet>)
    requires !c.dropStamps && !(c.kind == Video && c.cfrDuration.Some?)
    requires forall p <- ps :: p.Stamped() && p.dts <= p.pts
    requires ps != [] && last != NOPTS ==> Earliest(c, last) <= ps[0].dts
    requires forall i :: 0 < i < |ps| ==> Earliest(c, ps[i - 1].dts) <= ps[i].dts
    ensures RepairedRun(c, last, ps) == ps
    decreases |ps|
  {
    if ps != [] {
      var rest := ps[1..];
      forall i | 0 < i < |rest| ensures Earliest(c, rest[i - 1].dts) <= rest[i].dts {
        assert rest[i] == ps[i + 1] && rest[i - 1] == ps[i];
      }
      ReorderedPicturesPass(c, ps[0].dts, rest);
      UnchangedExactly(c, ps[0].dts, rest);
      UnchangedExactly(c, last, ps);
    }
  }

  /** Stamp `x` becomes the least that is not before itself, nor before `y` where asked. */
  predicate LeastFrom(w: int, x: int, asked: bool, y: int) {
    && w >= x && (asked ==> w >= y)
    && (w == x || (asked && w == y))
  }

  /** Every packet of any run is changed as little as the order allows. Size and data stay;
      the duration is the constant one where there is one; stamps that are dropped are all
      gone, and otherwise a stamp is there exactly when it came. A packet whose stamps are
      not inverted keeps its dts, or takes the least one allowed, and keeps its pts, or
      takes that dts. */
  lemma LeastChange(c: Config, last: int, ps: seq<Packet>, i: nat)
    requires i < |ps| && last >= NOPTS && forall p <- ps :: p.Ok()
    ensures
      var ws := RepairedRun(c, last, ps);
      var w, p, before := ws[i], ps[i], DtsBefore(last, ws, i);
      && w.size == p.size && w.data == p.data
      && w.duration == (if c.kind == Video && c.cfrDuration.Some? then c.cfrDuration.value else p.duration)
      && (c.dropStamps ==> w.pts == NOPTS && w.dts == NOPTS)
      && (!c.dropStamps ==> (w.pts == NOPTS <==> p.pts == NOPTS) && (w.dts == NOPTS <==> p.dts == NOPTS))
      && (!c.dropStamps && (c.noTimestamps || !p.Stamped() || p.dts <= p.pts) ==>
            && LeastFrom(w.dts, p.dts, Checked(c, before, p), Earliest(c, before))
            && LeastFrom(w.pts, p.pts, !c.noTimestamps && p.Stamped(), w.dts))
  {
    RunDts(c, last, ps, i);
    RunAt(c, last, ps, i);
    assert ps[i].Ok();
  }

  /** A packet whose stamps are inverted leaves with both equal, between the two that came,
      and as near to one after the last dts as that and the order allow. */
  lemma InvertedPairMeets(c: Config, last: int, ps: seq<Packet>, i: nat)
    requires i < |ps| && last >= NOPTS && forall p <- ps :: p.Ok()
    requires !c.dropStamps && !c.noTimestamps && ps[i].Stamped() && ps[i].pts < ps[i].dts
    ensures
      var ws := RepairedRun(c, last, ps);
      var w, p, before := ws[i], ps[i], DtsBefore(last, ws, i);
      && w.pts == w.dts
      && (p.pts <= before + 1 <= p.dts ==> w.dts == before + 1)
      && (before + 1 < p.pts ==> w.dts == p.pts)
      && (p.dts < before + 1 ==> w.dts == if Checked(c, before, p) && p.dts < Earliest(c, before)
                                          then Earliest(c, before) else p.dts)
  {
    RunDts(c, last, ps, i);
    RunAt(c, last, ps, i);
    assert ps[i].Ok();
  }

  // ----- order -----

  /** In any run, as long as no packet without dts comes in between, dts grows by at
      least one a packet (does not fall, for a NONSTRICT muxer). */
  lemma {:induction false} DtsGrows(c: Config, last: int, ps: seq<Packet>, i: nat, j: nat)
    requires Ordered(c) && i <= j < |ps|
    requires forall k :: i <= k <= j ==> RepairedRun(c, last, ps)[k].dts != NOPTS
    ensures var ws := RepairedRun(c, last, ps);
            ws[i].dts + Strictness(c) * (j - i) <= ws[j].dts
    decreases |ps|, j
  {
    var w := Repaired(c, last, ps[0]);
    var ws := RepairedRun(c, last, ps);
    var rest := RepairedRun(c, w.dts, ps[1..]);
    if i > 0 {
      forall k | i - 1 <= k <= j - 1 ensures rest[k].dts != NOPTS { assert rest[k] == ws[k + 1]; }
      DtsGrows(c, w.dts, ps[1..], i - 1, j - 1);
    } else if j > 0 {
      assert rest[0] == Repaired(c, w.dts, ps[1]) == ws[1];
      assert ws[0].dts + Strictness(c) <= ws[1].dts;
      forall k | 0 <= k <= j - 1 ensures rest[k].dts != NOPTS { assert rest[k] == ws[k + 1]; }
      DtsGrows(c, w.dts, ps[1..], 0, j - 1);
    }
  }

  /** Whatever comes in, a packet with both stamps leaves with pts no earlier than dts. */
  lemma {:induction false} PtsNotBeforeDts(c: Config, last: int, ps: seq<Packet>, i: nat)
    requires !c.noTimestamps && i < |ps| && RepairedRun(c, last, ps)[i].Stamped()
    requires forall p <- ps :: p.Ok()
    ensures RepairedRun(c, last, ps)[i].pts >= RepairedRun(c, last, ps)[i].dts
    decreases i
  {
    if i > 0 {
      PtsNotBeforeDts(c, Repaired(c, last, ps[0]).dts, ps[1..], i - 1);
    } else {
      assert ps[0].Ok();
    }
  }

  /** What an inverted pair becomes: on a strict muxer the later of its pts and the
      dts after the last one; on a NONSTRICT one that value or, when even the incoming
      dts is not after the last one, the last one again. */
  lemma InvertedPairBecomes(c: Config, last: int, p: Packet)
    requires Ordered(c) && !c.dropStamps && Inverted(c, p) && p.Ok() && last >= NOPTS
    ensures var w := Repaired(c, last, p);
            w.pts == w.dts == if c.nonStrict && last != NOPTS && p.dts <= last then last
                              else Max(p.pts, last + 1)
  {
  }

  /** Of the packets with a dts every later one is after every earlier one (not before it,
      for a NONSTRICT muxer), whatever comes in between. */
  ghost predicate InOrder(c: Config, ws: seq<Packet>) {
    forall i, j :: 0 <= i < j < |ws| && ws[i].dts != NOPTS && ws[j].dts != NOPTS ==>
      ws[i].dts + Strictness(c) <= ws[j].dts
  }

  /** The dts of the last packet that has one; NOPTS if none has. */
  function HighDts(ws: seq<Packet>): int {
    if ws == [] then NOPTS
    else if ws[|ws| - 1].dts != NOPTS then ws[|ws| - 1].dts
    else HighDts(ws[..|ws| - 1])
  }

  /** Packet `p`, coming after a packet without dts, brings stamps past the dts `h` that
      left last before it. */
  predicate BringsOrder(c: Config, h: int, p: Packet) {
    h + Strictness(c) <= p.dts && (p.pts == NOPTS || h + Strictness(c) <= p.pts)
  }

  /** The first packet with a dts after every gap does so. */
  ghost predicate GapsBringOrder(c: Config, ps: seq<Packet>) {
    ps != [] ==>
      var before, p := ps[..|ps| - 1], Prepared(c, ps[|ps| - 1]);
      var ws := RepairedRun(c, NOPTS, before);
      && GapsBringOrder(c, before)
      && (p.dts != NOPTS && LastDts(NOPTS, ws) == NOPTS && HighDts(ws) != NOPTS ==>
            BringsOrder(c, HighDts(ws), p))
  }

  lemma {:induction false} HighIsHigh(c: Config, ws: seq<Packet>)
    requires InOrder(c, ws)
    ensures forall i :: 0 <= i < |ws| && ws[i].dts != NOPTS ==> HighDts(ws) != NOPTS && ws[i].dts <= HighDts(ws)
    ensures HighDts(ws) != NOPTS ==> exists i :: 0 <= i < |ws| && ws[i].dts == HighDts(ws)
  {
    if ws != [] && ws[|ws| - 1].dts == NOPTS {
      var before := ws[..|ws| - 1];
      HighIsHigh(c, before);
      if HighDts(ws) != NOPTS {
        var i :| 0 <= i < |before| && before[i].dts == HighDts(ws);
        assert ws[i].dts == HighDts(ws);
      }
    }
  }

  lemma InOrderAppend(c: Config, ws: seq<Packet>, w: Packet)
    ensures InOrder(c, ws + [w]) <==>
              InOrder(c, ws) && (w.dts != NOPTS && HighDts(ws) != NOPTS ==> HighDts(ws) + Strictness(c) <= w.dts)
  {
    var all := ws + [w];
    assert forall i :: 0 <= i < |ws| ==> all[i] == ws[i];
    assert all[|ws|] == w;
    if InOrder(c, ws) {
      HighIsHigh(c, ws);
      if HighDts(ws) != NOPTS {
        var i :| 0 <= i < |ws| && ws[i].dts == HighDts(ws);
        assert all[i].dts == HighDts(ws);
      }
    } else {
      var i, j :| 0 <= i < j < |ws| && ws[i].dts != NOPTS && ws[j].dts != NOPTS
                  && ws[i].dts + Strictness(c) > ws[j].dts;
      assert all[i] == ws[i] && all[j] == ws[j];
    }
  }

  /** One packet of a run: with a dts just before it the repair sees to the order. A
      packet without dts resets the check: the next one leaves with the dts it brings (its
      pts if the two are inverted), so it stays after an earlier dts `h` exactly when both
      its stamps do. */
  lemma RepairKeepsOrder(c: Config, last: int, h: int, p: Packet)
    requires Ordered(c) && p.Ok() && h > NOPTS && last in {NOPTS, h}
    ensures var w := Repaired(c, last, p);
            && (w.dts != NOPTS <==> Prepared(c, p).dts != NOPTS)
            && (w.dts != NOPTS ==>
                  (h + Strictness(c) <= w.dts <==> last == h || BringsOrder(c, h, Prepared(c, p))))
  {
  }

  /** Over a whole run the packets with a dts leave in order exactly when the first one
      after each gap brings stamps past the dts that left before the gap. */
  lemma {:induction false} OrderedExactlyWhenGapsAre(c: Config, ps: seq<Packet>)
    requires Ordered(c) && forall p <- ps :: p.Ok()
    ensures InOrder(c, RepairedRun(c, NOPTS, ps)) <==> GapsBringOrder(c, ps)
    ensures forall w <- RepairedRun(c, NOPTS, ps) :: w.dts >= NOPTS
  {
    if ps != [] {
      var before, p := ps[..|ps| - 1], ps[|ps| - 1];
      assert before + [p] == ps;
      assert forall q <- before :: q in ps;
      OrderedExactlyWhenGapsAre(c, before);
      RepairedRunAppend(c, NOPTS, before, p);
      var ws := RepairedRun(c, NOPTS, before);
      OneMore(c, ws, LastDts(NOPTS, ws), p);
    }
  }

  lemma OneMore(c: Config, ws: seq<Packet>, last: int, p: Packet)
    requires Ordered(c) && p.Ok() && last == LastDts(NOPTS, ws) && forall w <- ws :: w.dts >= NOPTS
    ensures Repaired(c, last, p).dts >= NOPTS
    ensures InOrder(c, ws + [Repaired(c, last, p)]) <==>
              && InOrder(c, ws)
              && (Prepared(c, p).dts != NOPTS && last == NOPTS && HighDts(ws) != NOPTS ==>
                    BringsOrder(c, HighDts(ws), Prepared(c, p)))
  {
    var w := Repaired(c, last, p);
    InOrderAppend(c, ws, w);
    HighInRange(ws);
    if HighDts(ws) != NOPTS {
      RepairKeepsOrder(c, last, HighDts(ws), p);
    }
  }

  lemma {:induction false} HighInRange(ws: seq<Packet>)
    requires forall w <- ws :: w.dts >= NOPTS
    ensures HighDts(ws) >= NOPTS && (LastDts(NOPTS, ws) != NOPTS ==> HighDts(ws) == LastDts(NOPTS, ws))
  {
    if ws != [] {
      assert ws[|ws| - 1] in ws;
      assert forall w <- ws[..|ws| - 1] :: w in ws;
      HighInRange(ws[..|ws| - 1]);
    }
  }

  /** So the order of DtsGrows fails across a gap: 10, none, 5 stays as it is. */
  lemma GapBreaksOrder(c: Config)
    requires Ordered(c) && !c.dropStamps
    ensures var ps := [Packet(10, 10, 1, 1, 0), Packet(NOPTS, NOPTS, 1, 1, 1), Packet(5, 5, 1, 1, 2)];
            var ws := RepairedRun(c, NOPTS, ps);
            ws[0].dts == 10 && ws[1].dts == NOPTS && ws[2].dts == 5
  {
    var ps := [Packet(10, 10, 1, 1, 0), Packet(NOPTS, NOPTS, 1, 1, 1), Packet(5, 5, 1, 1, 2)];
    assert ps[1..] == [ps[1], ps[2]] && ps[1..][1..] == [ps[2]];
    assert RepairedRun(c, NOPTS, ps)[1..] == RepairedRun(c, 10, ps[1..]);
    assert RepairedRun(c, 10, ps[1..])[1..] == RepairedRun(c, NOPTS, ps[1..][1..]);
  }

  // ----- one packet -----

  predicate Counted(c: Config) { !(c.kind == Video && c.encodingNeeded) }

  function Limit(c: Config): int { c.maxQueue * PACKET_BYTES }

  function Enqueued(c: Config, st: StreamState, p: Packet): (StreamState, Fate) {
    var used := |st.queue| * PACKET_BYTES;
    if used < st.capacity then (st.(queue := st.queue + [p]), Queued)
    else if Min(2 * used, Limit(c)) <= used then (st, Exited)
    else (st.(queue := st.queue + [p], capacity := Min(2 * used, Limit(c))), Queued)
  }

  function Sent(c: Config, st: StreamState, p: Packet): (StreamState, Fate) {
    if Fatal(c, st.lastMuxDts, p) then (st, Exited)
    else
      var w := Repaired(c, st.lastMuxDts, p);
      (st.(lastMuxDts := w.dts, dataSize := st.dataSize + w.size,
           packetsWritten := st.packetsWritten + 1, muxed := st.muxed + [w]), Muxed)
  }

  function Write(c: Config, header: bool, st: StreamState, p: Packet, unqueue: bool): (StreamState, Fate) {
    var counts := Counted(c) && !unqueue;
    if counts && st.frameNumber >= c.maxFrames then (st, Dropped)
    else
      var st1 := if counts then st.(frameNumber := st.frameNumber + 1) else st;
      if header then Sent(c, st1, p) else Enqueued(c, st1, p)
  }

  /** The muxing queue written out, front first, until it is empty or the program exits. */
  function Drained(c: Config, st: StreamState): (r: (StreamState, Fate))
    ensures r.1 == Muxed || r.1 == Exited
    decreases |st.queue|
  {
    if st.queue == [] then (st, Muxed)
    else
      var (st1, fate) := Write(c, true, st.(queue := st.queue[1..]), st.queue[0], true);
      if fate == Exited then (st1, Exited) else Drained(c, st1)
  }

  // ----- whole runs of one stream -----

  datatype Event = Packets(p: Packet) | Header

  datatype RunState = RunState(st: StreamState, header: bool, exited: bool)

  function RunStep(c: Config, s: RunState, e: Event): RunState {
    if s.exited then s
    else
      match e
      case Packets(p) =>
        var (st, fate) := Write(c, s.header, s.st, p, false);
        s.(st := st, exited := fate == Exited)
      case Header =>
        if s.header then s
        else
          var (st, fate) := Drained(c, s.st);
          RunState(st, true, fate == Exited)
  }

  function Run(c: Config, events: seq<Event>): RunState {
    if events == [] then RunState(NewStream(), false, false)
    else RunStep(c, Run(c, events[..|events| - 1]), events[|events| - 1])
  }

  /** The packets of a run that the frame limit lets in: for a counted stream the first
      `max_frames`, otherwise all. */
  function Accepted(c: Config, events: seq<Event>): seq<Packet> {
    if events == [] then []
    else
      var before := Accepted(c, events[..|events| - 1]);
      match events[|events| - 1]
      case Header => before
      case Packets(p) =>
        if Counted(c) && |before| >= c.maxFrames then before else before + [p]
  }

  /** What was sent is the repaired form of `done`, and the counters go with it. */
  ghost predicate Wrote(c: Config, st: StreamState, done: seq<Packet>) {
    && st.muxed == RepairedRun(c, NOPTS, done)
    && st.lastMuxDts == LastDts(NOPTS, st.muxed)
    && st.packetsWritten == |st.muxed|
    && st.dataSize == Bytes(st.muxed)
  }

  /** Sent so far, then still queued, are exactly the packets accepted, in order. */
  ghost predicate Tracks(c: Config, s: RunState, accepted: seq<Packet>) {
    && |s.st.muxed| + |s.st.queue| == |accepted|
    && Wrote(c, s.st, accepted[..|s.st.muxed|])
    && s.st.queue == accepted[|s.st.muxed|..]
    && (if s.header then s.st.queue == [] else s.st.muxed == [])
    && s.st.frameNumber == (if Counted(c) then |accepted| else 0)
    && (Counted(c) ==> |accepted| <= Max(0, c.maxFrames))
  }

  /** The queue holds whole packets and never more than the larger of 8 and the limit. */
  ghost predicate Bounded(c: Config, st: StreamState) {
    && st.capacity % PACKET_BYTES == 0
    && 8 * PACKET_BYTES <= st.capacity <= Max(8, c.maxQueue) * PACKET_BYTES
    && |st.queue| * PACKET_BYTES <= st.capacity
  }

  lemma SentWrote(c: Config, st: StreamState, p: Packet, done: seq<Packet>)
    requires Wrote(c, st, done) && Sent(c, st, p).1 == Muxed
    ensures Wrote(c, Sent(c, st, p).0, done + [p])
  {
    RepairedRunAppend(c, NOPTS, done, p);
    var w := Repaired(c, st.lastMuxDts, p);
    assert (st.muxed + [w])[..|st.muxed|] == st.muxed;
  }

  lemma {:induction false} DrainedWrote(c: Config, st: StreamState, done: seq<Packet>)
    requires Wrote(c, st, done) && Drained(c, st).1 != Exited
    ensures Wrote(c, Drained(c, st).0, done + st.queue)
    ensures Drained(c, st).0.queue == []
    ensures Drained(c, st).0.capacity == st.capacity && Drained(c, st).0.frameNumber == st.frameNumber
    decreases |st.queue|
  {
    if st.queue == [] {
      assert done + st.queue == done;
    } else {
      var rest := st.(queue := st.queue[1..]);
      SentWrote(c, rest, st.queue[0], done);
      DrainedWrote(c, Sent(c, rest, st.queue[0]).0, done + [st.queue[0]]);
      assert done + st.queue == done + [st.queue[0]] + st.queue[1..];
    }
  }

  lemma PacketKeepsTracks(c: Config, s: RunState, p: Packet, accepted: seq<Packet>)
    requires Tracks(c, s, accepted) && !s.exited && !RunStep(c, s, Packets(p)).exited
    ensures var more := if Counted(c) && |accepted| >= c.maxFrames then accepted else accepted + [p];
            Tracks(c, RunStep(c, s, Packets(p)), more)
  {
    var t := RunStep(c, s, Packets(p));
    if !(Counted(c) && |accepted| >= c.maxFrames) {
      var st1 := if Counted(c) then s.st.(frameNumber := s.st.frameNumber + 1) else s.st;
      if s.header {
        assert accepted[..|s.st.muxed|] == accepted;
        assert Wrote(c, st1, accepted);
        SentWrote(c, st1, p, accepted);
        assert (accepted + [p])[..|t.st.muxed|] == accepted + [p];
      } else {
        assert (accepted + [p])[..0] == accepted[..0];
        assert t.st.queue == accepted + [p];
      }
    }
  }

  lemma HeaderKeepsTracks(c: Config, s: RunState, accepted: seq<Packet>)
    requires Tracks(c, s, accepted) && !s.exited && !RunStep(c, s, Header).exited
    ensures Tracks(c, RunStep(c, s, Header), accepted)
  {
    if !s.header {
      DrainedWrote(c, s.st, []);
      assert [] + s.st.queue == accepted;
      assert accepted[..|accepted|] == accepted;
    }
  }

  /** Across the switch from buffering to writing each stream's packets reach the muxer
      in the order accepted, none lost or repeated; `frame_number` counts queued and
      written ones and stays within the limit. */
  lemma {:induction false} NothingLostOrReordered(c: Config, events: seq<Event>)
    requires !Run(c, events).exited
    ensures Tracks(c, Run(c, events), Accepted(c, events))
  {
    if events != [] {
      var before := events[..|events| - 1];
      NothingLostOrReordered(c, before);
      match events[|events| - 1]
      case Packets(p) => PacketKeepsTracks(c, Run(c, before), p, Accepted(c, before));
      case Header => HeaderKeepsTracks(c, Run(c, before), Accepted(c, before));
    }
  }

  lemma {:induction false} DrainedBounded(c: Config, st: StreamState)
    ensures Drained(c, st).0.capacity == st.capacity && |Drained(c, st).0.queue| <= |st.queue|
    decreases |st.queue|
  {
    if st.queue != [] {
      DrainedBounded(c, Write(c, true, st.(queue := st.queue[1..]), st.queue[0], true).0);
    }
  }

  lemma WriteBounded(c: Config, header: bool, st: StreamState, p: Packet)
    requires Bounded(c, st)
    ensures Bounded(c, Write(c, header, st, p, false).0)
  {
    hide Repaired, Fatal;
    var counted := st.(frameNumber := st.frameNumber + 1);
    EnqueuedBounded(c, st, p);
    EnqueuedBounded(c, counted, p);
    hide Enqueued;
  }

  lemma EnqueuedBounded(c: Config, st: StreamState, p: Packet)
    requires Bounded(c, st)
    ensures Bounded(c, Enqueued(c, st, p).0)
  {
    var n := |st.queue|;
    assert 2 * (n * PACKET_BYTES) == (2 * n) * PACKET_BYTES;
    assert Min(2 * (n * PACKET_BYTES), Limit(c)) == Min(2 * n, c.maxQueue) * PACKET_BYTES;
  }

  lemma {:induction false} QueueStaysBounded(c: Config, events: seq<Event>)
    ensures Bounded(c, Run(c, events).st)
  {
    if events != [] {
      var s := Run(c, events[..|events| - 1]);
      QueueStaysBounded(c, events[..|events| - 1]);
      match events[|events| - 1]
      case Packets(p) => WriteBounded(c, s.header, s.st, p);
      case Header => DrainedBounded(c, s.st);
    }
  }

  /** After the header a packet that is let in ends the program exactly with exit_on_error,
      when its dts is too early after the last one. */
  lemma ExitsExactlyOnEarlyDts(c: Config, events: seq<Event>, p: Packet)
    requires p.Ok() && !c.dropStamps && forall e <- events :: e.Packets? ==> e.p.Ok()
    requires var s := Run(c, events); !s.exited && s.header && !(Counted(c) && s.st.frameNumber >= c.maxFrames)
    ensures var before := Run(c, events).st.lastMuxDts;
            RunStep(c, Run(c, events), Packets(p)).exited
            <==> c.exitOnError && Checked(c, before, p) && p.dts < Earliest(c, before)
  {
    LastInRange(c, events);
  }

  lemma {:induction false} LastInRange(c: Config, events: seq<Event>)
    requires forall e <- events :: e.Packets? ==> e.p.Ok()
    ensures Run(c, events).st.lastMuxDts >= NOPTS
    ensures forall q <- Run(c, events).st.queue :: q.Ok()
  {
    if events != [] {
      var before := events[..|events| - 1];
      assert forall e <- before :: e in events;
      assert events[|events| - 1] in events;
      LastInRange(c, before);
      if events[|events| - 1].Header? { DrainedInRange(c, Run(c, before).st); }
    }
  }

  lemma {:induction false} DrainedInRange(c: Config, st: StreamState)
    requires st.lastMuxDts >= NOPTS && forall q <- st.queue :: q.Ok()
    ensures Drained(c, st).0.lastMuxDts >= NOPTS && forall q <- Drained(c, st).0.queue :: q.Ok()
    decreases |st.queue|
  {
    if st.queue != [] {
      assert st.queue[0] in st.queue && forall q <- st.queue[1..] :: q in st.queue;
      DrainedInRange(c, Write(c, true, st.(queue := st.queue[1..]), st.queue[0], true).0);
    }
  }

  /** The frame limit holds for every stream but encoded video, which is counted when it is
      encoded: such a stream loses no packet, and any other exactly those beyond the limit. */
  lemma DropsExactlyBeyondLimit(c: Config, header: bool, st: StreamState, p: Packet)
    ensures Write(c, header, st, p, false).1 == Dropped
            <==> !(c.kind == Video && c.encodingNeeded) && st.frameNumber >= c.maxFrames
    ensures Write(c, header, st, p, false).1 == Dropped ==> Write(c, header, st, p, false).0 == st
    ensures Write(c, header, st, p, true).1 != Dropped
  {
  }

  /** The queue grows only when it is full, to twice its size or to the limit. */
  lemma GrowsOnlyWhenFull(c: Config, st: StreamState, p: Packet)
    requires Bounded(c, st) && Enqueued(c, st, p).1 == Queued
    ensures Enqueued(c, st, p).0 == st.(
              queue := st.queue + [p],
              capacity := if |st.queue| * PACKET_BYTES < st.capacity then st.capacity
                          else if 2 * st.capacity < c.maxQueue * PACKET_BYTES then 2 * st.capacity
                          else c.maxQueue * PACKET_BYTES)
  {
  }

  function Bytes(ps: seq<Packet>): nat {
    if ps == [] then 0 else Bytes(ps[..|ps| - 1]) + ps[|ps| - 1].size
  }

  /** Before the header, a packet that is let in ends the program exactly when the
      queue already holds max(8, max_muxing_queue_size) packets. */
  lemma OverflowExactlyAtLimit(c: Config, events: seq<Event>, p: Packet)
    requires var s := Run(c, events);
             !s.exited && !s.header && !(Counted(c) && s.st.frameNumber >= c.maxFrames)
    ensures RunStep(c, Run(c, events), Packets(p)).exited
            <==> |Run(c, events).st.queue| == Max(8, c.maxQueue)
  {
    QueueStaysBounded(c, events);
  }

  // ----- the stream and the file as the program updates them -----

  class OutputStream {
    const c: Config
    var frameNumber: int
    var lastMuxDts: int
    var packetsWritten: nat
    var dataSize: nat
    var muxingQueue: seq<Packet>
    var queueCapacity: int
    ghost var muxed: seq<Packet>

    ghost function Value(): StreamState
      reads this
    {
      StreamState(frameNumber, lastMuxDts, packetsWritten, dataSize, muxingQueue, queueCapacity, muxed)
    }

    constructor (c: Config)
      ensures this.c == c && Value() == NewStream()
    {
      this.c := c;
      frameNumber, lastMuxDts, packetsWritten, dataSize := 0, NOPTS, 0, 0;
      muxingQueue, queueCapacity, muxed := [], 8 * PACKET_BYTES, [];
    }

    /** The timestamp half of write_packet. */
    method RepairStamps(packet: Packet) returns (fatal: bool, pkt: Packet)
      ensures fatal == Fatal(c, lastMuxDts, packet)
      ensures !fatal ==> pkt == Repaired(c, lastMuxDts, packet)
    {
      pkt, fatal := packet, false;
      if c.dropStamps {
        pkt := pkt.(pts := NOPTS, dts := NOPTS);
      }
      if c.kind == Video && c.cfrDuration.Some? {
        pkt := pkt.(duration := c.cfrDuration.value);
      }
      if !c.noTimestamps {
        if pkt.dts != NOPTS && pkt.pts != NOPTS && pkt.dts > pkt.pts {
          // The sum less the least and the greatest of the three is the middle one.
          var guess := pkt.pts + pkt.dts + lastMuxDts + 1
                       - Min(Min(pkt.pts, pkt.dts), lastMuxDts + 1)
                       - Max(Max(pkt.pts, pkt.dts), lastMuxDts + 1);
          pkt := pkt.(pts := guess, dts := guess);
        }
        if (c.kind == Audio || c.kind == Video) && pkt.dts != NOPTS && !c.vp9Copy && lastMuxDts != NOPTS {
          var max := lastMuxDts + if c.nonStrict then 0 else 1;
          if pkt.dts < max {
            if c.exitOnError {
              return true, pkt;
            }
            if pkt.pts >= pkt.dts {
              pkt := pkt.(pts := Max(pkt.pts, max));
            }
            pkt := pkt.(dts := max);
          }
        }
      }
    }

    /** write_packet; `headerWritten` is the file's flag. */
    method WritePacket(headerWritten: bool, packet: Packet, unqueue: bool) returns (fate: Fate)
      modifies this
      ensures (Value(), fate) == Write(c, headerWritten, old(Value()), packet, unqueue)
    {
      if !(c.kind == Video && c.encodingNeeded) && !unqueue {
        if frameNumber >= c.maxFrames {
          return Dropped;
        }
        frameNumber := frameNumber + 1;
      }
      if !headerWritten {
        if queueCapacity - |muxingQueue| * PACKET_BYTES <= 0 {
          var newSize := Min(2 * (|muxingQueue| * PACKET_BYTES), c.maxQueue * PACKET_BYTES);
          if newSize <= |muxingQueue| * PACKET_BYTES {
            return Exited;
          }
          queueCapacity := newSize;
        }
        muxingQueue := muxingQueue + [packet];
        return Queued;
      }
      var fatal, pkt := RepairStamps(packet);
      if fatal {
        return Exited;
      }
      lastMuxDts := pkt.dts;
      dataSize := dataSize + pkt.size;
      packetsWritten := packetsWritten + 1;
      muxed := muxed + [pkt];
      return Muxed;
    }

    /** The drain loop of check_init_output_file for this stream. */
    method DrainQueue() returns (fate: Fate)
      modifies this
      ensures (Value(), fate) == Drained(c, old(Value()))
    {
      while muxingQueue != []
        invariant Drained(c, Value()) == Drained(c, old(Value()))
        decreases |muxingQueue|
      {
        var pkt := muxingQueue[0];
        muxingQueue := muxingQueue[1..];
        fate := WritePacket(true, pkt, true);
        if fate == Exited {
          return Exited;
        }
      }
      return Muxed;
    }
  }

  // How a call of check_init_output_file ends: a stream is not initialised yet, the muxer
  // refuses the header, the program ends while a queue is written out, or all went well.
  datatype Check = Waiting | HeaderFailed | Ended | Opened

  class OutputFile {
    const streams: seq<OutputStream>
    var headerWritten: bool

    ghost predicate Valid()
    {
      forall i, j :: 0 <= i < j < |streams| ==> streams[i] != streams[j]
    }

    constructor (streams: seq<OutputStream>)
      requires forall i, j :: 0 <= i < j < |streams| ==> streams[i] != streams[j]
      ensures Valid() && this.streams == streams && !headerWritten
    {
      this.streams, headerWritten := streams, false;
    }

    /** check_init_output_file: once every stream is initialised, writes the header
        (`headerOk` is the muxer's answer) and drains the queues one stream after the other. */
    method CheckInit(initialized: seq<bool>, headerOk: bool) returns (r: Check)
      requires Valid() && |initialized| == |streams|
      modifies `headerWritten, streams
      ensures r == Waiting <==> false in initialized
      ensures r == HeaderFailed <==> false !in initialized && !headerOk
      ensures r in {Waiting, HeaderFailed} ==>
                headerWritten == old(headerWritten) && (forall s <- streams :: unchanged(s))
      ensures r in {Opened, Ended} ==> headerWritten
      ensures r == Ended <==>
                && false !in initialized && headerOk
                && exists s <- streams :: old(Drained(s.c, s.Value())).1 == Exited
      ensures r == Opened ==> forall s <- streams :: s.Value() == old(Drained(s.c, s.Value())).0
    {
      var i := 0;
      while i < |streams|
        invariant 0 <= i <= |streams| && false !in initialized[..i]
      {
        if !initialized[i] {
          return Waiting;
        }
        i := i + 1;
      }
      assert initialized[..i] == initialized;
      if !headerOk {
        return HeaderFailed;
      }
      headerWritten := true;
      i := 0;
      while i < |streams|
        invariant 0 <= i <= |streams| && headerWritten
        invariant forall k :: 0 <= k < i ==>
                    (streams[k].Value(), Muxed) == old(Drained(streams[k].c, streams[k].Value()))
        invariant forall k :: i <= k < |streams| ==> streams[k].Value() == old(streams[k].Value())
      {
        var fate := streams[i].DrainQueue();
        if fate == Exited {
          return Ended;
        }
        i := i + 1;
      }
      return Opened;
    }
  }
}
