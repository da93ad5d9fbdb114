/** The serial protocol of the player: the reading thread (packets and seeks), the
    thread that opens and closes streams, and one decoder thread, interleaved one
    shared access at a time around one packet queue. */
module DecoderProtocol {
  import opened Common
  import opened PacketQueue

  // Where decoder_decode_frame stands. Each step up to the next place reads or changes
  // shared state at most once.
  datatype DecoderPc =
    | Dead                   // no thread, or the thread has returned
    | Check                  // about to read abort_request
    | Decide                 // about to compare the queue's serial with pkt_serial
    | Fetch                  // about to lock the queue in packet_queue_get
    | Asleep                 // in SDL_CondWait inside packet_queue_get
    | Fetched(pkt: Packet)   // packet_queue_get has returned a packet
    | Decode                 // about to call the codec with the pending packet
    | Filtering              // the codec has given a frame, which is filtered and queued

  datatype ReaderPc = Reading | MidSeek  // MidSeek: queue flushed, flush packet not yet put

  // decoder_abort sets the flag, joins, and flushes; opening a stream makes a new codec
  // (decoder_init), starts the queue and then creates the thread.
  datatype ControlPc = Running | Aborting | Joined | Closed | Opened | QueueStarted

  // What a frame was made from, and the serial the decoder thread tags it with.
  datatype FrameOut = FrameOut(serial: nat, madeFrom: seq<Entry>)

  // The codec's answer: a negative return, whether the packet was used up, and whether
  // a frame came out.
  datatype Answer = Answer(failed: bool, usedUp: bool, gotFrame: bool)

  datatype State = State(
    q: QueueState,
    reader: ReaderPc,
    control: ControlPc,
    pc: DecoderPc,
    pktSerial: nat,
    pending: Option<Entry>,
    finished: nat,
    got: seq<Entry>,          // taken off the queue since the codec was last flushed (or opened)
    adopted: seq<Entry>,      // of these, the ones made the pending packet
    answers: seq<seq<Answer>>,  // what the codec answered to each of them, call by call
    fed: seq<Entry>,          // every call of the codec since then
    flushed: bool,            // avcodec_flush_buffers was called on this codec
    codecSerial: nat,         // serial of the flush packet behind that call; 0 before it
    frames: seq<FrameOut>,
    filterEnd: bool)          // the filter graph has reported its end since that flush

  datatype Action =
    | ReaderPut(pkt: Packet) | SeekFlush | SeekPut
    | AbortQueue | JoinThread | CloseFlush | OpenDecoder | StartQueue | SpawnThread
    | DCheck | DDecide | DFetch | DHandle | DDecode(answer: Answer) | DFilterEnd | DFiltered | DExit

  function Init(): State {
    State(QueueState([], true, 0), Reading, Closed, Dead, 0, None, 0, [], [], [], [], false, 0, [], false)
  }

  predicate Enabled(s: State, a: Action) {
    match a
    case ReaderPut(pkt) => s.reader == Reading && !pkt.Flush?
    case SeekFlush => s.reader == Reading
    case SeekPut => s.reader == MidSeek
    case AbortQueue => s.control == Running
    case JoinThread => s.control == Aborting && s.pc == Dead
    case CloseFlush => s.control == Joined
    case OpenDecoder => s.control == Closed
    case StartQueue => s.control == Opened
    case SpawnThread => s.control == QueueStarted
    case DCheck => s.pc == Check
    case DDecide => s.pc == Decide
    case DFetch => s.pc == Fetch
    case DHandle => s.pc.Fetched?
    case DDecode(_) => s.pc == Decode && s.pending.Some?
    case DFilterEnd => s.pc == Filtering
    case DFiltered => s.pc == Filtering
    case DExit => s.pc in {Check, Filtering}
  }

  // SDL_CondSignal on the queue's condition: the decoder is the only sleeper.
  function Woken(pc: DecoderPc): DecoderPc { if pc == Asleep then Fetch else pc }

  function PutStep(s: State, pkt: Packet): State {
    if s.q.abort then s else s.(q := Put(s.q, pkt), pc := Woken(s.pc))
  }

  function FetchStep(s: State): State {
    match GetOutcome(s.q, true)
    case Aborted => s.(pc := Dead)
    case Got(e) =>
      s.(q := AfterGet(s.q), pktSerial := e.serial, pc := Fetched(e.pkt),
         got := if e.pkt.Flush? then s.got else s.got + [e])
    case _ => s.(pc := Asleep)
  }

  function HandleStep(s: State): State
    requires s.pc.Fetched?
  {
    if s.pc.pkt.Flush? then
      s.(got := [], adopted := [], answers := [], fed := [],
         flushed := true, codecSerial := s.pktSerial, finished := 0, filterEnd := false, pc := Fetch)
    else if s.q.serial != s.pktSerial then
      s.(pc := Fetch)
    else
      var e := Entry(s.pc.pkt, s.pktSerial);
      s.(pending := Some(e), adopted := s.adopted + [e], answers := s.answers + [[]], pc := Decode)
  }

  // One more answer to the newest packet.
  function Answered(answers: seq<seq<Answer>>, a: Answer): seq<seq<Answer>> {
    if answers == [] then [] else answers[|answers| - 1 := answers[|answers| - 1] + [a]]
  }

  function DecodeStep(s: State, a: Answer): State
    requires s.pending.Some?
  {
    var fed := s.fed + [s.pending.value];
    var drained := !a.failed && s.pending.value.pkt.Null? && !a.gotFrame;
    var keep := !a.failed && if s.pending.value.pkt.Null? then a.gotFrame else !a.usedUp;
    s.(fed := fed,
       answers := Answered(s.answers, a),
       pending := if keep then s.pending else None,
       finished := if drained then s.pktSerial else s.finished,
       frames := if a.gotFrame then s.frames + [FrameOut(s.pktSerial, fed)] else s.frames,
       pc := if a.gotFrame then Filtering else Check)
  }

  function Step(s: State, a: Action): State
    requires Enabled(s, a)
  {
    match a
    case ReaderPut(pkt) => PutStep(s, pkt)
    case SeekFlush => s.(q := Cleared(s.q), reader := MidSeek)
    case SeekPut => PutStep(s.(reader := Reading), Flush)
    case AbortQueue => s.(q := Stopped(s.q), pc := Woken(s.pc), control := Aborting)
    case JoinThread => s.(control := Joined)
    case CloseFlush => s.(q := Cleared(s.q), control := Closed)
    case OpenDecoder =>
      s.(pktSerial := 0, pending := None, finished := 0, flushed := false,
         got := [], adopted := [], answers := [], fed := [], codecSerial := 0, filterEnd := false,
         control := Opened)
    case StartQueue => PutStep(s.(q := s.q.(abort := false), control := QueueStarted), Flush)
    case SpawnThread => s.(pc := Check, control := Running)
    case DCheck => s.(pc := if s.q.abort then Dead else Decide)
    case DDecide => s.(pc := if s.pending.Some? && s.q.serial == s.pktSerial then Decode else Fetch)
    case DFetch => FetchStep(s)
    case DHandle => HandleStep(s)
    case DDecode(answer) => DecodeStep(s, answer)
    case DFilterEnd => s.(finished := s.pktSerial, filterEnd := true, pc := Check)
    case DFiltered => s.(pc := Check)
    case DExit => s.(pc := Dead)
  }

  /** The state after a run from the start, if every action was possible in its turn. */
  function Run(acts: seq<Action>): Option<State> {
    if acts == [] then Some(Init())
    else
      match Run(acts[..|acts| - 1])
      case Some(s) => if Enabled(s, acts[|acts| - 1]) then Some(Step(s, acts[|acts| - 1])) else None
      case None => None
  }

  ghost predicate Reachable(s: State) { exists acts :: Run(acts) == Some(s) }

  // ----- what every step keeps -----

  /** Every packet in the list follows the flush packet that made its serial, where
      `from` is the serial of the last flush packet taken off the list. */
  ghost predicate Follows(from: nat, items: seq<Entry>, serial: nat)
    decreases |items|
  {
    if items == [] then from == serial
    else
      && (if items[0].pkt.Flush? then items[0].serial > from
          else items[0].serial == from && from > 0)
      && Follows(items[0].serial, items[1..], serial)
  }

  ghost function Taken(s: State): nat {
    if s.pc == Fetched(Flush) then s.pktSerial else s.codecSerial
  }

  ghost predicate QueueInv(s: State) {
    && (!s.q.abort ==> s.q.serial > 0)
    && (s.q.abort <==> s.control !in {Running, QueueStarted})
    && (s.control in {Closed, Opened} ==> s.q.items == [])
    && (|| Follows(Taken(s), s.q.items, s.q.serial)
        || (s.q.items == [] && (s.reader == MidSeek || s.q.abort)))
    && Taken(s) <= s.q.serial
  }

  ghost predicate CodecInv(s: State) {
    && (forall e <- s.fed :: e.serial == s.codecSerial && !e.pkt.Flush?)
    && (s.flushed <==> s.codecSerial > 0)
    && (s.fed != [] ==> s.flushed)
    && (s.finished > 0 ==>
          s.finished == s.codecSerial && (Entry(Null, s.codecSerial) in s.fed || s.filterEnd))
    && (s.filterEnd ==> exists f <- s.frames :: f.serial == s.codecSerial)
    && (forall f <- s.frames :: f.madeFrom != [] && forall e <- f.madeFrom :: e.serial == f.serial)
  }

  // Where the newest packet can be pending.
  predicate HoldsPacket(pc: DecoderPc) { pc in {Check, Decide, Decode, Filtering} }

  ghost predicate DecoderInv(s: State) {
    && (HoldsPacket(s.pc) && s.pending.Some? ==>
          s.pending.value.serial == s.pktSerial == s.codecSerial && s.codecSerial > 0
          && !s.pending.value.pkt.Flush?)
    && (s.pc == Decode ==> s.pending.Some?)
    && (s.pc.Fetched? && s.pc.pkt.Flush? ==> s.pktSerial > s.codecSerial)
    && (s.pc.Fetched? && !s.pc.pkt.Flush? ==> s.pktSerial == s.codecSerial && s.codecSerial > 0)
    && (s.pc != Dead ==> s.control in {Running, Aborting})
    && (s.pc == Filtering ==>
          s.pktSerial == s.codecSerial && s.flushed && exists f <- s.frames :: f.serial == s.codecSerial)
    && (s.control in {Opened, QueueStarted} ==> s.pending == None && s.fed == [])
    && (s.pc == Asleep ==> s.q.items == [] && !s.q.abort)
    && ((s.pc in {Fetch, Asleep} || s.pc.Fetched?) && s.pending.Some? ==> s.pending.value.serial < s.q.serial)
  }

  function Repeat(e: Entry, n: nat): seq<Entry> { seq(n, _ => e) }

  /** Each packet as often as the codec answered to it. */
  function Expand(es: seq<Entry>, answers: seq<seq<Answer>>): seq<Entry>
    requires |es| == |answers|
  {
    if es == [] then []
    else Expand(es[..|es| - 1], answers[..|es| - 1]) + Repeat(es[|es| - 1], |answers[|es| - 1]|)
  }

  /** As long as the codec's serial is the queue's, every packet taken off the queue has
      been made pending, in order, and given to the codec, the newest one perhaps not yet. */
  ghost predicate OrderInv(s: State) {
    && |s.adopted| == |s.answers|
    && s.fed == Expand(s.adopted, s.answers)
    && (HoldsPacket(s.pc) && s.pending.Some? ==>
          s.adopted != [] && s.pending.value == s.adopted[|s.adopted| - 1])
    && (forall i :: 0 <= i < |s.answers| && s.answers[i] == [] ==> i == |s.answers| - 1 && s.pc == Decode)
    && (s.codecSerial == s.q.serial ==>
          s.got == s.adopted + if s.pc.Fetched? && !s.pc.pkt.Flush?
                               then [Entry(s.pc.pkt, s.pktSerial)] else [])
  }

  /** After this answer nothing of the packet is left: the codec failed on it, used it up,
      or, being asked to drain, had no frame left. */
  predicate UsesUp(e: Entry, a: Answer) {
    a.failed || if e.pkt.Null? then !a.gotFrame else a.usedUp
  }

  predicate Kept(e: Entry, answers: seq<Answer>) { forall a <- answers :: !UsesUp(e, a) }

  /** The answers to a packet the codec is done with. */
  predicate Done(e: Entry, answers: seq<Answer>) {
    && answers != []
    && UsesUp(e, answers[|answers| - 1])
    && Kept(e, answers[..|answers| - 1])
  }

  /** Every packet but the newest is done with, and so is that unless it is pending. */
  ghost predicate AnswerInv(s: State) {
    && |s.adopted| == |s.answers|
    && (forall e <- s.adopted :: e.serial == s.codecSerial)
    && (forall k :: 0 <= k < |s.adopted| - 1 ==> Done(s.adopted[k], s.answers[k]))
    && (s.adopted != [] ==>
          var n := |s.adopted| - 1;
          || Done(s.adopted[n], s.answers[n])
          || (s.pending == Some(s.adopted[n]) && Kept(s.adopted[n], s.answers[n])))
    && (HoldsPacket(s.pc) && s.pending.Some? ==>
          s.adopted != [] && s.pending.value == s.adopted[|s.adopted| - 1]
          && Kept(s.pending.value, s.answers[|s.adopted| - 1]))
  }

  ghost predicate Inv(s: State) { QueueInv(s) && CodecInv(s) && DecoderInv(s) }

  lemma ExpandOnce(es: seq<Entry>, answers: seq<seq<Answer>>, a: Answer)
    requires |es| == |answers| && es != []
    ensures Expand(es, Answered(answers, a)) == Expand(es, answers) + [es[|es| - 1]]
  {
    var n := |es| - 1;
    assert Answered(answers, a)[..n] == answers[..n];
    assert Repeat(es[n], |answers[n]| + 1) == Repeat(es[n], |answers[n]|) + [es[n]];
  }

  lemma ExpandMore(es: seq<Entry>, answers: seq<seq<Answer>>, e: Entry)
    requires |es| == |answers|
    ensures Expand(es + [e], answers + [[]]) == Expand(es, answers)
  {
    assert (es + [e])[..|es|] == es && (answers + [[]])[..|es|] == answers;
    assert Expand(es, answers) + [] == Expand(es, answers);
  }

  lemma StepKeepsOrder(s: State, a: Action)
    requires Inv(s) && OrderInv(s) && Enabled(s, a)
    ensures OrderInv(Step(s, a))
  {
    hide HandleStep, FetchStep, Expand, QueueInv, CodecInv;
    match a
    case DHandle => HandleKeepsOrder(s);
    case DDecode(answer) => ExpandOnce(s.adopted, s.answers, answer);
    case DFetch => FetchKeepsOrder(s);
    case _ => OtherKeepsOrder(s, a);
  }

  lemma StepKeepsAnswers(s: State, a: Action)
    requires Inv(s) && AnswerInv(s) && Enabled(s, a)
    ensures AnswerInv(Step(s, a))
  {
    match a
    case DDecode(answer) => DecodeKeepsAnswers(s, answer);
    case DHandle => HandleKeepsAnswers(s);
    case _ => OtherKeepsAnswers(s, a);
  }

  lemma DecodeKeepsAnswers(s: State, a: Answer)
    requires Inv(s) && AnswerInv(s) && s.pc == Decode && s.pending.Some?
    ensures AnswerInv(DecodeStep(s, a))
  {
    hide QueueInv, CodecInv;
    var t, n := DecodeStep(s, a), |s.adopted| - 1;
    assert t.answers[n][..|t.answers[n]| - 1] == s.answers[n];
  }

  lemma HandleKeepsAnswers(s: State)
    requires Inv(s) && AnswerInv(s) && s.pc.Fetched?
    ensures AnswerInv(HandleStep(s))
  {
    hide QueueInv, CodecInv, Done;
    if s.pc.pkt.Flush? || s.q.serial != s.pktSerial {
      HandleAdopts(s);
    } else {
      var n := |s.adopted| - 1;
      assert n >= 0 ==> s.adopted[n].serial == s.q.serial && Done(s.adopted[n], s.answers[n]);
    }
  }

  lemma HandleAdopts(s: State)
    requires DecoderInv(s) && AnswerInv(s) && s.pc.Fetched?
    requires s.pc.pkt.Flush? || s.q.serial != s.pktSerial
    ensures AnswerInv(HandleStep(s))
  {
    hide Done, Kept;
  }

  lemma OtherKeepsAnswers(s: State, a: Action)
    requires Inv(s) && AnswerInv(s) && Enabled(s, a) && !a.DDecode? && !a.DHandle?
    ensures AnswerInv(Step(s, a))
  {
    hide AnswerInv, PutStep, FetchStep, QueueInv, CodecInv;
    if a == OpenDecoder {
      NothingAnswered(Step(s, a));
    } else {
      PlacesMove(s, a);
      SameAnswers(s, Step(s, a));
    }
  }

  lemma PlacesMove(s: State, a: Action)
    requires Enabled(s, a) && DecoderInv(s) && !a.DDecode? && !a.DHandle? && !a.OpenDecoder?
    ensures var t := Step(s, a);
            && t.adopted == s.adopted && t.answers == s.answers && t.codecSerial == s.codecSerial
            && t.pending == s.pending
            && (HoldsPacket(t.pc) && t.pending.Some? ==> HoldsPacket(s.pc))
  {
  }

  lemma SameAnswers(s: State, t: State)
    requires AnswerInv(s)
    requires t.adopted == s.adopted && t.answers == s.answers && t.codecSerial == s.codecSerial
    requires t.pending == s.pending && (HoldsPacket(t.pc) && t.pending.Some? ==> HoldsPacket(s.pc))
    ensures AnswerInv(t)
  {
    hide Done, Kept;
  }

  lemma NothingAnswered(t: State)
    requires t.adopted == [] && t.answers == [] && t.pending == None
    ensures AnswerInv(t)
  {
  }

  lemma HandleKeepsOrder(s: State)
    requires Inv(s) && OrderInv(s) && s.pc.Fetched?
    ensures OrderInv(HandleStep(s))
  {
    ExpandMore(s.adopted, s.answers, Entry(s.pc.pkt, s.pktSerial));
  }

  lemma FetchKeepsOrder(s: State)
    requires Inv(s) && OrderInv(s) && s.pc == Fetch
    ensures OrderInv(FetchStep(s))
  {
    hide Expand, CodecInv, Follows;
    assert s.adopted + [] == s.adopted;
  }

  lemma OtherKeepsOrder(s: State, a: Action)
    requires Inv(s) && OrderInv(s) && Enabled(s, a) && !a.DHandle? && !a.DDecode? && !a.DFetch?
    ensures OrderInv(Step(s, a))
  {
    hide Expand;
    assert Expand([], []) == [] by { ExpandNothing(); }
  }

  lemma ExpandNothing()
    ensures Expand([], []) == []
  {
  }

  lemma {:induction false} FollowsAppend(from: nat, items: seq<Entry>, serial: nat, e: Entry)
    requires Follows(from, items, serial)
    requires if e.pkt.Flush? then e.serial > serial else e.serial == serial && serial > 0
    ensures Follows(from, items + [e], e.serial)
    decreases |items|
  {
    if items == [] {
      assert (items + [e])[1..] == [];
    } else {
      assert (items + [e])[1..] == items[1..] + [e];
      FollowsAppend(items[0].serial, items[1..], serial, e);
    }
  }

  lemma {:induction false} FollowsBound(from: nat, items: seq<Entry>, serial: nat)
    requires Follows(from, items, serial)
    ensures from <= serial
    decreases |items|
  {
    if items != [] {
      FollowsBound(items[0].serial, items[1..], serial);
    }
  }

  lemma PutKeepsInv(s: State, pkt: Packet)
    requires CodecInv(s) && DecoderInv(s) && !s.q.abort && Taken(s) <= s.q.serial
    requires s.control in {Running, QueueStarted}
    requires pkt.Flush? || s.q.serial > 0
    requires Follows(Taken(s), s.q.items, s.q.serial) || (s.q.items == [] && pkt.Flush?)
    ensures Inv(PutStep(s, pkt))
  {
    var t := PutStep(s, pkt);
    assert Taken(t) == Taken(s);
    if Follows(Taken(s), s.q.items, s.q.serial) {
      FollowsAppend(Taken(s), s.q.items, s.q.serial, PutEntry(s.q, pkt));
    } else {
      assert t.q.items[1..] == [];
    }
  }

  lemma FetchKeepsInv(s: State)
    requires Inv(s) && s.pc == Fetch
    ensures Inv(FetchStep(s))
  {
    var t := FetchStep(s);
    if t.pc.Fetched? {
      FollowsBound(s.q.items[0].serial, s.q.items[1..], s.q.serial);
    }
  }

  lemma DecodeKeepsInv(s: State, a: Answer)
    requires Inv(s) && s.pc == Decode && s.pending.Some?
    ensures Inv(DecodeStep(s, a))
  {
    var t := DecodeStep(s, a);
    assert s.pending.value in t.fed;
    assert forall e <- t.fed :: e in s.fed || e == s.pending.value;
    assert forall f <- t.frames :: f in s.frames || f == FrameOut(s.pktSerial, t.fed);
    assert forall f <- s.frames :: f in t.frames;
    if a.gotFrame { assert FrameOut(s.pktSerial, t.fed) in t.frames; }
  }

  lemma ControlKeepsInv(s: State, a: Action)
    requires Inv(s) && Enabled(s, a)
    requires a in {SeekFlush, AbortQueue, JoinThread, CloseFlush, OpenDecoder, SpawnThread}
    ensures Inv(Step(s, a))
  {
  }

  lemma HandleKeepsInv(s: State)
    requires Inv(s) && s.pc.Fetched?
    ensures Inv(HandleStep(s))
  {
  }

  lemma PlaceKeepsInv(s: State, a: Action)
    requires Inv(s) && Enabled(s, a) && a in {DCheck, DDecide, DFilterEnd, DFiltered, DExit}
    ensures Inv(Step(s, a))
  {
    hide Follows;
  }

  lemma ReaderKeepsInv(s: State, a: Action)
    requires Inv(s) && Enabled(s, a) && (a.ReaderPut? || a.SeekPut? || a.StartQueue?)
    ensures Inv(Step(s, a))
  {
    match a
    case ReaderPut(pkt) => if !s.q.abort { PutKeepsInv(s, pkt); }
    case SeekPut => if !s.q.abort { PutKeepsInv(s.(reader := Reading), Flush); }
    case _ => PutKeepsInv(s.(q := s.q.(abort := false), control := QueueStarted), Flush);
  }

  lemma StepKeepsInv(s: State, a: Action)
    requires Inv(s) && Enabled(s, a)
    ensures Inv(Step(s, a))
  {
    hide Inv, PutStep, FetchStep, HandleStep, DecodeStep;
    match a
    case ReaderPut(_) => ReaderKeepsInv(s, a);
    case SeekPut => ReaderKeepsInv(s, a);
    case StartQueue => ReaderKeepsInv(s, a);
    case DFetch => FetchKeepsInv(s);
    case DHandle => HandleKeepsInv(s);
    case DDecode(answer) => DecodeKeepsInv(s, answer);
    case DCheck => PlaceKeepsInv(s, a);
    case DDecide => PlaceKeepsInv(s, a);
    case DFilterEnd => PlaceKeepsInv(s, a);
    case DFiltered => PlaceKeepsInv(s, a);
    case DExit => PlaceKeepsInv(s, a);
    case _ => ControlKeepsInv(s, a);
  }

  lemma {:induction false} RunKeepsInv(acts: seq<Action>, s: State)
    requires Run(acts) == Some(s)
    ensures Inv(s) && OrderInv(s) && AnswerInv(s)
  {
    if acts != [] {
      var before := Run(acts[..|acts| - 1]).value;
      RunKeepsInv(acts[..|acts| - 1], before);
      StepKeepsInv(before, acts[|acts| - 1]);
      StepKeepsOrder(before, acts[|acts| - 1]);
      StepKeepsAnswers(before, acts[|acts| - 1]);
    }
  }

  lemma ReachableInv(s: State)
    requires Reachable(s)
    ensures Inv(s) && OrderInv(s) && AnswerInv(s)
  {
    var acts :| Run(acts) == Some(s);
    RunKeepsInv(acts, s);
  }

  // ----- main results -----

  /** On every interleaving, everything the codec was given since its last flush has one
      serial, and nothing was given to a codec that was never flushed. */
  lemma CodecNeverMixesSerials(s: State)
    requires Reachable(s)
    ensures forall i, j :: 0 <= i < j < |s.fed| ==> s.fed[i].serial == s.fed[j].serial
    ensures s.fed != [] ==> s.flushed
  {
    ReachableInv(s);
  }

  /** Between two flushes no packet is skipped, repeated out of turn or reordered: while
      the codec is on the queue's serial, what it was given, call by call, is what came
      off the queue, each packet at least once and all its calls together. */
  lemma NoCurrentPacketSkipped(s: State)
    requires Reachable(s) && s.codecSerial == s.q.serial
    requires s.pc in {Check, Decide, Fetch, Asleep, Filtering}
    ensures |s.answers| == |s.got| && s.fed == Expand(s.got, s.answers)
    ensures forall i :: 0 <= i < |s.answers| ==> s.answers[i] != []
  {
    ReachableInv(s);
    assert s.got == s.adopted;
  }

  /** A packet of the current serial is not passed over: while it is pending the thread
      never turns to the queue. */
  lemma PendingIsNotPassedOver(s: State)
    requires Reachable(s) && s.pending.Some? && s.pending.value.serial == s.q.serial
    ensures s.pc !in {Fetch, Asleep} && !s.pc.Fetched?
  {
    ReachableInv(s);
  }

  /** The codec is given every packet again and again until it has used it up, failed on
      it or, asked to drain, has no frame left, and not once after that; only then comes
      the next. When the thread turns to the queue for a packet of the codec's own serial,
      that is true of the newest packet too. */
  lemma GivenUntilUsedUp(s: State, k: nat)
    requires Reachable(s) && k < |s.adopted|
    ensures |s.adopted| == |s.answers|
    ensures var more := |s.answers[k]|;
            forall j :: 0 <= j < more - 1 ==> !UsesUp(s.adopted[k], s.answers[k][j])
    ensures k < |s.adopted| - 1 || (s.codecSerial == s.q.serial && s.pc in {Fetch, Asleep}) ==>
              s.answers[k] != [] && UsesUp(s.adopted[k], s.answers[k][|s.answers[k]| - 1])
  {
    ReachableInv(s);
    forall j | 0 <= j < |s.answers[k]| - 1 ensures !UsesUp(s.adopted[k], s.answers[k][j]) {
      assert s.answers[k][j] in s.answers[k][..|s.answers[k]| - 1];
      assert s.answers[k][j] in s.answers[k];
    }
    hide QueueInv, CodecInv;
  }

  // A run from some state on.
  function RunFrom(s: State, acts: seq<Action>): Option<State>
    decreases |acts|
  {
    if acts == [] then Some(s)
    else if Enabled(s, acts[0]) then RunFrom(Step(s, acts[0]), acts[1..]) else None
  }

  lemma RunThree(s: State, a: Action, b: Action, d: Action)
    requires Enabled(s, a) && Enabled(Step(s, a), b) && Enabled(Step(Step(s, a), b), d)
    ensures RunFrom(s, [a, b, d]) == Some(Step(Step(Step(s, a), b), d))
  {
    hide Step, Enabled;
    var t := Step(s, a);
    var u := Step(t, b);
    assert [a, b, d][1..] == [b, d] && [b, d][1..] == [d] && [d][1..] == [];
    assert RunFrom(u, [d]) == Some(Step(u, d));
    assert RunFrom(t, [b, d]) == RunFrom(u, [d]);
  }

  /** Undisturbed, a thread with a pending packet of the current serial gives it to the
      codec. What is left of it stays pending; a frame goes on with that serial; and a drain
      that gives none finishes the serial. */
  lemma PendingIsGivenAgain(s: State, a: Answer)
    requires s.pc == Check && !s.q.abort
    requires s.pending.Some? && s.pending.value.serial == s.q.serial == s.pktSerial
    ensures
      var e := s.pending.value;
      RunFrom(s, [DCheck, DDecide, DDecode(a)]) == Some(s.(
        fed := s.fed + [e],
        answers := Answered(s.answers, a),
        pending := if UsesUp(e, a) then None else Some(e),
        finished := if e.pkt.Null? && !a.failed && !a.gotFrame then s.q.serial else s.finished,
        frames := if a.gotFrame then s.frames + [FrameOut(s.q.serial, s.fed + [e])] else s.frames,
        pc := if a.gotFrame then Filtering else Check))
  {
    RunThree(s, DCheck, DDecide, DDecode(a));
  }

  /** A drain that gives `n` more frames before it gives none. */
  function DrainSteps(n: nat): seq<Action> {
    if n == 0 then [DCheck, DDecide, DDecode(Answer(false, false, false))]
    else [DCheck, DDecide, DDecode(Answer(false, false, true))] + [DFiltered] + DrainSteps(n - 1)
  }

  lemma {:induction false} RunFromAppend(s: State, acts: seq<Action>, more: seq<Action>)
    requires RunFrom(s, acts).Some?
    ensures RunFrom(s, acts + more) == RunFrom(RunFrom(s, acts).value, more)
    decreases |acts|
  {
    if acts == [] {
      assert acts + more == more;
    } else {
      assert (acts + more)[1..] == acts[1..] + more;
      RunFromAppend(Step(s, acts[0]), acts[1..], more);
    }
  }

  /** Asked to drain: the drain packet of the current serial is pending. */
  predicate Draining(s: State) {
    && s.pc == Check && !s.q.abort && s.q.serial == s.pktSerial
    && s.pending == Some(Entry(Null, s.q.serial))
  }

  lemma OneStep(s: State)
    requires s.pc == Filtering
    ensures RunFrom(s, [DFiltered]) == Some(s.(pc := Check))
  {
    assert [DFiltered][1..] == [];
  }

  const ONE_FRAME: seq<Action> := [DCheck, DDecide, DDecode(Answer(false, false, true))]

  lemma DrainOnce(s: State)
    requires Draining(s)
    ensures var t := RunFrom(s, ONE_FRAME + [DFiltered]);
            && t.Some? && Draining(t.value) && t.value.q == s.q
            && t.value.frames == s.frames + [FrameOut(s.q.serial, t.value.fed)]
  {
    PendingIsGivenAgain(s, Answer(false, false, true));
    RunFromAppend(s, ONE_FRAME, [DFiltered]);
    OneStep(RunFrom(s, ONE_FRAME).value);
    hide RunFrom, Step;
  }

  /** From there, undisturbed, all frames the codec still has are put out with that serial,
      and then `finished` is on the queue's serial. */
  lemma {:induction false} DrainFinishes(s: State, n: nat)
    requires Draining(s)
    ensures var t := RunFrom(s, DrainSteps(n));
            && t.Some? && t.value.finished == s.q.serial && t.value.pending == None && t.value.q == s.q
            && |t.value.frames| == |s.frames| + n && s.frames <= t.value.frames
            && forall k :: |s.frames| <= k < |t.value.frames| ==> t.value.frames[k].serial == s.q.serial
    decreases n
  {
    hide RunFrom, Step, Enabled;
    if n == 0 {
      PendingIsGivenAgain(s, Answer(false, false, false));
    } else {
      DrainOnce(s);
      var t := RunFrom(s, ONE_FRAME + [DFiltered]).value;
      DrainFinishes(t, n - 1);
      RunFromAppend(s, ONE_FRAME + [DFiltered], DrainSteps(n - 1));
      assert t.frames[|s.frames|].serial == s.q.serial;
    }
  }

  /** With nothing current pending the thread takes the head of the queue: a flush packet
      flushes the codec, a packet of the current serial goes to it next, and an older one is
      let go. */
  lemma HeadIsTaken(s: State)
    requires s.pc == Check && !s.q.abort && s.q.items != []
    requires s.pending == None || s.pktSerial != s.q.serial
    ensures
      var e := s.q.items[0];
      var t := RunFrom(s, [DCheck, DDecide] + [DFetch, DHandle]);
      && t.Some? && t.value.q == s.q.(items := s.q.items[1..])
      && (e.pkt.Flush? ==>
            t.value.pc == Fetch && t.value.flushed && t.value.codecSerial == e.serial
            && t.value.fed == [] && t.value.finished == 0)
      && (!e.pkt.Flush? ==>
            && t.value.fed == s.fed && t.value.got == s.got + [e]
            && if e.serial == s.q.serial then t.value.pc == Decode && t.value.pending == Some(e)
               else t.value.pc == Fetch && t.value.pending == s.pending)
  {
    hide RunFrom, Step, Enabled;
    HeadSteps(s);
  }

  lemma HeadSteps(s: State)
    requires s.pc == Check && !s.q.abort && s.q.items != []
    requires s.pending == None || s.pktSerial != s.q.serial
    ensures RunFrom(s, [DCheck, DDecide] + [DFetch, DHandle]) == Some(HandleStep(FetchStep(s.(pc := Fetch))))
  {
    hide HandleStep, FetchStep;
    var acts := [DCheck, DDecide] + [DFetch, DHandle];
    assert acts[1..] == [DDecide, DFetch, DHandle] && acts[1..][1..] == [DFetch, DHandle];
    assert [DFetch, DHandle][1..] == [DHandle] && [DHandle][1..] == [];
    var t := s.(pc := Fetch);
    assert Step(Step(s, DCheck), DDecide) == t;
    assert RunFrom(s, acts) == RunFrom(t, [DFetch, DHandle]);
    HeadFetched(t);
  }

  lemma HeadFetched(t: State)
    requires t.pc == Fetch && !t.q.abort && t.q.items != []
    ensures FetchStep(t).pc.Fetched?
  {
  }

  /** The serial on every frame handed on is the serial of every packet behind it. */
  lemma FrameSerialsAreTrue(s: State, f: FrameOut, e: Entry)
    requires Reachable(s) && f in s.frames && e in f.madeFrom
    ensures f.serial == e.serial
  {
    ReachableInv(s);
  }

  /** When `finished` equals the queue's serial, as the reading thread tests before it
      loops or exits, the codec has been given the drain packet of that very serial, or
      the filter graph has ended after a frame of it. */
  lemma FinishedMeansDrained(s: State)
    requires Reachable(s) && s.finished == s.q.serial && s.finished > 0
    ensures Entry(Null, s.q.serial) in s.fed || s.filterEnd
    ensures s.filterEnd ==> exists f <- s.frames :: f.serial == s.q.serial
  {
    ReachableInv(s);
  }

  // One packet decoded to a frame, after which the filter graph ends.
  const FIRST_PACKET: Packet := Data(7, 100, 1)

  function Fetching(items: seq<Entry>): State {
    Init().(q := QueueState(items, false, 1), control := Running, pc := Fetch)
  }

  function OneFrameOut(): State {
    var e := Entry(FIRST_PACKET, 1);
    State(QueueState([], false, 1), Reading, Running, Filtering, 1, None, 0,
          [e], [e], [[Answer(false, true, true)]], [e], true, 1, [FrameOut(1, [e])], false)
  }

  lemma PacketQueued() returns (acts: seq<Action>)
    ensures Run(acts) == Some(Fetching([Entry(Flush, 1), Entry(FIRST_PACKET, 1)]))
  {
    hide Run;
    NothingRun();
    var s0 := Init().(control := Opened);
    var s1 := s0.(q := QueueState([Entry(Flush, 1)], false, 1), control := QueueStarted);
    var s2 := s1.(control := Running, pc := Check);
    var s3 := s2.(q := QueueState([Entry(Flush, 1), Entry(FIRST_PACKET, 1)], false, 1));
    acts := RunOne([], Init(), OpenDecoder, s0);
    acts := RunOne(acts, s0, StartQueue, s1);
    acts := RunOne(acts, s1, SpawnThread, s2);
    acts := RunOne(acts, s2, ReaderPut(FIRST_PACKET), s3);
    acts := RunOne(acts, s3, DCheck, s3.(pc := Decide));
    acts := RunOne(acts, s3.(pc := Decide), DDecide, s3.(pc := Fetch));
  }

  lemma OneFrameDecoded() returns (acts: seq<Action>)
    ensures Run(acts) == Some(OneFrameOut())
  {
    hide Run;
    var e := Entry(FIRST_PACKET, 1);
    var s0 := Fetching([Entry(Flush, 1), e]);
    var s1 := Fetching([e]).(pc := Fetched(Flush), pktSerial := 1);
    var s2 := s1.(pc := Fetch, flushed := true, codecSerial := 1);
    var s3 := s2.(q := QueueState([], false, 1), pc := Fetched(FIRST_PACKET), got := [e]);
    var s4 := s3.(pc := Decode, adopted := [e], answers := [[]], pending := Some(e));
    acts := PacketQueued();
    acts := RunOne(acts, s0, DFetch, s1);
    acts := RunOne(acts, s1, DHandle, s2);
    acts := RunOne(acts, s2, DFetch, s3);
    acts := RunOne(acts, s3, DHandle, s4);
    assert [] + [Answer(false, true, true)] == [Answer(false, true, true)];
    acts := RunOne(acts, s4, DDecode(Answer(false, true, true)), OneFrameOut());
  }

  lemma NothingRun()
    ensures Run([]) == Some(Init())
  {
  }

  lemma RunOne(acts: seq<Action>, s: State, a: Action, t: State) returns (more: seq<Action>)
    requires Run(acts) == Some(s) && Enabled(s, a) && Step(s, a) == t
    ensures Run(more) == Some(t)
  {
    more := acts + [a];
    assert more[..|acts|] == acts;
  }

  /** Only the second is true of a stream that a filter cuts off: `finished` is on the
      queue's serial although no drain packet was ever queued. */
  lemma FilterEndFinishesUndrained() returns (s: State)
    ensures Reachable(s) && s.finished == s.q.serial > 0
    ensures Entry(Null, s.q.serial) !in s.fed && s.q.items == []
  {
    var acts := OneFrameDecoded();
    s := Step(OneFrameOut(), DFilterEnd);
    acts := RunOne(acts, OneFrameOut(), DFilterEnd, s);
  }

  // How many more own steps a decoder thread has once the queue is aborted.
  function StepsLeft(s: State): nat {
    match s.pc
    case Dead => 0
    case Check => 1
    case Fetch => 1
    case Filtering => 2
    case Decode => 3
    case Decide => 4
    case Fetched(_) => 4
    case Asleep => 5
  }

  predicate IsDecoderStep(a: Action) {
    a.DCheck? || a.DDecide? || a.DFetch? || a.DHandle? || a.DDecode? || a.DFilterEnd? || a.DFiltered? || a.DExit?
  }

  /** After packet_queue_abort the decoder thread is never left asleep: it always has a
      step, and each of its steps brings it nearer to returning, so the join ends. */
  lemma AbortedDecoderReturns(s: State, a: Action)
    requires Reachable(s) && s.q.abort
    ensures s.pc != Asleep
    ensures s.pc != Dead ==> exists b: Action :: IsDecoderStep(b) && Enabled(s, b)
    ensures IsDecoderStep(a) && Enabled(s, a) ==> StepsLeft(Step(s, a)) < StepsLeft(s)
    ensures !IsDecoderStep(a) && Enabled(s, a) && Step(s, a).q.abort ==>
              StepsLeft(Step(s, a)) == StepsLeft(s)
  {
    ReachableInv(s);
    if Enabled(s, a) { AbortedSteps(s, a); }
    hide Reachable, Step, OrderInv;
    var b := match s.pc
      case Check => DCheck
      case Decide => DDecide
      case Fetch => DFetch
      case Fetched(_) => DHandle
      case Filtering => DFiltered
      case _ => DDecode(Answer(true, true, false));
    assert s.pc != Dead ==> IsDecoderStep(b) && Enabled(s, b);
  }

  lemma AbortedSteps(s: State, a: Action)
    requires Inv(s) && s.q.abort && Enabled(s, a)
    ensures IsDecoderStep(a) ==> StepsLeft(Step(s, a)) < StepsLeft(s)
    ensures !IsDecoderStep(a) && Step(s, a).q.abort ==>
              StepsLeft(Step(s, a)) == StepsLeft(s)
  {
  }

  // ----- the decoder as its thread runs it -----

  /** The record of a decoder; each method is what decoder_decode_frame does between two
      shared accesses, and returns where the thread then stands. `s` is the state of the
      protocol it acts in. */
  class Decoder {
    const queue: Queue
    var pktSerial: nat
    var packet: Option<Entry>    // the pending packet
    var finished: nat
    ghost var codec: Codec

    ghost predicate Matches(s: State)
      reads this, queue, queue.nodes
    {
      && queue.Valid() && queue.State() == s.q
      && pktSerial == s.pktSerial && packet == s.pending && finished == s.finished
      && codec == CodecOf(s)
    }

    /** decoder_init, for a queue that is not running. */
    constructor (queue: Queue, ghost s: State)
      requires Enabled(s, OpenDecoder) && queue.Valid() && queue.State() == s.q
      ensures this.queue == queue && Matches(Step(s, OpenDecoder).(frames := []))
    {
      this.queue := queue;
      pktSerial, packet, finished := 0, None, 0;
      codec := Codec([], [], [], [], false, 0, [], false);
    }

    method ReadAbort(ghost s: State) returns (pc: DecoderPc)
      requires Matches(s) && Enabled(s, DCheck)
      ensures Matches(Step(s, DCheck)) && pc == Step(s, DCheck).pc
    {
      return if queue.abortRequest then Dead else Decide;
    }

    method DecideToFetch(ghost s: State) returns (pc: DecoderPc)
      requires Matches(s) && Enabled(s, DDecide)
      ensures Matches(Step(s, DDecide)) && pc == Step(s, DDecide).pc
    {
      if packet.None? || queue.serial != pktSerial {
        return Fetch;
      }
      return Decode;
    }

    method FetchPacket(ghost s: State) returns (pc: DecoderPc)
      requires Matches(s) && Enabled(s, DFetch)
      modifies this, queue
      ensures Matches(Step(s, DFetch)) && pc == Step(s, DFetch).pc
    {
      var r := queue.Get(true);
      match r
      case Aborted => pc := Dead;
      case MustWait => pc := Asleep;
      case Got(e) =>
        pktSerial := e.serial;
        if !e.pkt.Flush? {
          codec := codec.(got := codec.got + [e]);
        }
        pc := Fetched(e.pkt);
    }

    method HandlePacket(pkt: Packet, ghost s: State) returns (pc: DecoderPc)
      requires Matches(s) && s.pc == Fetched(pkt)
      modifies this
      ensures Matches(Step(s, DHandle)) && pc == Step(s, DHandle).pc
    {
      if pkt.Flush? {
        codec := Codec([], [], [], [], true, pktSerial, codec.frames, false);
        finished := 0;
        return Fetch;
      }
      if queue.serial != pktSerial {
        return Fetch;
      }
      packet := Some(Entry(pkt, pktSerial));
      codec := codec.(adopted := codec.adopted + [packet.value], answers := codec.answers + [[]]);
      return Decode;
    }

    method DecodePacket(a: Answer, ghost s: State) returns (pc: DecoderPc)
      requires Matches(s) && Enabled(s, DDecode(a))
      modifies this
      ensures Matches(Step(s, DDecode(a))) && pc == Step(s, DDecode(a)).pc
    {
      ghost var fed := codec.fed + [packet.value];
      codec := codec.(
        fed := fed,
        answers := Answered(codec.answers, a),
        frames := if a.gotFrame then codec.frames + [FrameOut(pktSerial, fed)] else codec.frames);
      if a.failed {
        packet := None;
      } else if !packet.value.pkt.Null? {
        if a.usedUp {
          packet := None;
        }
      } else if !a.gotFrame {
        packet := None;
        finished := pktSerial;
      }
      return if a.gotFrame then Filtering else Check;
    }

    /** The audio or the video thread, when its buffer sink answers that the filter graph
        has ended. */
    method EndFilter(ghost s: State) returns (pc: DecoderPc)
      requires Matches(s) && Enabled(s, DFilterEnd)
      modifies `finished, `codec
      ensures Matches(Step(s, DFilterEnd)) && pc == Step(s, DFilterEnd).pc
    {
      finished := pktSerial;
      codec := codec.(filterEnd := true);
      return Check;
    }
  }

  // What the codec has seen: the history part of the state.
  datatype Codec = Codec(
    got: seq<Entry>, adopted: seq<Entry>, answers: seq<seq<Answer>>, fed: seq<Entry>,
    flushed: bool, codecSerial: nat, frames: seq<FrameOut>, filterEnd: bool)

  function CodecOf(s: State): Codec {
    Codec(s.got, s.adopted, s.answers, s.fed, s.flushed, s.codecSerial, s.frames, s.filterEnd)
  }
}
