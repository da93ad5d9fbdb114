/** One decoder thread between its two queues: it takes packets from the one and puts
    frames into the other. Both look at one abort flag, and closing the stream sets it,
    signals the frame queue and joins the thread. */
module DecoderThread {
  import opened Common
  import P = DecoderProtocol
  import F = FrameQueue

  // Both interleavings at once, the thread having a place in each.
  datatype State = State(p: P.State, f: F.State)

  datatype Action =
    | Reading(packets: P.Action)     // the reading thread
    | Decoding(packets: P.Action)    // the decoder thread, at the packet queue or the codec
    | Writing(frames: F.Action)      // the decoder thread, at the frame queue
    | Showing(frames: F.Action)      // the thread that takes frames
    | AbortQueue | SignalQueue(toWriter: bool) | JoinThread
    | Closing(packets: P.Action)     // decoder_abort after the join, stream opening
    | StartQueue

  predicate IsReading(a: P.Action) { a.ReaderPut? || a.SeekFlush? || a.SeekPut? }

  predicate IsClosing(a: P.Action) { a.CloseFlush? || a.OpenDecoder? || a.SpawnThread? }

  predicate IsWriting(a: F.Action) {
    a.WLock? || a.WTestAbort? || a.WGiveBack? || a.WFill? || a.WAdvance? || a.WCommit?
  }

  predicate IsShowing(a: F.Action) {
    || a.RPoll? || a.RLock? || a.RTestAbort? || a.RLeave?
    || a.RShow? || a.RUnref? || a.RAdvance? || a.RCommit?
  }

  predicate IsThreadStep(a: Action) { a.Decoding? || a.Writing? }

  /** The thread is outside the calls of the frame queue, with or without a slot of it. */
  predicate OutsideFrameQueue(f: F.State) { f.w in {F.WIdle, F.WFilling} }

  /** The thread has returned, and whatever slot it held is free again. */
  predicate Returned(s: State) { s.p.pc == P.Dead && s.f.w == F.WIdle }

  function Init(maxSize: nat, keepLast: bool): State { State(P.Init(), F.Init(maxSize, keepLast)) }

  predicate Enabled(s: State, a: Action) {
    match a
    case Reading(b) => IsReading(b) && P.Enabled(s.p, b)
    case Decoding(b) => P.IsDecoderStep(b) && P.Enabled(s.p, b) && OutsideFrameQueue(s.f)
    case Writing(b) =>
      && IsWriting(b) && F.Enabled(s.f, b)
      && (s.p.pc in {P.Check, P.Filtering} || (b == F.WGiveBack && s.p.pc == P.Dead))
    case Showing(b) => IsShowing(b) && F.Enabled(s.f, b)
    case AbortQueue => P.Enabled(s.p, P.AbortQueue) && F.Enabled(s.f, F.Abort)
    case SignalQueue(w) => s.p.control == P.Aborting && !s.f.signalled && F.Enabled(s.f, F.Signal(w))
    case JoinThread => P.Enabled(s.p, P.JoinThread) && Returned(s) && s.f.signalled
    case Closing(b) => IsClosing(b) && P.Enabled(s.p, b)
    case StartQueue => P.Enabled(s.p, P.StartQueue) && F.Enabled(s.f, F.Restart)
  }

  function Step(s: State, a: Action): State
    requires Enabled(s, a)
  {
    match a
    case Reading(b) => s.(p := P.Step(s.p, b))
    case Decoding(b) => s.(p := P.Step(s.p, b))
    // A refused slot ends the thread.
    case Writing(b) =>
      State(if b == F.WTestAbort && s.f.abort then P.Step(s.p, P.DExit) else s.p, F.Step(s.f, b))
    case Showing(b) => s.(f := F.Step(s.f, b))
    case AbortQueue => State(P.Step(s.p, P.AbortQueue), F.Step(s.f, F.Abort))
    case SignalQueue(w) => s.(f := F.Step(s.f, F.Signal(w)))
    case JoinThread => s.(p := P.Step(s.p, P.JoinThread))
    case Closing(b) => s.(p := P.Step(s.p, b))
    case StartQueue => State(P.Step(s.p, P.StartQueue), F.Step(s.f, F.Restart))
  }

  function Run(maxSize: nat, keepLast: bool, acts: seq<Action>): Option<State> {
    if acts == [] then Some(Init(maxSize, keepLast))
    else
      match Run(maxSize, keepLast, acts[..|acts| - 1])
      case Some(s) => if Enabled(s, acts[|acts| - 1]) then Some(Step(s, acts[|acts| - 1])) else None
      case None => None
  }

  ghost predicate Reachable(maxSize: nat, keepLast: bool, s: State) {
    exists acts :: Run(maxSize, keepLast, acts) == Some(s)
  }

  // ----- what every step keeps -----

  /** Seen from either queue alone the run is one of that queue's own interleaving. */
  ghost predicate Projects(maxSize: nat, keepLast: bool, s: State) {
    P.Reachable(s.p) && F.Reachable(maxSize, keepLast, s.f)
  }

  /** The abort flag is one; outside the thread's life its place in the frame queue is
      empty; and inside a call of the frame queue it is not in one of the decoder. */
  ghost predicate Joint(s: State) {
    && (s.f.abort <==> s.p.q.abort)
    && (s.p.control in {P.Joined, P.Closed, P.Opened} ==> s.f.signalled)
    && (s.p.control !in {P.Running, P.Aborting} ==> s.f.w == F.WIdle)
    && (!OutsideFrameQueue(s.f) ==> s.p.pc in {P.Check, P.Filtering})
  }

  lemma ProtocolStep(p: P.State, a: P.Action)
    requires P.Reachable(p) && P.Enabled(p, a)
    ensures P.Reachable(P.Step(p, a))
  {
    var acts :| P.Run(acts) == Some(p);
    var more := P.RunOne(acts, p, a, P.Step(p, a));
  }

  lemma FrameStep(maxSize: nat, keepLast: bool, f: F.State, a: F.Action)
    requires F.Reachable(maxSize, keepLast, f) && F.Enabled(f, a)
    ensures F.Reachable(maxSize, keepLast, F.Step(f, a))
  {
    var acts :| F.Run(maxSize, keepLast, acts) == Some(f);
    assert (acts + [a])[..|acts|] == acts;
    assert F.Run(maxSize, keepLast, acts + [a]) == Some(F.Step(f, a));
  }

  lemma StepProjects(maxSize: nat, keepLast: bool, s: State, a: Action)
    requires Projects(maxSize, keepLast, s) && Enabled(s, a)
    ensures Projects(maxSize, keepLast, Step(s, a))
  {
    hide P.Reachable, F.Reachable, P.Step, F.Step;
    match a
    case Reading(b) => ProtocolStep(s.p, b);
    case Decoding(b) => ProtocolStep(s.p, b);
    case Writing(b) =>
      FrameStep(maxSize, keepLast, s.f, b);
      if b == F.WTestAbort && s.f.abort { ProtocolStep(s.p, P.DExit); }
    case Showing(b) => FrameStep(maxSize, keepLast, s.f, b);
    case AbortQueue =>
      ProtocolStep(s.p, P.AbortQueue);
      FrameStep(maxSize, keepLast, s.f, F.Abort);
    case SignalQueue(w) => FrameStep(maxSize, keepLast, s.f, F.Signal(w));
    case JoinThread => ProtocolStep(s.p, P.JoinThread);
    case Closing(b) => ProtocolStep(s.p, b);
    case StartQueue =>
      ProtocolStep(s.p, P.StartQueue);
      FrameStep(maxSize, keepLast, s.f, F.Restart);
  }

  // The reading thread does not touch the abort flag or the closing of the stream, and
  // the decoder thread only its own place.
  lemma PacketsKeep(p: P.State, a: P.Action)
    requires P.Enabled(p, a) && (IsReading(a) || P.IsDecoderStep(a))
    ensures P.Step(p, a).q.abort == p.q.abort && P.Step(p, a).control == p.control
    ensures IsReading(a) && p.pc != P.Asleep ==> P.Step(p, a).pc == p.pc
  {
  }

  // Neither thread touches it at the frame queue, where at most a sleeper is woken.
  lemma FramesKeep(f: F.State, a: F.Action)
    requires F.Enabled(f, a) && (IsWriting(a) || IsShowing(a))
    ensures F.Step(f, a).abort == f.abort && F.Step(f, a).signalled == f.signalled
    ensures IsShowing(a) ==> F.Step(f, a).w == f.w || (f.w == F.WAsleep && F.Step(f, a).w == F.WGranted)
    ensures a == F.WTestAbort && f.abort ==> F.Step(f, a).w == F.WIdle
    ensures a == F.WGiveBack ==> F.Step(f, a).w == F.WIdle
  {
  }

  lemma StepKeepsJoint(s: State, a: Action)
    requires Joint(s) && P.Inv(s.p) && Enabled(s, a)
    ensures Joint(Step(s, a))
  {
    hide P.Step, F.Step, P.QueueInv, P.CodecInv;
    match a
    case Reading(b) => PacketsKeep(s.p, b);
    case Decoding(b) => PacketsKeep(s.p, b);
    case Writing(b) => WritingKeepsJoint(s, b);
    case Showing(b) => FramesKeep(s.f, b);
    case _ => ControlKeepsJoint(s, a);
  }

  lemma ControlKeepsJoint(s: State, a: Action)
    requires Joint(s) && Enabled(s, a)
    requires a.AbortQueue? || a.SignalQueue? || a.JoinThread? || a.Closing? || a.StartQueue?
    ensures Joint(Step(s, a))
  {
  }

  lemma WritingKeepsJoint(s: State, b: F.Action)
    requires Joint(s) && P.Inv(s.p) && Enabled(s, Writing(b))
    ensures Joint(Step(s, Writing(b)))
  {
    FramesKeep(s.f, b);
    hide F.Step, P.QueueInv, P.CodecInv;
  }

  lemma {:induction false} RunIsJoint(maxSize: nat, keepLast: bool, acts: seq<Action>, s: State)
    requires maxSize > 0 && Run(maxSize, keepLast, acts) == Some(s)
    ensures Projects(maxSize, keepLast, s) && Joint(s)
  {
    hide P.Reachable, F.Reachable, P.Step, F.Step;
    if acts == [] {
      P.NothingRun();
      assert P.Run([]) == Some(P.Init()) && F.Run(maxSize, keepLast, []) == Some(F.Init(maxSize, keepLast));
      StartProjects(maxSize, keepLast);
    } else {
      var before := Run(maxSize, keepLast, acts[..|acts| - 1]).value;
      RunIsJoint(maxSize, keepLast, acts[..|acts| - 1], before);
      StepProjects(maxSize, keepLast, before, acts[|acts| - 1]);
      P.ReachableInv(before.p);
      StepKeepsJoint(before, acts[|acts| - 1]);
    }
  }

  lemma StartProjects(maxSize: nat, keepLast: bool)
    ensures Projects(maxSize, keepLast, Init(maxSize, keepLast))
  {
    P.NothingRun();
    assert F.Run(maxSize, keepLast, []) == Some(F.Init(maxSize, keepLast));
  }

  // ----- main results -----

  /** Whatever holds in every reachable state of the packet queue's interleaving, or of the
      frame queue's, holds of a thread that goes through both. */
  lemma BothQueuesAtOnce(maxSize: nat, keepLast: bool, s: State)
    requires maxSize > 0 && Reachable(maxSize, keepLast, s)
    ensures P.Reachable(s.p) && F.Reachable(maxSize, keepLast, s.f)
    ensures s.f.abort <==> s.p.q.abort
  {
    var acts :| Run(maxSize, keepLast, acts) == Some(s);
    RunIsJoint(maxSize, keepLast, acts, s);
  }

  // How many more own steps the thread has, at most, once the queues are aborted.
  function Left(s: State): nat {
    8 * P.StepsLeft(s.p) +
    match s.f.w
    case WGranted => 2
    case WIdle => 3
    case WAdvanced => 4
    case WFilled => 5
    case WFilling => 6
    case WAsleep => 7
  }

  // The step the thread can take next.
  function NextStep(s: State): Action {
    match s.f.w
    case WGranted => Writing(F.WTestAbort)
    case WAdvanced => Writing(F.WCommit(true))
    case WFilled => Writing(F.WAdvance)
    case _ =>
      if s.p.pc == P.Dead then Writing(F.WGiveBack)
      else
        Decoding(match s.p.pc
                 case Check => P.DCheck
                 case Decide => P.DDecide
                 case Fetch => P.DFetch
                 case Fetched(_) => P.DHandle
                 case Filtering => P.DFiltered
                 case _ => P.DDecode(P.Answer(true, true, false)))
  }

  /** The join of decoder_abort ends. After packet_queue_abort and frame_queue_signal the
      thread sleeps in neither queue; until it has returned it has a step; each of its
      steps brings it nearer to returning, and no other thread sets it back; and once it
      has returned, and only then, the join goes on. */
  lemma JoinEnds(maxSize: nat, keepLast: bool, s: State, a: Action)
    requires Reachable(maxSize, keepLast, s) && maxSize > if keepLast then 1 else 0
    requires s.p.control == P.Aborting && s.f.signalled
    ensures s.p.pc != P.Asleep && s.f.w != F.WAsleep
    ensures Enabled(s, JoinThread) <==> Returned(s)
    ensures !Returned(s) ==> IsThreadStep(NextStep(s)) && Enabled(s, NextStep(s))
    ensures IsThreadStep(a) && Enabled(s, a) ==> Left(Step(s, a)) < Left(s)
    ensures !IsThreadStep(a) && !a.JoinThread? && Enabled(s, a) ==>
              && Left(Step(s, a)) == Left(s)
              && Step(s, a).p.control == P.Aborting && Step(s, a).f.signalled
  {
    hide P.Step, F.Step, Run, Left, Ending;
    IsEnding(maxSize, keepLast, s);
    SomeStep(s);
    if Enabled(s, a) { StepsCount(s, a); }
  }

  lemma IsEnding(maxSize: nat, keepLast: bool, s: State)
    requires Reachable(maxSize, keepLast, s) && maxSize > if keepLast then 1 else 0
    requires s.p.control == P.Aborting && s.f.signalled
    ensures Ending(s)
  {
    hide P.Reachable, F.Reachable, P.CodecInv, P.DecoderInv, F.Contents;
    var acts :| Run(maxSize, keepLast, acts) == Some(s);
    RunIsJoint(maxSize, keepLast, acts, s);
    P.ReachableInv(s.p);
    F.ReachableInv(maxSize, keepLast, s.f);
    F.NobodyStuck(maxSize, keepLast, s.f);
  }

  ghost predicate Ending(s: State) {
    && Joint(s) && P.Inv(s.p) && F.Inv(s.f)
    && s.p.control == P.Aborting && s.p.q.abort && s.f.signalled && s.f.abort
    && s.f.w != F.WAsleep && s.f.r != F.RAsleep
  }

  lemma SomeStep(s: State)
    requires Ending(s)
    ensures s.p.pc != P.Asleep && s.f.w != F.WAsleep && F.WellFormed(s.f.q)
    ensures !Returned(s) ==> IsThreadStep(NextStep(s)) && Enabled(s, NextStep(s))
  {
  }

  lemma StepsCount(s: State, a: Action)
    requires Ending(s) && Enabled(s, a)
    ensures IsThreadStep(a) ==> Left(Step(s, a)) < Left(s)
    ensures !IsThreadStep(a) && !a.JoinThread? ==>
              && Left(Step(s, a)) == Left(s)
              && Step(s, a).p.control == P.Aborting && Step(s, a).f.signalled
  {
    hide P.Step, F.Step, P.Inv, F.Inv;
    match a
    case Decoding(b) => PacketCounts(s, b);
    case Reading(b) => PacketCounts(s, b);
    case Writing(b) => WritingCounts(s, b);
    case Showing(b) => FramesKeep(s.f, b);
    case _ =>
  }

  lemma PacketCounts(s: State, b: P.Action)
    requires Ending(s) && P.Enabled(s.p, b) && (IsReading(b) || P.IsDecoderStep(b))
    ensures P.IsDecoderStep(b) ==> P.StepsLeft(P.Step(s.p, b)) < P.StepsLeft(s.p)
    ensures IsReading(b) ==>
              P.StepsLeft(P.Step(s.p, b)) == P.StepsLeft(s.p) && P.Step(s.p, b).control == P.Aborting
  {
    hide P.StepsLeft, P.Step;
    PacketsKeep(s.p, b);
    P.AbortedSteps(s.p, b);
  }

  lemma WritingCounts(s: State, b: F.Action)
    requires Ending(s) && Enabled(s, Writing(b))
    ensures Left(Step(s, Writing(b))) < Left(s)
  {
    hide P.Inv, F.Inv;
  }
}
