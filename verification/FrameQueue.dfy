/** The player's frame queue: a ring with one writer and one reader. Only `size` moves
    under the mutex; the two indices move outside it, so a push and a next each have a
    half-done state that the other thread can see. */
module FrameQueue {
  import opened Common

  // Frames are told apart by an identifier.
  type Frame = nat

  datatype Ring = Ring(
    slots: seq<Option<Frame>>,
    rindex: nat,
    windex: nat,
    size: int,
    shown: nat,        // rindex_shown
    maxSize: nat,
    keepLast: bool)

  const FRAME_QUEUE_SIZE: nat := 16

  function NewRing(maxSize: nat, keepLast: bool): Ring {
    var n := if maxSize < FRAME_QUEUE_SIZE then maxSize else FRAME_QUEUE_SIZE;
    Ring(seq(n, _ => None), 0, 0, 0, 0, n, keepLast)
  }

  predicate WellFormed(q: Ring) {
    && 0 < q.maxSize == |q.slots|
    && q.rindex < q.maxSize && q.windex < q.maxSize
    && q.shown <= Keep(q)
  }

  function Keep(q: Ring): nat { if q.keepLast then 1 else 0 }

  function Remaining(q: Ring): int { q.size - q.shown }

  function Bump(i: nat, maxSize: nat): nat { if i + 1 == maxSize then 0 else i + 1 }

  // The atomic pieces of frame_queue_push and frame_queue_next.
  function Fill(q: Ring, f: Frame): Ring
    requires WellFormed(q)
  { q.(slots := q.slots[q.windex := Some(f)]) }

  function AdvanceWrite(q: Ring): Ring { q.(windex := Bump(q.windex, q.maxSize)) }

  function CommitPush(q: Ring): Ring { q.(size := q.size + 1) }

  function ShowFirst(q: Ring): Ring { q.(shown := 1) }

  function Unref(q: Ring): Ring
    requires WellFormed(q)
  { q.(slots := q.slots[q.rindex := None]) }

  function AdvanceRead(q: Ring): Ring { q.(rindex := Bump(q.rindex, q.maxSize)) }

  function CommitNext(q: Ring): Ring { q.(size := q.size - 1) }

  // The slot `k` places after the one frame_queue_peek_last gives.
  function SlotAhead(q: Ring, k: nat): nat
    requires q.maxSize > 0
  { (q.rindex + k) % q.maxSize }

  function PeekIndex(q: Ring): nat
    requires WellFormed(q)
  { SlotAhead(q, q.shown) }

  // ----- the interleaving of the two threads -----

  datatype WriterPc =
    | WIdle
    | WAsleep    // in SDL_CondWait in frame_queue_peek_writable
    | WGranted   // out of the wait loop, about to read abort_request
    | WFilling   // holds the slot at windex
    | WFilled    // the frame is in the slot
    | WAdvanced  // windex moved, size not yet

  datatype ReaderPc =
    | RIdle
    | RAsleep    // in SDL_CondWait in frame_queue_peek_readable
    | RGranted
    | RHolding   // has seen an undisplayed frame
    | RUnrefed   // inside frame_queue_next: old slot released
    | RAdvanced  // rindex moved, size not yet

  datatype State = State(
    q: Ring,
    w: WriterPc,
    r: ReaderPc,
    abort: bool,
    signalled: bool,       // frame_queue_signal has followed the abort
    pushed: seq<Frame>,    // every frame pushed, in order
    taken: seq<Frame>,     // every frame the reader moved past, in order
    released: nat)         // how many of them left the ring

  // `toWriter` says which sleeper SDL_CondSignal picks when there is a choice.
  datatype Action =
    | WLock | WTestAbort | WGiveBack | WFill(f: Frame) | WAdvance | WCommit(toWriter: bool)
    | RPoll | RLock | RTestAbort | RLeave | RShow | RUnref | RAdvance | RCommit(toWriter: bool)
    | Abort | Signal(toWriter: bool) | Restart

  function Init(maxSize: nat, keepLast: bool): State {
    State(NewRing(maxSize, keepLast), WIdle, RIdle, true, true, [], [], 0)
  }

  predicate Enabled(s: State, a: Action) {
    && WellFormed(s.q)
    && match a
       case WLock => s.w == WIdle
       case WTestAbort => s.w == WGranted
       case WGiveBack => s.w == WFilling
       case WFill(_) => s.w == WFilling
       case WAdvance => s.w == WFilled
       case WCommit(_) => s.w == WAdvanced
       case RPoll => s.r == RIdle && Remaining(s.q) > 0
       case RLock => s.r == RIdle
       case RTestAbort => s.r == RGranted
       case RLeave => s.r == RHolding
       case RShow => s.r == RHolding && s.q.keepLast && s.q.shown == 0
       case RUnref => s.r == RHolding && !(s.q.keepLast && s.q.shown == 0)
       case RAdvance => s.r == RUnrefed
       case RCommit(_) => s.r == RAdvanced
       case Abort => !s.abort
       case Signal(_) => s.abort
       // packet_queue_start comes after the join of the writer and, for audio, after
       // SDL_CloseAudio has ended the reader.
       case Restart => s.abort && s.signalled && s.w == WIdle && s.r == RIdle
  }

  // One pass of the wait loop, under the mutex.
  function WriterTest(s: State): State {
    s.(w := if s.q.size >= s.q.maxSize && !s.abort then WAsleep else WGranted)
  }

  function ReaderTest(s: State): State {
    s.(r := if Remaining(s.q) <= 0 && !s.abort then RAsleep else RGranted)
  }

  // SDL_CondSignal wakes one sleeper; a woken thread runs its loop test again.
  function Wake(s: State, toWriter: bool): State {
    if s.w == WAsleep && (toWriter || s.r != RAsleep) then WriterTest(s)
    else if s.r == RAsleep then ReaderTest(s)
    else s
  }

  function Step(s: State, a: Action): State
    requires Enabled(s, a)
  {
    match a
    case WLock => WriterTest(s)
    case WTestAbort => s.(w := if s.abort then WIdle else WFilling)
    case WGiveBack => s.(w := WIdle)  // the slot is left as it is, for the next call
    case WFill(f) => s.(q := Fill(s.q, f), w := WFilled)
    case WAdvance =>
      s.(q := AdvanceWrite(s.q), w := WAdvanced,
         pushed := s.pushed + match s.q.slots[s.q.windex] case Some(f) => [f] case None => [])
    case WCommit(toWriter) => Wake(s.(q := CommitPush(s.q), w := WIdle), toWriter)
    case RPoll => s.(r := RHolding)
    case RLock => ReaderTest(s)
    case RTestAbort => s.(r := if s.abort then RIdle else RHolding)
    case RLeave => s.(r := RIdle)  // looked at, and not moved past
    case RShow => s.(q := ShowFirst(s.q), r := RIdle, taken := s.taken + HeldFrame(s.q))
    case RUnref => s.(q := Unref(s.q), r := RUnrefed, taken := s.taken + HeldFrame(s.q))
    case RAdvance => s.(q := AdvanceRead(s.q), r := RAdvanced, released := s.released + 1)
    case RCommit(toWriter) => Wake(s.(q := CommitNext(s.q), r := RIdle), toWriter)
    case Abort => s.(abort := true, signalled := false)
    case Signal(toWriter) => Wake(s, toWriter).(signalled := true)
    case Restart => s.(abort := false, signalled := false)
  }

  function HeldFrame(q: Ring): seq<Frame>
    requires WellFormed(q)
  {
    match q.slots[PeekIndex(q)] case Some(f) => [f] case None => []
  }

  function Run(maxSize: nat, keepLast: bool, acts: seq<Action>): Option<State> {
    if acts == [] then Some(Init(maxSize, keepLast))
    else
      match Run(maxSize, keepLast, acts[..|acts| - 1])
      case Some(s) => if Enabled(s, acts[|acts| - 1]) then Some(Step(s, acts[|acts| - 1])) else None
      case None => None
  }

  /** The states the two threads can get a queue into, from frame_queue_init on. */
  ghost predicate Reachable(maxSize: nat, keepLast: bool, s: State) {
    exists acts :: Run(maxSize, keepLast, acts) == Some(s)
  }

  // ----- what every step keeps -----

  // Where the j-th frame ever pushed goes.
  function Slot(j: nat, m: nat): (i: nat)
    requires m > 0
    ensures i < m
  {
    if j == 0 then 0 else Bump(Slot(j - 1, m), m)
  }

  function PushHalf(s: State): nat { if s.w == WAdvanced then 1 else 0 }

  function NextHalf(s: State): nat { if s.r == RAdvanced then 1 else 0 }

  function UnrefHalf(s: State): nat { if s.r == RUnrefed then 1 else 0 }

  ghost predicate Counts(s: State) {
    && WellFormed(s.q)
    && s.q.windex == Slot(|s.pushed|, s.q.maxSize)
    && s.q.rindex == Slot(s.released, s.q.maxSize)
    && s.q.size == |s.pushed| - PushHalf(s) - s.released + NextHalf(s)
    && s.q.size + PushHalf(s) <= s.q.maxSize
    && s.released + s.q.shown + UnrefHalf(s) + PushHalf(s) <= |s.pushed|
  }

  ghost predicate Places(s: State)
    requires WellFormed(s.q)
  {
    && (s.w in {WFilling, WFilled} ==> s.q.size < s.q.maxSize)
    && (s.w == WGranted && !s.abort ==> s.q.size < s.q.maxSize)
    && (s.w == WFilled ==> s.q.slots[s.q.windex].Some?)
    && (s.r == RHolding ==> Remaining(s.q) > 0)
    && (s.r == RGranted && !s.abort ==> Remaining(s.q) > 0)
    && (s.r in {RUnrefed, RAdvanced} ==> s.q.shown == Keep(s.q))
    && (s.signalled ==> s.abort)
    && (s.taken != [] ==> s.q.shown == Keep(s.q))  // the first next marks the kept frame
  }

  /** The ring holds exactly the frames pushed and not yet released. */
  ghost predicate Contents(s: State)
    requires WellFormed(s.q)
  {
    && (forall j {:trigger s.pushed[j]} :: s.released + UnrefHalf(s) <= j < |s.pushed| ==>
          s.q.slots[Slot(j, s.q.maxSize)] == Some(s.pushed[j]))
    && s.released + s.q.shown + UnrefHalf(s) <= |s.pushed|
    && s.taken == s.pushed[..s.released + s.q.shown + UnrefHalf(s)]
  }

  /** A sleeper's reason to sleep still holds, and an abort leaves none once signalled. */
  ghost predicate Sleepers(s: State) {
    && (s.w == WAsleep ==> s.q.size >= s.q.maxSize && !s.signalled)
    && (s.r == RAsleep ==> Remaining(s.q) <= 0 && !s.signalled)
  }

  ghost predicate Inv(s: State) {
    Counts(s) && Places(s) && Contents(s) && (s.q.maxSize > Keep(s.q) ==> Sleepers(s))
  }

  lemma MulGrows(m: nat, d: int)
    ensures d >= 1 ==> m * d >= m
    ensures d <= -1 ==> m * d + m <= 0
  {
  }

  lemma ModIs(x: nat, m: nat, k: int, r: nat)
    requires r < m && x == m * k + r
    ensures x % m == r
  {
    MulGrows(m, k - x / m);
    assert m * (k - x / m) == m * k - m * (x / m);
  }

  lemma BumpIsMod(a: nat, m: nat)
    requires m > 0
    ensures Bump(a % m, m) == (a + 1) % m
  {
    if a % m + 1 == m {
      ModIs(a + 1, m, a / m + 1, 0);
    } else {
      ModIs(a + 1, m, a / m, a % m + 1);
    }
  }

  lemma {:induction false} SlotIsMod(j: nat, m: nat)
    requires m > 0
    ensures Slot(j, m) == j % m
  {
    if j > 0 {
      SlotIsMod(j - 1, m);
      BumpIsMod(j - 1, m);
    }
  }

  lemma {:induction false} SlotAdds(a: nat, k: nat, m: nat)
    requires m > 0
    ensures (Slot(a, m) + k) % m == Slot(a + k, m)
    decreases k
  {
    if k == 0 {
      ModIs(Slot(a, m), m, 0, Slot(a, m));
    } else {
      SlotAdds(a, k - 1, m);
      BumpIsMod(Slot(a, m) + k - 1, m);
    }
  }

  lemma ModsDiffer(a: nat, b: nat, m: nat)
    requires a < b < a + m
    ensures a % m != b % m
  {
    MulGrows(m, b / m - a / m);
    assert m * (b / m - a / m) == m * (b / m) - m * (a / m);
  }

  lemma SlotsDiffer(a: nat, b: nat, m: nat)
    requires a < b < a + m
    ensures Slot(a, m) != Slot(b, m)
  {
    SlotIsMod(a, m);
    SlotIsMod(b, m);
    ModsDiffer(a, b, m);
  }

  lemma FillKeepsInv(s: State, f: Frame)
    requires Inv(s) && s.w == WFilling
    ensures Inv(Step(s, WFill(f)))
  {
    var t := Step(s, WFill(f));
    forall j | s.released + UnrefHalf(s) <= j < |s.pushed|
      ensures t.q.slots[Slot(j, s.q.maxSize)] == Some(t.pushed[j])
    {
      assert s.q.slots[Slot(j, s.q.maxSize)] == Some(s.pushed[j]);
      SlotsDiffer(j, |s.pushed|, s.q.maxSize);
    }
  }

  lemma AdvanceWriteKeepsInv(s: State)
    requires Inv(s) && s.w == WFilled
    ensures Inv(Step(s, WAdvance))
  {
    hide Contents;
    AdvanceWriteContents(s);
  }

  lemma AdvanceWriteContents(s: State)
    requires Inv(s) && s.w == WFilled
    ensures Contents(Step(s, WAdvance))
  {
    hide Sleepers;
    var t := Step(s, WAdvance);
    var f := s.q.slots[s.q.windex].value;
    assert t.pushed == s.pushed + [f] && t.q.slots == s.q.slots;
    assert t.taken == t.pushed[..s.released + s.q.shown + UnrefHalf(s)];
    forall j | s.released + UnrefHalf(s) <= j < |t.pushed|
      ensures t.q.slots[Slot(j, s.q.maxSize)] == Some(t.pushed[j])
    {
      if j < |s.pushed| {
        assert s.q.slots[Slot(j, s.q.maxSize)] == Some(s.pushed[j]);
      }
    }
  }

  lemma HeldIsNext(s: State)
    requires Inv(s) && s.r == RHolding
    ensures s.released + s.q.shown < |s.pushed|
    ensures HeldFrame(s.q) == [s.pushed[s.released + s.q.shown]]
  {
    SlotAdds(s.released, s.q.shown, s.q.maxSize);
    assert s.q.slots[Slot(s.released + s.q.shown, s.q.maxSize)] == Some(s.pushed[s.released + s.q.shown]);
  }

  lemma ShowKeepsInv(s: State)
    requires Inv(s) && Enabled(s, RShow)
    ensures Inv(Step(s, RShow))
  {
    HeldIsNext(s);
    var k := s.released + s.q.shown;
    assert s.pushed[..k] + [s.pushed[k]] == s.pushed[..k + 1];
  }

  lemma UnrefKeepsInv(s: State)
    requires Inv(s) && Enabled(s, RUnref)
    ensures Inv(Step(s, RUnref))
  {
    hide Contents;
    HeldIsNext(s);
    UnrefContents(s);
    if s.w == WFilled {
      SlotsDiffer(s.released, |s.pushed|, s.q.maxSize);
    }
  }

  lemma UnrefContents(s: State)
    requires Inv(s) && Enabled(s, RUnref)
    ensures Contents(Step(s, RUnref))
  {
    hide Sleepers, Places;
    HeldIsNext(s);
    UnrefKeepsRest(s);
    var k := s.released + s.q.shown;
    assert s.pushed[..k] + [s.pushed[k]] == s.pushed[..k + 1];
  }

  lemma UnrefKeepsRest(s: State)
    requires Counts(s) && Contents(s) && UnrefHalf(s) == 0
    ensures forall j {:trigger s.pushed[j]} :: s.released + 1 <= j < |s.pushed| ==>
              Unref(s.q).slots[Slot(j, s.q.maxSize)] == Some(s.pushed[j])
  {
    forall j | s.released + 1 <= j < |s.pushed|
      ensures Unref(s.q).slots[Slot(j, s.q.maxSize)] == Some(s.pushed[j])
    {
      assert s.q.slots[Slot(j, s.q.maxSize)] == Some(s.pushed[j]);
      SlotsDiffer(s.released, j, s.q.maxSize);
    }
  }

  lemma AdvanceReadKeepsInv(s: State)
    requires Inv(s) && s.r == RUnrefed
    ensures Inv(Step(s, RAdvance))
  {
  }

  lemma CommitPushKeepsInv(s: State, a: Action)
    requires Inv(s) && Enabled(s, a) && a.WCommit?
    ensures Inv(Step(s, a))
  {
  }

  lemma CommitNextKeepsInv(s: State, a: Action)
    requires Inv(s) && Enabled(s, a) && a.RCommit?
    ensures Inv(Step(s, a))
  {
  }

  lemma TestKeepsInv(s: State, a: Action)
    requires Inv(s) && Enabled(s, a)
    requires a in {WLock, WTestAbort, WGiveBack, RPoll, RLock, RTestAbort, RLeave}
    ensures Inv(Step(s, a))
  {
  }

  lemma AbortKeepsInv(s: State, a: Action)
    requires Inv(s) && Enabled(s, a) && (a.Abort? || a.Restart?)
    ensures Inv(Step(s, a))
  {
  }

  lemma SignalKeepsInv(s: State, a: Action)
    requires Inv(s) && Enabled(s, a) && a.Signal?
    ensures Inv(Step(s, a))
  {
    var t := Step(s, a);
    assert t.q == s.q && t.pushed == s.pushed && t.taken == s.taken && t.released == s.released;
    assert Counts(t) && Contents(t);
    assert Places(t);
  }

  lemma StepKeepsInv(s: State, a: Action)
    requires Inv(s) && Enabled(s, a)
    ensures Inv(Step(s, a))
  {
    match a
    case WFill(f) => FillKeepsInv(s, f);
    case WAdvance => AdvanceWriteKeepsInv(s);
    case WCommit(_) => CommitPushKeepsInv(s, a);
    case RShow => ShowKeepsInv(s);
    case RUnref => UnrefKeepsInv(s);
    case RAdvance => AdvanceReadKeepsInv(s);
    case RCommit(_) => CommitNextKeepsInv(s, a);
    case Abort => AbortKeepsInv(s, a);
    case Signal(_) => SignalKeepsInv(s, a);
    case Restart => AbortKeepsInv(s, a);
    case _ => TestKeepsInv(s, a);
  }

  lemma StepKeepsConfig(s: State, a: Action)
    requires Enabled(s, a)
    ensures Step(s, a).q.maxSize == s.q.maxSize && Step(s, a).q.keepLast == s.q.keepLast
  {
  }

  lemma {:induction false} RunKeepsInv(maxSize: nat, keepLast: bool, acts: seq<Action>, s: State)
    requires maxSize > 0 && Run(maxSize, keepLast, acts) == Some(s)
    ensures Inv(s) && s.q.keepLast == keepLast && s.q.maxSize == NewRing(maxSize, keepLast).maxSize
  {
    if acts != [] {
      var before := Run(maxSize, keepLast, acts[..|acts| - 1]).value;
      RunKeepsInv(maxSize, keepLast, acts[..|acts| - 1], before);
      StepKeepsInv(before, acts[|acts| - 1]);
      StepKeepsConfig(before, acts[|acts| - 1]);
    }
  }

  lemma ReachableInv(maxSize: nat, keepLast: bool, s: State)
    requires maxSize > 0 && Reachable(maxSize, keepLast, s)
    ensures Inv(s) && s.q.keepLast == keepLast && s.q.maxSize == NewRing(maxSize, keepLast).maxSize
  {
    var acts :| Run(maxSize, keepLast, acts) == Some(s);
    RunKeepsInv(maxSize, keepLast, acts, s);
  }

  // ----- main results -----

  /** The write index is the read index plus the size, corrected by the half-done push
      and the half-done next, around the ring. */
  ghost predicate Congruent(s: State) {
    && s.q.maxSize > 0
    && 0 <= s.q.size + PushHalf(s) - NextHalf(s) <= s.q.maxSize
    && s.q.windex == (s.q.rindex + s.q.size + PushHalf(s) - NextHalf(s)) % s.q.maxSize
  }

  lemma InvIsCongruent(s: State)
    requires Inv(s)
    ensures Congruent(s)
  {
    var live := |s.pushed| - s.released;
    assert s.q.size + PushHalf(s) - NextHalf(s) == live;
    SlotAdds(s.released, live, s.q.maxSize);
  }

  lemma IndicesCongruent(maxSize: nat, keepLast: bool, s: State)
    requires maxSize > 0 && Reachable(maxSize, keepLast, s)
    ensures Congruent(s) && s.q.keepLast == keepLast
    ensures s.q.maxSize == if maxSize <= 16 then maxSize else 16
  {
    ReachableInv(maxSize, keepLast, s);
    InvIsCongruent(s);
  }

  /** The slot the writer holds is none of those the reader may look at or release:
      the kept one, the current one, the following ones. */
  ghost predicate WriterAlone(s: State) {
    s.q.maxSize > 0 &&
    (s.w in {WFilling, WFilled} ==>
       forall k :: 0 <= k < s.q.size - NextHalf(s) ==> SlotAhead(s.q, k) != s.q.windex)
  }

  lemma InvWriterAlone(s: State)
    requires Inv(s)
    ensures WriterAlone(s)
  {
    if s.w in {WFilling, WFilled} {
      forall k | 0 <= k < s.q.size - NextHalf(s) ensures SlotAhead(s.q, k) != s.q.windex {
        SlotAdds(s.released, k, s.q.maxSize);
        SlotsDiffer(s.released + k, |s.pushed|, s.q.maxSize);
      }
    }
  }

  lemma WriterAloneInItsSlot(maxSize: nat, keepLast: bool, s: State)
    requires maxSize > 0 && Reachable(maxSize, keepLast, s)
    ensures WriterAlone(s)
  {
    ReachableInv(maxSize, keepLast, s);
    InvWriterAlone(s);
  }

  /** Frames are consumed in push order, each once; and with keep_last the frame just
      moved past is still in the slot peek_last gives, until the next call of next. */
  ghost predicate InOrder(s: State) {
    && s.taken <= s.pushed
    && (s.q.keepLast && s.taken != [] && s.r != RUnrefed ==>
          s.q.rindex < |s.q.slots| && s.q.slots[s.q.rindex] == Some(s.taken[|s.taken| - 1]))
  }

  lemma InvInOrder(s: State)
    requires Inv(s)
    ensures InOrder(s)
  {
    if s.q.keepLast && s.taken != [] && s.r != RUnrefed {
      assert s.q.slots[Slot(s.released, s.q.maxSize)] == Some(s.pushed[s.released]);
    }
  }

  lemma FramesComeOutInOrder(maxSize: nat, keepLast: bool, s: State)
    requires maxSize > 0 && Reachable(maxSize, keepLast, s)
    ensures InOrder(s)
  {
    ReachableInv(maxSize, keepLast, s);
    InvInOrder(s);
  }

  // A run from some state on.
  function RunFrom(s: State, acts: seq<Action>): Option<State>
    decreases |acts|
  {
    if acts == [] then Some(s)
    else if Enabled(s, acts[0]) then RunFrom(Step(s, acts[0]), acts[1..]) else None
  }

  lemma RunOn(s: State, a: Action, rest: seq<Action>)
    requires Enabled(s, a)
    ensures RunFrom(s, [a] + rest) == RunFrom(Step(s, a), rest)
  {
    assert ([a] + rest)[1..] == rest;
  }

  /** A thread that gets to the test of the abort is refused exactly under an abort, and it
      gets there unless it has to wait: for a frame not shown yet, or for a free slot. */
  lemma RefusedExactlyUnderAbort(s: State)
    requires WellFormed(s.q)
    ensures s.r == RIdle ==> (Step(s, RLock).r == RAsleep <==> !s.abort && s.q.size <= s.q.shown)
    ensures s.r == RIdle && Step(s, RLock).r != RAsleep ==> Step(s, RLock).r == RGranted
    ensures s.r == RGranted ==> Step(s, RTestAbort).r == if s.abort then RIdle else RHolding
    ensures s.w == WIdle ==> (Step(s, WLock).w == WAsleep <==> !s.abort && s.q.size >= s.q.maxSize)
    ensures s.w == WIdle && Step(s, WLock).w != WAsleep ==> Step(s, WLock).w == WGranted
    ensures s.w == WGranted ==> Step(s, WTestAbort).w == if s.abort then WIdle else WFilling
  {
  }

  // The reader's steps for one frame.
  function TakeSteps(q: Ring, toWriter: bool): seq<Action> {
    [RLock] + ([RTestAbort] +
      if q.keepLast && q.shown == 0 then [RShow] else [RUnref] + ([RAdvance] + [RCommit(toWriter)]))
  }

  /** In every reachable state without an abort, a frame that is there for the reader can be
      taken at once, and is the next in push order. */
  lemma NextFrameIsTaken(maxSize: nat, keepLast: bool, s: State, toWriter: bool)
    requires maxSize > 0 && Reachable(maxSize, keepLast, s)
    requires !s.abort && s.r == RIdle && s.q.size > s.q.shown
    ensures |s.taken| < |s.pushed|
    ensures var t := RunFrom(s, TakeSteps(s.q, toWriter));
            && t.Some? && t.value.r == RIdle
            && t.value.taken == s.taken + [s.pushed[|s.taken|]] && t.value.pushed == s.pushed
  {
    hide RunFrom;
    ReachableInv(maxSize, keepLast, s);
    HoldsNext(s);
    var held := s.(r := RHolding);
    RunOn(s, RLock, TakeSteps(s.q, toWriter)[1..]);
    RunOn(s.(r := RGranted), RTestAbort, TakeSteps(s.q, toWriter)[2..]);
    assert TakeSteps(s.q, toWriter) == [RLock] + TakeSteps(s.q, toWriter)[1..];
    assert TakeSteps(s.q, toWriter)[1..] == [RTestAbort] + TakeSteps(s.q, toWriter)[2..];
    if s.q.keepLast && s.q.shown == 0 {
      assert TakeSteps(s.q, toWriter)[2..] == [RShow] + [];
      RunOn(held, RShow, []);
      RunNothing(Step(held, RShow));
    } else {
      assert TakeSteps(s.q, toWriter)[2..] == [RUnref] + ([RAdvance] + [RCommit(toWriter)]);
      ReleaseSteps(held, toWriter);
    }
  }

  lemma RunNothing(s: State)
    ensures RunFrom(s, []) == Some(s)
  {
  }

  lemma HoldsNext(s: State)
    requires Inv(s) && s.r == RIdle && s.q.size > s.q.shown
    ensures |s.taken| < |s.pushed| && HeldFrame(s.q) == [s.pushed[|s.taken|]]
  {
    assert |s.taken| == s.released + s.q.shown;
    SlotAdds(s.released, s.q.shown, s.q.maxSize);
    assert s.q.slots[Slot(s.released + s.q.shown, s.q.maxSize)] == Some(s.pushed[s.released + s.q.shown]);
  }

  lemma ReleaseSteps(s: State, toWriter: bool)
    requires WellFormed(s.q) && s.r == RHolding && !(s.q.keepLast && s.q.shown == 0)
    ensures var t := RunFrom(s, [RUnref] + ([RAdvance] + [RCommit(toWriter)]));
            && t.Some? && t.value.r == RIdle
            && t.value.taken == s.taken + HeldFrame(s.q) && t.value.pushed == s.pushed
  {
    hide RunFrom;
    var t := Step(s, RUnref);
    var u := Step(t, RAdvance);
    RunOn(s, RUnref, [RAdvance] + [RCommit(toWriter)]);
    RunOn(t, RAdvance, [RCommit(toWriter)]);
    assert [RCommit(toWriter)] == [RCommit(toWriter)] + [];
    RunOn(u, RCommit(toWriter), []);
    RunNothing(Step(u, RCommit(toWriter)));
  }

  function PushSteps(f: Frame, toWriter: bool): seq<Action> {
    [WLock] + ([WTestAbort] + ([WFill(f)] + ([WAdvance] + [WCommit(toWriter)])))
  }

  /** And a frame can be pushed at once while there is room. */
  lemma FrameIsPushed(s: State, f: Frame, toWriter: bool)
    requires WellFormed(s.q) && !s.abort && s.w == WIdle && s.q.size < s.q.maxSize
    ensures var t := RunFrom(s, PushSteps(f, toWriter));
            && t.Some? && t.value.w == WIdle
            && t.value.pushed == s.pushed + [f] && t.value.taken == s.taken
            && t.value.q.size == s.q.size + 1
  {
    hide RunFrom;
    var t1 := s.(w := WGranted);
    var t2 := s.(w := WFilling);
    var t3 := Step(t2, WFill(f));
    var t4 := Step(t3, WAdvance);
    RunOn(s, WLock, PushSteps(f, toWriter)[1..]);
    RunOn(t1, WTestAbort, [WFill(f)] + ([WAdvance] + [WCommit(toWriter)]));
    RunOn(t2, WFill(f), [WAdvance] + [WCommit(toWriter)]);
    RunOn(t3, WAdvance, [WCommit(toWriter)]);
    assert [WCommit(toWriter)] == [WCommit(toWriter)] + [];
    RunOn(t4, WCommit(toWriter), []);
    RunNothing(Step(t4, WCommit(toWriter)));
    assert PushSteps(f, toWriter)[1..] == [WTestAbort] + ([WFill(f)] + ([WAdvance] + [WCommit(toWriter)]));
  }

  /** When the ring is larger than what it retains, writer and reader never sleep
      together, and nobody sleeps after the abort has been signalled. */
  lemma NobodyStuck(maxSize: nat, keepLast: bool, s: State)
    requires maxSize > 0 && Reachable(maxSize, keepLast, s)
    requires maxSize > if keepLast then 1 else 0
    ensures !(s.w == WAsleep && s.r == RAsleep)
    ensures s.signalled ==> s.w != WAsleep && s.r != RAsleep
  {
    ReachableInv(maxSize, keepLast, s);
  }

  // A ring of one slot, keeping its last frame, with one frame pushed.
  function OneFrame(): State {
    State(Ring([Some(7)], 0, 0, 1, 0, 1, true), WIdle, RIdle, false, false, [7], [], 0)
  }

  lemma NothingRun()
    ensures Run(1, true, []) == Some(Init(1, true))
  {
  }

  lemma OneFramePushed() returns (acts: seq<Action>)
    ensures Run(1, true, acts) == Some(OneFrame())
  {
    hide Run;
    NothingRun();
    var s0 := Init(1, true).(abort := false, signalled := false);
    var full := s0.q.(slots := [Some(7)]);
    acts := RunOne([], Init(1, true), Restart, s0);
    acts := RunOne(acts, s0, WLock, s0.(w := WGranted));
    acts := RunOne(acts, s0.(w := WGranted), WTestAbort, s0.(w := WFilling));
    acts := RunOne(acts, s0.(w := WFilling), WFill(7), s0.(w := WFilled, q := full));
    var s1 := s0.(q := full, pushed := [7], w := WAdvanced);
    acts := RunOne(acts, s0.(w := WFilled, q := full), WAdvance, s1);
    acts := RunOne(acts, s1, WCommit(true), OneFrame());
  }

  // That frame shown: it stays in the one slot.
  function FrameShown(): State {
    OneFrame().(q := OneFrame().q.(shown := 1), taken := [7])
  }

  lemma OneFrameShown() returns (acts: seq<Action>)
    ensures Run(1, true, acts) == Some(FrameShown())
  {
    hide Run;
    var held := OneFrame().(r := RHolding);
    acts := OneFramePushed();
    acts := RunOne(acts, OneFrame(), RPoll, held);
    assert HeldFrame(held.q) == [7];
    acts := RunOne(acts, held, RShow, FrameShown());
  }

  lemma BothAsleep() returns (acts: seq<Action>)
    ensures Run(1, true, acts) == Some(FrameShown().(r := RAsleep, w := WAsleep))
  {
    hide Run;
    var s3 := FrameShown();
    acts := OneFrameShown();
    acts := RunOne(acts, s3, RLock, s3.(r := RAsleep));
    acts := RunOne(acts, s3.(r := RAsleep), WLock, s3.(r := RAsleep, w := WAsleep));
  }

  lemma RunOne(acts: seq<Action>, s: State, a: Action, t: State) returns (more: seq<Action>)
    requires Run(1, true, acts) == Some(s) && Enabled(s, a) && Step(s, a) == t
    ensures Run(1, true, more) == Some(t)
  {
    more := acts + [a];
    assert more[..|acts|] == acts;
  }

  /** The two threads can end up asleep together exactly when the ring has one slot and
      keeps its last frame: that frame is shown and never released. */
  lemma DeadlockExactlyWhenOneKeptSlot(maxSize: nat, keepLast: bool)
    requires maxSize > 0
    ensures (exists s :: Reachable(maxSize, keepLast, s) && s.w == WAsleep && s.r == RAsleep)
            <==> maxSize == 1 && keepLast
  {
    if maxSize == 1 && keepLast {
      var acts := BothAsleep();
      assert Reachable(maxSize, keepLast, Run(1, true, acts).value);
    } else {
      forall s | Reachable(maxSize, keepLast, s) ensures !(s.w == WAsleep && s.r == RAsleep) {
        NobodyStuck(maxSize, keepLast, s);
      }
    }
  }

  // ----- the queue as the program updates it -----

  datatype Outcome = Granted(slot: nat) | Refused | MustWait

  /** The record with its fixed array; each method is one atomic piece, or, where the
      piece is the whole call, the call. */
  class Queue {
    const slots: array<Option<Frame>>
    const maxSize: nat
    const keepLast: bool
    var rindex: nat
    var windex: nat
    var size: int
    var rindexShown: nat

    ghost function Value(): Ring
      reads this, slots
    {
      Ring(slots[..], rindex, windex, size, rindexShown, maxSize, keepLast)
    }

    constructor (maxSize: nat, keepLast: bool)
      ensures Value() == NewRing(maxSize, keepLast) && fresh(slots)
    {
      var n := if maxSize < FRAME_QUEUE_SIZE then maxSize else FRAME_QUEUE_SIZE;
      this.maxSize, this.keepLast := n, keepLast;
      slots := new Option<Frame>[n](_ => None);
      rindex, windex, size, rindexShown := 0, 0, 0, 0;
    }

    /** frame_queue_peek_writable: one pass of the wait loop, with abort_request read as
        `inLoop` under the mutex, and the second read after the unlock as `unlocked`. They
        are the steps WLock and WTestAbort, with room for an abort in between. */
    method PeekWritable(inLoop: bool, unlocked: bool, ghost s: State) returns (r: Outcome)
      requires WellFormed(Value()) && s.q == Value() && s.w == WIdle && s.abort == inLoop
      ensures r == MustWait <==> Step(s, WLock).w == WAsleep
      ensures r != MustWait ==>
                var t := Step(Step(s, WLock).(abort := unlocked), WTestAbort);
                r == if t.w == WFilling then Granted(t.q.windex) else Refused
      ensures r == MustWait <==> size >= maxSize && !inLoop
      ensures r == Refused ==> unlocked
    {
      if size >= maxSize && !inLoop {
        return MustWait;
      }
      if unlocked {
        return Refused;
      }
      return Granted(windex);
    }

    /** frame_queue_peek_readable in the same way: the steps RLock and RTestAbort. */
    method PeekReadable(inLoop: bool, unlocked: bool, ghost s: State) returns (r: Outcome)
      requires WellFormed(Value()) && s.q == Value() && s.r == RIdle && s.abort == inLoop
      ensures r == MustWait <==> Step(s, RLock).r == RAsleep
      ensures r != MustWait ==>
                var t := Step(Step(s, RLock).(abort := unlocked), RTestAbort);
                r == if t.r == RHolding then Granted(PeekIndex(t.q)) else Refused
      ensures r == MustWait <==> size <= rindexShown && !inLoop
      ensures r == Refused ==> unlocked
    {
      if size - rindexShown <= 0 && !inLoop {
        return MustWait;
      }
      if unlocked {
        return Refused;
      }
      return Granted((rindex + rindexShown) % maxSize);
    }

    method WriteFrame(f: Frame)
      requires WellFormed(Value())
      modifies slots
      ensures Value() == Fill(old(Value()), f)
    {
      slots[windex] := Some(f);
    }

    // frame_queue_push: the index first, then the size under the mutex.
    method PushIndex()
      modifies `windex
      ensures Value() == AdvanceWrite(old(Value()))
    {
      windex := windex + 1;
      if windex == maxSize {
        windex := 0;
      }
    }

    method PushSize()
      modifies `size
      ensures Value() == CommitPush(old(Value()))
    {
      size := size + 1;
    }

    // frame_queue_next up to the change of rindex; `done` when it only marks the frame.
    method NextRelease() returns (done: bool)
      requires WellFormed(Value())
      modifies `rindexShown, slots
      ensures done <==> keepLast && old(rindexShown) == 0
      ensures Value() == if done then ShowFirst(old(Value())) else Unref(old(Value()))
    {
      if keepLast && rindexShown == 0 {
        rindexShown := 1;
        return true;
      }
      slots[rindex] := None;
      return false;
    }

    method NextIndex()
      modifies `rindex
      ensures Value() == AdvanceRead(old(Value()))
    {
      rindex := rindex + 1;
      if rindex == maxSize {
        rindex := 0;
      }
    }

    method NextSize()
      modifies `size
      ensures Value() == CommitNext(old(Value()))
    {
      size := size - 1;
    }
  }
}
