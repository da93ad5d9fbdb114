/** The rate decision of the transcoder: for every filtered picture, how often the
    previous picture and this one are encoded, and with which timestamps. */
module VideoSync {
  import opened Common

  datatype Mode = Cfr | VsCfr | Vfr | Passthrough | DropStamps

  datatype Config = Config(
    mode: Mode,
    maxFrames: int,
    dropThreshold: real,    // frame_drop_threshold; 0 turns it off
    dupLimit: real,         // dts_error_threshold * 30
    stopAt: Option<int>)    // first pts not to be encoded (recording time), if any

  // Start and length of a picture, in ticks of the encoder's time base.
  datatype Picture = Picture(ipts: real, duration: real)

  datatype Frame = Frame(pic: nat, pts: int)

  // Pictures are numbered in the order received.
  datatype Video = Video(
    syncOpts: int,
    frameNumber: int,
    lastNb0: (int, int, int),
    lastDropped: bool,
    lastFrame: Option<nat>,
    encoded: seq<Frame>,
    framesDropped: int,     // nb_frames_drop
    framesDuplicated: int,  // nb_frames_dup
    received: nat)

  datatype End = Normal | Skipped | NoPicture | TimeUp

  function NewVideo(): Video { Video(0, 0, (0, 0, 0), false, None, [], 0, 0, 0) }

  // ----- rounding -----

  /** lrint: to the nearest integer, halves to the even one. */
  function Lrint(x: real): int {
    var f := x.Floor;
    var d := x - f as real;
    if d < 0.5 || (d == 0.5 && f % 2 == 0) then f else f + 1
  }

  lemma LrintNear(x: real)
    ensures -0.5 <= x - Lrint(x) as real <= 0.5
    ensures x - Lrint(x) as real in {-0.5, 0.5} ==> Lrint(x) % 2 == 0
  {
  }

  lemma LrintMonotone(x: real, y: real)
    requires x <= y
    ensures Lrint(x) <= Lrint(y)
  {
  }

  // ----- the decision -----

  datatype Decision = Decision(nb: int, nb0: int, sync: int)

  function ConstantRate(c: Config, v: Video, sync: int, delta: real, delta0: real): Decision {
    if (c.dropThreshold != 0.0 && delta < c.dropThreshold && v.frameNumber != 0) || delta < -1.1 then
      Decision(0, 0, sync)
    else if delta > 1.1 then
      Decision(Lrint(delta), if delta0 > 1.1 then Lrint(delta0 - 0.6) else 0, sync)
    else
      Decision(1, 0, sync)
  }

  function Delta0(v: Video, p: Picture): real { p.ipts - v.syncOpts as real }

  // A picture that began too early but is not over yet is cut to begin now.
  predicate Clipped(c: Config, v: Video, p: Picture) {
    Delta0(v, p) < 0.0 && Delta0(v, p) + p.duration > 0.0 && c.mode in {Cfr, VsCfr, Vfr}
  }

  /** VSCFR drops a gap before the very first picture instead of filling it. */
  predicate SkipsInitialGap(c: Config, v: Video, p: Picture) {
    c.mode == VsCfr && v.frameNumber == 0 && Delta0(v, p) >= 0.5
  }

  function Decide(c: Config, v: Video, p: Picture): Decision {
    var delta := Delta0(v, p) + p.duration;
    var clip := Clipped(c, v, p);
    var ipts := if clip then v.syncOpts as real else p.ipts;
    var delta0 := if clip then 0.0 else Delta0(v, p);
    match c.mode
    case Cfr => ConstantRate(c, v, v.syncOpts, delta, delta0)
    case VsCfr =>
      if SkipsInitialGap(c, v, p) then ConstantRate(c, v, Lrint(ipts), p.duration, 0.0)
      else ConstantRate(c, v, v.syncOpts, delta, delta0)
    case Vfr =>
      Decision(if delta <= -0.6 then 0 else 1, 0, if delta > 0.6 then Lrint(ipts) else v.syncOpts)
    case _ => Decision(1, 0, Lrint(ipts))
  }

  function Median(a: int, b: int, c: int): int { Max(Min(a, b), Min(Max(a, b), c)) }

  /** The counts after the frame limit; a flush repeats the last picture as often as
      was usual in the last three calls. */
  function Counts(c: Config, v: Video, next: Option<Picture>): Decision {
    var d := match next
      case Some(p) => Decide(c, v, p)
      case None =>
        var m := Median(v.lastNb0.0, v.lastNb0.1, v.lastNb0.2);
        Decision(m, m, v.syncOpts);
    var nb := Min(d.nb, c.maxFrames - v.frameNumber);
    Decision(nb, Min(d.nb0, nb), d.sync)
  }

  // Of `nb` encodings, those that show a picture for the first time.
  function FirstShown(v: Video, d: Decision): int {
    (if d.nb0 != 0 && v.lastDropped then 1 else 0) + if d.nb > d.nb0 then 1 else 0
  }

  predicate TooMany(c: Config, v: Video, d: Decision) {
    d.nb > FirstShown(v, d) && d.nb as real > c.dupLimit
  }

  function ShownAt(v: Video, next: Option<nat>, d: Decision, i: int): Option<nat> {
    if i < d.nb0 && v.lastFrame.Some? then v.lastFrame else next
  }

  // The frames numbered `i` to `nb` of one call, as far as they get.
  function Emitted(c: Config, v: Video, next: Option<nat>, d: Decision, i: int): (seq<Frame>, End)
    decreases d.nb - i
  {
    if i >= d.nb then ([], Normal)
    else if ShownAt(v, next, d, i).None? then ([], NoPicture)
    else if c.stopAt.Some? && d.sync + i >= c.stopAt.value then ([], TimeUp)
    else
      var (rest, end) := Emitted(c, v, next, d, i + 1);
      ([Frame(ShownAt(v, next, d, i).value, d.sync + i)] + rest, end)
  }

  // The counters of one call, before anything is encoded.
  function Booked(c: Config, v: Video, next: Option<Picture>, d: Decision): Video {
    var v1 := v.(
      syncOpts := d.sync,
      received := v.received + if next.Some? then 1 else 0,
      lastNb0 := (d.nb0, v.lastNb0.0, v.lastNb0.1),
      framesDropped := v.framesDropped + if d.nb0 == 0 && v.lastDropped then 1 else 0);
    if TooMany(c, v, d) then v1.(framesDropped := v1.framesDropped + 1)
    else
      v1.(framesDuplicated := v.framesDuplicated + Max(0, d.nb - FirstShown(v, d)),
          lastDropped := d.nb == d.nb0 && next.Some?)
  }

  function Id(v: Video, next: Option<Picture>): Option<nat> {
    if next.Some? then Some(v.received) else None
  }

  function Added(c: Config, v: Video, next: Option<Picture>): (seq<Frame>, End) {
    var d := Counts(c, v, next);
    if TooMany(c, v, d) then ([], Skipped) else Emitted(c, v, Id(v, next), d, 0)
  }

  function Step(c: Config, v: Video, next: Option<Picture>): (Video, End) {
    var (frames, end) := Added(c, v, next);
    var w := Booked(c, v, next, Counts(c, v, next));
    (w.(encoded := v.encoded + frames,
        syncOpts := w.syncOpts + |frames|,
        frameNumber := v.frameNumber + |frames|,
        lastFrame := if end == Normal then Id(v, next) else v.lastFrame),
     end)
  }

  /** do_video_out over a run of pictures and flushes. */
  function Run(c: Config, inputs: seq<Option<Picture>>): Video {
    if inputs == [] then NewVideo()
    else Step(c, Run(c, inputs[..|inputs| - 1]), inputs[|inputs| - 1]).0
  }

  lemma {:induction false} EmittedAll(c: Config, v: Video, next: Option<nat>, d: Decision, i: int)
    requires Emitted(c, v, next, d, i).1 == Normal && i <= Max(d.nb, i)
    ensures |Emitted(c, v, next, d, i).0| == Max(0, d.nb - i)
    decreases d.nb - i
  {
    if i < d.nb {
      EmittedAll(c, v, next, d, i + 1);
    }
  }

  lemma {:induction false} EmittedPts(c: Config, v: Video, next: Option<nat>, d: Decision, i: int)
    ensures var fs := Emitted(c, v, next, d, i).0;
            |fs| <= Max(0, d.nb - i) && forall k :: 0 <= k < |fs| ==> fs[k].pts == d.sync + i + k
    decreases d.nb - i
  {
    if i < d.nb {
      EmittedPts(c, v, next, d, i + 1);
    }
  }

  // ----- drift -----

  function EndOf(p: Picture): real { p.ipts + p.duration }

  /** How far the end of the picture is ahead of the next output tick. */
  function Drift(v: Video, p: Picture): real { EndOf(p) - v.syncOpts as real }

  predicate CleanStep(c: Config, v: Video, p: Picture) {
    && Step(c, v, Some(p)).1 == Normal
    && Decide(c, v, p).nb <= c.maxFrames - v.frameNumber
    && p.duration >= 0.0
  }

  function MaxR(a: real, b: real): real { if a < b then b else a }

  function MinR(a: real, b: real): real { if a < b then a else b }

  /** After a picture at constant rate the output is never behind by more than half a
      tick (or the drop threshold), and it is not further ahead than 2.1 ticks unless
      it was so already. */
  lemma DriftAfterPicture(c: Config, v: Video, p: Picture)
    requires c.mode in {Cfr, VsCfr} && CleanStep(c, v, p)
    ensures var after := Drift(Step(c, v, Some(p)).0, p);
            && after <= MaxR(if SkipsInitialGap(c, v, p) then 1.0 else 0.5, c.dropThreshold)
            && after >= MinR(-2.1, Drift(v, p))
  {
    var d := Counts(c, v, Some(p));
    EmittedAll(c, v, Some(v.received), d, 0);
    LrintNear(Drift(v, p));
    LrintNear(p.duration);
    LrintNear(p.ipts);
    assert d.nb == Decide(c, v, p).nb;
  }

  /** What a dropped initial gap leaves: what the two roundings, of the start and of the
      length, take away. The half tick is kept exactly when they do not add up to more. */
  lemma InitialGapDriftExactly(c: Config, v: Video, p: Picture)
    requires CleanStep(c, v, p) && SkipsInitialGap(c, v, p)
    ensures var lost := (p.ipts - Lrint(p.ipts) as real)
                        + (p.duration - if p.duration > 1.1 then Lrint(p.duration) as real else 1.0);
            && Drift(Step(c, v, Some(p)).0, p) == lost
            && (lost <= 0.5 <==> Drift(Step(c, v, Some(p)).0, p) <= 0.5)
  {
    var d := Counts(c, v, Some(p));
    EmittedAll(c, v, Some(v.received), d, 0);
    LrintNear(p.duration);
    assert d.nb == Decide(c, v, p).nb;
  }

  const SMALLEST: real := 1.0 / 131072.0

  /** The starts reap_filters hands over: a timestamp in at most 16 bits below the tick,
      moved off the midpoints by half a bit. */
  ghost predicate HandedOver(ipts: real) {
    exists k: int :: ipts == Start(k)
  }

  function Start(k: int): real { k as real / 65536.0 + (if k > 0 then SMALLEST else -SMALLEST) }

  lemma StartIsOdd(k: int) returns (m: int)
    ensures Start(k) == (2 * m + 1) as real / 131072.0
  {
    m := if k > 0 then k else k - 1;
  }

  lemma OddOffMidpoint(m: int)
    ensures var x := (2 * m + 1) as real / 131072.0; x - Lrint(x) as real <= 0.5 - SMALLEST
  {
    var x := (2 * m + 1) as real / 131072.0;
    var n := 2 * m + 1 - 131072 * Lrint(x);
    assert x - Lrint(x) as real == n as real / 131072.0;
    LrintNear(x);
    assert n <= 65536;
    assert n != 65536;
  }

  /** So where an initial gap is dropped the drift stays just below one tick. */
  lemma InitialGapDriftBelowOneTick(c: Config, v: Video, p: Picture)
    requires CleanStep(c, v, p) && SkipsInitialGap(c, v, p) && HandedOver(p.ipts)
    ensures Drift(Step(c, v, Some(p)).0, p) <= 1.0 - SMALLEST
  {
    var k :| p.ipts == Start(k);
    var m := StartIsOdd(k);
    OddOffMidpoint(m);
    LrintNear(p.duration);
    InitialGapDriftExactly(c, v, p);
  }

  /** And that much is reached: a start just before a midpoint, a length on one. */
  lemma InitialGapDriftReached(c: Config)
    requires c.mode == VsCfr && c.maxFrames >= 2 && c.stopAt == None && c.dupLimit >= 2.0
    ensures var p := Picture(Start(163839), 2.5);
            && HandedOver(p.ipts) && CleanStep(c, NewVideo(), p) && SkipsInitialGap(c, NewVideo(), p)
            && Drift(Step(c, NewVideo(), Some(p)).0, p) == 1.0 - SMALLEST
  {
    var p := Picture(Start(163839), 2.5);
    var d := Counts(c, NewVideo(), Some(p));
    assert p.ipts == 2.5 - SMALLEST && Lrint(p.ipts) == 2 && Lrint(2.5) == 2;
    assert d == Decision(2, 0, 2);
    assert Emitted(c, NewVideo(), Some(0), d, 2) == ([], Normal);
    assert Emitted(c, NewVideo(), Some(0), d, 1).1 == Normal;
    assert Emitted(c, NewVideo(), Some(0), d, 0).1 == Normal;
    InitialGapDriftExactly(c, NewVideo(), p);
  }

  ghost predicate CleanRun(c: Config, ps: seq<Picture>) {
    ps != [] ==>
      && CleanRun(c, ps[..|ps| - 1])
      && CleanStep(c, Pictured(c, ps[..|ps| - 1]), ps[|ps| - 1])
  }

  function Pictured(c: Config, ps: seq<Picture>): Video {
    if ps == [] then NewVideo() else Step(c, Pictured(c, ps[..|ps| - 1]), Some(ps[|ps| - 1])).0
  }

  ghost predicate EndsInOrder(ps: seq<Picture>) {
    forall i, j :: 0 <= i < j < |ps| ==> EndOf(ps[i]) <= EndOf(ps[j])
  }

  /** Over any run of pictures at constant rate with a zero drop threshold the output is
      at most one tick late after a picture, and at most half a tick unless the picture
      had an initial gap dropped that the roundings stretch; when pictures end in order it
      is never more than 2.1 ticks early, or than it was before the first picture. */
  lemma {:induction false} DriftBound(c: Config, ps: seq<Picture>)
    requires c.mode in {Cfr, VsCfr} && c.dropThreshold == 0.0 && ps != [] && CleanRun(c, ps)
    ensures Drift(Pictured(c, ps), ps[|ps| - 1]) <= 1.0
    ensures !SkipsInitialGap(c, Pictured(c, ps[..|ps| - 1]), ps[|ps| - 1]) ==>
              Drift(Pictured(c, ps), ps[|ps| - 1]) <= 0.5
    ensures EndsInOrder(ps) ==> Drift(Pictured(c, ps), ps[|ps| - 1]) >= MinR(-2.1, EndOf(ps[0]))
  {
    var before := ps[..|ps| - 1];
    var p := ps[|ps| - 1];
    DriftAfterPicture(c, Pictured(c, before), p);
    if before == [] {
      assert Pictured(c, before) == NewVideo();
    } else {
      DriftBound(c, before);
      if EndsInOrder(ps) {
        assert EndsInOrder(before);
        assert EndOf(before[|before| - 1]) <= EndOf(p);
      }
    }
  }

  // ----- what each picture is encoded to -----

  lemma {:induction false} EmittedPicAt(c: Config, v: Video, next: Option<nat>, d: Decision, i: int, k: nat)
    requires k < |Emitted(c, v, next, d, i).0|
    ensures Some(Emitted(c, v, next, d, i).0[k].pic) == ShownAt(v, next, d, i + k)
    decreases k
  {
    if k > 0 {
      EmittedPicAt(c, v, next, d, i + 1, k - 1);
    }
  }

  lemma EmittedPics(c: Config, v: Video, next: Option<nat>, d: Decision)
    ensures var fs := Emitted(c, v, next, d, 0).0;
            forall k :: 0 <= k < |fs| ==> Some(fs[k].pic) == ShownAt(v, next, d, k)
  {
    forall k | 0 <= k < |Emitted(c, v, next, d, 0).0|
      ensures Some(Emitted(c, v, next, d, 0).0[k].pic) == ShownAt(v, next, d, k)
    {
      EmittedPicAt(c, v, next, d, 0, k);
    }
  }

  /** The frames of one clean call: as many as decided, with consecutive timestamps. */
  lemma CleanFrames(c: Config, v: Video, p: Picture)
    requires CleanStep(c, v, p)
    ensures var d := Decide(c, v, p); var fs := Added(c, v, Some(p)).0;
            && |fs| == Max(0, d.nb)
            && forall k :: 0 <= k < |fs| ==>
                 && fs[k].pts == d.sync + k
                 && fs[k].pic == if k < d.nb0 && v.lastFrame.Some? then v.lastFrame.value else v.received
  {
    var d := Counts(c, v, Some(p));
    EmittedAll(c, v, Some(v.received), d, 0);
    EmittedPts(c, v, Some(v.received), d, 0);
    EmittedPics(c, v, Some(v.received), d);
    hide Emitted;
  }

  predicate Near(pts: int, x: real) { -0.5 <= pts as real - x <= 0.5 }

  /** The frame is encoded within the time of its picture, give or take 0.6 ticks. */
  predicate OnTime(p: Picture, pts: int) { p.ipts - 0.6 <= pts as real <= EndOf(p) + 0.6 }

  /** At a variable rate a picture is encoded once, unless it ended 0.6 ticks or more before
      the next tick due. It gets the tick nearest to its start if there is a gap before it
      and it lasts past the tick due, and that tick otherwise. */
  lemma VariableRateFrame(c: Config, v: Video, p: Picture)
    requires c.mode == Vfr && CleanStep(c, v, p)
    ensures var fs, due := Added(c, v, Some(p)).0, v.syncOpts;
            && |fs| == (if EndOf(p) > due as real - 0.6 then 1 else 0)
            && (fs != [] ==>
                  && fs[0].pic == v.received && fs[0].pts >= due && OnTime(p, fs[0].pts)
                  && if p.ipts >= due as real && EndOf(p) > due as real + 0.6 then Near(fs[0].pts, p.ipts)
                     else fs[0].pts == due)
  {
    CleanFrames(c, v, p);
    LrintNear(p.ipts);
    if Delta0(v, p) >= 0.0 { LrintMonotone(v.syncOpts as real, p.ipts); }
    assert Lrint(v.syncOpts as real) == v.syncOpts;
    hide Added;
  }

  /** Passed through, every picture is encoded once, at the tick nearest to its start. */
  lemma PassedThroughFrame(c: Config, v: Video, p: Picture)
    requires c.mode in {Passthrough, DropStamps} && CleanStep(c, v, p)
    ensures var fs := Added(c, v, Some(p)).0;
            |fs| == 1 && fs[0].pic == v.received && Near(fs[0].pts, p.ipts)
  {
    CleanFrames(c, v, p);
    LrintNear(p.ipts);
    hide Added;
  }

  /** The next tick due: one after the last frame. */
  function NextDue(fs: seq<Frame>): int { if fs == [] then 0 else fs[|fs| - 1].pts + 1 }

  /** The frames of a run of pictures: each picture at most once, in order, and on time. */
  ghost predicate OneEachOnTime(ps: seq<Picture>, fs: seq<Frame>) {
    && (forall i :: 0 <= i < |fs| ==> fs[i].pic < |ps| && OnTime(ps[fs[i].pic], fs[i].pts))
    && (forall i, j :: 0 <= i < j < |fs| ==> fs[i].pic < fs[j].pic)
  }

  lemma OneMoreOnTime(ps: seq<Picture>, fs: seq<Frame>, p: Picture, gs: seq<Frame>)
    requires OneEachOnTime(ps, fs) && |gs| <= 1
    requires gs != [] ==> gs[0].pic == |ps| && OnTime(p, gs[0].pts)
    ensures OneEachOnTime(ps + [p], fs + gs)
  {
  }

  lemma StepOf(c: Config, v: Video, p: Picture)
    requires CleanStep(c, v, p)
    ensures var w, fs := Step(c, v, Some(p)).0, Added(c, v, Some(p)).0;
            && w.encoded == v.encoded + fs && w.received == v.received + 1
            && w.syncOpts == Decide(c, v, p).sync + |fs|
  {
  }

  /** Over a whole run at a variable rate every picture is encoded at most once, in order,
      and within its own time, give or take 0.6 ticks. */
  lemma {:induction false} VariableRateOnTime(c: Config, ps: seq<Picture>)
    requires c.mode == Vfr && CleanRun(c, ps)
    ensures var v := Pictured(c, ps);
            v.received == |ps| && v.syncOpts == NextDue(v.encoded) && OneEachOnTime(ps, v.encoded)
  {
    if ps != [] {
      var before, p := ps[..|ps| - 1], ps[|ps| - 1];
      VariableRateOnTime(c, before);
      assert before + [p] == ps;
      VariableRateMore(c, before, Pictured(c, before), p);
    }
  }

  lemma VariableRateMore(c: Config, ps: seq<Picture>, v: Video, p: Picture)
    requires c.mode == Vfr && CleanStep(c, v, p)
    requires v.received == |ps| && v.syncOpts == NextDue(v.encoded) && OneEachOnTime(ps, v.encoded)
    ensures var w := Step(c, v, Some(p)).0;
            w.received == |ps| + 1 && w.syncOpts == NextDue(w.encoded) && OneEachOnTime(ps + [p], w.encoded)
  {
    hide Added, Step, OneEachOnTime, Decide;
    var fs := Added(c, v, Some(p)).0;
    VariableRateFrame(c, v, p);
    CleanFrames(c, v, p);
    StepOf(c, v, p);
    OneMoreOnTime(ps, v.encoded, p, fs);
    if fs == [] {
      NotEncoded(c, v, p);
      assert v.encoded + fs == v.encoded;
    }
  }

  lemma NotEncoded(c: Config, v: Video, p: Picture)
    requires c.mode == Vfr && CleanStep(c, v, p) && Added(c, v, Some(p)).0 == []
    ensures Decide(c, v, p).sync == v.syncOpts
  {
    CleanFrames(c, v, p);
    hide Added;
  }

  ghost predicate Encodes(fs: seq<Frame>, k: nat) { exists i :: 0 <= i < |fs| && fs[i].pic == k }

  /** And it is encoded exactly when it ends less than 0.6 ticks before the tick then due. */
  lemma {:induction false} VariableRateEncodesExactly(c: Config, ps: seq<Picture>, k: nat)
    requires c.mode == Vfr && CleanRun(c, ps) && k < |ps|
    ensures Encodes(Pictured(c, ps).encoded, k)
            <==> EndOf(ps[k]) > NextDue(Pictured(c, ps[..k]).encoded) as real - 0.6
  {
    var before, p := ps[..|ps| - 1], ps[|ps| - 1];
    var v := Pictured(c, before);
    VariableRateOnTime(c, before);
    VariableRateFrame(c, v, p);
    StepOf(c, v, p);
    var fs, gs := v.encoded, Added(c, v, Some(p)).0;
    assert Pictured(c, ps).encoded == fs + gs;
    hide Added, Step, Pictured;
    EncodesMore(fs, gs, k);
    if k < |before| {
      VariableRateEncodesExactly(c, before, k);
      assert before[..k] == ps[..k];
    } else {
      assert ps[..k] == before;
      assert !Encodes(fs, k);
    }
  }

  lemma EncodesMore(fs: seq<Frame>, gs: seq<Frame>, k: nat)
    requires |gs| <= 1
    ensures Encodes(fs + gs, k) <==> Encodes(fs, k) || (gs != [] && gs[0].pic == k)
  {
    if Encodes(fs, k) {
      var i :| 0 <= i < |fs| && fs[i].pic == k;
      assert (fs + gs)[i].pic == k;
    }
    if gs != [] { assert (fs + gs)[|fs|] == gs[0]; }
  }

  /** Passed through, frame k of a run is picture k, at the tick nearest to its start. */
  lemma {:induction false} PassedThroughOnTime(c: Config, ps: seq<Picture>)
    requires c.mode in {Passthrough, DropStamps} && CleanRun(c, ps)
    ensures var v := Pictured(c, ps);
            && v.received == |v.encoded| == |ps|
            && forall k :: 0 <= k < |ps| ==> v.encoded[k].pic == k && Near(v.encoded[k].pts, ps[k].ipts)
  {
    if ps != [] {
      var before, p := ps[..|ps| - 1], ps[|ps| - 1];
      PassedThroughOnTime(c, before);
      PassedThroughFrame(c, Pictured(c, before), p);
      StepOf(c, Pictured(c, before), p);
    }
  }

  /** Constant rate and no initial gap dropped: how many frames a picture brings, and which
      of them repeat the one before. It brings none exactly when it ends before the drop
      threshold, after the first frame, or more than 1.1 ticks before the tick due; one when
      it ends around that tick; and otherwise as many as bring the output to its end. The
      frames that show it begin no more than 1.1 ticks before it; those that repeat the
      previous picture, no less. */
  lemma ConstantRateFrames(c: Config, v: Video, p: Picture)
    requires c.mode in {Cfr, VsCfr} && CleanStep(c, v, p)
    requires c.mode == VsCfr && v.frameNumber == 0 ==> p.ipts - v.syncOpts as real < 0.5
    ensures var fs, ahead := Added(c, v, Some(p)).0, EndOf(p) - v.syncOpts as real;
            && (fs == [] <==> ahead < -1.1
                              || (c.dropThreshold != 0.0 && v.frameNumber != 0 && ahead < c.dropThreshold))
            && (fs != [] && ahead <= 1.1 ==> |fs| == 1)
            && (fs != [] && ahead > 1.1 ==> Near(|fs|, ahead))
            && (fs != [] ==> fs[0].pts == v.syncOpts)
    ensures forall f <- Added(c, v, Some(p)).0 ::
              || (f.pic == v.received && (f.pts as real >= p.ipts - 1.1 || v.lastFrame.None?))
              || (Some(f.pic) == v.lastFrame && f.pts as real <= p.ipts - 1.1)
  {
    CleanFrames(c, v, p);
    LrintNear(EndOf(p) - v.syncOpts as real);
    LrintNear(Delta0(v, p) - 0.6);
    hide Added;
    FramesSplit(c, v, p, Added(c, v, Some(p)).0);
  }

  lemma FramesSplit(c: Config, v: Video, p: Picture, fs: seq<Frame>)
    requires c.mode in {Cfr, VsCfr} && !SkipsInitialGap(c, v, p) && p.duration >= 0.0
    requires |fs| == Max(0, Decide(c, v, p).nb)
    requires var d := Decide(c, v, p);
             forall k :: 0 <= k < |fs| ==>
               && fs[k].pts == d.sync + k
               && fs[k].pic == if k < d.nb0 && v.lastFrame.Some? then v.lastFrame.value else v.received
    ensures forall f <- fs ::
              || (f.pic == v.received && (f.pts as real >= p.ipts - 1.1 || v.lastFrame.None?))
              || (Some(f.pic) == v.lastFrame && f.pts as real <= p.ipts - 1.1)
  {
    LrintNear(Delta0(v, p) - 0.6);
    var d := Decide(c, v, p);
    assert d.sync == v.syncOpts;
    var begin := d.sync + Max(0, d.nb0);
    assert d.nb > 0 ==> begin as real >= p.ipts - 1.1;
    assert d.nb0 > 0 ==> (begin - 1) as real <= p.ipts - 1.1;
    hide Decide;
    forall f | f in fs
      ensures || (f.pic == v.received && (f.pts as real >= p.ipts - 1.1 || v.lastFrame.None?))
              || (Some(f.pic) == v.lastFrame && f.pts as real <= p.ipts - 1.1)
    {
      var k :| 0 <= k < |fs| && fs[k] == f;
      assert f.pts == d.sync + k;
    }
  }

  /** VSCFR drops a gap of at least half a tick before the first frame: the output begins at
      the tick nearest to the picture's start, with as many frames as its length, and none is
      a repetition. */
  lemma InitialGapFrames(c: Config, v: Video, p: Picture)
    requires c.mode == VsCfr && v.frameNumber == 0 && p.ipts - v.syncOpts as real >= 0.5 && CleanStep(c, v, p)
    ensures var fs := Added(c, v, Some(p)).0;
            && fs != [] && Near(fs[0].pts, p.ipts)
            && (if p.duration > 1.1 then Near(|fs|, p.duration) else |fs| == 1)
            && forall f <- fs :: f.pic == v.received
  {
    CleanFrames(c, v, p);
    LrintNear(p.ipts);
    LrintNear(p.duration);
    hide Added;
  }

  // ----- limits -----

  /** No run encodes more frames than the limit, or a frame at or past the stop. */
  lemma {:induction false} LimitsHold(c: Config, inputs: seq<Option<Picture>>)
    ensures var v := Run(c, inputs);
            && 0 <= v.frameNumber <= Max(0, c.maxFrames)
            && (c.stopAt.Some? ==> forall f <- v.encoded :: f.pts < c.stopAt.value)
  {
    if inputs != [] {
      var v, next := Run(c, inputs[..|inputs| - 1]), inputs[|inputs| - 1];
      LimitsHold(c, inputs[..|inputs| - 1]);
      EmittedPts(c, v, Id(v, next), Counts(c, v, next), 0);
      EmittedBeforeStop(c, v, Id(v, next), Counts(c, v, next), 0);
      hide Counts, Emitted;
      StepWithinLimits(c, v, next);
    }
  }

  /** And the limit only cuts: with a lower one a call encodes the same frames, as many as
      there is room for. */
  lemma LimitOnlyCuts(c: Config, v: Video, next: Option<Picture>, higher: int)
    requires next.Some? ==> next.value.duration >= 0.0
    requires higher >= c.maxFrames && Added(c.(maxFrames := higher), v, next).1 == Normal
    ensures var all, room := Added(c.(maxFrames := higher), v, next).0, Max(0, c.maxFrames - v.frameNumber);
            Added(c, v, next) == (all[..Min(|all|, room)], Normal)
  {
    var u := c.(maxFrames := higher);
    var all, d := Counts(u, v, next), Counts(c, v, next);
    assert d == Decision(Min(all.nb, c.maxFrames - v.frameNumber), Min(all.nb0, d.nb), all.sync);
    CountsOrdered(c, v, next);
    CountsOrdered(u, v, next);
    hide Counts;
    EmittedCut(c, u, v, Id(v, next), d, all, 0);
  }

  lemma {:induction false} EmittedCut(c: Config, u: Config, v: Video, next: Option<nat>,
                                      d: Decision, all: Decision, i: nat)
    requires c.stopAt == u.stopAt && d.sync == all.sync && d.nb <= all.nb && d.nb0 == Min(all.nb0, d.nb)
    requires Emitted(u, v, next, all, i).1 == Normal
    ensures var fs := Emitted(u, v, next, all, i).0;
            |fs| == Max(0, all.nb - i) && Emitted(c, v, next, d, i) == (fs[..Max(0, d.nb - i)], Normal)
    decreases all.nb - i
  {
    if i < all.nb {
      EmittedCut(c, u, v, next, d, all, i + 1);
      var fs, rest := Emitted(u, v, next, all, i).0, Emitted(u, v, next, all, i + 1).0;
      assert fs == fs[..1] + rest;
      if i < d.nb { assert fs[..d.nb - i] == fs[..1] + rest[..d.nb - (i + 1)]; }
    }
  }

  lemma StepWithinLimits(c: Config, v: Video, next: Option<Picture>)
    requires 0 <= v.frameNumber <= Max(0, c.maxFrames)
    ensures |Added(c, v, next).0| <= Max(0, c.maxFrames - v.frameNumber)
    ensures Step(c, v, next).0.frameNumber == v.frameNumber + |Added(c, v, next).0|
  {
    EmittedPts(c, v, Id(v, next), Counts(c, v, next), 0);
  }

  lemma {:induction false} EmittedBeforeStop(c: Config, v: Video, next: Option<nat>, d: Decision, i: int)
    ensures c.stopAt.Some? ==> forall f <- Emitted(c, v, next, d, i).0 :: f.pts < c.stopAt.value
    decreases d.nb - i
  {
    if i < d.nb {
      EmittedBeforeStop(c, v, next, d, i + 1);
    }
  }

  /** A call ends early for three reasons only: a burst longer than the limit, of which no
      frame is encoded; the stop being reached; or nothing to show, there being neither a
      picture nor a previous one. */
  lemma EndsEarlyExactly(c: Config, v: Video, next: Option<Picture>)
    requires next.Some? ==> next.value.duration >= 0.0
    ensures var (fs, end) := Added(c, v, next); var nb := Counts(c, v, next).nb;
            && (end == Normal ==> |fs| == Max(0, nb))
            && (end == Skipped ==> fs == [] && nb as real > c.dupLimit && nb >= 1)
            && (end == TimeUp ==> c.stopAt == Some(Counts(c, v, next).sync + |fs|)
                                  || (fs == [] && c.stopAt.Some? && c.stopAt.value <= Counts(c, v, next).sync))
            && (end == NoPicture <==> end != Skipped && next.None? && v.lastFrame.None? && nb > 0)
            && (|fs| > 2 ==> |fs| as real <= c.dupLimit)
  {
    CountsOrdered(c, v, next);
    EmittedEnd(c, v, Id(v, next), Counts(c, v, next), 0);
    EmittedPts(c, v, Id(v, next), Counts(c, v, next), 0);
    hide Counts, Emitted;
  }

  lemma {:induction false} EmittedEnd(c: Config, v: Video, next: Option<nat>, d: Decision, i: int)
    requires 0 <= i && (d.nb0 <= d.nb) && (next.None? ==> d.nb == d.nb0)
    ensures var (fs, end) := Emitted(c, v, next, d, i);
            && (end == Normal ==> |fs| == Max(0, d.nb - i))
            && end != Skipped
            && (end == TimeUp ==> c.stopAt.Some? && (c.stopAt.value == d.sync + i + |fs|
                                                     || (fs == [] && c.stopAt.value <= d.sync + i)))
            && (end == NoPicture <==> next.None? && v.lastFrame.None? && d.nb > i)
    decreases d.nb - i
  {
    if i < d.nb {
      EmittedEnd(c, v, next, d, i + 1);
    }
  }

  // ----- flushes -----

  /** What a flush repeats: of three numbers the one in the middle. */
  lemma MedianIsMiddle(a: int, b: int, c: int)
    ensures var m := Median(a, b, c);
            && m in {a, b, c}
            && (m <= a || m <= b) && (m <= a || m <= c) && (m <= b || m <= c)
            && (m >= a || m >= b) && (m >= a || m >= c) && (m >= b || m >= c)
  {
  }

  /** How often each call of a run repeated the previous picture. */
  function Repeats(c: Config, inputs: seq<Option<Picture>>): seq<int> {
    if inputs == [] then []
    else
      var before := inputs[..|inputs| - 1];
      Repeats(c, before) + [Counts(c, Run(c, before), inputs[|inputs| - 1]).nb0]
  }

  function Ago(xs: seq<int>, k: nat): int { if k < |xs| then xs[|xs| - 1 - k] else 0 }

  lemma {:induction false} LastThreeRepeats(c: Config, inputs: seq<Option<Picture>>)
    ensures var xs := Repeats(c, inputs);
            Run(c, inputs).lastNb0 == (Ago(xs, 0), Ago(xs, 1), Ago(xs, 2))
  {
    if inputs != [] {
      LastThreeRepeats(c, inputs[..|inputs| - 1]);
      hide Counts, Added;
    }
  }

  /** A flush shows the last picture again, as often as the middle one of the last three
      calls did, within the frame limit. */
  lemma FlushRepeats(c: Config, inputs: seq<Option<Picture>>)
    requires var v := Run(c, inputs); v.lastFrame.Some? && Added(c, v, None).1 == Normal
    ensures var v, xs := Run(c, inputs), Repeats(c, inputs);
            var fs := Added(c, v, None).0;
            && |fs| == Max(0, Min(Median(Ago(xs, 0), Ago(xs, 1), Ago(xs, 2)), c.maxFrames - v.frameNumber))
            && forall f <- fs :: Some(f.pic) == v.lastFrame
  {
    hide Run, Repeats, Median, Added;
    LastThreeRepeats(c, inputs);
    FlushFrames(c, Run(c, inputs));
  }

  lemma FlushFrames(c: Config, v: Video)
    requires v.lastFrame.Some? && Added(c, v, None).1 == Normal
    ensures var fs, m := Added(c, v, None).0, Median(v.lastNb0.0, v.lastNb0.1, v.lastNb0.2);
            |fs| == Max(0, Min(m, c.maxFrames - v.frameNumber)) && forall f <- fs :: Some(f.pic) == v.lastFrame
  {
    hide Median;
    EmittedAll(c, v, None, Counts(c, v, None), 0);
    EmittedPics(c, v, None, Counts(c, v, None));
  }

  // ----- timestamps -----

  /** Timestamps strictly grow and stay below the next one to be given out. */
  ghost predicate Growing(fs: seq<Frame>, next: int) {
    && (forall i, j :: 0 <= i < j < |fs| ==> fs[i].pts < fs[j].pts)
    && (forall i :: 0 <= i < |fs| ==> fs[i].pts < next)
  }

  /** They are consecutive, up to the next one to be given out. */
  ghost predicate Consecutive(fs: seq<Frame>, next: int) {
    forall i :: 0 <= i < |fs| ==> fs[i].pts == next - |fs| + i
  }

  ghost predicate PtsInv(c: Config, v: Video) {
    && v.frameNumber == |v.encoded|
    && Growing(v.encoded, v.syncOpts)
    && (c.mode != Vfr ==> Consecutive(v.encoded, v.syncOpts))
  }

  lemma GrowingAppend(fs: seq<Frame>, next: int, gs: seq<Frame>, sync: int)
    requires Growing(fs, next) && sync >= next
    requires forall k :: 0 <= k < |gs| ==> gs[k].pts == sync + k
    ensures Growing(fs + gs, sync + |gs|)
  {
  }

  lemma ConsecutiveAppend(fs: seq<Frame>, next: int, gs: seq<Frame>, sync: int)
    requires Consecutive(fs, next) && (fs != [] ==> sync == next)
    requires forall k :: 0 <= k < |gs| ==> gs[k].pts == sync + k
    ensures Consecutive(fs + gs, sync + |gs|)
  {
  }

  lemma SyncNeverFalls(c: Config, v: Video, next: Option<Picture>)
    requires c.mode in {Cfr, VsCfr, Vfr}
    requires next.Some? ==> next.value.duration >= 0.0
    ensures Counts(c, v, next).sync >= v.syncOpts
    ensures c.mode != Vfr && v.frameNumber != 0 ==> Counts(c, v, next).sync == v.syncOpts
  {
    if next.Some? {
      var p := next.value;
      if Delta0(v, p) >= 0.0 {
        LrintMonotone(v.syncOpts as real, p.ipts);
      }
      assert Lrint(v.syncOpts as real) == v.syncOpts;
    }
  }

  /** Except when timestamps are passed through, encoded pictures have strictly growing
      timestamps over any run, consecutive ones at constant rate. */
  lemma {:induction false} PtsGrow(c: Config, inputs: seq<Option<Picture>>)
    requires c.mode in {Cfr, VsCfr, Vfr}
    requires forall x <- inputs :: x.Some? ==> x.value.duration >= 0.0
    ensures PtsInv(c, Run(c, inputs))
  {
    if inputs != [] {
      var before := inputs[..|inputs| - 1];
      var next := inputs[|inputs| - 1];
      assert forall x <- before :: x in inputs;
      PtsGrow(c, before);
      StepKeepsPts(c, Run(c, before), next);
    }
  }

  lemma StepKeepsPts(c: Config, v: Video, next: Option<Picture>)
    requires c.mode in {Cfr, VsCfr, Vfr} && PtsInv(c, v)
    requires next.Some? ==> next.value.duration >= 0.0
    ensures PtsInv(c, Step(c, v, next).0)
  {
    SyncNeverFalls(c, v, next);
    AddedPts(c, v, next);
    hide Counts, Growing, Consecutive, Added;
    GrowingAppend(v.encoded, v.syncOpts, Added(c, v, next).0, Counts(c, v, next).sync);
    if c.mode != Vfr {
      ConsecutiveAppend(v.encoded, v.syncOpts, Added(c, v, next).0, Counts(c, v, next).sync);
    }
  }

  lemma AddedPts(c: Config, v: Video, next: Option<Picture>)
    ensures var fs := Added(c, v, next).0;
            forall k :: 0 <= k < |fs| ==> fs[k].pts == Counts(c, v, next).sync + k
  {
    EmittedPts(c, v, Id(v, next), Counts(c, v, next), 0);
  }

  // ----- conservation -----

  function Pictures(fs: seq<Frame>): set<nat> { set f <- fs :: f.pic }

  /** Every picture received was encoded, counted as dropped, or is the last one and
      still pending; every frame encoded is a first showing or counted as a duplicate. */
  ghost predicate Conserved(v: Video) {
    && v.received == |Pictures(v.encoded)| + v.framesDropped + (if v.lastDropped then 1 else 0)
    && |v.encoded| == |Pictures(v.encoded)| + v.framesDuplicated
  }

  ghost predicate PictureInv(v: Video) {
    && (forall q <- Pictures(v.encoded) :: q < v.received)
    && (v.lastFrame.Some? ==>
          v.lastFrame.value < v.received && (v.lastDropped <==> v.lastFrame.value !in Pictures(v.encoded)))
    && (v.lastFrame.None? ==> !v.lastDropped)
  }

  /** The calls whose counters come out right: an oversized burst is only skipped for a
      picture, with no earlier picture left to be dropped; a negative count (from a
      negative frame limit) leaves no earlier picture pending; and otherwise encodings
      are never all booked on a previous picture that is not there. */
  predicate BooksRight(c: Config, v: Video, next: Option<Picture>) {
    var d := Counts(c, v, next);
    if TooMany(c, v, d) then next.Some? && !(v.lastDropped && d.nb0 == 0)
    else if d.nb < 0 then !v.lastDropped
    else !(v.lastFrame.None? && d.nb0 > 0 && d.nb == d.nb0)
  }

  lemma {:induction false} EmittedPictures(c: Config, v: Video, next: Option<nat>, d: Decision, i: int)
    requires c.stopAt == None && 0 <= i && d.nb0 <= d.nb
    requires next.Some? || v.lastFrame.Some? || d.nb <= i
    requires next.None? ==> d.nb == d.nb0
    ensures var (fs, end) := Emitted(c, v, next, d, i);
            && end == Normal
            && Pictures(fs) ==
               (if v.lastFrame.Some? && i < d.nb0 then {v.lastFrame.value} else {})
               + (if next.Some? && i < d.nb && (d.nb > d.nb0 || v.lastFrame.None?) then {next.value} else {})
    decreases d.nb - i
  {
    if i < d.nb {
      EmittedPictures(c, v, next, d, i + 1);
      var f := Frame(ShownAt(v, next, d, i).value, d.sync + i);
      PicturesCons(f, Emitted(c, v, next, d, i + 1).0);
    }
  }

  lemma PicturesCons(f: Frame, fs: seq<Frame>)
    ensures Pictures([f] + fs) == {f.pic} + Pictures(fs)
  {
    assert forall g :: g in [f] + fs <==> g == f || g in fs;
  }

  lemma PicturesConcat(xs: seq<Frame>, ys: seq<Frame>)
    ensures Pictures(xs + ys) == Pictures(xs) + Pictures(ys)
  {
    assert forall g :: g in xs + ys <==> g in xs || g in ys;
  }

  /** Unless both counts are the same negative number they are in order. */
  lemma CountsOrdered(c: Config, v: Video, next: Option<Picture>)
    requires next.Some? ==> next.value.duration >= 0.0
    ensures var d := Counts(c, v, next);
            && (0 <= d.nb0 <= d.nb || d.nb0 == d.nb < 0)
            && (next.None? ==> d.nb == d.nb0)
  {
    if next.Some? {
      var p := next.value;
      LrintNear(Delta0(v, p) + p.duration);
      LrintNear(Delta0(v, p) - 0.6);
      LrintNear(p.duration);
      LrintMonotone(Delta0(v, p) - 0.6, Delta0(v, p) + p.duration);
    }
  }

  lemma SizeAdd(s: set<nat>, x: nat)
    ensures |s + {x}| == |s| + if x in s then 0 else 1
  {
    if x in s { assert s + {x} == s; }
  }

  // How many pictures the frames of one call add to those encoded before.
  lemma NewPictures(v: Video, id: nat, fs: seq<Frame>, showsLast: bool, showsNext: bool)
    requires PictureInv(v) && id == v.received && (showsLast ==> v.lastFrame.Some?)
    requires Pictures(fs) == If(showsLast, if showsLast then v.lastFrame.value else 0) + If(showsNext, id)
    ensures var all := Pictures(v.encoded + fs);
            && |all| == |Pictures(v.encoded)| + (if showsLast && v.lastDropped then 1 else 0)
                        + (if showsNext then 1 else 0)
            && (forall q <- all :: q <= id)
            && (id in all <==> showsNext)
            && (v.lastFrame.Some? ==> (v.lastFrame.value in all <==> showsLast || !v.lastDropped))
  {
    PicturesConcat(v.encoded, fs);
    hide Pictures;
    SetGrows(Pictures(v.encoded), showsLast, if showsLast then v.lastFrame.value else 0, showsNext, id);
  }

  function If(shows: bool, x: nat): set<nat> { if shows then {x} else {} }

  lemma AddIf(s: set<nat>, shows: bool, x: nat)
    ensures |s + If(shows, x)| == |s| + if shows && x !in s then 1 else 0
  {
    if shows { SizeAdd(s, x); } else { assert s + {} == s; }
  }

  lemma SetGrows(s: set<nat>, showsLast: bool, last: nat, showsNext: bool, id: nat)
    requires id !in s && (showsLast ==> last != id)
    ensures |s + (If(showsLast, last) + If(showsNext, id))|
            == |s| + (if showsLast && last !in s then 1 else 0) + (if showsNext then 1 else 0)
  {
    assert s + (If(showsLast, last) + If(showsNext, id)) == s + If(showsLast, last) + If(showsNext, id);
    AddIf(s, showsLast, last);
    AddIf(s + If(showsLast, last), showsNext, id);
  }

  /** The books stay right over a call exactly when BooksRight says so. */
  lemma ConservedExactly(c: Config, v: Video, next: Option<Picture>)
    requires PictureInv(v) && Conserved(v) && c.stopAt == None
    requires next.Some? ==> next.value.duration >= 0.0
    ensures Conserved(Step(c, v, next).0) <==> BooksRight(c, v, next)
    ensures BooksRight(c, v, next) ==> PictureInv(Step(c, v, next).0)
  {
    var d := Counts(c, v, next);
    CountsOrdered(c, v, next);
    var id := Id(v, next);
    if TooMany(c, v, d) {
      assert v.encoded + [] == v.encoded;
    } else {
      var (fs, end) := Emitted(c, v, id, d, 0);
      if next.None? && v.lastFrame.None? && d.nb > 0 {
        assert fs == [];
        assert v.encoded + fs == v.encoded;
      } else {
        EmittedPictures(c, v, id, d, 0);
        EmittedAll(c, v, id, d, 0);
        var showsLast := v.lastFrame.Some? && 0 < d.nb0;
        var showsNext := next.Some? && 0 < d.nb && (d.nb > d.nb0 || v.lastFrame.None?);
        NewPictures(v, v.received, fs, showsLast, showsNext);
        hide Counts, Emitted, Pictures, TooMany;
      }
    }
  }

  ghost predicate AllBooksRight(c: Config, inputs: seq<Option<Picture>>) {
    inputs != [] ==>
      && AllBooksRight(c, inputs[..|inputs| - 1])
      && BooksRight(c, Run(c, inputs[..|inputs| - 1]), inputs[|inputs| - 1])
  }

  /** Over a whole run of such calls pictures and frames are conserved. */
  lemma {:induction false} PicturesConserved(c: Config, inputs: seq<Option<Picture>>)
    requires c.stopAt == None && AllBooksRight(c, inputs)
    requires forall x <- inputs :: x.Some? ==> x.value.duration >= 0.0
    ensures Conserved(Run(c, inputs)) && PictureInv(Run(c, inputs))
  {
    if inputs == [] {
      assert Pictures([]) == {};
    } else {
      var before := inputs[..|inputs| - 1];
      assert forall x <- before :: x in inputs;
      PicturesConserved(c, before);
      ConservedExactly(c, Run(c, before), inputs[|inputs| - 1]);
    }
  }

  /** A first picture of unknown, zero, length that starts late is booked as pending although it is
      encoded: two encodings, both taken for repeats of a previous picture. */
  lemma LateFirstPictureIsMisbooked(c: Config)
    requires c.mode == Cfr && c.dropThreshold == 0.0 && c.maxFrames >= 2 && c.dupLimit >= 2.0
    requires c.stopAt == None
    ensures HandedOver(Start(147456))
    ensures Conserved(NewVideo()) && !Conserved(Step(c, NewVideo(), Some(Picture(Start(147456), 0.0))).0)
    ensures !BooksRight(c, NewVideo(), Some(Picture(Start(147456), 0.0)))
  {
    assert Start(147456) == 2.25 + SMALLEST;
    assert Lrint(2.25 + SMALLEST) == 2 && Lrint(1.65 + SMALLEST) == 2;
    assert Pictures([]) == {};
    ConservedExactly(c, NewVideo(), Some(Picture(Start(147456), 0.0)));
  }

  // ----- the call as the program makes it -----

  class VideoOut {
    const c: Config
    var syncOpts: int
    var frameNumber: int
    var lastNb0: (int, int, int)
    var lastDropped: bool
    var lastFrame: Option<nat>
    var framesDropped: int
    var framesDuplicated: int
    var encoded: seq<Frame>
    var received: nat

    ghost function Value(): Video
      reads this
    {
      Video(syncOpts, frameNumber, lastNb0, lastDropped, lastFrame, encoded,
            framesDropped, framesDuplicated, received)
    }

    constructor (c: Config)
      ensures this.c == c && Value() == NewVideo()
    {
      this.c := c;
      syncOpts, frameNumber, lastNb0, lastDropped, lastFrame := 0, 0, (0, 0, 0), false, None;
      framesDropped, framesDuplicated, encoded, received := 0, 0, [], 0;
    }

    /** The first half of do_video_out: how often to encode which picture. */
    method DecideRate(next: Option<Picture>) returns (nb: int, nb0: int)
      modifies `syncOpts
      ensures Decision(nb, nb0, syncOpts) == Counts(c, old(Value()), next)
    {
      if next.None? {
        nb := Median(lastNb0.0, lastNb0.1, lastNb0.2);
        nb0 := nb;
      } else {
        var syncIpts, duration := next.value.ipts, next.value.duration;
        var delta0 := syncIpts - syncOpts as real;
        var delta := delta0 + duration;
        nb0, nb := 0, 1;
        if delta0 < 0.0 && delta > 0.0 && c.mode != Passthrough && c.mode != DropStamps {
          syncIpts := syncOpts as real;
          duration := duration + delta0;
          delta0 := 0.0;
        }
        if c.mode == VsCfr || c.mode == Cfr {
          if c.mode == VsCfr && frameNumber == 0 && delta0 >= 0.5 {
            delta := duration;
            delta0 := 0.0;
            syncOpts := Lrint(syncIpts);
          }
          if c.dropThreshold != 0.0 && delta < c.dropThreshold && frameNumber != 0 {
            nb := 0;
          } else if delta < -1.1 {
            nb := 0;
          } else if delta > 1.1 {
            nb := Lrint(delta);
            if delta0 > 1.1 {
              nb0 := Lrint(delta0 - 0.6);
            }
          }
        } else if c.mode == Vfr {
          if delta <= -0.6 {
            nb := 0;
          } else if delta > 0.6 {
            syncOpts := Lrint(syncIpts);
          }
        } else {
          syncOpts := Lrint(syncIpts);
        }
      }
      nb := Min(nb, c.maxFrames - frameNumber);
      nb0 := Min(nb0, nb);
    }

    /** The encoding loop: frames numbered 0 to `nb` of this call. */
    method EncodeLoop(id: Option<nat>, nb: int, nb0: int) returns (end: End)
      modifies `encoded, `syncOpts, `frameNumber
      ensures var (frames, fin) := Emitted(c, old(Value()), id, Decision(nb, nb0, old(syncOpts)), 0);
              && end == fin
              && encoded == old(encoded) + frames
              && syncOpts == old(syncOpts) + |frames|
              && frameNumber == old(frameNumber) + |frames|
    {
      ghost var v, d := Value(), Decision(nb, nb0, syncOpts);
      ghost var done: seq<Frame> := [];
      hide Emitted;
      EmittedFromStart(c, v, id, d);
      var i := 0;
      while i < nb
        invariant 0 <= i <= Max(0, nb) && |done| == i
        invariant syncOpts == d.sync + i && frameNumber == v.frameNumber + i
        invariant encoded == v.encoded + done
        invariant SoFar(c, v, id, d, i, done)
      {
        EmittedGoesOn(c, v, id, d, i, done);
        var inPicture := if i < nb0 && lastFrame.Some? then lastFrame else id;
        if inPicture.None? {
          return NoPicture;
        }
        if c.stopAt.Some? && syncOpts >= c.stopAt.value {
          return TimeUp;
        }
        encoded := encoded + [Frame(inPicture.value, syncOpts)];
        done := done + [Frame(inPicture.value, syncOpts)];
        syncOpts := syncOpts + 1;
        frameNumber := frameNumber + 1;
        i := i + 1;
      }
      EmittedGoesOn(c, v, id, d, i, done);
      return Normal;
    }

    /** The counters of a call; `skip` when the burst is too long. */
    method Book(next: Option<Picture>, nb: int, nb0: int) returns (skip: bool)
      modifies `received, `lastNb0, `framesDropped, `framesDuplicated, `lastDropped
      ensures Value() == Booked(c, old(Value()), next, Decision(nb, nb0, old(syncOpts)))
      ensures skip <==> TooMany(c, old(Value()), Decision(nb, nb0, old(syncOpts)))
    {
      if next.Some? {
        received := received + 1;
      }
      lastNb0 := (nb0, lastNb0.0, lastNb0.1);
      if nb0 == 0 && lastDropped {
        framesDropped := framesDropped + 1;
      }
      var first := (if nb0 != 0 && lastDropped then 1 else 0) + if nb > nb0 then 1 else 0;
      if nb > first {
        if nb as real > c.dupLimit {
          framesDropped := framesDropped + 1;
          return true;
        }
        framesDuplicated := framesDuplicated + nb - first;
      }
      lastDropped := nb == nb0 && next.Some?;
      return false;
    }

    method DoVideoOut(next: Option<Picture>) returns (end: End)
      modifies this
      ensures (Value(), end) == Step(c, old(Value()), next)
    {
      ghost var v, d := Value(), Counts(c, Value(), next);
      var id := if next.Some? then Some(received) else None;
      var nb, nb0 := DecideRate(next);
      assert d == Decision(nb, nb0, syncOpts) && v.(syncOpts := syncOpts) == Value();
      BookedSame(c, v, Value(), next, d);
      hide Counts, Emitted, Decide, Booked, TooMany;
      var skip := Book(next, nb, nb0);
      if skip {
        assert v.encoded + [] == v.encoded;
        return Skipped;
      }
      EmittedSame(c, v, Value(), id, d, 0);
      end := EncodeLoop(id, nb, nb0);
      if end == Normal {
        lastFrame := id;
      }
    }
  }

  // After `i` rounds of the encoding loop `done` has been encoded.
  ghost predicate SoFar(c: Config, v: Video, next: Option<nat>, d: Decision, i: int, done: seq<Frame>) {
    && Emitted(c, v, next, d, 0).0 == done + Emitted(c, v, next, d, i).0
    && Emitted(c, v, next, d, 0).1 == Emitted(c, v, next, d, i).1
  }

  lemma EmittedFromStart(c: Config, v: Video, next: Option<nat>, d: Decision)
    ensures SoFar(c, v, next, d, 0, [])
  {
  }

  lemma EmittedGoesOn(c: Config, v: Video, next: Option<nat>, d: Decision, i: int, done: seq<Frame>)
    requires SoFar(c, v, next, d, i, done)
    ensures
      var shown := ShownAt(v, next, d, i);
      if i >= d.nb then Emitted(c, v, next, d, 0) == (done, Normal)
      else if shown.None? then Emitted(c, v, next, d, 0) == (done, NoPicture)
      else if c.stopAt.Some? && d.sync + i >= c.stopAt.value then Emitted(c, v, next, d, 0) == (done, TimeUp)
      else SoFar(c, v, next, d, i + 1, done + [Frame(shown.value, d.sync + i)])
  {
    var rest := Emitted(c, v, next, d, i).0;
    if rest == [] {
      assert done + rest == done;
    } else {
      assert done + rest == (done + [rest[0]]) + rest[1..];
    }
  }

  // The counters of a call do not depend on the timestamp it started from.
  lemma BookedSame(c: Config, v: Video, w: Video, next: Option<Picture>, d: Decision)
    requires w == v.(syncOpts := w.syncOpts)
    ensures Booked(c, w, next, d) == Booked(c, v, next, d) && (TooMany(c, w, d) <==> TooMany(c, v, d))
    ensures Booked(c, v, next, d).lastFrame == v.lastFrame
  {
  }

  // What a call encodes depends on the stream only through the last picture.
  lemma {:induction false} EmittedSame(c: Config, v: Video, w: Video, next: Option<nat>, d: Decision, i: int)
    requires v.lastFrame == w.lastFrame
    ensures Emitted(c, v, next, d, i) == Emitted(c, w, next, d, i)
    decreases d.nb - i
  {
    if i < d.nb {
      EmittedSame(c, v, w, next, d, i + 1);
    }
  }
}
