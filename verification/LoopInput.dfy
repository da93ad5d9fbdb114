/** Looping an input file: after the last packet the file is rewound, and the length of
    what was read is added to the timestamps of the next pass. Streams share one time
    base, in which the file's duration is kept too. */
module LoopInput {
  import opened Common

  // What a stream adds after its largest pts: the length of its last frame. Audio that
  // has decoded samples takes precedence over every other stream.
  datatype StreamInfo = StreamInfo(isAudio: bool, hasSamples: bool, lastFrame: int)

  datatype StreamTimes = StreamTimes(maxPts: int, minPts: int)

  datatype FileState = FileState(duration: int, times: seq<StreamTimes>)

  const INT64_MIN: int := -0x8000_0000_0000_0000
  const INT64_MAX: int := 0x7fff_ffff_ffff_ffff

  // One packet with a pts, as the demuxer gives it.
  datatype Packet = Packet(stream: nat, pts: int)

  function Fresh(n: nat): FileState {
    FileState(0, seq(n, _ => StreamTimes(INT64_MIN, INT64_MAX)))
  }

  // ----- one packet and one rewind -----

  function OnPacket(f: FileState, p: Packet): FileState
    requires p.stream < |f.times|
  {
    var t := f.times[p.stream];
    var pts := p.pts + f.duration;
    f.(times := f.times[p.stream := StreamTimes(Max(pts, t.maxPts), Min(pts, t.minPts))])
  }

  predicate HasAudio(infos: seq<StreamInfo>) {
    exists i :: 0 <= i < |infos| && infos[i].isAudio && infos[i].hasSamples
  }

  predicate Contributes(infos: seq<StreamInfo>, i: nat)
    requires i < |infos|
  {
    HasAudio(infos) ==> infos[i].isAudio && infos[i].hasSamples
  }

  function StreamLength(info: StreamInfo, t: StreamTimes): int { info.lastFrame + t.maxPts - t.minPts }

  // duration_max: a zero duration is always replaced.
  function DurationMax(tmp: int, duration: int): int {
    if duration == 0 || duration < tmp then tmp else duration
  }

  /** The new duration after looking at the first `k` streams. */
  function Extended(infos: seq<StreamInfo>, f: FileState, k: nat): int
    requires k <= |infos| == |f.times|
  {
    if k == 0 then f.duration
    else
      var before := Extended(infos, f, k - 1);
      if Contributes(infos, k - 1) then DurationMax(StreamLength(infos[k - 1], f.times[k - 1]), before)
      else before
  }

  function Rewound(infos: seq<StreamInfo>, f: FileState): FileState
    requires |infos| == |f.times|
  {
    f.(duration := Extended(infos, f, |infos|))
  }

  // ----- whole passes -----

  predicate InRange(n: nat, pass: seq<Packet>) {
    forall i :: 0 <= i < |pass| ==> pass[i].stream < n && INT64_MIN < pass[i].pts < INT64_MAX
  }

  function ReadAll(f: FileState, pass: seq<Packet>): (g: FileState)
    requires InRange(|f.times|, pass)
    ensures |g.times| == |f.times| && g.duration == f.duration
  {
    if pass == [] then f
    else OnPacket(ReadAll(f, pass[..|pass| - 1]), pass[|pass| - 1])
  }

  /** The file after `n` complete passes over the same packets, each with its rewind. */
  function Passes(infos: seq<StreamInfo>, pass: seq<Packet>, n: nat): (f: FileState)
    requires InRange(|infos|, pass)
    ensures |f.times| == |infos|
  {
    if n == 0 then Fresh(|infos|)
    else Rewound(infos, ReadAll(Passes(infos, pass, n - 1), pass))
  }

  function PtsOf(pass: seq<Packet>, i: nat): set<int> {
    set p <- pass | p.stream == i :: p.pts
  }

  /** `lo` and `hi` are the smallest and the largest pts of stream `i` in a pass. */
  ghost predicate Extremes(pass: seq<Packet>, i: nat, lo: int, hi: int) {
    && lo in PtsOf(pass, i) && hi in PtsOf(pass, i)
    && forall x <- PtsOf(pass, i) :: lo <= x <= hi
  }

  /** `spans[i]` holds the extremes of each stream that has packets. */
  ghost predicate Spans(infos: seq<StreamInfo>, pass: seq<Packet>, spans: seq<StreamTimes>) {
    && InRange(|infos|, pass)
    && |spans| == |infos|
    && forall i :: 0 <= i < |spans| && PtsOf(pass, i) != {} ==>
         Extremes(pass, i, spans[i].minPts, spans[i].maxPts)
  }

  /** Stream `i` counts towards the length of the loop. A stream without packets, being
      discarded or empty, may contribute but has nothing to count. */
  predicate Counts(infos: seq<StreamInfo>, pass: seq<Packet>, i: nat)
    requires i < |infos|
  {
    Contributes(infos, i) && PtsOf(pass, i) != {}
  }

  function Longest(infos: seq<StreamInfo>, pass: seq<Packet>, spans: seq<StreamTimes>, k: nat): int
    requires k <= |infos| == |spans|
  {
    if k == 0 then 0
    else
      var before := Longest(infos, pass, spans, k - 1);
      if Counts(infos, pass, k - 1) then Max(before, StreamLength(infos[k - 1], spans[k - 1])) else before
  }

  /** L: the longest contributing stream, from its first pts to the end of its last frame. */
  function LoopLength(infos: seq<StreamInfo>, pass: seq<Packet>, spans: seq<StreamTimes>): int
    requires |infos| == |spans|
  {
    Longest(infos, pass, spans, |infos|)
  }

  /** The last contributing stream among the first `k`, if there is one, has packets. */
  predicate LastCounts(infos: seq<StreamInfo>, pass: seq<Packet>, k: nat)
    requires k <= |infos|
  {
    k > 0 ==> if Contributes(infos, k - 1) then PtsOf(pass, k - 1) != {} else LastCounts(infos, pass, k - 1)
  }

  /** Last frames have 64-bit lengths. */
  ghost predicate Bounded(infos: seq<StreamInfo>) {
    forall i :: 0 <= i < |infos| ==> 0 <= infos[i].lastFrame <= INT64_MAX
  }

  /** There is something to loop over: a stream of some length, or at least no
      contributing stream without packets at the end. */
  ghost predicate Loops(infos: seq<StreamInfo>, pass: seq<Packet>, spans: seq<StreamTimes>) {
    && Spans(infos, pass, spans) && Bounded(infos)
    && (LoopLength(infos, pass, spans) > 0 || LastCounts(infos, pass, |infos|))
  }

  lemma PtsOfAppend(pass: seq<Packet>, p: Packet, i: nat)
    ensures PtsOf(pass + [p], i) == PtsOf(pass, i) + if p.stream == i then {p.pts} else {}
  {
    assert forall q :: q in pass + [p] <==> q in pass || q == p;
  }

  /** A stream's times are widened by the pts read, each shifted. */
  ghost predicate Widened(was: StreamTimes, now: StreamTimes, read: set<int>, shift: int) {
    && (read == {} ==> now == was)
    && was.maxPts <= now.maxPts && now.minPts <= was.minPts
    && (forall x <- read :: now.minPts <= x + shift <= now.maxPts)
    && (now.maxPts == was.maxPts || now.maxPts - shift in read)
    && (now.minPts == was.minPts || now.minPts - shift in read)
  }

  lemma WidenOne(was: StreamTimes, now: StreamTimes, read: set<int>, shift: int, pts: int)
    requires Widened(was, now, read, shift)
    ensures Widened(was, StreamTimes(Max(pts + shift, now.maxPts), Min(pts + shift, now.minPts)), read + {pts}, shift)
  {
  }

  lemma NothingRead(f: FileState, i: nat)
    requires i < |f.times|
    ensures Widened(f.times[i], ReadAll(f, []).times[i], PtsOf([], i), f.duration)
  {
    assert PtsOf([], i) == {};
  }

  lemma OneRead(f: FileState, p: Packet, i: nat)
    requires p.stream < |f.times| && i < |f.times|
    ensures OnPacket(f, p).times[i] ==
            if p.stream == i then StreamTimes(Max(p.pts + f.duration, f.times[i].maxPts),
                                              Min(p.pts + f.duration, f.times[i].minPts))
            else f.times[i]
  {
  }

  lemma {:induction false} ReadWidens(f: FileState, pass: seq<Packet>, i: nat)
    requires InRange(|f.times|, pass) && i < |f.times|
    ensures Widened(f.times[i], ReadAll(f, pass).times[i], PtsOf(pass, i), f.duration)
  {
    hide Widened, PtsOf, OnPacket;
    if pass == [] {
      NothingRead(f, i);
    } else {
      var before, p := pass[..|pass| - 1], pass[|pass| - 1];
      assert before + [p] == pass;
      ReadWidens(f, before, i);
      PtsOfAppend(before, p, i);
      OneRead(ReadAll(f, before), p, i);
      if p.stream == i {
        WidenOne(f.times[i], ReadAll(f, before).times[i], PtsOf(before, i), f.duration, p.pts);
      } else {
        assert PtsOf(pass, i) == PtsOf(before, i);
      }
    }
  }

  /** The times a stream has after `n` passes, the file being `shift` long before the last. */
  ghost predicate AfterPasses(t: StreamTimes, span: StreamTimes, n: nat, shift: int) {
    if n == 0 then t == StreamTimes(INT64_MIN, INT64_MAX)
    else t.minPts == span.minPts && t.maxPts == span.maxPts + shift
  }

  lemma ReadPass(f: FileState, pass: seq<Packet>, i: nat, span: StreamTimes, n: nat, before: int)
    requires InRange(|f.times|, pass) && i < |f.times| && f.duration >= 0
    requires n > 0 ==> before <= f.duration
    requires Extremes(pass, i, span.minPts, span.maxPts)
    requires AfterPasses(f.times[i], span, n, before)
    requires n == 0 ==> f.duration == 0
    ensures AfterPasses(ReadAll(f, pass).times[i], span, n + 1, f.duration)
  {
    ReadWidens(f, pass, i);
    InRangePts(|f.times|, pass, i);
  }

  lemma InRangePts(n: nat, pass: seq<Packet>, i: nat)
    requires InRange(n, pass)
    ensures forall x <- PtsOf(pass, i) :: INT64_MIN < x < INT64_MAX
  {
  }

  // The times stream `i` has when the file is `shift` long.
  ghost predicate Shifted(pass: seq<Packet>, i: nat, t: StreamTimes, span: StreamTimes, shift: int) {
    if PtsOf(pass, i) == {} then t == StreamTimes(INT64_MIN, INT64_MAX)
    else t.minPts == span.minPts && t.maxPts == span.maxPts + shift && span.minPts <= span.maxPts
  }

  /** The rewind adds the loop length. A stream without packets has a negative length, so
      it is looked past as soon as another one counts. */
  lemma {:induction false} ExtendedIs(infos: seq<StreamInfo>, pass: seq<Packet>, f: FileState,
                                      spans: seq<StreamTimes>, k: nat, shift: int)
    requires k <= |infos| == |f.times| == |spans| && f.duration == shift >= 0
    requires forall i :: 0 <= i < |infos| ==>
               Shifted(pass, i, f.times[i], spans[i], shift) && 0 <= infos[i].lastFrame <= INT64_MAX
    ensures var l := Longest(infos, pass, spans, k);
            && l >= 0
            && (shift + l > 0 || LastCounts(infos, pass, k) ==> Extended(infos, f, k) == shift + l)
            && (shift + l == 0 && !LastCounts(infos, pass, k) ==> Extended(infos, f, k) < 0)
  {
    if k > 0 {
      ExtendedIs(infos, pass, f, spans, k - 1, shift);
      assert Shifted(pass, k - 1, f.times[k - 1], spans[k - 1], shift);
    }
  }

  // ----- main results -----

  /** After n passes the duration is n times the loop length, and every stream's times
      run from its first pts to its last one of the latest pass. */
  lemma {:induction false} DurationIsMultiple(infos: seq<StreamInfo>, pass: seq<Packet>,
                                              spans: seq<StreamTimes>, n: nat)
    requires Loops(infos, pass, spans)
    ensures var f := Passes(infos, pass, n); var l := LoopLength(infos, pass, spans);
            && l >= 0 && f.duration == n * l
            && forall i :: 0 <= i < |infos| ==> TimesAfter(pass, i, f.times[i], spans[i], n, (n - 1) * l)
  {
    var l := LoopLength(infos, pass, spans);
    LongestNonNegative(infos, pass, spans, |infos|);
    if n > 0 {
      DurationIsMultiple(infos, pass, spans, n - 1);
      var f := Passes(infos, pass, n - 1);
      var g := ReadAll(f, pass);
      assert n > 1 ==> (n - 2) * l + l == (n - 1) * l;
      forall i | 0 <= i < |infos|
        ensures TimesAfter(pass, i, g.times[i], spans[i], n, (n - 1) * l)
        ensures Shifted(pass, i, g.times[i], spans[i], (n - 1) * l)
      {
        assert TimesAfter(pass, i, f.times[i], spans[i], n - 1, (n - 2) * l);
        if PtsOf(pass, i) == {} {
          ReadWidens(f, pass, i);
        } else {
          ReadPass(f, pass, i, spans[i], n - 1, (n - 2) * l);
        }
      }
      ExtendedIs(infos, pass, g, spans, |infos|, (n - 1) * l);
      assert (n - 1) * l + l == n * l;
    }
  }

  /** The first pass gives the loop length exactly in the files that have something to
      loop over. In the others the length of a stream without packets, which is negative,
      is left standing. */
  lemma DurationExactly(infos: seq<StreamInfo>, pass: seq<Packet>, spans: seq<StreamTimes>)
    requires Spans(infos, pass, spans) && Bounded(infos)
    ensures (forall n: nat :: Passes(infos, pass, n).duration == n * LoopLength(infos, pass, spans))
            <==> Loops(infos, pass, spans)
  {
    if Loops(infos, pass, spans) {
      forall n: nat ensures Passes(infos, pass, n).duration == n * LoopLength(infos, pass, spans) {
        DurationIsMultiple(infos, pass, spans, n);
      }
    } else {
      LongestNonNegative(infos, pass, spans, |infos|);
      var f := Fresh(|infos|);
      var g := ReadAll(f, pass);
      forall i | 0 <= i < |infos| ensures Shifted(pass, i, g.times[i], spans[i], 0) {
        if PtsOf(pass, i) == {} {
          ReadWidens(f, pass, i);
        } else {
          ReadPass(f, pass, i, spans[i], 0, 0);
        }
      }
      ExtendedIs(infos, pass, g, spans, |infos|, 0);
      assert Passes(infos, pass, 0) == f;
      assert Passes(infos, pass, 1).duration < 0;
    }
  }

  /** A stream without packets keeps the times it began with. */
  ghost predicate TimesAfter(pass: seq<Packet>, i: nat, t: StreamTimes, span: StreamTimes, n: nat, shift: int) {
    if PtsOf(pass, i) == {} then t == StreamTimes(INT64_MIN, INT64_MAX) else AfterPasses(t, span, n, shift)
  }

  lemma {:induction false} LongestNonNegative(infos: seq<StreamInfo>, pass: seq<Packet>,
                                              spans: seq<StreamTimes>, k: nat)
    requires k <= |infos| == |spans|
    ensures Longest(infos, pass, spans, k) >= 0
  {
    if k > 0 {
      LongestNonNegative(infos, pass, spans, k - 1);
    }
  }

  lemma {:induction false} LongestCovers(infos: seq<StreamInfo>, pass: seq<Packet>, spans: seq<StreamTimes>,
                                         k: nat, i: nat)
    requires i < k <= |infos| == |spans| && Counts(infos, pass, i)
    ensures Longest(infos, pass, spans, k) >= StreamLength(infos[i], spans[i])
  {
    if i < k - 1 {
      LongestCovers(infos, pass, spans, k - 1, i);
    }
  }

  /** On stream `i` every pts of pass n+1 is after every pts of pass n exactly when the
      stream spans less than the loop length. */
  lemma NoOverlapExactly(infos: seq<StreamInfo>, pass: seq<Packet>, spans: seq<StreamTimes>, n: nat, i: nat)
    requires Loops(infos, pass, spans) && i < |infos| && PtsOf(pass, i) != {}
    ensures (forall x, y :: x in PtsOf(pass, i) && y in PtsOf(pass, i) ==>
               x + Passes(infos, pass, n).duration < y + Passes(infos, pass, n + 1).duration)
            <==> spans[i].maxPts - spans[i].minPts < LoopLength(infos, pass, spans)
  {
    var l := LoopLength(infos, pass, spans);
    DurationIsMultiple(infos, pass, spans, n);
    DurationIsMultiple(infos, pass, spans, n + 1);
    assert (n + 1) * l == n * l + l;
    assert Extremes(pass, i, spans[i].minPts, spans[i].maxPts);
  }

  /** So a contributing stream whose last frame has a length never overlaps itself. */
  lemma ContributingStreamsDoNotOverlap(infos: seq<StreamInfo>, pass: seq<Packet>, spans: seq<StreamTimes>,
                                        n: nat, i: nat, x: int, y: int)
    requires Loops(infos, pass, spans) && i < |infos| && Contributes(infos, i) && infos[i].lastFrame > 0
    requires x in PtsOf(pass, i) && y in PtsOf(pass, i)
    ensures x + Passes(infos, pass, n).duration < y + Passes(infos, pass, n + 1).duration
  {
    LongestCovers(infos, pass, spans, |infos|, i);
    NoOverlapExactly(infos, pass, spans, n, i);
  }

  // Audio of length 10 beside video that goes on to 20.
  const SHORT_AUDIO: seq<StreamInfo> := [StreamInfo(true, true, 1), StreamInfo(false, false, 1)]
  const LONG_VIDEO: seq<Packet> := [Packet(0, 0), Packet(0, 9), Packet(1, 0), Packet(1, 20)]

  /** Another stream can: video beside shorter audio starts again before it has ended, in
      every pass. */
  lemma VideoBesideAudioOverlaps(n: nat)
    ensures InRange(|SHORT_AUDIO|, LONG_VIDEO) && PtsOf(LONG_VIDEO, 1) == {0, 20}
    ensures 20 + Passes(SHORT_AUDIO, LONG_VIDEO, n).duration >= 0 + Passes(SHORT_AUDIO, LONG_VIDEO, n + 1).duration
  {
    var infos, pass := SHORT_AUDIO, LONG_VIDEO;
    var spans := [StreamTimes(9, 0), StreamTimes(20, 0)];
    assert pass[0] in pass && pass[1] in pass && pass[2] in pass && pass[3] in pass;
    assert PtsOf(pass, 0) == {0, 9} && PtsOf(pass, 1) == {0, 20};
    assert infos[0].isAudio && infos[0].hasSamples && HasAudio(infos);
    assert Counts(infos, pass, 0) && !Counts(infos, pass, 1);
    assert Longest(infos, pass, spans, 1) == 10 && LoopLength(infos, pass, spans) == 10;
    DurationIsMultiple(infos, pass, spans, n);
    DurationIsMultiple(infos, pass, spans, n + 1);
  }

  // ----- the file as the program updates it -----

  class InputStream {
    const info: StreamInfo
    var maxPts: int
    var minPts: int

    ghost function Value(): StreamTimes
      reads this
    {
      StreamTimes(maxPts, minPts)
    }

    constructor (info: StreamInfo)
      ensures this.info == info && Value() == StreamTimes(INT64_MIN, INT64_MAX)
    {
      this.info, maxPts, minPts := info, INT64_MIN, INT64_MAX;
    }
  }

  class InputFile {
    const streams: seq<InputStream>
    var duration: int
    var loop: int

    ghost predicate Valid() {
      forall i, j :: 0 <= i < j < |streams| ==> streams[i] != streams[j]
    }

    ghost predicate Matches(f: FileState)
      reads this, streams
    {
      && duration == f.duration
      && |streams| == |f.times|
      && forall i :: 0 <= i < |streams| ==> streams[i].Value() == f.times[i]
    }

    constructor (streams: seq<InputStream>, loop: int)
      requires forall i, j :: 0 <= i < j < |streams| ==> streams[i] != streams[j]
      ensures Valid() && this.streams == streams && duration == 0 && this.loop == loop
    {
      this.streams, duration, this.loop := streams, 0, loop;
    }

    /** The timestamp part of process_input for a packet with a pts. */
    method ProcessPts(p: Packet, ghost f: FileState) returns (pts: int)
      requires Valid() && p.stream < |streams| && Matches(f)
      modifies streams[p.stream]
      ensures Matches(OnPacket(f, p)) && pts == p.pts + f.duration
    {
      var ist := streams[p.stream];
      pts := p.pts + duration;
      ist.maxPts := Max(pts, ist.maxPts);
      ist.minPts := Min(pts, ist.minPts);
    }

    /** seek_to_start, once av_seek_frame has succeeded. */
    method SeekToStart(ghost f: FileState, ghost infos: seq<StreamInfo>)
      requires Valid() && Matches(f) && |infos| == |streams|
      requires forall i :: 0 <= i < |streams| ==> streams[i].info == infos[i]
      modifies `duration, `loop
      ensures Matches(Rewound(infos, f))
      ensures loop == if old(loop) > 0 then old(loop) - 1 else old(loop)
    {
      var hasAudio := false;
      var i := 0;
      while i < |streams|
        invariant 0 <= i <= |streams|
        invariant hasAudio <==> exists k :: 0 <= k < i && infos[k].isAudio && infos[k].hasSamples
      {
        if streams[i].info.isAudio && streams[i].info.hasSamples {
          hasAudio := true;
        }
        i := i + 1;
      }
      i := 0;
      while i < |streams|
        invariant 0 <= i <= |streams| && duration == Extended(infos, f, i)
        invariant forall k :: 0 <= k < |streams| ==> streams[k].Value() == f.times[k]
        modifies `duration
      {
        var ist := streams[i];
        if !hasAudio || (ist.info.isAudio && ist.info.hasSamples) {
          var length := ist.info.lastFrame + (ist.maxPts - ist.minPts);
          if duration == 0 || duration < length {
            duration := length;
          }
        }
        i := i + 1;
      }
      if loop > 0 {
        loop := loop - 1;
      }
    }
  }
}
