/** The audio callback of the player: it copies decoded buffers into whatever blocks the
    device asks for, fetching the next buffer when one runs out. Below full volume it
    mixes 16-bit samples, two bytes at a time. */
module AudioCallback {
  import opened Common

  type Byte = x: int | 0 <= x < 256

  const MIN_BUFFER_SIZE: nat := 512
  const MAX_VOLUME: int := 128

  // What the n-th call of audio_decode_frame gives: never an empty buffer.
  datatype Decoded = Buffer(bytes: seq<Byte>) | Failed

  ghost predicate NeverEmpty(decode: nat -> Decoded) {
    forall n: nat :: decode(n).Buffer? ==> decode(n).bytes != []
  }

  type Decoder = decode: nat -> Decoded | NeverEmpty(decode) witness (n: nat) => Failed

  // A frame, one sample for each channel, fits the block put out for a failed decode.
  type FrameSize = n: int | 0 < n <= MIN_BUFFER_SIZE witness 4

  // The mixing of one 16-bit sample, given as its two bytes, into silence.
  type Mixer = (Byte, Byte, int) -> (Byte, Byte)

  datatype Source = Source(decode: Decoder, frameSize: FrameSize, mix: Mixer)

  datatype Setting = Setting(muted: bool, volume: int)

  // A byte of sound, or of the silence that stands in for a failed decode.
  datatype Sample = Sound(b: Byte) | Silence

  /** As many whole frames as the smallest buffer holds. */
  function SilentSize(frameSize: FrameSize): (n: nat)
    ensures n > 0 && (frameSize % 2 == 0 ==> n % 2 == 0)
    ensures n % frameSize == 0 && n <= 512 < n + frameSize
  {
    TimesFrame(MIN_BUFFER_SIZE / frameSize, frameSize);
    MIN_BUFFER_SIZE / frameSize * frameSize
  }

  lemma TimesFrame(a: int, b: int)
    requires a >= 1 && b >= 1
    ensures a * b >= 1 && (b % 2 == 0 ==> a * b % 2 == 0) && a * b % b == 0
  {
    MultipleIs(a, b);
    if b % 2 == 0 {
      assert a * b == 2 * (a * (b / 2));
    }
  }

  lemma MultipleIs(a: int, b: int)
    requires b >= 1
    ensures a * b % b == 0
  {
    var q, r := a * b / b, a * b % b;
    assert (a - q) * b == r;
    Scales(a - q, b);
  }

  lemma Scales(d: int, b: int)
    requires b >= 1
    ensures d >= 1 ==> d * b >= b
    ensures d <= -1 ==> d * b <= -b
  {
  }

  function SoundOf(bytes: seq<Byte>): (s: seq<Sample>)
    ensures |s| == |bytes|
  {
    seq(|bytes|, i requires 0 <= i < |bytes| => Sound(bytes[i]))
  }

  function SilenceOf(n: nat): seq<Sample> { seq(n, _ => Silence) }

  function Block(src: Source, n: nat): (s: seq<Sample>)
    ensures s != []
  {
    assert NeverEmpty(src.decode);
    match src.decode(n)
    case Buffer(bytes) => SoundOf(bytes)
    case Failed => SilenceOf(SilentSize(src.frameSize))
  }

  /** The first `n` buffers, one after the other. */
  function Blocks(src: Source, n: nat): seq<Sample>
  {
    if n == 0 then [] else Blocks(src, n - 1) + Block(src, n - 1)
  }

  lemma BlocksGrow(src: Source, n: nat)
    ensures |Blocks(src, n)| < |Blocks(src, n + 1)|
  {
  }

  lemma {:induction false} EnoughBlocks(src: Source, n: nat)
    ensures |Blocks(src, n)| >= n
  {
    if n > 0 {
      EnoughBlocks(src, n - 1);
    }
  }

  lemma {:induction false} MoreBlocks(src: Source, n: nat, m: nat)
    requires n <= m
    ensures Blocks(src, n) <= Blocks(src, m)
    decreases m
  {
    if n < m {
      MoreBlocks(src, n, m - 1);
    }
  }

  /** The decoded sound as one stream: its first `m` bytes. */
  function Stream(src: Source, m: nat): (s: seq<Sample>)
    ensures |s| == m
  {
    EnoughBlocks(src, m);
    Blocks(src, m)[..m]
  }

  /** Any number of buffers that suffices gives the same stream. */
  lemma StreamFrom(src: Source, m: nat, n: nat)
    requires m <= |Blocks(src, n)|
    ensures Stream(src, m) == Blocks(src, n)[..m]
  {
    EnoughBlocks(src, m);
    if n <= m { MoreBlocks(src, n, m); } else { MoreBlocks(src, m, n); }
  }

  lemma StreamPrefix(src: Source, m: nat, k: nat)
    requires m <= k
    ensures Stream(src, m) == Stream(src, k)[..m]
  {
    EnoughBlocks(src, k);
    StreamFrom(src, m, k);
  }

  // ----- how sound is put out -----

  /** Byte `i` of a piece put out at once. The mixer takes whole samples from the start of
      the piece; an odd byte at the end stays silent. */
  function RenderAt(src: Source, s: Setting, xs: seq<Sample>, i: nat): Byte
    requires i < |xs|
  {
    if s.muted || xs[i] == Silence then 0
    else if s.volume == MAX_VOLUME then xs[i].b
    else
      var k := i - i % 2;
      if k + 1 < |xs| && xs[k].Sound? && xs[k + 1].Sound? then
        var (lo, hi) := src.mix(xs[k].b, xs[k + 1].b, s.volume);
        if i == k then lo else hi
      else 0
  }

  function RenderAll(src: Source, s: Setting, xs: seq<Sample>): (bytes: seq<Byte>)
    ensures |bytes| == |xs|
  {
    seq(|xs|, i requires 0 <= i < |xs| => RenderAt(src, s, xs, i))
  }

  /** Nothing goes through the mixer. */
  predicate Unmixed(s: Setting) { s.muted || s.volume == MAX_VOLUME }

  /** A cut between samples is not heard, and none is where nothing is mixed. */
  lemma RenderAppend(src: Source, s: Setting, xs: seq<Sample>, ys: seq<Sample>)
    requires Unmixed(s) || |xs| % 2 == 0
    ensures RenderAll(src, s, xs + ys) == RenderAll(src, s, xs) + RenderAll(src, s, ys)
  {
    forall i | 0 <= i < |xs + ys|
      ensures RenderAt(src, s, xs + ys, i)
              == if i < |xs| then RenderAt(src, s, xs, i) else RenderAt(src, s, ys, i - |xs|)
    {
      if i >= |xs| {
        assert (xs + ys)[i] == ys[i - |xs|];
        if |xs| % 2 == 0 {
          assert i - i % 2 - |xs| == (i - |xs|) - (i - |xs|) % 2 >= 0;
        }
      }
    }
  }

  /** What a callback of length `len` puts out, `pos` bytes being delivered before and `n`
      buffers decoded: piece by piece, each from one buffer. */
  function Filled(src: Source, s: Setting, pos: nat, n: nat, len: nat): (r: seq<Byte>)
    ensures |r| == len
    decreases len, Max(0, pos + 1 - |Blocks(src, n)|)
  {
    var have := Blocks(src, n);
    if len == 0 then []
    else if pos >= |have| then
      Filled(src, s, pos, n + 1, len)
    else
      var k := Min(|have| - pos, len);
      RenderAll(src, s, have[pos..pos + k]) + Filled(src, s, pos + k, n, len - k)
  }

  lemma FilledPiece(src: Source, s: Setting, pos: nat, n: nat, len: nat, k: nat)
    requires pos < |Blocks(src, n)| && len > 0
    requires k == Min(|Blocks(src, n)| - pos, len)
    ensures Filled(src, s, pos, n, len)[..k] == RenderAll(src, s, Blocks(src, n)[pos..pos + k])
    ensures Filled(src, s, pos, n, len)[k..] == Filled(src, s, pos + k, n, len - k)
  {
    hide RenderAll, Blocks;
  }

  lemma FilledRefills(src: Source, s: Setting, pos: nat, n: nat, len: nat)
    requires pos >= |Blocks(src, n)| && len > 0
    ensures Filled(src, s, pos, n, len) == Filled(src, s, pos, n + 1, len)
    ensures Needed(src, n, pos + len) == Needed(src, n + 1, pos + len)
  {
  }

  /** How many buffers are decoded once `m` bytes are delivered, `n` being so before. */
  function Needed(src: Source, n: nat, m: nat): (r: nat)
    ensures |Blocks(src, r)| >= m
    decreases m - |Blocks(src, n)|
  {
    if |Blocks(src, n)| >= m then n
    else
      Needed(src, n + 1, m)
  }

  lemma NothingMore(src: Source, s: Setting, pos: nat, n: nat)
    ensures Filled(src, s, pos, n, 0) == []
    ensures pos <= |Blocks(src, n)| ==> Needed(src, n, pos) == n
  {
  }

  /** What callbacks of the given lengths put out. */
  function Delivered(src: Source, s: Setting, pos: nat, n: nat, lens: seq<nat>)
    : (r: seq<Byte>)
    ensures |r| == Total(lens)
    decreases |lens|
  {
    if lens == [] then []
    else
      var next := pos + lens[0];
      Filled(src, s, pos, n, lens[0])
      + Delivered(src, s, next, Needed(src, n, next), lens[1..])
  }

  function Total(lens: seq<nat>): nat {
    if lens == [] then 0 else lens[0] + Total(lens[1..])
  }

  // ----- chunking -----

  /** Decoded buffers hold whole samples, as the player's 16-bit format has it. */
  ghost predicate WholeSamples(src: Source) {
    src.frameSize % 2 == 0 && forall n: nat :: src.decode(n).Buffer? ==> |src.decode(n).bytes| % 2 == 0
  }

  /** No callback but the last with anything to fill ends inside a sample. */
  predicate CutsWhole(lens: seq<nat>)
    decreases |lens|
  {
    lens == [] || Total(lens[1..]) == 0 || (lens[0] % 2 == 0 && CutsWhole(lens[1..]))
  }

  lemma {:induction false} BlocksAreWhole(src: Source, n: nat)
    requires WholeSamples(src)
    ensures |Blocks(src, n)| % 2 == 0
  {
    hide Block, WholeSamples;
    if n > 0 {
      BlocksAreWhole(src, n - 1);
      BlockIsWhole(src, n - 1);
    }
  }

  lemma BlockIsWhole(src: Source, n: nat)
    requires WholeSamples(src)
    ensures |Block(src, n)| % 2 == 0
  {
    hide SilentSize;
  }

  /** Where the pieces of one callback are cut does not matter. */
  lemma {:induction false} FilledIsStream(src: Source, s: Setting,
                                          pos: nat, n: nat, len: nat)
    requires Unmixed(s) || (WholeSamples(src) && pos % 2 == 0)
    ensures Filled(src, s, pos, n, len)
            == RenderAll(src, s, Stream(src, pos + len)[pos..])
    decreases len, Max(0, pos + 1 - |Blocks(src, n)|)
  {
    hide RenderAll, Stream, Blocks;
    var have := Blocks(src, n);
    if len == 0 {
    } else if pos >= |have| {
      BlocksGrow(src, n);
      FilledIsStream(src, s, pos, n + 1, len);
    } else {
      var k := Min(|have| - pos, len);
      StreamFrom(src, pos + k, n);
      StreamPrefix(src, pos + k, pos + len);
      var all := Stream(src, pos + len);
      assert have[pos..pos + k] == all[pos..pos + k] by { assert have[..pos + k] == all[..pos + k]; }
      if k == len {
        assert all[pos..pos + k] == all[pos..];
      } else {
        if !Unmixed(s) { BlocksAreWhole(src, n); }
        FilledIsStream(src, s, pos + k, n, len - k);
        RenderAppend(src, s, all[pos..pos + k], all[pos + k..]);
        assert all[pos..pos + k] + all[pos + k..] == all[pos..];
      }
    }
  }

  /** However the device cuts its requests, the bytes are the stream, rendered: at full
      volume or muted for any lengths, and otherwise when no cut is inside a sample. */
  lemma {:induction false} ChunkingDoesNotMatter(src: Source, s: Setting,
                                                 pos: nat, n: nat, lens: seq<nat>)
    requires Unmixed(s) || (WholeSamples(src) && pos % 2 == 0 && CutsWhole(lens))
    ensures Delivered(src, s, pos, n, lens)
            == RenderAll(src, s, Stream(src, pos + Total(lens))[pos..])
    decreases |lens|
  {
    hide RenderAll, Stream, Blocks, Filled, Needed, CutsWhole;
    if lens != [] {
      CutsAfter(lens);
      var next := pos + lens[0];
      var m := Needed(src, n, next);
      FilledIsStream(src, s, pos, n, lens[0]);
      if Total(lens[1..]) > 0 {
        ChunkingDoesNotMatter(src, s, next, m, lens[1..]);
        SplitStream(src, s, pos, lens[0], Total(lens[1..]));
      } else {
        assert Delivered(src, s, next, m, lens[1..]) == [];
      }
    }
  }

  lemma CutsAfter(lens: seq<nat>)
    requires lens != []
    ensures CutsWhole(lens) <==> Total(lens[1..]) == 0 || (lens[0] % 2 == 0 && CutsWhole(lens[1..]))
  {
  }

  lemma OddCut(lens: seq<nat>)
    requires !CutsWhole(lens)
    ensures lens != [] && Total(lens[1..]) > 0 && (lens[0] % 2 == 0 ==> !CutsWhole(lens[1..]))
  {
  }

  lemma SplitStream(src: Source, s: Setting, pos: nat, len: nat, rest: nat)
    requires (Unmixed(s) || len % 2 == 0)
    ensures RenderAll(src, s, Stream(src, pos + len + rest)[pos..])
            == RenderAll(src, s, Stream(src, pos + len)[pos..])
               + RenderAll(src, s, Stream(src, pos + len + rest)[pos + len..])
  {
    var all := Stream(src, pos + len + rest);
    StreamPrefix(src, pos + len, pos + len + rest);
    assert all[pos..] == all[pos..pos + len] + all[pos + len..];
    RenderAppend(src, s, all[pos..pos + len], all[pos + len..]);
  }

  // A decoder and a mixer that let every byte be heard.
  function Ones(n: nat): Decoded { Buffer([1, 1]) }

  const ONES: Source := Source(Ones, 2, Keep)

  function Keep(lo: Byte, hi: Byte, volume: int): (Byte, Byte) { (lo, hi) }

  /** A cut inside a sample is heard: its first byte is lost. */
  lemma {:induction false} OddCutIsHeard(pos: nat, n: nat, lens: seq<nat>)
    requires pos % 2 == 0 && pos <= |Blocks(ONES, n)| && !CutsWhole(lens)
    ensures Delivered(ONES, Setting(false, 64), pos, n, lens)
            != RenderAll(ONES, Setting(false, 64), Stream(ONES, pos + Total(lens))[pos..])
    decreases |lens|
  {
    hide RenderAll, Stream, Blocks, Filled, Needed, CutsWhole;
    OddCut(lens);
    var s := Setting(false, 64);
    var len, rest := lens[0], Total(lens[1..]);
    var all := Stream(ONES, pos + len + rest);
    var next := Needed(ONES, n, pos + len);
    var filled, others := Filled(ONES, s, pos, n, len), Delivered(ONES, s, pos + len, next, lens[1..]);
    assert Delivered(ONES, s, pos, n, lens) == filled + others;
    FilledIsStream(ONES, s, pos, n, len);
    if len % 2 == 0 {
      OddCutIsHeard(pos + len, next, lens[1..]);
      SplitStream(ONES, s, pos, len, rest);
      TailsDiffer(filled, others, RenderAll(ONES, s, all[pos + len..]));
    } else {
      OnesSound(pos + len + rest);
      assert all[pos..][len - 1] == all[pos..][len] == Sound(1);
      HalfSampleIsSilent(s, all[pos..], len - 1);
      HalfSampleIsSilent(s, Stream(ONES, pos + len)[pos..], len - 1);
      assert (filled + others)[len - 1] == filled[len - 1] == 0;
    }
  }

  lemma TailsDiffer(xs: seq<Byte>, ys: seq<Byte>, zs: seq<Byte>)
    requires ys != zs
    ensures xs + ys != xs + zs
  {
    assert (xs + ys)[|xs|..] == ys && (xs + zs)[|xs|..] == zs;
  }

  // The first byte of a sample, with and without the second.
  lemma HalfSampleIsSilent(s: Setting, xs: seq<Sample>, i: nat)
    requires i < |xs| && i % 2 == 0 && !Unmixed(s)
    ensures i + 1 == |xs| ==> RenderAll(ONES, s, xs)[i] == 0
    ensures i + 1 < |xs| && xs[i] == xs[i + 1] == Sound(1) ==> RenderAll(ONES, s, xs)[i] == 1
  {
  }

  lemma OnesAreWhole()
    ensures WholeSamples(ONES)
  {
  }

  lemma OnesSound(m: nat)
    ensures forall i :: 0 <= i < m ==> Stream(ONES, m)[i] == Sound(1)
  {
    OnesBlocks(m);
    EnoughBlocks(ONES, m);
  }

  lemma {:induction false} OnesBlocks(n: nat)
    ensures forall i :: 0 <= i < |Blocks(ONES, n)| ==> Blocks(ONES, n)[i] == Sound(1)
  {
    if n > 0 {
      OnesBlocks(n - 1);
    }
  }

  ghost predicate NeverHeard(lens: seq<nat>) {
    forall src: Source, s: Setting :: WholeSamples(src) ==>
      Delivered(src, s, 0, 0, lens) == RenderAll(src, s, Stream(src, Total(lens)))
  }

  /** Whatever is decoded, mixed and set, the cuts are never heard exactly when none is
      inside a sample. */
  lemma ChunkingExactly(lens: seq<nat>)
    ensures NeverHeard(lens) <==> CutsWhole(lens)
  {
    hide Delivered, Stream, RenderAll, WholeSamples, CutsWhole;
    if CutsWhole(lens) {
      forall src: Source, s: Setting | WholeSamples(src)
        ensures Delivered(src, s, 0, 0, lens) == RenderAll(src, s, Stream(src, Total(lens)))
      {
        ChunkingDoesNotMatter(src, s, 0, 0, lens);
        assert Stream(src, Total(lens))[0..] == Stream(src, Total(lens));
      }
    } else {
      OnesAreWhole();
      OddCutIsHeard(0, 0, lens);
      var all := Stream(ONES, Total(lens));
      assert all[0..] == all;
    }
  }

  /** At full volume, unmuted and without failed decodes, that is the decoded bytes
      themselves, in order and complete, for any lengths. */
  lemma FullVolumeIsVerbatim(src: Source, lens: seq<nat>, n: nat)
    requires forall k: nat :: src.decode(k).Buffer?
    requires Total(lens) <= |DecodedBytes(src, n)|
    ensures Delivered(src, Setting(false, MAX_VOLUME), 0, 0, lens)
            == DecodedBytes(src, n)[..Total(lens)]
  {
    ChunkingDoesNotMatter(src, Setting(false, MAX_VOLUME), 0, 0, lens);
    BlocksAreBytes(src, n);
    StreamFrom(src, Total(lens), n);
  }

  /** Muted, every byte put out is silence. */
  lemma MutedIsSilent(src: Source, volume: int, lens: seq<nat>)
    ensures Delivered(src, Setting(true, volume), 0, 0, lens) == seq(Total(lens), _ => 0)
  {
    ChunkingDoesNotMatter(src, Setting(true, volume), 0, 0, lens);
  }

  /** Below full volume and cut between samples, every whole sample put out is the decoded
      one mixed, its two bytes side by side; what stands in for a failed decode is silent. */
  lemma MixedSampleBySample(src: Source, volume: int, lens: seq<nat>, i: nat)
    requires WholeSamples(src) && CutsWhole(lens) && volume != MAX_VOLUME && 2 * i + 1 < Total(lens)
    ensures var out, xs := Delivered(src, Setting(false, volume), 0, 0, lens), Stream(src, Total(lens));
            (out[2 * i], out[2 * i + 1]) ==
            if xs[2 * i].Sound? && xs[2 * i + 1].Sound? then src.mix(xs[2 * i].b, xs[2 * i + 1].b, volume)
            else (0, 0)
  {
    hide Stream, Delivered, CutsWhole, RenderAll, WholeSamples, Total;
    var s, xs := Setting(false, volume), Stream(src, Total(lens));
    ChunkingDoesNotMatter(src, s, 0, 0, lens);
    assert xs[0..] == xs;
    SamplePut(src, s, xs, i);
  }

  lemma SamplePut(src: Source, s: Setting, xs: seq<Sample>, i: nat)
    requires !Unmixed(s) && 2 * i + 1 < |xs|
    ensures (RenderAll(src, s, xs)[2 * i], RenderAll(src, s, xs)[2 * i + 1]) ==
            if xs[2 * i].Sound? && xs[2 * i + 1].Sound? then src.mix(xs[2 * i].b, xs[2 * i + 1].b, s.volume)
            else (0, 0)
  {
    assert 2 * i % 2 == 0 && (2 * i + 1) % 2 == 1;
  }

  /** A failed decode is played as the most whole frames that 512 bytes hold, of silence. */
  lemma FailedDecodeIsSilence(src: Source, n: nat)
    requires src.decode(n).Failed?
    ensures var m := |Block(src, n)|;
            && m % src.frameSize == 0 && m <= 512 < m + src.frameSize
            && forall i :: 0 <= i < m ==> Block(src, n)[i] == Silence
  {
    hide SilentSize;
  }

  function DecodedBytes(src: Source, n: nat): seq<Byte> {
    if n == 0 then []
    else DecodedBytes(src, n - 1) + match src.decode(n - 1) case Buffer(bytes) => bytes case Failed => []
  }

  lemma {:induction false} BlocksAreBytes(src: Source, n: nat)
    requires forall k: nat :: src.decode(k).Buffer?
    ensures |Blocks(src, n)| == |DecodedBytes(src, n)|
    ensures forall i :: 0 <= i < |DecodedBytes(src, n)| ==>
              Blocks(src, n)[i] == Sound(DecodedBytes(src, n)[i])
  {
    if n > 0 {
      BlocksAreBytes(src, n - 1);
    }
  }

  // ----- the callback -----

  class Player {
    const src: Source
    var audioBuf: Option<seq<Byte>>  // none where the program has a null pointer
    var audioBufSize: nat
    var audioBufIndex: nat
    var decodes: nat                 // calls of audio_decode_frame so far
    ghost var pos: nat               // bytes delivered so far
    var audioWriteBufSize: int

    ghost function Samples(): (s: seq<Sample>)
      reads `audioBuf, `audioBufSize
    {
      match audioBuf case Some(bytes) => SoundOf(bytes) case None => SilenceOf(audioBufSize)
    }

    /** What is left of the buffer is what is left of the buffers decoded so far. */
    ghost predicate Valid()
      reads `audioBuf, `audioBufSize, `audioBufIndex, `decodes, `pos
    {
      && |Samples()| == audioBufSize && audioBufIndex <= audioBufSize
      && pos <= |Blocks(src, decodes)|
      && Samples()[audioBufIndex..] == Blocks(src, decodes)[pos..]
    }

    constructor (src: Source)
      ensures Valid() && pos == 0 && decodes == 0 && this.src == src
    {
      this.src := src;
      audioBuf, audioBufSize, audioBufIndex, decodes, pos, audioWriteBufSize := None, 0, 0, 0, 0, 0;
    }

    /** sdl_audio_callback: fills the whole of `stream`. */
    method Callback(stream: array<Byte>, setting: Setting)
      requires Valid()
      modifies this, stream
      ensures Valid() && pos == old(pos) + stream.Length
      ensures decodes == Needed(src, old(decodes), pos)
      ensures stream[..] == Filled(src, setting, old(pos), old(decodes), stream.Length)
      ensures audioWriteBufSize == audioBufSize - audioBufIndex
    {
      hide Filled, Needed, Blocks, RenderAll, Samples, Valid;
      var at := 0;
      ghost var all, end := Filled(src, setting, pos, decodes, stream.Length), pos + stream.Length;
      ghost var more := all;
      while at < stream.Length
        invariant 0 <= at <= stream.Length && pos + (stream.Length - at) == end && Valid()
        invariant all == stream[..at] + more && more == Filled(src, setting, pos, decodes, stream.Length - at)
        invariant Needed(src, decodes, end) == Needed(src, old(decodes), end)
        modifies `audioBuf, `audioBufSize, `audioBufIndex, `decodes, `pos, stream
      {
        var len1 := Pass(stream, at, setting, more);
        at := at + len1;
        more := more[len1..];
      }
      assert stream[..at] == stream[..];
      NothingMore(src, setting, pos, decodes);
      BufferLeft();
      audioWriteBufSize := audioBufSize - audioBufIndex;
    }

    /** One pass of the loop: the next `len1` bytes of what is to come. */
    method Pass(stream: array<Byte>, at: nat, setting: Setting, ghost more: seq<Byte>)
      returns (len1: nat)
      requires Valid() && at < stream.Length && more == Filled(src, setting, pos, decodes, stream.Length - at)
      modifies `audioBuf, `audioBufSize, `audioBufIndex, `decodes, `pos, stream
      ensures Valid() && pos == old(pos) + len1 && 0 < len1 <= stream.Length - at
      ensures stream[..at + len1] == old(stream[..at]) + more[..len1]
      ensures more[len1..] == Filled(src, setting, pos, decodes, stream.Length - at - len1)
      ensures Needed(src, decodes, old(pos) + stream.Length - at)
              == Needed(src, old(decodes), old(pos) + stream.Length - at)
    {
      hide *;
      BufferLeft();
      if audioBufIndex >= audioBufSize {
        FilledRefills(src, setting, pos, decodes, stream.Length - at);
        Refill();
        BufferLeft();
      }
      ghost var was, left := pos, stream.Length - at;
      len1 := CopyChunk(stream, at, setting);
      FilledPiece(src, setting, was, decodes, left, len1);
    }

    lemma BufferLeft()
      requires Valid()
      ensures pos <= |Blocks(src, decodes)| && audioBufSize - audioBufIndex == |Blocks(src, decodes)| - pos
    {
      assert |Samples()[audioBufIndex..]| == |Blocks(src, decodes)| - pos;
    }

    /** The refill at the head of the loop, when the buffer is used up. */
    method Refill()
      requires Valid() && pos == |Blocks(src, decodes)|
      modifies `audioBuf, `audioBufSize, `audioBufIndex, `decodes
      ensures Valid() && decodes == old(decodes) + 1 && audioBufIndex < audioBufSize
    {
      match src.decode(decodes) {
        case Failed =>
          audioBuf := None;
          audioBufSize := SilentSize(src.frameSize);
        case Buffer(bytes) =>
          audioBuf := Some(bytes);
          audioBufSize := |bytes|;
      }
      assert Samples() == Block(src, decodes);
      decodes := decodes + 1;
      audioBufIndex := 0;
      assert Blocks(src, decodes)[pos..] == Samples() == Samples()[0..];
    }

    /** One pass of the loop after the refill: as much as the buffer has and `stream` takes. */
    method CopyChunk(stream: array<Byte>, at: nat, setting: Setting) returns (len1: nat)
      requires Valid() && audioBufIndex < audioBufSize && at < stream.Length
      modifies `audioBufIndex, `pos, stream
      ensures Valid() && pos == old(pos) + len1 <= |Blocks(src, decodes)|
      ensures 0 < len1 <= stream.Length - at && len1 == Min(|Blocks(src, decodes)| - old(pos), stream.Length - at)
      ensures stream[..at + len1] == old(stream[..at]) + RenderAll(src, setting, Blocks(src, decodes)[old(pos)..pos])
    {
      hide RenderAll, Samples, Blocks;
      BufferLeft();
      len1 := audioBufSize - audioBufIndex;
      if len1 > stream.Length - at {
        len1 := stream.Length - at;
      }
      assert Samples()[audioBufIndex..audioBufIndex + len1] == Samples()[audioBufIndex..][..len1];
      assert Blocks(src, decodes)[pos..pos + len1] == Blocks(src, decodes)[pos..][..len1];
      CopyOut(stream, at, len1, setting);
      assert stream[..at + len1] == stream[..at] + stream[at..at + len1];
      Advance(len1);
    }

    /** `audio_buf_index += len1` */
    method Advance(len1: nat)
      requires Valid() && audioBufIndex + len1 <= audioBufSize
      modifies `audioBufIndex, `pos
      ensures Valid() && pos == old(pos) + len1 && audioBufIndex == old(audioBufIndex) + len1
    {
      hide Samples, Blocks;
      BufferLeft();
      assert Samples()[audioBufIndex..][len1..] == Samples()[audioBufIndex + len1..];
      assert Blocks(src, decodes)[pos..][len1..] == Blocks(src, decodes)[pos + len1..];
      audioBufIndex := audioBufIndex + len1;
      pos := pos + len1;
    }

    /** The copy, or the silence and mix, of `len1` bytes. */
    method CopyOut(stream: array<Byte>, at: nat, len1: nat, setting: Setting)
      requires |Samples()| == audioBufSize && audioBufIndex + len1 <= audioBufSize && at + len1 <= stream.Length
      modifies stream
      ensures stream[..at] == old(stream[..at])
      ensures stream[at..at + len1] == RenderAll(src, setting, Samples()[audioBufIndex..audioBufIndex + len1])
    {
      hide RenderAll, SoundOf, SilenceOf, Samples;
      PieceOf(audioBufIndex, len1);
      RenderUnmixed(src, setting, Samples()[audioBufIndex..audioBufIndex + len1]);
      hide RenderAll, SoundOf, SilenceOf;
      if !setting.muted && audioBuf.Some? && setting.volume == MAX_VOLUME {
        Memcpy(stream, at, audioBuf.value[audioBufIndex..audioBufIndex + len1]);
      } else {
        Memset(stream, at, len1);
        if !setting.muted && audioBuf.Some? {
          MixAudio(stream, at, audioBuf.value[audioBufIndex..audioBufIndex + len1], setting);
        }
      }
    }

    lemma PieceOf(from: nat, len: nat)
      requires |Samples()| == audioBufSize && from + len <= audioBufSize
      ensures match audioBuf
              case Some(bytes) =>
                from + len <= |bytes| && Samples()[from..from + len] == SoundOf(bytes[from..from + len])
              case None => Samples()[from..from + len] == SilenceOf(len)
    {
    }

    method Memcpy(stream: array<Byte>, at: nat, sound: seq<Byte>)
      requires at + |sound| <= stream.Length
      modifies stream
      ensures stream[..at] == old(stream[..at]) && stream[at..at + |sound|] == sound
    {
      var i := 0;
      while i < |sound|
        invariant 0 <= i <= |sound| && stream[..at] == old(stream[..at]) && stream[at..at + i] == sound[..i]
      {
        stream[at + i] := sound[i];
        i := i + 1;
      }
    }

    method Memset(stream: array<Byte>, at: nat, len: nat)
      requires at + len <= stream.Length
      modifies stream
      ensures stream[..at] == old(stream[..at]) && stream[at..at + len] == seq(len, _ => 0)
    {
      var i := 0;
      while i < len
        invariant 0 <= i <= len && stream[..at] == old(stream[..at]) && stream[at..at + i] == seq(i, _ => 0)
      {
        stream[at + i] := 0;
        i := i + 1;
      }
    }

    /** SDL_MixAudio into silence: whole 16-bit samples, as many as there are. */
    method MixAudio(stream: array<Byte>, at: nat, sound: seq<Byte>, setting: Setting)
      requires at + |sound| <= stream.Length && !Unmixed(setting)
      requires stream[at..at + |sound|] == seq(|sound|, _ => 0)
      modifies stream
      ensures stream[..at] == old(stream[..at])
      ensures stream[at..at + |sound|] == RenderAll(src, setting, SoundOf(sound))
    {
      var i := 0;
      ghost var out := RenderAll(src, setting, SoundOf(sound));
      assert stream[at..at + 0] == out[..0];
      while i + 1 < |sound|
        invariant 0 <= i <= |sound| && i % 2 == 0 && stream[..at] == old(stream[..at])
        invariant stream[at..at + i] == out[..i]
        invariant stream[at + i..at + |sound|] == seq(|sound| - i, _ => 0)
      {
        var (lo, hi) := src.mix(sound[i], sound[i + 1], setting.volume);
        MixedPair(src, setting, sound, i);
        hide RenderAll, SoundOf;
        ghost var was := stream[at + i..at + |sound|];
        stream[at + i], stream[at + i + 1] := lo, hi;
        assert stream[at..at + i + 2] == stream[at..at + i] + [lo, hi];
        assert stream[at + i + 2..at + |sound|] == was[2..];
        i := i + 2;
      }
      assert stream[at..at + |sound|] == stream[at..at + i] + stream[at + i..at + |sound|];
      MixedEnd(src, setting, sound, i);
    }
  }

  lemma MixedPair(src: Source, s: Setting, sound: seq<Byte>, i: nat)
    requires i % 2 == 0 && i + 1 < |sound| && !Unmixed(s)
    ensures var out := RenderAll(src, s, SoundOf(sound)); var (lo, hi) := src.mix(sound[i], sound[i + 1], s.volume);
            out[..i + 2] == out[..i] + [lo, hi]
  {
  }

  lemma MixedEnd(src: Source, s: Setting, sound: seq<Byte>, i: nat)
    requires i % 2 == 0 && i <= |sound| <= i + 1 && !Unmixed(s)
    ensures var out := RenderAll(src, s, SoundOf(sound)); out == out[..i] + seq(|sound| - i, _ => 0)
  {
  }

  // What goes past the mixer.
  lemma RenderUnmixed(src: Source, s: Setting, xs: seq<Sample>)
    ensures s.muted || xs == SilenceOf(|xs|) ==> RenderAll(src, s, xs) == seq(|xs|, _ => 0)
    ensures forall sound: seq<Byte> :: !s.muted && s.volume == MAX_VOLUME && xs == SoundOf(sound) ==>
              RenderAll(src, s, xs) == sound
  {
    forall sound: seq<Byte> | !s.muted && s.volume == MAX_VOLUME && xs == SoundOf(sound)
      ensures RenderAll(src, s, xs) == sound
    {
      assert forall i :: 0 <= i < |sound| ==> xs[i] == Sound(sound[i]);
    }
  }
}
