/** The inputs of a filter graph: frames wait in one queue per input until the formats of
    all inputs are known; then the graph is built, the queues are emptied into it and the
    inputs that have ended get their end of file. A change of format builds it anew. */
module FilterInputs {
  import opened Common

  datatype Kind = Audio | Video | Subtitle

  datatype Params = Params(
    format: int, hwFrames: Option<nat>,
    sampleRate: int, channels: int, channelLayout: int,
    width: int, height: int)

  datatype Frame = Frame(id: nat, params: Params)

  // What a buffer source is given; `Reset` marks that it was torn down, to be made anew with
  // the parameters the input then has.
  datatype Item = Push(f: Frame) | Eof | Reset(made: Option<Params>)

  datatype Input = Input(
    kind: Kind,
    params: Option<Params>,   // None while the format is unknown
    queue: seq<Frame>,
    eof: bool,
    log: seq<Item>)

  datatype Graph = Graph(configured: bool, inputs: seq<Input>, finished: bool)

  // How the libraries answer while a frame is sent.
  datatype Answers = Answers(reapOk: bool, configOk: bool, pushOk: bool)

  // A frame or the end of an input; the graph built outside of those, by transcode_step;
  // and by flush_encoders, which first gives inputs that never got a frame the formats the
  // demuxer knows.
  datatype Event =
    | SendFrame(i: nat, f: Frame, answers: Answers)
    | SendEof(i: nat)
    | BuildIfReady(ok: bool)
    | FlushUnbuilt(formats: seq<Option<Params>>, ok: bool)

  function Init(kinds: seq<Kind>): Graph {
    Graph(false, seq(|kinds|, i requires 0 <= i < |kinds| => Input(kinds[i], None, [], false, [])), false)
  }

  predicate NeedsReinit(input: Input, p: Params) {
    || input.params.None?
    || input.params.value.format != p.format
    || input.params.value.hwFrames != p.hwFrames
    || (input.kind == Audio &&
        (input.params.value.sampleRate != p.sampleRate || input.params.value.channels != p.channels
         || input.params.value.channelLayout != p.channelLayout))
    || (input.kind == Video &&
        (input.params.value.width != p.width || input.params.value.height != p.height))
  }

  predicate HasAllFormats(inputs: seq<Input>) {
    forall i :: 0 <= i < |inputs| ==> inputs[i].params.Some? || inputs[i].kind == Subtitle
  }

  function Pushes(fs: seq<Frame>): seq<Item> {
    seq(|fs|, i requires 0 <= i < |fs| => Push(fs[i]))
  }

  function TornDown(input: Input): Input { input.(log := input.log + [Reset(input.params)]) }

  function Flushed(input: Input): Input {
    input.(log := input.log + Pushes(input.queue) + (if input.eof then [Eof] else []), queue := [])
  }

  function Rebuilt(x: Input, ok: bool): Input {
    if ok then Flushed(TornDown(x)) else TornDown(x)
  }

  function AllRebuilt(inputs: seq<Input>, ok: bool): (r: seq<Input>)
    ensures |r| == |inputs| && forall i :: 0 <= i < |r| ==> r[i] == Rebuilt(inputs[i], ok)
  {
    seq(|inputs|, i requires 0 <= i < |inputs| => Rebuilt(inputs[i], ok))
  }

  /** configure_filtergraph; the buffer sources take every queued frame. */
  function Configured(g: Graph, ok: bool): Graph {
    g.(configured := ok, inputs := AllRebuilt(g.inputs, ok))
  }

  /** A changed format is remembered, whatever comes of the frame. */
  function Reformatted(g: Graph, i: nat, p: Params): Graph
    requires i < |g.inputs|
  {
    if NeedsReinit(g.inputs[i], p) then g.(inputs := g.inputs[i := g.inputs[i].(params := Some(p))]) else g
  }

  function Pushed(g: Graph, i: nat, item: Item): Graph
    requires i < |g.inputs|
  {
    g.(inputs := g.inputs[i := g.inputs[i].(log := g.inputs[i].log + [item])])
  }

  function Queued(g: Graph, i: nat, f: Frame): Graph
    requires i < |g.inputs|
  {
    g.(inputs := g.inputs[i := g.inputs[i].(queue := g.inputs[i].queue + [f])])
  }

  /** ifilter_send_frame: the new state, and whether it returned no error. */
  function OnFrame(g: Graph, i: nat, f: Frame, a: Answers): (Graph, bool)
    requires i < |g.inputs|
  {
    var rebuild := NeedsReinit(g.inputs[i], f.params) || !g.configured;
    var g1 := Reformatted(g, i, f.params);
    if rebuild && !HasAllFormats(g1.inputs) then (Queued(g1, i, f), true)
    else if rebuild && !a.reapOk then (g1, false)
    else
      var g2 := if rebuild then Configured(g1, a.configOk) else g1;
      if !g2.configured || !a.pushOk then (g2, false) else (Pushed(g2, i, Push(f)), true)
  }

  /** An unbuilt graph is built once all formats are known. */
  function OnBuild(g: Graph, ok: bool): Graph {
    if g.configured || !HasAllFormats(g.inputs) then g else Configured(g, ok)
  }

  function GuessedParams(x: Input, formats: seq<Option<Params>>, k: nat): Input {
    if x.params.None? && k < |formats| then x.(params := formats[k]) else x
  }

  function Guessed(g: Graph, formats: seq<Option<Params>>): Graph {
    g.(inputs := seq(|g.inputs|, k requires 0 <= k < |g.inputs| => GuessedParams(g.inputs[k], formats, k)))
  }

  function OnFlush(g: Graph, formats: seq<Option<Params>>, ok: bool): Graph {
    if g.configured then g else OnBuild(Guessed(g, formats), ok)
  }

  predicate AllEnded(inputs: seq<Input>) { forall i :: 0 <= i < |inputs| ==> inputs[i].eof }

  function OnEof(g: Graph, i: nat): Graph
    requires i < |g.inputs|
  {
    var g1 := g.(inputs := g.inputs[i := g.inputs[i].(eof := true)]);
    if g.configured then Pushed(g1, i, Eof)
    else if AllEnded(g1.inputs) then g1.(finished := true) else g1
  }

  // ----- whole runs -----

  predicate Wires(n: nat, e: Event) { e.SendFrame? || e.SendEof? ==> e.i < n }

  predicate Wired(n: nat, events: seq<Event>) { forall e <- events :: Wires(n, e) }

  function Step(g: Graph, e: Event): (r: (Graph, bool))
    requires Wires(|g.inputs|, e)
    ensures |r.0.inputs| == |g.inputs|
  {
    match e
    case SendFrame(i, f, a) => OnFrame(g, i, f, a)
    case SendEof(i) => (OnEof(g, i), true)
    case BuildIfReady(ok) => (OnBuild(g, ok), true)
    case FlushUnbuilt(formats, ok) => (OnFlush(g, formats, ok), true)
  }

  function Run(kinds: seq<Kind>, events: seq<Event>): (g: Graph)
    requires Wired(|kinds|, events)
    ensures |g.inputs| == |kinds|
  {
    if events == [] then Init(kinds)
    else
      assert Wired(|kinds|, events[..|events| - 1]);
      Step(Run(kinds, events[..|events| - 1]), events[|events| - 1]).0
  }

  /** The frames of input `i` that were sent without an error, in order. */
  function Accepted(kinds: seq<Kind>, events: seq<Event>, i: nat): seq<Frame>
    requires Wired(|kinds|, events)
  {
    if events == [] then []
    else
      assert Wired(|kinds|, events[..|events| - 1]);
      var before := Accepted(kinds, events[..|events| - 1], i);
      var e := events[|events| - 1];
      if e.SendFrame? && e.i == i && Step(Run(kinds, events[..|events| - 1]), e).1 then before + [e.f] else before
  }

  /** The decoder sends nothing for an input after its end of file. */
  ghost predicate EofIsLast(events: seq<Event>) {
    forall a, b :: 0 <= a < b < |events| && events[a].SendEof? && events[b].SendFrame? ==> events[b].i != events[a].i
  }

  function Frames(log: seq<Item>): seq<Frame> {
    if log == [] then []
    else Frames(log[..|log| - 1]) + if log[|log| - 1].Push? then [log[|log| - 1].f] else []
  }

  /** Whether the buffer source now in place has been told the end. */
  predicate ToldEnd(log: seq<Item>) {
    log != [] && !log[|log| - 1].Reset? && (log[|log| - 1] == Eof || ToldEnd(log[..|log| - 1]))
  }

  /** No frame comes after an end of file. */
  ghost predicate FramesFirst(log: seq<Item>) {
    forall a, b :: 0 <= a < b < |log| && log[a] == Eof ==> !log[b].Push?
  }

  lemma {:induction false} FramesAppend(log: seq<Item>, more: seq<Item>)
    ensures Frames(log + more) == Frames(log) + Frames(more)
  {
    if more == [] {
      assert log + more == log;
    } else {
      assert (log + more)[..|log + more| - 1] == log + more[..|more| - 1];
      FramesAppend(log, more[..|more| - 1]);
    }
  }

  lemma {:induction false} FramesOfPushes(fs: seq<Frame>)
    ensures Frames(Pushes(fs)) == fs
  {
    if fs != [] {
      assert Pushes(fs)[..|fs| - 1] == Pushes(fs[..|fs| - 1]);
      FramesOfPushes(fs[..|fs| - 1]);
    }
  }

  lemma FramesOne(log: seq<Item>, item: Item)
    ensures Frames(log + [item]) == Frames(log) + if item.Push? then [item.f] else []
  {
    assert (log + [item])[..|log|] == log;
  }

  lemma {:induction false} NotTold(log: seq<Item>, made: Option<Params>, fs: seq<Frame>)
    ensures !ToldEnd(log + [Reset(made)] + Pushes(fs))
  {
    var l := log + [Reset(made)] + Pushes(fs);
    if fs == [] {
      assert l == log + [Reset(made)];
    } else {
      NotTold(log, made, fs[..|fs| - 1]);
      assert l[..|l| - 1] == log + [Reset(made)] + Pushes(fs[..|fs| - 1]);
    }
  }

  lemma ToldOne(log: seq<Item>, item: Item)
    ensures ToldEnd(log + [item]) == (item == Eof || (item.Push? && ToldEnd(log)))
  {
    assert (log + [item])[..|log|] == log;
  }

  /** What holds of one input: delivered frames and then the queue are all it accepted;
      nothing queues up behind a built graph, and no end of file goes out while frames
      still wait or before the input has ended. */
  ghost predicate InputInv(x: Input, configured: bool, accepted: seq<Frame>) {
    && Frames(x.log) + x.queue == accepted
    && (configured ==> x.queue == [])
    && (Eof in x.log ==> x.eof && x.queue == [])
    && (configured ==> (ToldEnd(x.log) <==> x.eof))
    && FramesFirst(x.log)
  }

  lemma TearDownKeeps(x: Input, configured: bool, accepted: seq<Frame>)
    requires InputInv(x, configured, accepted)
    ensures InputInv(TornDown(x), false, accepted)
  {
    FramesOne(x.log, Reset(x.params));
    assert Frames(x.log) + [] == Frames(x.log);
  }

  lemma FlushKeeps(x: Input, configured: bool, accepted: seq<Frame>)
    requires InputInv(x, configured, accepted)
    ensures InputInv(Flushed(TornDown(x)), true, accepted)
  {
    var l := x.log + [Reset(x.params)] + Pushes(x.queue);
    FramesOne(x.log, Reset(x.params));
    assert Frames(x.log) + [] == Frames(x.log);
    FramesAppend(x.log + [Reset(x.params)], Pushes(x.queue));
    FramesOfPushes(x.queue);
    NotTold(x.log, x.params, x.queue);
    assert accepted + [] == accepted;
    FlushKeepsOrder(x);
    hide Frames, FramesFirst, Pushes;
    if x.eof {
      FramesOne(l, Eof);
      ToldOne(l, Eof);
    } else {
      assert l + [] == l;
    }
  }

  lemma FlushKeepsOrder(x: Input)
    requires FramesFirst(x.log) && (Eof in x.log ==> x.queue == [] && x.eof)
    ensures FramesFirst(Flushed(TornDown(x)).log)
    ensures Eof in Flushed(TornDown(x)).log ==> x.eof
  {
    var y := Flushed(TornDown(x)).log;
    assert forall b :: |x.log| < b < |y| && y[b].Push? ==> x.queue != [];
  }

  lemma PushKeeps(x: Input, f: Frame, accepted: seq<Frame>)
    requires InputInv(x, true, accepted) && !x.eof
    ensures InputInv(x.(log := x.log + [Push(f)]), true, accepted + [f])
  {
    FramesOne(x.log, Push(f));
    ToldOne(x.log, Push(f));
    assert Frames(x.log) + [] == Frames(x.log);
  }

  lemma QueueKeeps(x: Input, f: Frame, accepted: seq<Frame>)
    requires InputInv(x, false, accepted) && !x.eof
    ensures InputInv(x.(queue := x.queue + [f]), false, accepted + [f])
  {
    assert Frames(x.log) + (x.queue + [f]) == Frames(x.log) + x.queue + [f];
  }

  lemma EofKeeps(x: Input, configured: bool, accepted: seq<Frame>)
    requires InputInv(x, configured, accepted)
    ensures InputInv(if configured then x.(eof := true, log := x.log + [Eof]) else x.(eof := true),
                     configured, accepted)
  {
    FramesOne(x.log, Eof);
    ToldOne(x.log, Eof);
    assert Frames(x.log) + [] == Frames(x.log);
  }

  lemma ConfigureKeeps(g: Graph, ok: bool, k: nat, accepted: seq<Frame>)
    requires k < |g.inputs| && InputInv(g.inputs[k], g.configured, accepted)
    ensures InputInv(Configured(g, ok).inputs[k], Configured(g, ok).configured, accepted)
  {
    TearDownKeeps(g.inputs[k], g.configured, accepted);
    FlushKeeps(g.inputs[k], g.configured, accepted);
  }

  // A built graph means that every format is known; formats are never forgotten.
  ghost predicate FormatsKnown(g: Graph) { g.configured ==> HasAllFormats(g.inputs) }

  lemma FrameKeepsFormats(g: Graph, i: nat, f: Frame, a: Answers)
    requires i < |g.inputs| && FormatsKnown(g)
    ensures FormatsKnown(OnFrame(g, i, f, a).0)
  {
  }

  lemma FrameKeepsInput(g: Graph, i: nat, f: Frame, a: Answers, k: nat, accepted: seq<Frame>)
    requires i < |g.inputs| && k < |g.inputs| && FormatsKnown(g)
    requires InputInv(g.inputs[k], g.configured, accepted)
    requires i == k ==> !g.inputs[k].eof
    ensures var (h, ok) := OnFrame(g, i, f, a);
            InputInv(h.inputs[k], h.configured, if i == k && ok then accepted + [f] else accepted)
  {
    hide InputInv, NeedsReinit, AllRebuilt, Rebuilt, Reformatted, HasAllFormats;
    var g1 := Reformatted(g, i, f.params);
    ReformattedKeeps(g, i, f.params, k, accepted);
    ConfigureKeeps(g1, a.configOk, k, accepted);
    if i == k {
      if !g1.configured {
        QueueKeeps(g1.inputs[k], f, accepted);
      }
      SameEof(g1, a.configOk, k);
      var g2 := if NeedsReinit(g.inputs[i], f.params) || !g.configured then Configured(g1, a.configOk) else g1;
      if g2.configured {
        PushKeeps(g2.inputs[k], f, accepted);
      }
    }
  }

  lemma ReformattedKeeps(g: Graph, i: nat, p: Params, k: nat, accepted: seq<Frame>)
    requires i < |g.inputs| && k < |g.inputs| && InputInv(g.inputs[k], g.configured, accepted)
    ensures var g1 := Reformatted(g, i, p);
            && |g1.inputs| == |g.inputs| && g1.configured == g.configured
            && InputInv(g1.inputs[k], g1.configured, accepted)
            && g1.inputs[k].eof == g.inputs[k].eof
            && (HasAllFormats(g.inputs) ==> HasAllFormats(g1.inputs))
  {
  }

  lemma SameEof(g: Graph, ok: bool, k: nat)
    requires k < |g.inputs|
    ensures |Configured(g, ok).inputs| == |g.inputs| && Configured(g, ok).inputs[k].eof == g.inputs[k].eof
  {
  }

  lemma StepKeepsInput(g: Graph, e: Event, k: nat, accepted: seq<Frame>)
    requires Wires(|g.inputs|, e) && k < |g.inputs| && FormatsKnown(g)
    requires InputInv(g.inputs[k], g.configured, accepted)
    requires e.SendFrame? && e.i == k ==> !g.inputs[k].eof
    ensures var (h, ok) := Step(g, e);
            && FormatsKnown(h)
            && InputInv(h.inputs[k], h.configured,
                        if e.SendFrame? && e.i == k && ok then accepted + [e.f] else accepted)
  {
    match e
    case SendFrame(i, f, a) =>
      FrameKeepsFormats(g, i, f, a);
      FrameKeepsInput(g, i, f, a, k, accepted);
    case SendEof(i) =>
      EofKeeps(g.inputs[k], g.configured, accepted);
    case BuildIfReady(ok) => BuildKeeps(g, ok, k, accepted);
    case FlushUnbuilt(formats, ok) =>
      GuessedKeeps(g, formats, k, accepted);
      hide Guessed, InputInv;
      if !g.configured { BuildKeeps(Guessed(g, formats), ok, k, accepted); }
  }

  lemma BuildKeeps(g: Graph, ok: bool, k: nat, accepted: seq<Frame>)
    requires k < |g.inputs| && FormatsKnown(g) && InputInv(g.inputs[k], g.configured, accepted)
    ensures FormatsKnown(OnBuild(g, ok))
    ensures InputInv(OnBuild(g, ok).inputs[k], OnBuild(g, ok).configured, accepted)
  {
    hide InputInv;
    ConfigureKeeps(g, ok, k, accepted);
  }

  lemma GuessedKeeps(g: Graph, formats: seq<Option<Params>>, k: nat, accepted: seq<Frame>)
    requires k < |g.inputs| && FormatsKnown(g) && InputInv(g.inputs[k], g.configured, accepted)
    ensures var h := Guessed(g, formats);
            && |h.inputs| == |g.inputs| && h.configured == g.configured
            && (!g.configured ==> FormatsKnown(h) && InputInv(h.inputs[k], h.configured, accepted))
  {
  }

  lemma {:induction false} EofFlag(kinds: seq<Kind>, events: seq<Event>, k: nat)
    requires Wired(|kinds|, events) && k < |kinds|
    ensures Run(kinds, events).inputs[k].eof <==> exists a :: 0 <= a < |events| && events[a] == SendEof(k)
  {
    if events != [] {
      var before := events[..|events| - 1];
      EofFlag(kinds, before, k);
      var e := events[|events| - 1];
      StepEof(Run(kinds, before), e, k);
      if e == SendEof(k) { assert events[|events| - 1] == SendEof(k); }
    }
  }

  lemma StepEof(g: Graph, e: Event, k: nat)
    requires Wires(|g.inputs|, e) && k < |g.inputs|
    ensures Step(g, e).0.inputs[k].eof <==> g.inputs[k].eof || e == SendEof(k)
  {
    hide NeedsReinit, Configured, HasAllFormats, AllEnded, OnBuild, Guessed;
    match e
    case SendFrame(i, f, a) => SameEof(Reformatted(g, i, f.params), a.configOk, k);
    case SendEof(i) =>
    case BuildIfReady(ok) => BuildSameEof(g, ok, k);
    case FlushUnbuilt(formats, ok) =>
      GuessedSameEof(g, formats, k);
      BuildSameEof(Guessed(g, formats), ok, k);
  }

  lemma BuildSameEof(g: Graph, ok: bool, k: nat)
    requires k < |g.inputs|
    ensures |OnBuild(g, ok).inputs| == |g.inputs| && OnBuild(g, ok).inputs[k].eof == g.inputs[k].eof
  {
    hide HasAllFormats;
  }

  lemma GuessedSameEof(g: Graph, formats: seq<Option<Params>>, k: nat)
    requires k < |g.inputs|
    ensures |Guessed(g, formats).inputs| == |g.inputs| && Guessed(g, formats).inputs[k].eof == g.inputs[k].eof
  {
  }

  /** Over any run every input's frames go out in the order accepted, the rest waiting in
      its queue; a built graph leaves nothing waiting; and no end of file overtakes. */
  lemma {:induction false} FramesBufferedInOrder(kinds: seq<Kind>, events: seq<Event>, k: nat)
    requires Wired(|kinds|, events) && EofIsLast(events) && k < |kinds|
    ensures var g := Run(kinds, events);
            FormatsKnown(g) && InputInv(g.inputs[k], g.configured, Accepted(kinds, events, k))
  {
    if events != [] {
      var before := events[..|events| - 1];
      FramesBufferedInOrder(kinds, before, k);
      EofFlag(kinds, before, k);
      StepKeepsInput(Run(kinds, before), events[|events| - 1], k, Accepted(kinds, before, k));
    }
  }

  /** The outputs are finished unbuilt only when every input has ended. */
  lemma {:induction false} FinishedMeansAllEnded(kinds: seq<Kind>, events: seq<Event>)
    requires Wired(|kinds|, events)
    ensures Run(kinds, events).finished ==> AllEnded(Run(kinds, events).inputs)
  {
    if events != [] {
      var before := events[..|events| - 1];
      FinishedMeansAllEnded(kinds, before);
      forall k | 0 <= k < |kinds|
        ensures Run(kinds, before).inputs[k].eof ==> Run(kinds, events).inputs[k].eof
      {
        StepEof(Run(kinds, before), events[|events| - 1], k);
      }
    }
  }

  /** A built graph has a format for every audio and video input. */
  lemma {:induction false} BuiltMeansFormatsKnown(kinds: seq<Kind>, events: seq<Event>, k: nat)
    requires Wired(|kinds|, events) && EofIsLast(events) && k < |kinds|
    requires Run(kinds, events).configured && Run(kinds, events).inputs[k].kind in {Audio, Video}
    ensures Run(kinds, events).inputs[k].params.Some?
  {
    FramesBufferedInOrder(kinds, events, k);
  }

  /** The end of an input finishes the outputs of an unbuilt graph exactly when it is the
      last one; a built graph only passes it on. */
  lemma EofFinishesExactly(g: Graph, i: nat)
    requires i < |g.inputs| && !g.finished
    ensures var h := OnEof(g, i);
            && (h.finished <==> !g.configured && forall j :: 0 <= j < |g.inputs| ==> j == i || g.inputs[j].eof)
            && h.inputs[i].eof
            && h.inputs[i].log == g.inputs[i].log + if g.configured then [Eof] else []
  {
    var ended := g.inputs[i := g.inputs[i].(eof := true)];
    assert forall j :: 0 <= j < |g.inputs| && j != i ==> ended[j] == g.inputs[j];
  }

  /** Inputs that have a format keep it, the others take the demuxer's. */
  lemma GuessOnlyFills(g: Graph, formats: seq<Option<Params>>, k: nat)
    requires k < |g.inputs|
    ensures Guessed(g, formats) == g.(inputs := Guessed(g, formats).inputs)
    ensures |Guessed(g, formats).inputs| == |g.inputs|
    ensures var x, y := g.inputs[k], Guessed(g, formats).inputs[k];
            && (x.params.Some? || k >= |formats| ==> y == x)
            && (x.params.None? && k < |formats| ==> y == x.(params := formats[k]))
  {
  }

  // ----- formats -----

  /** Two formats a buffer source of this kind does not tell apart. */
  predicate Agree(kind: Kind, a: Params, b: Params) {
    && a.format == b.format && a.hwFrames == b.hwFrames
    && (kind == Audio ==>
          a.sampleRate == b.sampleRate && a.channels == b.channels && a.channelLayout == b.channelLayout)
    && (kind == Video ==> a.width == b.width && a.height == b.height)
  }

  /** The format is the one the input remembers. */
  predicate Known(x: Input, p: Params) { x.params.Some? && Agree(x.kind, x.params.value, p) }

  /** What the buffer source now in place was made with. */
  function Source(log: seq<Item>): Option<Params> {
    if log == [] then None
    else if log[|log| - 1].Reset? then log[|log| - 1].made
    else Source(log[..|log| - 1])
  }

  predicate Fits(kind: Kind, made: Option<Params>, f: Frame) {
    made.Some? && Agree(kind, made.value, f.params)
  }

  /** Every frame went to a buffer source made for its format. */
  ghost predicate AllFit(kind: Kind, log: seq<Item>) {
    log == [] ||
    var before, last := log[..|log| - 1], log[|log| - 1];
    AllFit(kind, before) && (last.Push? ==> Fits(kind, Source(before), last.f))
  }

  /** The buffer source is not made for the format the input remembers. */
  predicate OutOfDate(x: Input) {
    x.params.Some? && !(Source(x.log).Some? && Agree(x.kind, Source(x.log).value, x.params.value))
  }

  lemma AllFitOne(kind: Kind, log: seq<Item>, item: Item)
    ensures AllFit(kind, log + [item]) <==> AllFit(kind, log) && (item.Push? ==> Fits(kind, Source(log), item.f))
    ensures Source(log + [item]) == if item.Reset? then item.made else Source(log)
  {
    assert (log + [item])[..|log|] == log;
  }

  lemma {:induction false} AllFitPushes(kind: Kind, log: seq<Item>, fs: seq<Frame>)
    ensures Source(log + Pushes(fs)) == Source(log)
    ensures AllFit(kind, log + Pushes(fs)) <==> AllFit(kind, log) && forall f <- fs :: Fits(kind, Source(log), f)
  {
    if fs == [] {
      assert log + Pushes(fs) == log;
    } else {
      var init, f := fs[..|fs| - 1], fs[|fs| - 1];
      AllFitPushes(kind, log, init);
      AllFitOne(kind, log + Pushes(init), Push(f));
      assert log + Pushes(fs) == log + Pushes(init) + [Push(f)];
      assert fs == init + [f];
    }
  }

  /** A rebuild makes the buffer source for the format remembered; the frames queued fit it
      exactly when they agree with that format. */
  lemma RebuildFits(x: Input, ok: bool)
    requires AllFit(x.kind, x.log)
    ensures Source(Rebuilt(x, ok).log) == x.params
    ensures AllFit(x.kind, Rebuilt(x, ok).log) <==> ok ==> forall f <- x.queue :: Fits(x.kind, x.params, f)
  {
    AllFitOne(x.kind, x.log, Reset(x.params));
    if ok {
      var l := x.log + [Reset(x.params)];
      AllFitPushes(x.kind, l, x.queue);
      AllFitOne(x.kind, l + Pushes(x.queue), Eof);
      assert l + Pushes(x.queue) + [] == l + Pushes(x.queue);
    }
  }

  // The format input `k` remembers once a frame has come for input `i`.
  function Remembered(g: Graph, i: nat, p: Params, k: nat): Option<Params>
    requires i < |g.inputs| && k < |g.inputs|
  {
    if k == i && !Known(g.inputs[i], p) then Some(p) else g.inputs[k].params
  }

  /** Every audio and video input has a format, input `i` at the latest now. */
  predicate AllKnown(g: Graph, i: nat) {
    forall k :: 0 <= k < |g.inputs| && k != i && g.inputs[k].kind in {Audio, Video} ==> g.inputs[k].params.Some?
  }

  /** The one way a frame for input `i` makes the graph be built anew: the graph is not built
      or the frame has another format, all inputs have one, and no error came out of it. */
  predicate Rebuilds(g: Graph, i: nat, f: Frame, a: Answers)
    requires i < |g.inputs|
  {
    (!g.configured || !Known(g.inputs[i], f.params)) && AllKnown(g, i) && a.reapOk
  }

  /** A frame whose format the input remembers is only pushed. */
  lemma KnownFrameIsOnlyPushed(g: Graph, i: nat, f: Frame, a: Answers)
    requires i < |g.inputs| && g.configured && Known(g.inputs[i], f.params)
    ensures OnFrame(g, i, f, a) ==
            if a.pushOk then (g.(inputs := g.inputs[i := g.inputs[i].(log := g.inputs[i].log + [Push(f)])]), true)
            else (g, false)
  {
  }

  /** A frame of another format is remembered, and then waits, if a format is missing; or
      everything is built anew with the formats remembered, and the frame pushed. */
  lemma OtherFrameRebuilds(g: Graph, i: nat, f: Frame, a: Answers, k: nat)
    requires i < |g.inputs| && k < |g.inputs| && (!g.configured || !Known(g.inputs[i], f.params))
    ensures
      var x, (h, ok) := g.inputs[k].(params := Remembered(g, i, f.params, k)), OnFrame(g, i, f, a);
      && (!AllKnown(g, i) ==>
            ok && h.configured == g.configured
            && h.inputs[k] == (if k == i then x.(queue := x.queue + [f]) else x))
      && (AllKnown(g, i) && !a.reapOk ==> !ok && h.inputs[k] == x && h.configured == g.configured)
      && (Rebuilds(g, i, f, a) && !a.configOk ==> !ok && !h.configured && h.inputs[k] == Rebuilt(x, false))
      && (Rebuilds(g, i, f, a) && a.configOk ==>
            && h.configured && (ok <==> a.pushOk)
            && h.inputs[k] == (var y := Rebuilt(x, true);
                               if k == i && a.pushOk then y.(log := y.log + [Push(f)]) else y))
  {
    hide Rebuilt;
    ReformattedIs(g, i, f.params);
    KnownIsAll(g, i, f.params);
  }

  lemma ReformattedIs(g: Graph, i: nat, p: Params)
    requires i < |g.inputs|
    ensures var h := Reformatted(g, i, p);
            && |h.inputs| == |g.inputs| && h.configured == g.configured
            && (NeedsReinit(g.inputs[i], p) <==> !Known(g.inputs[i], p))
            && forall k :: 0 <= k < |g.inputs| ==>
                 h.inputs[k] == g.inputs[k].(params := Remembered(g, i, p, k))
  {
  }

  lemma KnownIsAll(g: Graph, i: nat, p: Params)
    requires i < |g.inputs|
    ensures HasAllFormats(Reformatted(g, i, p).inputs) <==> AllKnown(g, i)
  {
    ReformattedIs(g, i, p);
    var h := Reformatted(g, i, p);
    assert forall k :: 0 <= k < |g.inputs| ==> h.inputs[k].kind == g.inputs[k].kind;
    assert h.inputs[i].params.Some?;
    if AllKnown(g, i) {
      forall k | 0 <= k < |h.inputs| ensures h.inputs[k].params.Some? || h.inputs[k].kind == Subtitle {
        assert h.inputs[k] == g.inputs[k].(params := Remembered(g, i, p, k));
      }
    }
    if HasAllFormats(h.inputs) {
      forall k | 0 <= k < |g.inputs| && k != i && g.inputs[k].kind in {Audio, Video}
        ensures g.inputs[k].params.Some?
      {
        assert h.inputs[k] == g.inputs[k].(params := Remembered(g, i, p, k));
      }
    }
  }

  /** What gives input `k` a frame its buffer source was not made for: a frame that agrees
      with the format remembered, when the source does not; or a build while a frame waits
      whose format is not the one remembered last. */
  predicate Misfit(g: Graph, e: Event, k: nat)
    requires Wires(|g.inputs|, e) && k < |g.inputs|
  {
    match e
    case SendFrame(i, f, a) =>
      if g.configured && Known(g.inputs[i], f.params) then i == k && a.pushOk && OutOfDate(g.inputs[k])
      else
        Rebuilds(g, i, f, a) && a.configOk
        && Waiting(g.inputs[k].kind, g.inputs[k].queue, Remembered(g, i, f.params, k))
    case SendEof(_) => false
    case BuildIfReady(ok) =>
      && !g.configured && HasAllFormats(g.inputs) && ok
      && Waiting(g.inputs[k].kind, g.inputs[k].queue, g.inputs[k].params)
    case FlushUnbuilt(formats, ok) =>
      var h := Guessed(g, formats);
      && !g.configured && HasAllFormats(h.inputs) && ok
      && Waiting(g.inputs[k].kind, g.inputs[k].queue, h.inputs[k].params)
  }

  predicate Waiting(kind: Kind, queue: seq<Frame>, made: Option<Params>) {
    exists f <- queue :: !Fits(kind, made, f)
  }

  lemma StepFitsExactly(g: Graph, e: Event, k: nat)
    requires Wires(|g.inputs|, e) && k < |g.inputs| && AllFit(g.inputs[k].kind, g.inputs[k].log)
    ensures var y := Step(g, e).0.inputs[k];
            y.kind == g.inputs[k].kind && (AllFit(y.kind, y.log) <==> !Misfit(g, e, k))
  {
    hide OnFrame, OnBuild, Guessed, GuessedParams, AllFit, HasAllFormats, AllEnded, Waiting;
    match e
    case SendFrame(i, f, a) => FrameFitsExactly(g, i, f, a, k);
    case SendEof(i) => AllFitOne(g.inputs[k].kind, g.inputs[k].log, Eof);
    case BuildIfReady(ok) => BuildFitsExactly(g, ok, k);
    case FlushUnbuilt(formats, ok) =>
      GuessOnlyFills(g, formats, k);
      BuildFitsExactly(Guessed(g, formats), ok, k);
  }

  lemma BuildFitsExactly(g: Graph, ok: bool, k: nat)
    requires k < |g.inputs| && AllFit(g.inputs[k].kind, g.inputs[k].log)
    ensures var x, h := g.inputs[k], OnBuild(g, ok);
            && |h.inputs| == |g.inputs| && h.inputs[k].kind == x.kind
            && (AllFit(x.kind, h.inputs[k].log)
                <==> !(!g.configured && HasAllFormats(g.inputs) && ok && Waiting(x.kind, x.queue, x.params)))
  {
    hide AllFit, HasAllFormats, Rebuilt;
    RebuildFits(g.inputs[k], ok);
    RebuiltKind(g.inputs[k], ok);
  }

  lemma FrameFitsExactly(g: Graph, i: nat, f: Frame, a: Answers, k: nat)
    requires i < |g.inputs| && k < |g.inputs| && AllFit(g.inputs[k].kind, g.inputs[k].log)
    ensures var y := OnFrame(g, i, f, a).0.inputs[k];
            y.kind == g.inputs[k].kind && (AllFit(y.kind, y.log) <==> !Misfit(g, SendFrame(i, f, a), k))
  {
    hide OnFrame, AllFit, AllKnown, Source, Rebuilt;
    var x := g.inputs[k];
    if g.configured && Known(g.inputs[i], f.params) {
      KnownFrameIsOnlyPushed(g, i, f, a);
      AllFitOne(x.kind, x.log, Push(f));
    } else {
      var z := x.(params := Remembered(g, i, f.params, k));
      OtherFrameRebuilds(g, i, f, a, k);
      RebuildFits(z, a.configOk);
      RebuiltKind(z, a.configOk);
      AllFitOne(x.kind, Rebuilt(z, true).log, Push(f));
    }
  }

  lemma RebuiltKind(x: Input, ok: bool)
    ensures Rebuilt(x, ok).kind == x.kind && Rebuilt(x, ok).params == x.params && x.log <= Rebuilt(x, ok).log
  {
  }

  ghost predicate NoMisfit(kinds: seq<Kind>, events: seq<Event>, k: nat)
    requires Wired(|kinds|, events) && k < |kinds|
  {
    events != [] ==>
      var before := events[..|events| - 1];
      assert Wired(|kinds|, before);
      NoMisfit(kinds, before, k) && !Misfit(Run(kinds, before), events[|events| - 1], k)
  }

  /** Over any run every frame went to a buffer source made for its format exactly when no
      step of it was a misfit. */
  lemma {:induction false} FramesFitExactly(kinds: seq<Kind>, events: seq<Event>, k: nat)
    requires Wired(|kinds|, events) && k < |kinds|
    ensures Run(kinds, events).inputs[k].kind == kinds[k]
    ensures AllFit(kinds[k], Run(kinds, events).inputs[k].log) <==> NoMisfit(kinds, events, k)
  {
    if events != [] {
      var before, e := events[..|events| - 1], events[|events| - 1];
      FramesFitExactly(kinds, before, k);
      var g := Run(kinds, before);
      if AllFit(kinds[k], g.inputs[k].log) {
        StepFitsExactly(g, e, k);
      } else {
        StaysUnfit(g, e, k);
      }
      hide AllFit, Misfit, Step;
    }
  }

  lemma {:induction false} PrefixFits(kind: Kind, log: seq<Item>, more: seq<Item>)
    requires AllFit(kind, log + more)
    ensures AllFit(kind, log)
  {
    if more == [] {
      assert log + more == log;
    } else {
      assert (log + more)[..|log + more| - 1] == log + more[..|more| - 1];
      PrefixFits(kind, log, more[..|more| - 1]);
    }
  }

  lemma StaysUnfit(g: Graph, e: Event, k: nat)
    requires Wires(|g.inputs|, e) && k < |g.inputs| && !AllFit(g.inputs[k].kind, g.inputs[k].log)
    ensures var y := Step(g, e).0.inputs[k];
            y.kind == g.inputs[k].kind && !AllFit(y.kind, y.log)
  {
    var x, y := g.inputs[k], Step(g, e).0.inputs[k];
    LogGrows(g, e, k);
    if AllFit(y.kind, y.log) {
      assert y.log == x.log + y.log[|x.log|..];
      PrefixFits(y.kind, x.log, y.log[|x.log|..]);
    }
  }

  lemma LogGrows(g: Graph, e: Event, k: nat)
    requires Wires(|g.inputs|, e) && k < |g.inputs|
    ensures var y := Step(g, e).0.inputs[k];
            y.kind == g.inputs[k].kind && g.inputs[k].log <= y.log
  {
    hide OnFrame, OnBuild, Guessed, GuessedParams, HasAllFormats, AllEnded, Rebuilt;
    match e
    case SendFrame(i, f, a) => FrameLogGrows(g, i, f, a, k);
    case SendEof(i) =>
    case BuildIfReady(ok) => BuildLogGrows(g, ok, k);
    case FlushUnbuilt(formats, ok) =>
      GuessOnlyFills(g, formats, k);
      BuildLogGrows(Guessed(g, formats), ok, k);
  }

  lemma FrameLogGrows(g: Graph, i: nat, f: Frame, a: Answers, k: nat)
    requires i < |g.inputs| && k < |g.inputs|
    ensures var y := OnFrame(g, i, f, a).0.inputs[k];
            y.kind == g.inputs[k].kind && g.inputs[k].log <= y.log
  {
    hide OnFrame, Rebuilt, AllKnown;
    if g.configured && Known(g.inputs[i], f.params) {
      KnownFrameIsOnlyPushed(g, i, f, a);
    } else {
      OtherFrameRebuilds(g, i, f, a, k);
      RebuiltKind(g.inputs[k].(params := Remembered(g, i, f.params, k)), a.configOk);
    }
  }

  lemma BuildLogGrows(g: Graph, ok: bool, k: nat)
    requires k < |g.inputs|
    ensures var y := OnBuild(g, ok).inputs[k];
            |OnBuild(g, ok).inputs| == |g.inputs| && y.kind == g.inputs[k].kind && g.inputs[k].log <= y.log
  {
    hide Rebuilt, HasAllFormats;
    RebuiltKind(g.inputs[k], ok);
  }

  /** The buffer source of a built graph is made with the format remembered, until an error
      comes out of the graph while a frame of another format waits to rebuild it; then it
      is out of date. */
  lemma OutOfDateExactly(g: Graph, e: Event, k: nat)
    requires Wires(|g.inputs|, e) && k < |g.inputs|
    requires g.configured ==> AllKnown(g, k) && Source(g.inputs[k].log) == g.inputs[k].params
    ensures
      var h := Step(g, e).0;
      h.configured ==>
        if e.SendFrame? && e.i == k && g.configured && !Known(g.inputs[k], e.f.params) && !e.answers.reapOk
        then OutOfDate(h.inputs[k])
        else Source(h.inputs[k].log) == h.inputs[k].params
  {
    hide OnFrame, Guessed, GuessedParams, Rebuilt, HasAllFormats, AllEnded, Source;
    var x := g.inputs[k];
    match e
    case SendFrame(i, f, a) => FrameOutOfDate(g, i, f, a, k);
    case SendEof(i) => AllFitOne(x.kind, x.log, Eof);
    case BuildIfReady(ok) => MadeAnew(x, ok);
    case FlushUnbuilt(formats, ok) =>
      GuessOnlyFills(g, formats, k);
      MadeAnew(Guessed(g, formats).inputs[k], ok);
  }

  /** So in a run without such errors every buffer source of a built graph is made with the
      format its input remembers. */
  lemma {:induction false} SourcesStayCurrent(kinds: seq<Kind>, events: seq<Event>, k: nat)
    requires Wired(|kinds|, events) && k < |kinds|
    requires forall e <- events :: e.SendFrame? ==> e.answers.reapOk
    ensures var g := Run(kinds, events);
            FormatsKnown(g) && (g.configured ==> Source(g.inputs[k].log) == g.inputs[k].params)
  {
    if events != [] {
      var before, e := events[..|events| - 1], events[|events| - 1];
      assert e in events && forall x <- before :: x in events;
      SourcesStayCurrent(kinds, before, k);
      var g := Run(kinds, before);
      hide Step, Source;
      OutOfDateExactly(g, e, k);
      StepKeepsFormats(g, e);
    }
  }

  lemma StepKeepsFormats(g: Graph, e: Event)
    requires Wires(|g.inputs|, e) && FormatsKnown(g)
    ensures FormatsKnown(Step(g, e).0)
  {
    hide OnFrame, Rebuilt;
    match e
    case SendFrame(i, f, a) => FrameKeepsFormats(g, i, f, a);
    case SendEof(_) =>
    case BuildIfReady(ok) => BuildKeepsFormats(g, ok);
    case FlushUnbuilt(formats, ok) => if !g.configured { BuildKeepsFormats(Guessed(g, formats), ok); }
  }

  lemma BuildKeepsFormats(g: Graph, ok: bool)
    requires FormatsKnown(g)
    ensures FormatsKnown(OnBuild(g, ok))
  {
  }

  lemma MadeAnew(x: Input, ok: bool)
    ensures Source(Rebuilt(x, ok).log) == x.params == Rebuilt(x, ok).params
  {
    AllFitOne(x.kind, x.log, Reset(x.params));
    if ok {
      var l := x.log + [Reset(x.params)];
      AllFitPushes(x.kind, l, x.queue);
      AllFitOne(x.kind, l + Pushes(x.queue), Eof);
      assert l + Pushes(x.queue) + [] == l + Pushes(x.queue);
    }
  }

  lemma FrameOutOfDate(g: Graph, i: nat, f: Frame, a: Answers, k: nat)
    requires i < |g.inputs| && k < |g.inputs|
    requires g.configured ==> AllKnown(g, k) && Source(g.inputs[k].log) == g.inputs[k].params
    ensures var h := OnFrame(g, i, f, a).0;
            h.configured ==>
              if i == k && g.configured && !Known(g.inputs[k], f.params) && !a.reapOk then OutOfDate(h.inputs[k])
              else Source(h.inputs[k].log) == h.inputs[k].params
  {
    hide OnFrame, Source, Rebuilt;
    var x := g.inputs[k];
    if g.configured && Known(g.inputs[i], f.params) {
      KnownFrameIsOnlyPushed(g, i, f, a);
      AllFitOne(x.kind, x.log, Push(f));
    } else {
      var z := x.(params := Remembered(g, i, f.params, k));
      OtherFrameRebuilds(g, i, f, a, k);
      MadeAnew(z, a.configOk);
      RebuiltKind(z, a.configOk);
      AllFitOne(x.kind, Rebuilt(z, true).log, Push(f));
    }
  }

  // ----- the graph as the program updates it -----

  class InputFilter {
    const kind: Kind
    var params: Option<Params>
    var frameQueue: seq<Frame>
    var eof: bool
    var hasFilter: bool          // `filter` is set
    ghost var log: seq<Item>

    ghost function Value(): Input
      reads this
    {
      Input(kind, params, frameQueue, eof, log)
    }

    constructor (kind: Kind)
      ensures Value() == Input(kind, None, [], false, []) && !hasFilter
    {
      this.kind := kind;
      params, frameQueue, eof, hasFilter, log := None, [], false, false, [];
    }

    method AddFrame(f: Frame)
      modifies `log
      ensures Value() == old(Value()).(log := old(log) + [Push(f)])
    {
      log := log + [Push(f)];
    }

    /** The drain of one queue in configure_filtergraph. */
    method Drain()
      modifies `frameQueue, `log
      ensures Value() == old(Value()).(log := old(log) + Pushes(old(frameQueue)), queue := [])
    {
      ghost var all := frameQueue;
      ghost var done: seq<Frame> := [];
      while frameQueue != []
        invariant done + frameQueue == all && log == old(log) + Pushes(done)
        decreases |frameQueue|
      {
        var f := frameQueue[0];
        frameQueue := frameQueue[1..];
        AddFrame(f);
        assert Pushes(done) + [Push(f)] == Pushes(done + [f]);
        done := done + [f];
      }
      assert done == all;
    }
  }

  class FilterGraph {
    const inputs: seq<InputFilter>
    var configured: bool    // fg->graph is set
    var finished: bool

    ghost predicate Valid()
    {
      forall i, j :: 0 <= i < j < |inputs| ==> inputs[i] != inputs[j]
    }

    ghost predicate Matches(g: Graph)
      reads this, inputs
    {
      && configured == g.configured && finished == g.finished
      && |inputs| == |g.inputs|
      && forall i :: 0 <= i < |inputs| ==> inputs[i].Value() == g.inputs[i] && inputs[i].hasFilter == g.configured
    }

    ghost predicate Holds(before: seq<Input>)
      reads inputs
    {
      |inputs| == |before| && forall i :: 0 <= i < |inputs| ==> inputs[i].Value() == before[i]
    }

    constructor (inputs: seq<InputFilter>)
      requires forall i, j :: 0 <= i < j < |inputs| ==> inputs[i] != inputs[j]
      ensures Valid() && this.inputs == inputs && !configured && !finished
    {
      this.inputs, configured, finished := inputs, false, false;
    }

    method HasAll(ghost now: seq<Input>) returns (all: bool)
      requires Holds(now)
      ensures all == HasAllFormats(now)
    {
      var i := 0;
      while i < |inputs|
        invariant 0 <= i <= |inputs|
        invariant forall k :: 0 <= k < i ==> inputs[k].params.Some? || inputs[k].kind == Subtitle
      {
        if inputs[i].params.None? && (inputs[i].kind == Audio || inputs[i].kind == Video) {
          return false;
        }
        i := i + 1;
      }
      return true;
    }

    /** cleanup_filtergraph, on the inputs. */
    method TearDown(ghost before: seq<Input>)
      requires Valid() && Holds(before)
      modifies inputs
      ensures |inputs| == |before| && forall i :: 0 <= i < |inputs| ==>
                inputs[i].Value() == TornDown(before[i]) && !inputs[i].hasFilter
    {
      var i := 0;
      while i < |inputs|
        invariant 0 <= i <= |inputs|
        invariant forall k :: 0 <= k < i ==> inputs[k].Value() == TornDown(before[k]) && !inputs[k].hasFilter
        invariant forall k :: i <= k < |inputs| ==> inputs[k].Value() == before[k]
      {
        inputs[i].hasFilter := false;
        inputs[i].log := inputs[i].log + [Reset(inputs[i].params)];
        i := i + 1;
      }
    }

    /** The loop that empties the queues into the new buffer sources. */
    method DrainAll(ghost before: seq<Input>)
      requires Valid() && Holds(before)
      modifies inputs
      ensures |inputs| == |before| && forall i :: 0 <= i < |inputs| ==>
                inputs[i].Value() == Drained(before[i]) && inputs[i].hasFilter
    {
      var i := 0;
      while i < |inputs|
        invariant 0 <= i <= |inputs|
        invariant forall k :: 0 <= k < i ==> inputs[k].Value() == Drained(before[k]) && inputs[k].hasFilter
        invariant forall k :: i <= k < |inputs| ==> inputs[k].Value() == before[k]
      {
        inputs[i].hasFilter := true;
        inputs[i].Drain();
        i := i + 1;
      }
    }

    /** The loop that tells the new buffer sources of ended inputs. */
    method SendEnds(ghost before: seq<Input>)
      requires Valid() && Holds(before) && forall i :: 0 <= i < |inputs| ==> inputs[i].hasFilter
      modifies inputs
      ensures |inputs| == |before| && forall i :: 0 <= i < |inputs| ==>
                inputs[i].Value() == Ended(before[i]) && inputs[i].hasFilter
    {
      var i := 0;
      while i < |inputs|
        invariant 0 <= i <= |inputs|
        invariant forall k :: 0 <= k < |inputs| ==> inputs[k].hasFilter
        invariant forall k :: 0 <= k < i ==> inputs[k].Value() == Ended(before[k])
        invariant forall k :: i <= k < |inputs| ==> inputs[k].Value() == before[k]
      {
        if inputs[i].eof {
          inputs[i].log := inputs[i].log + [Eof];
        }
        i := i + 1;
      }
    }

    /** configure_filtergraph; `ok` is the libraries' answer to building the graph. */
    method Configure(ok: bool, ghost g: Graph)
      requires Valid() && Matches(g)
      modifies `configured, inputs
      ensures Matches(Configured(g, ok))
    {
      hide AllRebuilt, Rebuilt, TornDown, Drained, Ended;
      ghost var n := |inputs|;
      RebuildSteps(g.inputs);
      TearDown(g.inputs);
      configured := ok;
      if ok {
        ghost var torn := seq(n, i requires 0 <= i < n => TornDown(g.inputs[i]));
        DrainAll(torn);
        ghost var drained := seq(n, i requires 0 <= i < n => Drained(torn[i]));
        SendEnds(drained);
      }
    }

    /** Whether the frame's parameters are new for the input, which then takes them over. */
    method Reformat(i: nat, p: Params, ghost g: Graph) returns (reinit: bool)
      requires Valid() && Matches(g) && i < |inputs|
      modifies inputs[i]
      ensures Matches(Reformatted(g, i, p)) && reinit == NeedsReinit(g.inputs[i], p)
      ensures |Reformatted(g, i, p).inputs| == |g.inputs| && Reformatted(g, i, p).configured == g.configured
    {
      var input := inputs[i];
      reinit := NeedsReinitNow(input.kind, input.params, p);
      if reinit {
        input.params := Some(p);
      }
    }

    /** ifilter_send_frame. */
    method SendFrame(i: nat, f: Frame, a: Answers, ghost g: Graph) returns (ok: bool)
      requires Valid() && Matches(g) && i < |inputs|
      modifies `configured, inputs
      ensures Matches(OnFrame(g, i, f, a).0) && ok == OnFrame(g, i, f, a).1
    {
      hide Reformatted, AllRebuilt, Rebuilt, NeedsReinit, Queued, Pushed;
      var reinit := Reformat(i, f.params, g);
      ghost var g1 := Reformatted(g, i, f.params);
      if reinit || !configured {
        var all := HasAll(g1.inputs);
        if !all {
          Enqueue(i, f, g1);
          return true;
        }
        if !a.reapOk {
          return false;
        }
        Configure(a.configOk, g1);
        g1 := Configured(g1, a.configOk);
        if !configured {
          return false;
        }
      }
      if !a.pushOk {
        return false;
      }
      PushFrame(i, f, g1);
      return true;
    }

    method Enqueue(i: nat, f: Frame, ghost g: Graph)
      requires Valid() && Matches(g) && i < |g.inputs|
      modifies inputs[i]
      ensures Matches(Queued(g, i, f))
    {
      inputs[i].frameQueue := inputs[i].frameQueue + [f];
    }

    method PushFrame(i: nat, f: Frame, ghost g: Graph)
      requires Valid() && Matches(g) && i < |g.inputs|
      modifies inputs[i]
      ensures Matches(Pushed(g, i, Push(f)))
    {
      inputs[i].AddFrame(f);
    }

    /** transcode_step, before it asks the graph for frames. */
    method BuildIfReady(ok: bool, ghost g: Graph)
      requires Valid() && Matches(g)
      modifies `configured, inputs
      ensures Matches(OnBuild(g, ok))
    {
      hide AllRebuilt, Rebuilt;
      if !configured {
        var all := HasAll(g.inputs);
        if all {
          Configure(ok, g);
        }
      }
    }

    /** flush_encoders, for a stream that was never initialised; `formats` is what the
        demuxer knows of each input. */
    method FlushUnbuilt(formats: seq<Option<Params>>, ok: bool, ghost g: Graph)
      requires Valid() && Matches(g)
      modifies `configured, inputs
      ensures Matches(OnFlush(g, formats, ok))
    {
      hide OnBuild;
      if !configured {
        GuessFormats(formats, g);
        BuildIfReady(ok, Guessed(g, formats));
      }
    }

    method GuessFormats(formats: seq<Option<Params>>, ghost g: Graph)
      requires Valid() && Matches(g)
      modifies inputs
      ensures Matches(Guessed(g, formats))
    {
      var x := 0;
      while x < |inputs|
        invariant 0 <= x <= |inputs|
        invariant forall k :: 0 <= k < |inputs| ==> inputs[k].hasFilter == g.configured
        invariant forall k :: 0 <= k < x ==> inputs[k].Value() == GuessedParams(g.inputs[k], formats, k)
        invariant forall k :: x <= k < |inputs| ==> inputs[k].Value() == g.inputs[k]
      {
        if inputs[x].params.None? && x < |formats| {
          inputs[x].params := formats[x];
        }
        x := x + 1;
      }
    }

    /** ifilter_send_eof. */
    method SendEof(i: nat, ghost g: Graph)
      requires Valid() && Matches(g) && i < |inputs|
      modifies `finished, inputs
      ensures Matches(OnEof(g, i))
    {
      inputs[i].eof := true;
      if inputs[i].hasFilter {
        inputs[i].log := inputs[i].log + [Eof];
      } else {
        var k := 0;
        while k < |inputs| && inputs[k].eof
          invariant 0 <= k <= |inputs| && forall j :: 0 <= j < k ==> inputs[j].eof
        {
          k := k + 1;
        }
        ghost var ended := g.inputs[i := g.inputs[i].(eof := true)];
        assert Holds(ended);
        assert k < |inputs| ==> !ended[k].eof;
        assert AllEnded(ended) <==> k == |inputs|;
        if k == |inputs| {
          finished := true;
        }
      }
    }
  }

  function NeedsReinitNow(kind: Kind, params: Option<Params>, p: Params): bool {
    NeedsReinit(Input(kind, params, [], false, []), p)
  }

  function Drained(x: Input): Input { x.(log := x.log + Pushes(x.queue), queue := []) }

  function Ended(x: Input): Input { if x.eof then x.(log := x.log + [Eof]) else x }

  lemma DrainedThenEnded(x: Input)
    ensures Flushed(x) == Ended(Drained(x))
  {
    assert Drained(x).log + [] == Drained(x).log;
  }

  lemma RebuildSteps(xs: seq<Input>)
    ensures forall i :: 0 <= i < |xs| ==>
              Rebuilt(xs[i], true) == Ended(Drained(TornDown(xs[i]))) && Rebuilt(xs[i], false) == TornDown(xs[i])
  {
    hide Ended, Drained, Flushed;
    forall i | 0 <= i < |xs| ensures Rebuilt(xs[i], true) == Ended(Drained(TornDown(xs[i]))) {
      DrainedThenEnded(TornDown(xs[i]));
    }
  }
}
