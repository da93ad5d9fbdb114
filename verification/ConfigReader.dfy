/** The ffserver configuration reader: lines open and close feed, stream and redirect
    blocks, and every block is appended, through tail pointers, to one list of all blocks
    and, if it is a feed, to a second list of feeds. */
module ConfigReader {
  import opened Common

  datatype Kind = Feed | Stream | Redirect

  // A line as its command and argument; comments and blank lines are left out. `Other`
  // is any further command: the errors it reports where it stands, and whether it stops
  // the reading of a feed or stream block.
  datatype Line =
    | Open(kind: Kind, name: string)
    | Close(kind: Kind)
    | FeedRef(name: string)
    | Url(url: string)
    | Other(errors: nat, fatal: bool)

  // `feed` is the place in the list of feeds of the feed a stream is made from.
  datatype Block = Block(kind: Kind, name: string, url: string, feed: Option<nat>)

  datatype Config = Config(
    blocks: seq<Block>,
    isOpen: bool,      // the last block is not closed yet
    tagErrors: nat,    // errors about the nesting of blocks
    nameErrors: nat,   // errors about names already taken
    errors: nat,       // all errors
    broken: bool)      // reading stopped with an error code

  function Start(): Config { Config([], false, 0, 0, 0, false) }

  // ----- the two lists as values -----

  function FeedsOf(blocks: seq<Block>): seq<Block> {
    if blocks == [] then []
    else FeedsOf(blocks[..|blocks| - 1]) +
         if blocks[|blocks| - 1].kind == Feed then [blocks[|blocks| - 1]] else []
  }

  /** Where the first feed stands among all blocks; the number of blocks if there is none. */
  function FirstFeed(blocks: seq<Block>): (k: nat)
    ensures k <= |blocks|
    ensures k < |blocks| ==> blocks[k].kind == Feed
    ensures forall j :: 0 <= j < k ==> blocks[j].kind != Feed
  {
    if blocks == [] || blocks[0].kind == Feed then 0 else 1 + FirstFeed(blocks[1..])
  }

  function CountName(blocks: seq<Block>, from: nat, name: string): nat
    requires from <= |blocks|
    decreases |blocks| - from
  {
    if from == |blocks| then 0
    else (if blocks[from].name == name then 1 else 0) + CountName(blocks, from + 1, name)
  }

  /** The first feed of this name; the number of feeds if there is none. */
  function FindFeed(feeds: seq<Block>, name: string): (k: nat)
    ensures k <= |feeds|
    ensures k < |feeds| ==> feeds[k].name == name
    ensures forall j :: 0 <= j < k ==> feeds[j].name != name
  {
    if feeds == [] || feeds[0].name == name then 0 else 1 + FindFeed(feeds[1..], name)
  }

  /** Errors for a name already taken: a stream is compared with all blocks, a feed with
      those from the first feed on, a redirect with none. */
  function Registered(blocks: seq<Block>, kind: Kind, name: string): nat {
    match kind
    case Feed => CountName(blocks, FirstFeed(blocks), name)
    case Stream => CountName(blocks, 0, name)
    case Redirect => 0
  }

  // ----- one line -----

  function Opened(blocks: seq<Block>, kind: Kind, name: string): Block {
    Block(kind, name, "", if kind == Feed then Some(|FeedsOf(blocks)|) else None)
  }

  function Report(c: Config, n: nat): Config { c.(errors := c.errors + n) }

  function Misplaced(c: Config): Config { Report(c, 1).(tagErrors := c.tagErrors + 1) }

  function Outside(c: Config, line: Line): Config {
    match line
    case Open(kind, name) =>
      var taken := Registered(c.blocks, kind, name);
      Report(c, taken).(nameErrors := c.nameErrors + taken,
                        blocks := c.blocks + [Opened(c.blocks, kind, name)], isOpen := true)
    case Close(_) => Misplaced(c)
    case Other(errors, _) => Report(c, errors)
    case _ => Report(c, 1)
  }

  function Inside(c: Config, line: Line): Config
    requires c.blocks != []
  {
    var last := |c.blocks| - 1;
    var b := c.blocks[last];
    match line
    case Open(_, _) => Misplaced(c)
    case Close(kind) =>
      if kind != b.kind then Misplaced(c)
      else Report(c, if kind == Redirect && b.url == "" then 1 else 0).(isOpen := false)
    case FeedRef(name) =>
      var k := FindFeed(FeedsOf(c.blocks), name);
      if b.kind != Stream || k == |FeedsOf(c.blocks)| then Report(c, 1)
      else c.(blocks := c.blocks[last := b.(feed := Some(k))])
    case Url(url) =>
      if b.kind == Redirect then c.(blocks := c.blocks[last := b.(url := url)]) else Report(c, 1)
    case Other(errors, fatal) =>
      Report(c, errors).(broken := fatal && b.kind != Redirect)
  }

  function Step(c: Config, line: Line): Config {
    if c.broken then c
    else if c.isOpen && c.blocks != [] then Inside(c, line)
    else Outside(c, line)
  }

  function Read(lines: seq<Line>): Config {
    if lines == [] then Start() else Step(Read(lines[..|lines| - 1]), lines[|lines| - 1])
  }

  /** After the last line an open block is an error too. */
  function Finish(c: Config): Config { if c.isOpen then Misplaced(c) else c }

  function ReturnsZero(lines: seq<Line>): bool {
    !Finish(Read(lines)).broken && Finish(Read(lines)).errors == 0
  }

  // ----- nesting -----

  /** The opening and closing lines. */
  function Tags(lines: seq<Line>): seq<Line> {
    if lines == [] then []
    else
      var rest := Tags(lines[..|lines| - 1]);
      if lines[|lines| - 1].Open? || lines[|lines| - 1].Close? then rest + [lines[|lines| - 1]] else rest
  }

  /** A flat sequence of matched pairs. */
  predicate Flat(tags: seq<Line>) {
    tags == [] ||
    (var n := |tags|;
     n >= 2 && tags[n - 2].Open? && tags[n - 1] == Close(tags[n - 2].kind) && Flat(tags[..n - 2]))
  }

  /** Matched pairs, possibly followed by one more opening tag. */
  predicate FlatSoFar(tags: seq<Line>) {
    Flat(tags) || (tags != [] && tags[|tags| - 1].Open? && Flat(tags[..|tags| - 1]))
  }

  /** The nesting state fits the tags read, as long as they are flat so far. */
  ghost predicate FitsTags(c: Config, tags: seq<Line>) {
    && (c.isOpen ==> c.blocks != [])
    && (c.tagErrors == 0 <==> FlatSoFar(tags))
    && (c.tagErrors == 0 ==>
          if c.isOpen then !Flat(tags) && tags[|tags| - 1].kind == c.blocks[|c.blocks| - 1].kind
          else Flat(tags))
  }

  lemma TagKeepsFit(c: Config, tags: seq<Line>, line: Line)
    requires FitsTags(c, tags) && !c.broken && (line.Open? || line.Close?)
    ensures FitsTags(Step(c, line), tags + [line])
  {
    var more := tags + [line];
    assert more[..|more| - 1] == tags;
    if tags != [] {
      assert more[..|more| - 2] == tags[..|tags| - 1];
    }
    hide Registered, Opened;
  }

  lemma OtherKeepsFit(c: Config, tags: seq<Line>, line: Line)
    requires FitsTags(c, tags) && !(line.Open? || line.Close?)
    ensures FitsTags(Step(c, line), tags)
  {
    hide Flat, FlatSoFar, FindFeed, FeedsOf;
  }

  lemma {:induction false} ReadFitsTags(lines: seq<Line>)
    requires !Read(lines).broken
    ensures FitsTags(Read(lines), Tags(lines))
  {
    if lines != [] {
      var before := lines[..|lines| - 1];
      var line := lines[|lines| - 1];
      ReadFitsTags(before);
      if line.Open? || line.Close? {
        TagKeepsFit(Read(before), Tags(before), line);
      } else {
        OtherKeepsFit(Read(before), Tags(before), line);
      }
    }
  }

  /** Unless reading breaks off, no error is about the nesting exactly when the blocks
      come one after the other, each closed by its own tag before the next is opened. */
  lemma NoTagErrorExactlyWhenFlat(lines: seq<Line>)
    requires !Read(lines).broken
    ensures Finish(Read(lines)).tagErrors == 0 <==> Flat(Tags(lines))
  {
    ReadFitsTags(lines);
  }

  lemma {:induction false} TagErrorsAreErrors(lines: seq<Line>)
    ensures Read(lines).tagErrors + Read(lines).nameErrors <= Read(lines).errors
  {
    if lines != [] {
      TagErrorsAreErrors(lines[..|lines| - 1]);
      StepCountsErrors(Read(lines[..|lines| - 1]), lines[|lines| - 1]);
      hide Step;
    }
  }

  lemma StepCountsErrors(c: Config, line: Line)
    ensures Step(c, line).tagErrors + Step(c, line).nameErrors - c.tagErrors - c.nameErrors
            <= Step(c, line).errors - c.errors
  {
    hide Registered, Opened, FindFeed, FeedsOf;
  }

  /** So a return of 0 implies flat tags. */
  lemma ZeroMeansFlat(lines: seq<Line>)
    requires ReturnsZero(lines)
    ensures Flat(Tags(lines))
  {
    TagErrorsAreErrors(lines);
    NoTagErrorExactlyWhenFlat(lines);
  }

  // ----- names -----

  lemma {:induction false} CountIsZero(blocks: seq<Block>, from: nat, name: string)
    requires from <= |blocks|
    ensures CountName(blocks, from, name) == 0 <==> forall j :: from <= j < |blocks| ==> blocks[j].name != name
    decreases |blocks| - from
  {
    if from < |blocks| {
      CountIsZero(blocks, from + 1, name);
    }
  }

  /** Two blocks with one name are only let through when the later one is a redirect, or
      is a feed and the earlier one stands before the first feed. */
  ghost predicate NamesApart(blocks: seq<Block>) {
    forall i, j :: 0 <= i < j < |blocks| && blocks[i].name == blocks[j].name ==>
      blocks[j].kind == Redirect || (blocks[j].kind == Feed && i < FirstFeed(blocks))
  }

  lemma {:induction false} FirstFeedAppend(blocks: seq<Block>, b: Block)
    ensures FirstFeed(blocks + [b]) == if FirstFeed(blocks) < |blocks| || b.kind == Feed
                                       then FirstFeed(blocks) else |blocks| + 1
  {
    if blocks == [] {
      assert blocks + [b] == [b];
    } else {
      assert (blocks + [b])[1..] == blocks[1..] + [b];
      FirstFeedAppend(blocks[1..], b);
    }
  }

  lemma {:induction false} FirstFeedUpdate(blocks: seq<Block>, k: nat, b: Block)
    requires k < |blocks| && b.kind == blocks[k].kind
    ensures FirstFeed(blocks[k := b]) == FirstFeed(blocks)
  {
    if k > 0 {
      assert blocks[k := b][1..] == blocks[1..][k - 1 := b];
      FirstFeedUpdate(blocks[1..], k - 1, b);
    }
  }

  /** A block keeps names apart exactly when no error is reported for its name. */
  lemma AppendKeepsApart(blocks: seq<Block>, b: Block)
    ensures NamesApart(blocks + [b]) <==> NamesApart(blocks) && Registered(blocks, b.kind, b.name) == 0
  {
    var all := blocks + [b];
    FirstFeedAppend(blocks, b);
    CountIsZero(blocks, FirstFeed(blocks), b.name);
    CountIsZero(blocks, 0, b.name);
    assert forall j :: 0 <= j < |blocks| ==> all[j] == blocks[j];
    assert all[|blocks|] == b;
  }

  lemma UpdateKeepsApart(blocks: seq<Block>, k: nat, b: Block)
    requires k < |blocks| && b.kind == blocks[k].kind && b.name == blocks[k].name
    ensures NamesApart(blocks[k := b]) <==> NamesApart(blocks)
  {
    FirstFeedUpdate(blocks, k, b);
    assert forall j :: 0 <= j < |blocks| ==> SameHead(blocks[k := b][j], blocks[j]);
    HeadsDecide(blocks[k := b], blocks);
    HeadsDecide(blocks, blocks[k := b]);
  }

  predicate SameHead(b: Block, c: Block) { b.kind == c.kind && b.name == c.name }

  lemma HeadsDecide(blocks: seq<Block>, cs: seq<Block>)
    requires |blocks| == |cs| && FirstFeed(blocks) == FirstFeed(cs)
    requires forall j :: 0 <= j < |blocks| ==> SameHead(blocks[j], cs[j])
    ensures NamesApart(cs) ==> NamesApart(blocks)
  {
    forall i, j | NamesApart(cs) && 0 <= i < j < |blocks| && blocks[i].name == blocks[j].name
      ensures blocks[j].kind == Redirect || (blocks[j].kind == Feed && i < FirstFeed(blocks))
    {
      assert SameHead(blocks[i], cs[i]) && SameHead(blocks[j], cs[j]);
    }
  }

  /** Over any lines, no error about a name exactly when names are apart in this sense:
      the reader lets through all such configurations, and no others. */
  lemma {:induction false} NoNameErrorExactlyWhenApart(lines: seq<Line>)
    ensures Read(lines).nameErrors == 0 <==> NamesApart(Read(lines).blocks)
  {
    if lines != [] {
      var c := Read(lines[..|lines| - 1]);
      NoNameErrorExactlyWhenApart(lines[..|lines| - 1]);
      StepDecidesNames(c, lines[|lines| - 1]);
    }
  }

  lemma StepDecidesNames(c: Config, line: Line)
    requires c.nameErrors == 0 <==> NamesApart(c.blocks)
    ensures Step(c, line).nameErrors == 0 <==> NamesApart(Step(c, line).blocks)
  {
    hide NamesApart, Registered, FeedsOf;
    match line
    case Open(kind, name) => AppendKeepsApart(c.blocks, Opened(c.blocks, kind, name));
    case FeedRef(name) =>
      if c.blocks != [] {
        var last := |c.blocks| - 1;
        UpdateKeepsApart(c.blocks, last, c.blocks[last].(feed := Some(FindFeed(FeedsOf(c.blocks), name))));
      }
    case Url(url) =>
      if c.blocks != [] {
        UpdateKeepsApart(c.blocks, |c.blocks| - 1, c.blocks[|c.blocks| - 1].(url := url));
      }
    case _ =>
  }

  /** So without errors, as before a return of 0, names are apart. */
  lemma NamesApartWithoutErrors(lines: seq<Line>)
    requires Read(lines).errors == 0
    ensures NamesApart(Read(lines).blocks)
  {
    TagErrorsAreErrors(lines);
    NoNameErrorExactlyWhenApart(lines);
  }

  // ----- the configurations that are accepted, by their lines alone -----

  /** The kind of the block the last line stands in, or opens. */
  function OpenKind(lines: seq<Line>): Option<Kind> {
    if lines == [] then None
    else match lines[|lines| - 1]
      case Open(kind, _) => Some(kind)
      case Close(_) => None
      case _ => OpenKind(lines[..|lines| - 1])
  }

  /** The URL given last since that block was opened. */
  function UrlSoFar(lines: seq<Line>): string {
    if lines == [] then ""
    else match lines[|lines| - 1]
      case Url(url) => url
      case Open(_, _) => ""
      case _ => UrlSoFar(lines[..|lines| - 1])
  }

  /** The names of the feeds opened, in order. */
  function FeedNames(lines: seq<Line>): seq<string> {
    if lines == [] then []
    else FeedNames(lines[..|lines| - 1]) + match lines[|lines| - 1]
      case Open(kind, name) => if kind == Feed then [name] else []
      case _ => []
  }

  /** The line is an error where it stands, nesting and names aside: a feed named outside a
      stream, or unknown; a URL outside a redirect; a redirect closed without one; a command
      that reports errors, or stops the reading of a feed or stream. */
  predicate Fails(before: seq<Line>, line: Line) {
    match line
    case Open(_, _) => false
    case Close(kind) => kind == Redirect && OpenKind(before) == Some(Redirect) && UrlSoFar(before) == ""
    case FeedRef(name) => OpenKind(before) != Some(Stream) || name !in FeedNames(before)
    case Url(_) => OpenKind(before) != Some(Redirect)
    case Other(errors, fatal) => errors > 0 || (fatal && OpenKind(before) in {Some(Feed), Some(Stream)})
  }

  predicate NoneFails(lines: seq<Line>) {
    lines == [] || (NoneFails(lines[..|lines| - 1]) && !Fails(lines[..|lines| - 1], lines[|lines| - 1]))
  }

  function NamesOf(blocks: seq<Block>): seq<string> {
    seq(|blocks|, i requires 0 <= i < |blocks| => blocks[i].name)
  }

  /** The reader's state is what the lines say. */
  ghost predicate StateFits(c: Config, lines: seq<Line>) {
    && !c.broken && c.errors == 0
    && (c.isOpen <==> OpenKind(lines).Some?)
    && (c.isOpen ==> c.blocks != [] && c.blocks[|c.blocks| - 1].kind == OpenKind(lines).value)
    && (c.isOpen && c.blocks[|c.blocks| - 1].kind == Redirect ==> c.blocks[|c.blocks| - 1].url == UrlSoFar(lines))
    && NamesOf(FeedsOf(c.blocks)) == FeedNames(lines)
  }

  lemma FeedsOfAppend(blocks: seq<Block>, b: Block)
    ensures FeedsOf(blocks + [b]) == FeedsOf(blocks) + if b.kind == Feed then [b] else []
  {
    assert (blocks + [b])[..|blocks|] == blocks;
  }

  lemma FeedsOfUpdate(blocks: seq<Block>, b: Block)
    requires blocks != [] && b.kind == blocks[|blocks| - 1].kind && b.name == blocks[|blocks| - 1].name
    ensures NamesOf(FeedsOf(blocks[|blocks| - 1 := b])) == NamesOf(FeedsOf(blocks))
  {
    var n := |blocks| - 1;
    assert blocks[n := b][..n] == blocks[..n];
  }

  lemma FindsNamed(feeds: seq<Block>, name: string)
    ensures FindFeed(feeds, name) == |feeds| <==> name !in NamesOf(feeds)
  {
    var k := FindFeed(feeds, name);
    if k < |feeds| { assert NamesOf(feeds)[k] == name; }
    if name in NamesOf(feeds) {
      var j :| 0 <= j < |feeds| && NamesOf(feeds)[j] == name;
      assert feeds[j].name == name;
    }
  }

  lemma OneMoreLine(lines: seq<Line>, line: Line)
    ensures var more := lines + [line];
            && OpenKind(more) == (if line.Open? then Some(line.kind)
                                  else if line.Close? then None else OpenKind(lines))
            && UrlSoFar(more) == (if line.Url? then line.url else if line.Open? then "" else UrlSoFar(lines))
            && FeedNames(more) == if line.Open? && line.kind == Feed then FeedNames(lines) + [line.name]
                                  else FeedNames(lines)
  {
    assert (lines + [line])[..|lines|] == lines;
  }

  lemma LineFits(c: Config, lines: seq<Line>, line: Line)
    requires StateFits(c, lines)
    ensures var d := Step(c, line);
            && (!d.broken && d.errors == 0 <==>
                  d.tagErrors == c.tagErrors && d.nameErrors == c.nameErrors && !Fails(lines, line))
            && (!d.broken && d.errors == 0 ==> StateFits(d, lines + [line]))
  {
    hide *;
    match line
    case Open(_, _) => TagFits(c, lines, line);
    case Close(_) => TagFits(c, lines, line);
    case FeedRef(name) => FeedFits(c, lines, line);
    case Url(_) => CommandFits(c, lines, line);
    case Other(_, _) => CommandFits(c, lines, line);
  }

  lemma TagFits(c: Config, lines: seq<Line>, line: Line)
    requires StateFits(c, lines) && (line.Open? || line.Close?)
    ensures var d := Step(c, line);
            && (!d.broken && d.errors == 0 <==>
                  d.tagErrors == c.tagErrors && d.nameErrors == c.nameErrors && !Fails(lines, line))
            && (!d.broken && d.errors == 0 ==> StateFits(d, lines + [line]))
  {
    OneMoreLine(lines, line);
    hide FeedsOf, Registered, FindFeed, OpenKind, UrlSoFar, FeedNames;
    if line.Open? {
      var b := Opened(c.blocks, line.kind, line.name);
      FeedsOfAppend(c.blocks, b);
      assert NamesOf(FeedsOf(c.blocks) + [b]) == NamesOf(FeedsOf(c.blocks)) + [line.name];
    }
  }

  lemma CommandFits(c: Config, lines: seq<Line>, line: Line)
    requires StateFits(c, lines) && (line.Url? || line.Other?)
    ensures var d := Step(c, line);
            && (!d.broken && d.errors == 0 <==>
                  d.tagErrors == c.tagErrors && d.nameErrors == c.nameErrors && !Fails(lines, line))
            && (!d.broken && d.errors == 0 ==> StateFits(d, lines + [line]))
  {
    OneMoreLine(lines, line);
    hide FeedsOf, Registered, FindFeed, OpenKind, UrlSoFar, FeedNames;
    if line.Url? && c.isOpen {
      FeedsOfUpdate(c.blocks, c.blocks[|c.blocks| - 1].(url := line.url));
    }
  }

  lemma FeedFits(c: Config, lines: seq<Line>, line: Line)
    requires StateFits(c, lines) && line.FeedRef?
    ensures var d := Step(c, line);
            && (!d.broken && d.errors == 0 <==>
                  d.tagErrors == c.tagErrors && d.nameErrors == c.nameErrors && !Fails(lines, line))
            && (!d.broken && d.errors == 0 ==> StateFits(d, lines + [line]))
  {
    OneMoreLine(lines, line);
    hide FeedsOf, Registered, FindFeed, OpenKind, UrlSoFar, FeedNames;
    FindsNamed(FeedsOf(c.blocks), line.name);
    if c.isOpen {
      var b := c.blocks[|c.blocks| - 1];
      FeedsOfUpdate(c.blocks, b.(feed := Some(FindFeed(FeedsOf(c.blocks), line.name))));
    }
  }

  predicate Clean(c: Config) { !c.broken && c.errors == 0 }

  lemma {:induction false} CleanFits(lines: seq<Line>)
    ensures Clean(Read(lines)) ==> StateFits(Read(lines), lines) && NoneFails(lines)
    ensures Clean(Read(lines)) ==> Read(lines).tagErrors == 0 && Read(lines).nameErrors == 0
  {
    if lines == [] {
      assert FeedsOf([]) == [];
    } else {
      var before, line := lines[..|lines| - 1], lines[|lines| - 1];
      assert before + [line] == lines;
      CleanFits(before);
      TagErrorsAreErrors(lines);
      ErrorsStay(Read(before), line);
      hide StateFits, Fails, Step;
      if Clean(Read(lines)) { LineFits(Read(before), before, line); }
    }
  }

  lemma ErrorsStay(c: Config, line: Line)
    ensures Clean(Step(c, line)) ==> Clean(c)
  {
    hide Registered, Opened, FindFeed, FeedsOf;
  }

  lemma FlatBefore(tags: seq<Line>)
    requires FlatSoFar(tags) && tags != []
    ensures FlatSoFar(tags[..|tags| - 1])
  {
    if Flat(tags) {
      assert tags[..|tags| - 1][..|tags| - 2] == tags[..|tags| - 2];
    }
  }

  lemma ApartBefore(c: Config, line: Line)
    requires NamesApart(Step(c, line).blocks)
    ensures NamesApart(c.blocks)
  {
    hide NamesApart, Registered, FeedsOf;
    match line
    case Open(kind, name) => AppendKeepsApart(c.blocks, Opened(c.blocks, kind, name));
    case FeedRef(name) =>
      if c.blocks != [] {
        var last := |c.blocks| - 1;
        UpdateKeepsApart(c.blocks, last, c.blocks[last].(feed := Some(FindFeed(FeedsOf(c.blocks), name))));
      }
    case Url(url) =>
      if c.blocks != [] {
        UpdateKeepsApart(c.blocks, |c.blocks| - 1, c.blocks[|c.blocks| - 1].(url := url));
      }
    case _ =>
  }

  /** As far as it is read, a configuration is without errors exactly when its tags are flat
      so far, its names apart, and no line of it fails. */
  lemma {:induction false} CleanExactly(lines: seq<Line>)
    ensures Clean(Read(lines)) <==>
              FlatSoFar(Tags(lines)) && NamesApart(Read(lines).blocks) && NoneFails(lines)
  {
    CleanFits(lines);
    NoNameErrorExactlyWhenApart(lines);
    if Clean(Read(lines)) {
      ReadFitsTags(lines);
    } else if FlatSoFar(Tags(lines)) && NamesApart(Read(lines).blocks) && NoneFails(lines) {
      var before, line := lines[..|lines| - 1], lines[|lines| - 1];
      hide FlatSoFar, NamesApart, StateFits, Fails, Step;
      ApartBefore(Read(before), line);
      if Tags(before) != Tags(lines) {
        FlatBefore(Tags(lines));
        assert Tags(lines)[..|Tags(lines)| - 1] == Tags(before);
      }
      CleanExactly(before);
      CleanFits(before);
      LineFits(Read(before), before, line);
      StaysUnbroken(Read(before), before, line);
      ReadFitsTags(lines);
      assert false;
    }
  }

  lemma StaysUnbroken(c: Config, lines: seq<Line>, line: Line)
    requires StateFits(c, lines) && !Fails(lines, line)
    ensures !Step(c, line).broken
  {
    hide Registered, FindFeed, FeedsOf;
  }

  /** Reading returns 0 exactly for the lines whose tags are a flat sequence of matched
      pairs, whose names are apart, and of which none fails where it stands. */
  lemma ReturnsZeroExactly(lines: seq<Line>)
    ensures ReturnsZero(lines) <==>
              Flat(Tags(lines)) && NamesApart(Read(lines).blocks) && NoneFails(lines)
  {
    CleanExactly(lines);
    hide NamesApart, NoneFails, Read;
    if !Read(lines).broken { NoTagErrorExactlyWhenFlat(lines); }
    if Clean(Read(lines)) { CleanFits(lines); }
  }

  /** A stream is made from the first feed of the name it gives; a redirect leads to the URL
      it gives. Nothing else of the configuration changes. */
  lemma BlockTakes(c: Config, lines: seq<Line>, line: Line)
    requires StateFits(c, lines) && !Fails(lines, line) && (line.FeedRef? || line.Url?)
    ensures
      var d, n := Step(c, line), |c.blocks| - 1;
      && n >= 0 && d == c.(blocks := d.blocks) && |d.blocks| == |c.blocks| && d.blocks[..n] == c.blocks[..n]
      && (line.Url? ==> d.blocks[n] == c.blocks[n].(url := line.url))
      && (line.FeedRef? ==>
            && d.blocks[n].feed.Some? && d.blocks[n] == c.blocks[n].(feed := d.blocks[n].feed)
            && d.blocks[n].feed.value < |FeedNames(lines)|
            && FeedNames(lines)[d.blocks[n].feed.value] == line.name
            && forall j :: 0 <= j < d.blocks[n].feed.value ==> FeedNames(lines)[j] != line.name)
  {
    hide FeedsOf, Registered;
    if line.FeedRef? { FindsNamed(FeedsOf(c.blocks), line.name); }
    assert forall j :: 0 <= j < |FeedsOf(c.blocks)| ==> NamesOf(FeedsOf(c.blocks))[j] == FeedsOf(c.blocks)[j].name;
  }

  // ----- a run where two blocks share a name -----

  const STREAM_A: Block := Block(Stream, "a", "", None)
  const FEED_B: Block := Block(Feed, "b", "", Some(0))
  const FEED_A: Block := Block(Feed, "a", "", Some(1))

  function LinesOf(b: Block): seq<Line> { [Open(b.kind, b.name), Close(b.kind)] }

  /** Names are not unique in general: a stream before the first feed is overlooked when
      a later feed takes its name. */
  lemma StreamAndFeedShareAName()
    ensures var lines := LinesOf(STREAM_A) + LinesOf(FEED_B) + LinesOf(FEED_A);
            ReturnsZero(lines) && Read(lines).blocks == [STREAM_A, FEED_B, FEED_A]
    ensures STREAM_A.name == FEED_A.name
  {
    StreamIsFree();
    FeedIsFree();
    hide Read, Registered, Opened, LinesOf;
    ReadThree(STREAM_A, FEED_B, FEED_A);
  }

  lemma ReadThree(a: Block, b: Block, c: Block)
    requires a.kind != Redirect && b.kind != Redirect && c.kind != Redirect
    requires Registered([], a.kind, a.name) == 0 && Opened([], a.kind, a.name) == a
    requires Registered([a], b.kind, b.name) == 0 && Opened([a], b.kind, b.name) == b
    requires Registered([a, b], c.kind, c.name) == 0 && Opened([a, b], c.kind, c.name) == c
    ensures Read(LinesOf(a) + LinesOf(b) + LinesOf(c)) == Config([a, b, c], false, 0, 0, 0, false)
  {
    hide Registered, Opened, LinesOf;
    assert [] + LinesOf(a) == LinesOf(a) && [] + [a] == [a];
    ReadBlock([], [], a);
    ReadBlock(LinesOf(a), [a], b);
    ReadBlock(LinesOf(a) + LinesOf(b), [a, b], c);
  }

  // The names are free where they are taken, and the feeds are numbered as they come.
  lemma StreamIsFree()
    ensures Registered([], Stream, "a") == 0 && Opened([], Stream, "a") == STREAM_A
    ensures Registered([STREAM_A], Feed, "b") == 0 && Opened([STREAM_A], Feed, "b") == FEED_B
  {
    OneFeed();
    CountIsZero([], 0, "a");
    CountIsZero([STREAM_A], FirstFeed([STREAM_A]), "b");
    hide FirstFeed, CountName, FeedsOf;
  }

  lemma FeedIsFree()
    ensures Registered([STREAM_A, FEED_B], Feed, "a") == 0 && Opened([STREAM_A, FEED_B], Feed, "a") == FEED_A
  {
    OneFeed();
    CountIsZero([STREAM_A, FEED_B], 1, "a");
    hide FirstFeed, CountName, FeedsOf;
  }

  lemma OneFeed()
    ensures FeedsOf([STREAM_A]) == [] && FeedsOf([STREAM_A, FEED_B]) == [FEED_B]
    ensures FirstFeed([STREAM_A, FEED_B]) == 1
  {
    assert [STREAM_A][..0] == [] && [STREAM_A, FEED_B][..1] == [STREAM_A];
    assert [STREAM_A, FEED_B][1..] == [FEED_B];
  }

  // A block opened under a free name and closed by its own tag.
  lemma ReadBlock(lines: seq<Line>, blocks: seq<Block>, b: Block)
    requires Read(lines) == Config(blocks, false, 0, 0, 0, false) && b.kind != Redirect
    requires Registered(blocks, b.kind, b.name) == 0 && Opened(blocks, b.kind, b.name) == b
    ensures Read(lines + LinesOf(b)) == Config(blocks + [b], false, 0, 0, 0, false)
  {
    var begun := lines + [Open(b.kind, b.name)];
    assert begun[..|lines|] == lines;
    assert Read(begun) == Step(Read(lines), Open(b.kind, b.name)) == Config(blocks + [b], true, 0, 0, 0, false);
    var closed := lines + LinesOf(b);
    assert closed[..|closed| - 1] == begun && closed[|closed| - 1] == Close(b.kind);
    assert Read(closed) == Step(Read(begun), Close(b.kind));
    hide Read, Registered, Opened;
  }

  // ----- the reader with its pointers -----

  class Entry {
    const kind: Kind
    const name: string
    var url: string
    var feed: Entry?
    var next: Entry?
    var nextFeed: Entry?

    constructor (kind: Kind, name: string)
      ensures this.kind == kind && this.name == name && url == ""
      ensures feed == null && next == null && nextFeed == null
    {
      this.kind, this.name, url := kind, name, "";
      feed, next, nextFeed := null, null, null;
    }
  }

  /** The feeds among some blocks. */
  ghost function FeedEntries(nodes: seq<Entry>): seq<Entry> {
    if nodes == [] then []
    else FeedEntries(nodes[..|nodes| - 1]) +
         if nodes[|nodes| - 1].kind == Feed then [nodes[|nodes| - 1]] else []
  }

  /** Blocks and values agree on what never changes. */
  ghost predicate SameHeads(nodes: seq<Entry>, blocks: seq<Block>) {
    && |nodes| == |blocks|
    && forall i :: 0 <= i < |nodes| ==> nodes[i].kind == blocks[i].kind && nodes[i].name == blocks[i].name
  }

  lemma SameLength(nodes: seq<Entry>, blocks: seq<Block>)
    requires SameHeads(nodes, blocks)
    ensures |nodes| == |blocks|
  {
  }

  lemma SameHeadsLast(nodes: seq<Entry>, blocks: seq<Block>)
    requires SameHeads(nodes, blocks) && nodes != []
    ensures SameHeads(nodes[..|nodes| - 1], blocks[..|blocks| - 1])
    ensures SameHeads([nodes[|nodes| - 1]], [blocks[|blocks| - 1]])
    ensures nodes[|nodes| - 1].kind == blocks[|blocks| - 1].kind
  {
  }

  lemma SameHeadsAppend(ns: seq<Entry>, bs: seq<Block>, ms: seq<Entry>, cs: seq<Block>)
    requires SameHeads(ns, bs) && SameHeads(ms, cs)
    ensures SameHeads(ns + ms, bs + cs)
  {
  }

  lemma {:induction false} FeedsAgree(nodes: seq<Entry>, blocks: seq<Block>)
    requires SameHeads(nodes, blocks)
    ensures SameHeads(FeedEntries(nodes), FeedsOf(blocks))
  {
    if nodes != [] {
      var init, before := nodes[..|nodes| - 1], blocks[..|blocks| - 1];
      var n, b := nodes[|nodes| - 1], blocks[|blocks| - 1];
      SameHeadsLast(nodes, blocks);
      FeedsAgree(init, before);
      if n.kind == Feed {
        SameHeadsAppend(FeedEntries(init), FeedsOf(before), [n], [b]);
      } else {
        assert FeedEntries(init) + [] == FeedEntries(init) && FeedsOf(before) + [] == FeedsOf(before);
      }
      hide SameHeads;
    }
  }

  lemma {:induction false} FeedEntriesIn(nodes: seq<Entry>, b: Entry)
    requires b !in nodes
    ensures b !in FeedEntries(nodes)
  {
    if nodes != [] {
      FeedEntriesIn(nodes[..|nodes| - 1], b);
    }
  }

  lemma FeedCount(nodes: seq<Entry>, blocks: seq<Block>, b: Entry)
    requires SameHeads(nodes, blocks) && b !in nodes
    ensures |FeedEntries(nodes)| == |FeedsOf(blocks)| && b !in FeedEntries(nodes)
  {
    FeedsAgree(nodes, blocks);
    FeedEntriesIn(nodes, b);
  }

  lemma FeedEntriesAppend(nodes: seq<Entry>, b: Entry)
    ensures FeedEntries(nodes + [b]) == FeedEntries(nodes) + if b.kind == Feed then [b] else []
  {
    assert (nodes + [b])[..|nodes|] == nodes;
  }

  lemma {:induction false} FirstFeedEntry(nodes: seq<Entry>, blocks: seq<Block>)
    requires SameHeads(nodes, blocks)
    ensures var k := FirstFeed(blocks);
            if k < |nodes| then FeedEntries(nodes) != [] && FeedEntries(nodes)[0] == nodes[k]
            else FeedEntries(nodes) == []
  {
    hide FirstFeed, SameHeads;
    SameLength(nodes, blocks);
    if nodes != [] {
      var init, before := nodes[..|nodes| - 1], blocks[..|blocks| - 1];
      SameHeadsLast(nodes, blocks);
      FirstFeedEntry(init, before);
      assert before + [blocks[|blocks| - 1]] == blocks;
      FirstFeedAppend(before, blocks[|blocks| - 1]);
    }
  }

  lemma {:induction false} FindFeedFrom(feeds: seq<Block>, name: string, i: nat)
    requires i <= |feeds| && forall j :: 0 <= j < i ==> feeds[j].name != name
    ensures FindFeed(feeds, name) == i + FindFeed(feeds[i..], name)
    decreases i
  {
    if i > 0 {
      FindFeedFrom(feeds, name, i - 1);
      assert feeds[i - 1..][1..] == feeds[i..];
    }
  }

  function Init<T>(s: seq<T>): seq<T> { if s == [] then [] else s[..|s| - 1] }

  /** Distinct blocks, each but the last linked to the following one. */
  ghost predicate NextChain(ns: seq<Entry>)
    reads Init(ns)`next
  {
    ns == [] ||
    (&& NextChain(Init(ns))
     && ns[|ns| - 1] !in Init(ns)
     && (|ns| > 1 ==> ns[|ns| - 2].next == ns[|ns| - 1]))
  }

  ghost predicate FeedChain(ns: seq<Entry>)
    reads Init(ns)`nextFeed
  {
    ns == [] ||
    (&& FeedChain(Init(ns))
     && ns[|ns| - 1] !in Init(ns)
     && (|ns| > 1 ==> ns[|ns| - 2].nextFeed == ns[|ns| - 1]))
  }

  lemma NextChainMore(ns: seq<Entry>, b: Entry)
    requires NextChain(ns) && b !in ns && (ns != [] ==> ns[|ns| - 1].next == b)
    ensures NextChain(ns + [b])
  {
    assert Init(ns + [b]) == ns;
  }

  lemma FeedChainMore(ns: seq<Entry>, b: Entry)
    requires FeedChain(ns) && b !in ns && (ns != [] ==> ns[|ns| - 1].nextFeed == b)
    ensures FeedChain(ns + [b])
  {
    assert Init(ns + [b]) == ns;
  }

  lemma NextChainEnd(ns: seq<Entry>)
    requires NextChain(ns) && ns != []
    ensures ns[|ns| - 1] !in Init(ns)
  {
  }

  lemma FeedChainEnd(ns: seq<Entry>)
    requires FeedChain(ns) && ns != []
    ensures ns[|ns| - 1] !in Init(ns)
  {
  }

  lemma {:induction false} NextAt(ns: seq<Entry>, i: nat)
    requires NextChain(ns) && i + 1 < |ns|
    ensures ns[i].next == ns[i + 1]
  {
    if i + 2 < |ns| {
      NextAt(Init(ns), i);
    }
  }

  lemma {:induction false} NextFeedAt(ns: seq<Entry>, i: nat)
    requires FeedChain(ns) && i + 1 < |ns|
    ensures ns[i].nextFeed == ns[i + 1]
  {
    if i + 2 < |ns| {
      NextFeedAt(Init(ns), i);
    }
  }

  /** No block comes twice, so the list has no cycle. */
  lemma {:induction false} NoCycle(ns: seq<Entry>, i: nat, j: nat)
    requires NextChain(ns) && i < j < |ns|
    ensures ns[i] != ns[j]
  {
    if j + 1 < |ns| {
      NoCycle(Init(ns), i, j);
    }
  }

  lemma {:induction false} NoFeedCycle(ns: seq<Entry>, i: nat, j: nat)
    requires FeedChain(ns) && i < j < |ns|
    ensures ns[i] != ns[j]
  {
    if j + 1 < |ns| {
      NoFeedCycle(Init(ns), i, j);
    }
  }

  ghost predicate Holds(n: Entry, b: Block, feeds: seq<Entry>)
    reads n`url, n`feed
  {
    && n.kind == b.kind && n.name == b.name && n.url == b.url
    && (b.feed.None? ==> n.feed == null)
    && (b.feed.Some? ==> b.feed.value < |feeds| && n.feed == feeds[b.feed.value])
  }

  ghost predicate Mirror(nodes: seq<Entry>, blocks: seq<Block>, feeds: seq<Entry>)
    reads nodes`url, nodes`feed
  {
    && |nodes| == |blocks|
    && (nodes != [] ==>
        && Holds(nodes[|nodes| - 1], blocks[|nodes| - 1], feeds)
        && Mirror(nodes[..|nodes| - 1], blocks[..|nodes| - 1], feeds))
  }

  lemma {:induction false} MirrorHeads(nodes: seq<Entry>, blocks: seq<Block>, feeds: seq<Entry>)
    requires Mirror(nodes, blocks, feeds)
    ensures SameHeads(nodes, blocks)
  {
    if nodes != [] {
      MirrorHeads(nodes[..|nodes| - 1], blocks[..|nodes| - 1], feeds);
    }
  }

  lemma {:induction false} MirrorMore(nodes: seq<Entry>, blocks: seq<Block>, feeds: seq<Entry>, more: seq<Entry>)
    requires Mirror(nodes, blocks, feeds)
    ensures Mirror(nodes, blocks, feeds + more)
  {
    if nodes != [] {
      MirrorMore(nodes[..|nodes| - 1], blocks[..|nodes| - 1], feeds, more);
    }
  }

  lemma MirrorAppend(nodes: seq<Entry>, blocks: seq<Block>, feeds: seq<Entry>, n: Entry, b: Block, more: seq<Entry>)
    requires Mirror(nodes, blocks, feeds) && Holds(n, b, feeds + more)
    ensures Mirror(nodes + [n], blocks + [b], feeds + more)
  {
    MirrorMore(nodes, blocks, feeds, more);
    assert (nodes + [n])[..|nodes|] == nodes && (blocks + [b])[..|blocks|] == blocks;
  }

  class Reader {
    var firstStream: Entry?
    var firstFeed: Entry?
    // The tail pointers: the block whose link they designate, or null for the list head.
    var lastStream: Entry?
    var lastFeed: Entry?
    // The blocks being read.
    var stream: Entry?
    var feed: Entry?
    var redirect: Entry?
    var errors: nat
    ghost var nodes: seq<Entry>
    ghost var feeds: seq<Entry>
    ghost var value: Config

    /** The list of all blocks ends at its tail and has no cycle. */
    ghost predicate BlockList()
      reads `firstStream, `lastStream, `nodes, nodes`next
    {
      && NextChain(nodes)
      && (if nodes == [] then firstStream == null && lastStream == null
          else firstStream == nodes[0] && lastStream == nodes[|nodes| - 1] && nodes[|nodes| - 1].next == null)
    }

    /** So does the list of feeds. */
    ghost predicate FeedList()
      reads `firstFeed, `lastFeed, `feeds, feeds`nextFeed
    {
      && FeedChain(feeds)
      && (if feeds == [] then firstFeed == null && lastFeed == null
          else firstFeed == feeds[0] && lastFeed == feeds[|feeds| - 1] && feeds[|feeds| - 1].nextFeed == null)
    }

    /** And it is exactly the feeds of the first, in the same order. */
    ghost predicate Links()
      reads `firstStream, `firstFeed, `lastStream, `lastFeed, `nodes, `feeds, nodes`next, feeds`nextFeed
    {
      BlockList() && FeedList() && feeds == FeedEntries(nodes)
    }

    /** The entries hold what the value says. */
    ghost predicate Mirrors()
      reads `nodes, `feeds, `value, nodes`url, nodes`feed
    {
      Mirror(nodes, value.blocks, feeds)
    }

    /** At most one block is open: the last one, in the variable of its kind. */
    ghost predicate OneOpen()
      reads `stream, `feed, `redirect, `nodes, `value, `errors
    {
      && errors == value.errors
      && (value.isOpen ==> nodes != [])
      && feed == (if value.isOpen && nodes[|nodes| - 1].kind == Feed then nodes[|nodes| - 1] else null)
      && stream == (if value.isOpen && nodes[|nodes| - 1].kind == Stream then nodes[|nodes| - 1] else null)
      && redirect == (if value.isOpen && nodes[|nodes| - 1].kind == Redirect then nodes[|nodes| - 1] else null)
    }

    ghost predicate Valid()
      reads this, nodes, feeds
    {
      Links() && Mirrors() && OneOpen()
    }

    constructor ()
      ensures Valid() && value == Start() && nodes == []
    {
      firstStream, firstFeed, lastStream, lastFeed := null, null, null, null;
      stream, feed, redirect, errors := null, null, null, 0;
      nodes, feeds, value := [], [], Start();
    }

    // `*last_stream = b; last_stream = &b->next`
    method LinkBlock(b: Entry)
      requires BlockList() && b !in nodes && b.next == null
      modifies `firstStream, `lastStream, `nodes, nodes`next
      ensures BlockList() && nodes == old(nodes) + [b]
    {
      hide NextChain;
      if nodes != [] { NextChainEnd(nodes); }
      if lastStream == null {
        firstStream := b;
      } else {
        lastStream.next := b;
      }
      lastStream := b;
      NextChainMore(nodes, b);
      nodes := nodes + [b];
    }

    // `*last_feed = b; last_feed = &b->next_feed`
    method LinkFeed(b: Entry)
      requires FeedList() && b !in feeds && b.nextFeed == null
      modifies `firstFeed, `lastFeed, `feeds, feeds`nextFeed
      ensures FeedList() && feeds == old(feeds) + [b]
    {
      hide FeedChain;
      if feeds != [] { FeedChainEnd(feeds); }
      if lastFeed == null {
        firstFeed := b;
      } else {
        lastFeed.nextFeed := b;
      }
      lastFeed := b;
      FeedChainMore(feeds, b);
      feeds := feeds + [b];
    }

    /** The duplicate check: blocks of this name from entry `k` on, along `next`. */
    method CountFrom(start: Entry?, name: string, ghost k: nat) returns (n: nat)
      requires BlockList() && SameHeads(nodes, value.blocks) && k <= |nodes|
      requires start == if k < |nodes| then nodes[k] else null
      ensures n == CountName(value.blocks, k, name)
    {
      var s := start;
      ghost var i := k;
      n := 0;
      while s != null
        invariant k <= i <= |nodes| && s == if i < |nodes| then nodes[i] else null
        invariant n + CountName(value.blocks, i, name) == CountName(value.blocks, k, name)
        decreases |nodes| - i
      {
        if s.name == name {
          n := n + 1;
        }
        if i + 1 < |nodes| { NextAt(nodes, i); }
        s := s.next;
        i := i + 1;
      }
    }

    method CheckName(kind: Kind, name: string) returns (taken: nat)
      requires Links() && SameHeads(nodes, value.blocks)
      ensures taken == Registered(value.blocks, kind, name)
    {
      FirstFeedEntry(nodes, value.blocks);
      taken := 0;
      if kind == Feed {
        taken := CountFrom(firstFeed, name, FirstFeed(value.blocks));
      } else if kind == Stream {
        taken := CountFrom(firstStream, name, 0);
      }
    }

    /** The insertion of a new block into the list, or, for a feed, into both lists. */
    method Append(b: Entry)
      requires Links() && Mirrors() && b !in nodes && b.next == null && b.nextFeed == null
      requires b.url == "" && b.feed == if b.kind == Feed then b else null
      modifies `firstStream, `firstFeed, `lastStream, `lastFeed, `nodes, `feeds, `value, nodes`next, feeds`nextFeed
      ensures Links() && Mirrors() && nodes == old(nodes) + [b]
      ensures value == old(value).(blocks := old(value).blocks + [Opened(old(value).blocks, b.kind, b.name)])
      ensures feeds == if b.kind == Feed then old(feeds) + [b] else old(feeds)
    {
      hide *;
      BeforeAppend(b);
      ghost var block := Opened(value.blocks, b.kind, b.name);
      LinkMirrored(b, value.blocks + [block]);
      Record(block);
    }

    // The value of the block linked last.
    ghost method Record(block: Block)
      requires Links() && Mirror(nodes, value.blocks + [block], feeds)
      modifies `value
      ensures Links() && Mirrors() && value == old(value).(blocks := old(value).blocks + [block])
    {
      hide Links, Mirror;
      value := value.(blocks := value.blocks + [block]);
    }

    lemma BeforeAppend(b: Entry)
      requires Links() && Mirrors() && b !in nodes
      requires b.url == "" && b.feed == if b.kind == Feed then b else null
      ensures b !in feeds
      ensures Mirror(nodes + [b], value.blocks + [Opened(value.blocks, b.kind, b.name)],
                     if b.kind == Feed then feeds + [b] else feeds)
    {
      var block := Opened(value.blocks, b.kind, b.name);
      var more := if b.kind == Feed then [b] else [];
      MirrorHeads(nodes, value.blocks, feeds);
      FeedCount(nodes, value.blocks, b);
      hide Mirror, FeedEntries, FeedsOf, BlockList, FeedList;
      assert Holds(b, block, feeds + more);
      MirrorAppend(nodes, value.blocks, feeds, b, block, more);
      assert feeds + [] == feeds;
    }

    // Linking leaves what the entries hold.
    method LinkMirrored(b: Entry, ghost blocks: seq<Block>)
      requires Links() && b !in nodes && b !in feeds && b.next == null && b.nextFeed == null
      requires Mirror(nodes + [b], blocks, if b.kind == Feed then feeds + [b] else feeds)
      modifies `firstStream, `firstFeed, `lastStream, `lastFeed, `nodes, `feeds, nodes`next, feeds`nextFeed
      ensures Links() && Mirror(nodes, blocks, feeds) && nodes == old(nodes) + [b]
      ensures feeds == if b.kind == Feed then old(feeds) + [b] else old(feeds)
    {
      hide *;
      LinkBoth(b);
    }

    method LinkBoth(b: Entry)
      requires Links() && b !in nodes && b !in feeds && b.next == null && b.nextFeed == null
      modifies `firstStream, `firstFeed, `lastStream, `lastFeed, `nodes, `feeds, nodes`next, feeds`nextFeed
      ensures Links() && nodes == old(nodes) + [b]
      ensures feeds == if b.kind == Feed then old(feeds) + [b] else old(feeds)
    {
      FeedEntriesAppend(nodes, b);
      hide BlockList, FeedList, FeedEntries;
      LinkBlock(b);
      if b.kind == Feed {
        LinkFeed(b);
      }
    }

    /** An opening tag while no block is open; the caller then keeps the block open. */
    method OpenBlock(kind: Kind, name: string) returns (b: Entry)
      requires Valid() && !value.isOpen
      modifies `errors, `firstStream, `firstFeed, `lastStream, `lastFeed, `nodes, `feeds, `value,
               nodes`next, feeds`nextFeed
      ensures Links() && Mirrors() && nodes == old(nodes) + [b] && b.kind == kind
      ensures value == Outside(old(value), Open(kind, name)) && errors == value.errors
      ensures fresh(b) && feeds == if kind == Feed then old(feeds) + [b] else old(feeds)
    {
      hide Links, FeedsOf, Registered, Mirror;
      MirrorHeads(nodes, value.blocks, feeds);
      b := new Entry(kind, name);
      var taken := CheckName(kind, name);
      errors := errors + taken;
      if kind == Feed {
        b.feed := b;
      }
      Append(b);
      value := value.(errors := errors, nameErrors := value.nameErrors + taken, isOpen := true);
    }

    // Errors reported without any other effect; `nesting` when about the nesting.
    method ReportErrors(n: nat, nesting: bool)
      requires Valid()
      modifies `errors, `value
      ensures Valid() && value == if nesting then Report(old(value), n).(tagErrors := old(value).tagErrors + n)
                                  else Report(old(value), n)
    {
      hide Links, Mirror;
      errors := errors + n;
      value := if nesting then Report(value, n).(tagErrors := value.tagErrors + n) else Report(value, n);
    }

    /** The search along `next_feed`. */
    method FindFeedEntry(name: string) returns (f: Entry?)
      requires FeedList() && SameHeads(feeds, FeedsOf(value.blocks))
      ensures var k := FindFeed(FeedsOf(value.blocks), name);
              k <= |feeds| && f == if k < |feeds| then feeds[k] else null
    {
      hide FeedsOf;
      f := firstFeed;
      ghost var i := 0;
      while f != null && f.name != name
        invariant 0 <= i <= |feeds| && f == if i < |feeds| then feeds[i] else null
        invariant forall j :: 0 <= j < i ==> FeedsOf(value.blocks)[j].name != name
        decreases |feeds| - i
      {
        if i + 1 < |feeds| { NextFeedAt(feeds, i); }
        f := f.nextFeed;
        i := i + 1;
      }
      FindFeedFrom(FeedsOf(value.blocks), name, i);
    }

    // The last block is changed, and so is its value.
    lemma LastChanged(block: Block, before: seq<Block>)
      requires nodes != [] && |before| == |nodes| && Holds(nodes[|nodes| - 1], block, feeds)
      requires Mirror(nodes[..|nodes| - 1], before[..|nodes| - 1], feeds)
      ensures Mirror(nodes, before[|nodes| - 1 := block], feeds)
    {
      assert before[|nodes| - 1 := block][..|nodes| - 1] == before[..|nodes| - 1];
    }

    lemma LastIs()
      requires Valid() && nodes != []
      ensures |value.blocks| == |nodes|
      ensures Holds(nodes[|nodes| - 1], value.blocks[|nodes| - 1], feeds)
      ensures Mirror(nodes[..|nodes| - 1], value.blocks[..|nodes| - 1], feeds)
      ensures nodes[|nodes| - 1] !in nodes[..|nodes| - 1]
    {
    }

    // `stream->feed = sfeed`
    method SetFeed(sfeed: Entry, ghost k: nat)
      requires Valid() && stream != null && k < |feeds| && sfeed == feeds[k]
      modifies stream`feed
      ensures Links() && OneOpen() && |value.blocks| == |nodes| > 0
      ensures var last := |nodes| - 1;
              Mirror(nodes, value.blocks[last := value.blocks[last].(feed := Some(k))], feeds)
    {
      LastIs();
      hide Links, Mirror;
      stream.feed := sfeed;
      LastChanged(value.blocks[|nodes| - 1].(feed := Some(k)), value.blocks);
    }

    /** `Feed` inside a stream block. */
    method ReferToFeed(name: string)
      requires Valid() && stream != null
      modifies `errors, `value, stream`feed
      ensures Valid() && value == Inside(old(value), FeedRef(name))
    {
      hide FeedsOf, FindFeed, Links, Mirror, FeedList, SameHeads;
      LastIs();
      FeedsMatch();
      ghost var k := FindFeed(FeedsOf(value.blocks), name);
      ghost var next := Inside(value, FeedRef(name));
      var sfeed := FindFeedEntry(name);
      if sfeed == null {
        errors := errors + 1;
      } else {
        SetFeed(sfeed, k);
      }
      value := next;
    }

    lemma FeedsMatch()
      requires Links() && Mirrors()
      ensures SameHeads(feeds, FeedsOf(value.blocks)) && |feeds| == |FeedsOf(value.blocks)| && FeedList()
    {
      MirrorHeads(nodes, value.blocks, feeds);
      FeedsAgree(nodes, value.blocks);
    }

    /** `URL` inside a redirect block. */
    method SetUrl(url: string)
      requires Valid() && redirect != null
      modifies `value, redirect`url
      ensures Valid() && value == Inside(old(value), Url(url))
    {
      ghost var n := |nodes| - 1;
      LastIs();
      ghost var next := Inside(value, Url(url));
      ghost var before, block := value.blocks, value.blocks[n];
      hide FeedEntries, BlockList, FeedList, Mirror;
      redirect.url := url;
      LastChanged(block.(url := url), before);
      value := next;
    }

    /** A line of ffserver_parse_config_feed other than the opening one. */
    method ParseInFeed(line: Line) returns (ret: int)
      requires Valid() && feed != null && !value.broken && (line.Open? ==> line.kind != Feed)
      modifies `feed, `errors, `value
      ensures Valid() && value == Inside(old(value), line) && ret <= 0 && (ret < 0 <==> value.broken)
    {
      hide Links, Mirror, FindFeed, FeedsOf;
      LastIs();
      ret := 0;
      match line
      case Other(n, fatal) =>
        errors := errors + n;
        ret := if fatal then -1 else 0;
        value := Inside(value, line);
      case Close(kind) =>
        if kind == Feed {
          feed := null;
          value := Inside(value, line);
        } else {
          ReportErrors(1, true);
        }
      case Open(_, _) => ReportErrors(1, true);
      case _ => ReportErrors(1, false);
    }

    /** A line of ffserver_parse_config_stream other than the opening one. */
    method ParseInStream(line: Line) returns (ret: int)
      requires Valid() && stream != null && !value.broken && !(line.Open? && line.kind != Redirect)
      modifies `stream, `errors, `value, stream`feed
      ensures Valid() && value == Inside(old(value), line) && ret <= 0 && (ret < 0 <==> value.broken)
    {
      hide Links, Mirror, FindFeed, FeedsOf;
      LastIs();
      ret := 0;
      match line
      case Other(n, fatal) =>
        errors := errors + n;
        ret := if fatal then -1 else 0;
        value := Inside(value, line);
      case Close(kind) =>
        if kind == Stream {
          stream := null;
          value := Inside(value, line);
        } else {
          ReportErrors(1, true);
        }
      case FeedRef(name) => ReferToFeed(name);
      case Open(_, _) => ReportErrors(1, true);
      case Url(_) => ReportErrors(1, false);
    }

    /** A line of ffserver_parse_config_redirect other than the opening one. */
    method ParseInRedirect(line: Line)
      requires Valid() && redirect != null && !value.broken && !line.Open?
      modifies `redirect, `errors, `value, redirect`url
      ensures Valid() && value == Inside(old(value), line) && !value.broken
    {
      hide Links, Mirror, FindFeed, FeedsOf;
      LastIs();
      match line
      case Other(n, _) =>
        ReportErrors(n, false);
      case Close(kind) =>
        if kind == Redirect {
          if redirect.url == "" {
            errors := errors + 1;
          }
          redirect := null;
          value := Inside(value, line);
        } else {
          ReportErrors(1, true);
        }
      case Url(url) => SetUrl(url);
      case FeedRef(_) => ReportErrors(1, false);
    }

    /** An opening tag of `kind` where the reader looks at blocks of that kind. */
    method ParseOpening(kind: Kind, name: string)
      requires Valid() && !value.broken
      modifies this, nodes`next, feeds`nextFeed
      ensures Valid() && value == Step(old(value), Open(kind, name)) && !value.broken
      ensures forall n <- nodes :: n in old(nodes) || fresh(n)
      ensures forall n <- feeds :: n in old(feeds) || fresh(n)
    {
      hide Links, Mirror, FeedsOf, Registered, Opened;
      SomethingOpen();
      if stream != null || feed != null || redirect != null {
        ReportErrors(1, true);
      } else {
        var b := OpenBlock(kind, name);
        match kind
        case Feed => feed := b;
        case Stream => stream := b;
        case Redirect => redirect := b;
      }
    }

    lemma SomethingOpen()
      requires Valid()
      ensures value.isOpen <==> stream != null || feed != null || redirect != null
      ensures value.isOpen ==> value.blocks != []
    {
    }

    /** One line of the loop of ffserver_parse_ffconfig. */
    method ParseLine(line: Line) returns (ret: int)
      requires Valid() && !value.broken
      modifies this, nodes, feeds
      ensures Valid() && value == Step(old(value), line) && ret <= 0 && (ret < 0 <==> value.broken)
      ensures forall n <- nodes :: n in old(nodes) || fresh(n)
      ensures forall n <- feeds :: n in old(feeds) || fresh(n)
    {
      SomethingOpen();
      hide Links, Mirrors, Inside;
      ret := 0;
      if feed != null || (line.Open? && line.kind == Feed) {
        if line.Open? && line.kind == Feed {
          ParseOpening(Feed, line.name);
        } else {
          ret := ParseInFeed(line);
        }
      } else if stream != null || (line.Open? && line.kind == Stream) {
        if line.Open? && line.kind == Stream {
          ParseOpening(Stream, line.name);
        } else {
          ret := ParseInStream(line);
        }
      } else if redirect != null || (line.Open? && line.kind == Redirect) {
        if line.Open? && line.kind == Redirect {
          ParseOpening(Redirect, line.name);
        } else {
          ParseInRedirect(line);
        }
      } else {
        ParseGlobal(line);
      }
    }

    /** ffserver_parse_config_global: no command of a block belongs here. */
    method ParseGlobal(line: Line)
      requires Valid() && !value.isOpen && !value.broken && !line.Open?
      modifies `errors, `value
      ensures Valid() && value == Outside(old(value), line) && !value.broken
    {
      hide Links, Mirrors;
      match line
      case Other(n, _) => ReportErrors(n, false);
      case Close(_) => ReportErrors(1, true);
      case FeedRef(_) => ReportErrors(1, false);
      case Url(_) => ReportErrors(1, false);
    }

    /** The loop over the lines, up to the one that breaks off reading. */
    method ParseAll(lines: seq<Line>) returns (ret: int)
      requires Valid() && value == Start() && nodes == [] && feeds == []
      modifies this
      ensures Valid() && value == Read(lines) && ret <= 0 && (ret < 0 <==> value.broken)
    {
      ret := 0;
      var i := 0;
      assert value == Read(lines[..0]);
      assert !value.broken;
      hide *;
      while i < |lines| && ret >= 0
        invariant 0 <= i <= |lines| && Valid()
        invariant (forall n <- nodes :: fresh(n)) && (forall n <- feeds :: fresh(n))
        invariant value == Read(lines[..i]) && ret <= 0 && (ret < 0 <==> value.broken)
      {
        assert forall k :: 0 <= k < |nodes| ==> nodes[k] in nodes;
        assert forall k :: 0 <= k < |feeds| ==> feeds[k] in feeds;
        ret := ParseLine(lines[i]);
        ReadNext(lines, i);
        i := i + 1;
      }
      ReadOn(lines, i);
    }

    /** ffserver_parse_ffconfig, for a new reader. */
    method Parse(lines: seq<Line>) returns (ret: int)
      requires Valid() && value == Start() && nodes == [] && feeds == []
      modifies this
      ensures ret == 0 <==> ReturnsZero(lines)
      ensures Links() && Mirrors() && value == Finish(Read(lines))
    {
      ret := ParseAll(lines);
      SomethingOpen();
      hide Read, Mirror, Links;
      if stream != null || feed != null || redirect != null {
        errors := errors + 1;
      }
      value := Finish(value);
      if ret >= 0 && errors > 0 {
        ret := -1;
      }
    }
  }

  lemma ReadNext(lines: seq<Line>, i: nat)
    requires i < |lines|
    ensures Read(lines[..i + 1]) == Step(Read(lines[..i]), lines[i])
  {
    assert lines[..i + 1][..i] == lines[..i];
  }

  /** Once reading has broken off, the remaining lines change nothing. */
  lemma {:induction false} ReadOn(lines: seq<Line>, i: nat)
    requires i <= |lines| && (i == |lines| || Read(lines[..i]).broken)
    ensures Read(lines) == Read(lines[..i])
    decreases |lines|
  {
    if i == |lines| {
      assert lines[..i] == lines;
    } else {
      assert lines[..|lines| - 1][..i] == lines[..i];
      ReadOn(lines[..|lines| - 1], i);
    }
  }
}
