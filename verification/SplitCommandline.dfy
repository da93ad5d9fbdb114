/** The command line splitter: words become options and group separators; the options
    since the last separator belong to the next one. */
module SplitCommandline {
  import opened Common

  datatype OptionDef = OptionDef(
    name: string,
    exits: bool,      // OPT_EXIT: takes an argument if there is one
    hasArg: bool,
    isBool: bool,
    perFile: bool)    // any of OPT_PERFILE, OPT_SPEC, OPT_OFFSET; otherwise global

  datatype GroupDef = GroupDef(name: string, sep: Option<string>)

  // One option as given: which definition, the word used, the value (none for NULL).
  datatype Opt = Opt(def: nat, key: string, val: Option<string>)

  datatype AvOpt = AvOpt(key: string, val: string)

  datatype Group = Group(arg: string, opts: seq<Opt>, avOpts: seq<AvOpt>)

  // What opt_default says about a name and a value.
  datatype AvAnswer = Taken | NotFound | Bad

  type AvOracle = (string, string) -> AvAnswer

  datatype Grammar = Grammar(options: seq<OptionDef>, groups: seq<GroupDef>, av: AvOracle)

  datatype Ret = Done | MissingArg | AvError | Unrecognized

  // ----- what the words say -----

  datatype Token =
    | DashDash
    | Unnamed(arg: string)
    | Named(group: nat, key: string, arg: string)
    | Known(opt: Opt)
    | Av(av: AvOpt)

  /** The words a token was made from. */
  function Words(g: Grammar, t: Token): seq<string> {
    match t
    case DashDash => ["--"]
    case Unnamed(arg) => [arg]
    case Named(_, key, arg) => ["-" + key, arg]
    case Av(av) => ["-" + av.key, av.val]
    case Known(opt) =>
      if opt.def < |g.options| && TakesWord(g, opt) && opt.val.Some? then ["-" + opt.key, opt.val.value]
      else ["-" + opt.key]
  }

  // Whether the option's value is a word of its own; not so for plain and `no` options.
  predicate TakesWord(g: Grammar, opt: Opt)
    requires opt.def < |g.options|
  {
    && (g.options[opt.def].exits || g.options[opt.def].hasArg)
    && Find(g.options, opt.key) == opt.def
  }

  /** The name up to a colon. */
  function Base(name: string): (b: string)
    ensures b <= name && ':' !in b
    ensures |b| < |name| ==> name[|b|] == ':'
  {
    if name == "" || name[0] == ':' then "" else [name[0]] + Base(name[1..])
  }

  lemma BaseOn(name: string, len: nat)
    requires len < |name| && name[len] != ':'
    ensures name[..len] + Base(name[len..]) == name[..len + 1] + Base(name[len + 1..])
  {
    assert name[len..][1..] == name[len + 1..];
  }

  lemma BaseStops(rest: string)
    ensures rest == "" || rest[0] == ':' ==> Base(rest) == ""
  {
  }

  /** The first definition of the name, up to a colon; the number of definitions if none. */
  function Find(options: seq<OptionDef>, name: string): (k: nat)
    ensures k <= |options|
    ensures k < |options| ==> options[k].name == Base(name)
    ensures forall j :: 0 <= j < k ==> options[j].name != Base(name)
  {
    if options == [] || options[0].name == Base(name) then 0 else 1 + Find(options[1..], name)
  }

  /** The first group with this separator; the number of groups if none. */
  function FindSeparator(groups: seq<GroupDef>, name: string): (k: nat)
    ensures k <= |groups|
    ensures k < |groups| ==> groups[k].sep == Some(name)
    ensures forall j :: 0 <= j < k ==> groups[j].sep != Some(name)
  {
    if groups == [] || groups[0].sep == Some(name) then 0 else 1 + FindSeparator(groups[1..], name)
  }

  datatype Read = Read(token: Token) | Fail(ret: Ret)

  /** What a name that is no separator stands for, `next` being the word after it. */
  function ReadOption(g: Grammar, name: string, next: Option<string>): Read {
    var def := Find(g.options, name);
    if def < |g.options| then
      if g.options[def].exits then Read(Known(Opt(def, name, next)))
      else if !g.options[def].hasArg then Read(Known(Opt(def, name, Some("1"))))
      else if next.Some? then Read(Known(Opt(def, name, next))) else Fail(MissingArg)
    else if next.Some? && g.av(name, next.value) == Taken then Read(Av(AvOpt(name, next.value)))
    else if next.Some? && g.av(name, next.value) == Bad then Fail(AvError)
    else
      var positive := if |name| >= 2 && name[..2] == "no" then Find(g.options, name[2..]) else |g.options|;
      if positive < |g.options| && g.options[positive].isBool then Read(Known(Opt(positive, name, Some("0"))))
      else Fail(Unrecognized)
  }

  /** What the words from here on begin with; `literal` right after a double dash. */
  function ReadToken(g: Grammar, words: seq<string>, literal: bool): Read
    requires words != []
  {
    var w := words[0];
    var next := if |words| > 1 then Some(words[1]) else None;
    if w == "--" then Read(DashDash)
    else if w == "" || w[0] != '-' || |w| == 1 || literal then Read(Unnamed(w))
    else
      var name := w[1..];
      var sep := FindSeparator(g.groups, name);
      if sep < |g.groups| then
        if next.Some? then Read(Named(sep, name, next.value)) else Fail(MissingArg)
      else ReadOption(g, name, next)
  }

  // How many words a token is made from.
  function Width(g: Grammar, t: Token): (n: nat)
    ensures n > 0
  {
    |Words(g, t)|
  }

  /** The tokens of a command line, up to the first error. */
  function Tokens(g: Grammar, words: seq<string>, literal: bool): (seq<Token>, Ret)
    decreases |words|
  {
    if words == [] then ([], Done)
    else
      match ReadToken(g, words, literal)
      case Fail(ret) => ([], ret)
      case Read(t) =>
        ReadUsesWords(g, words, literal);
        var (rest, ret) := Tokens(g, words[Width(g, t)..], t.DashDash?);
        ([t] + rest, ret)
  }

  function AllWords(g: Grammar, ts: seq<Token>): seq<string> {
    if ts == [] then [] else Words(g, ts[0]) + AllWords(g, ts[1..])
  }

  lemma ReadUsesWords(g: Grammar, words: seq<string>, literal: bool)
    requires words != [] && ReadToken(g, words, literal).Read?
    ensures Words(g, ReadToken(g, words, literal).token) <= words
  {
    hide Find, FindSeparator, Base;
    var w := words[0];
    if w != "" && w[0] == '-' {
      assert "-" + w[1..] == w;
    }
    NegatedIsNoOption(g, w);
  }

  // A `no` option is reached only when the word itself names no option.
  lemma NegatedIsNoOption(g: Grammar, w: string)
    ensures |w| > 3 && Find(g.options, w[1..]) == |g.options| && Find(g.options, w[3..]) < |g.options| ==>
              !TakesWord(g, Opt(Find(g.options, w[3..]), w[1..], Some("0")))
  {
  }

  lemma FailIsNotDone(g: Grammar, words: seq<string>, literal: bool)
    requires words != []
    ensures ReadToken(g, words, literal) != Fail(Done)
  {
  }

  /** On success every word is used, once and in order. */
  lemma {:induction false} EveryWordUsedOnce(g: Grammar, words: seq<string>, literal: bool)
    requires Tokens(g, words, literal).1 == Done
    ensures AllWords(g, Tokens(g, words, literal).0) == words
    decreases |words|
  {
    hide ReadToken, Words;
    if words != [] {
      FailIsNotDone(g, words, literal);
      ReadUsesWords(g, words, literal);
      var t := ReadToken(g, words, literal).token;
      EveryWordUsedOnce(g, words[Width(g, t)..], t.DashDash?);
    }
  }

  // ----- what a token says -----

  /** The word may be an option: a dash with something behind it. */
  predicate Dashed(w: string) { |w| > 1 && w[0] == '-' && w != "--" }

  /** No group has this separator. */
  predicate NoSeparator(g: Grammar, name: string) { forall x <- g.groups :: x.sep != Some(name) }

  /** No option has this name, up to a colon. */
  predicate NoOption(g: Grammar, name: string) { forall x <- g.options :: x.name != Base(name) }

  /** The option is the first of its name, and has the value its definition asks for: "1" for
      a plain one, else the word behind it, which only a final option that exits may lack. */
  predicate SetOption(g: Grammar, opt: Opt) {
    && opt.def < |g.options|
    && g.options[opt.def].name == Base(opt.key)
    && (forall j :: 0 <= j < opt.def ==> g.options[j].name != Base(opt.key))
    && (!g.options[opt.def].exits && !g.options[opt.def].hasArg ==> opt.val == Some("1"))
    && (!g.options[opt.def].exits && g.options[opt.def].hasArg ==> opt.val.Some?)
  }

  /** The word is no option, but "no" before the name of a boolean one, which gets "0". */
  predicate ClearedOption(g: Grammar, opt: Opt) {
    && opt.def < |g.options| && |opt.key| >= 2 && opt.key[..2] == "no"
    && g.options[opt.def].isBool && g.options[opt.def].name == Base(opt.key[2..])
    && NoOption(g, opt.key) && opt.val == Some("0")
  }

  /** What a token may say; `literal` right behind a double dash. */
  predicate Sensible(g: Grammar, t: Token, literal: bool) {
    match t
    case DashDash => true
    case Unnamed(arg) => literal || !Dashed(arg)
    case Named(k, key, _) =>
      && !literal && k < |g.groups| && g.groups[k].sep == Some(key)
      && forall j :: 0 <= j < k ==> g.groups[j].sep != Some(key)
    case Known(opt) =>
      !literal && NoSeparator(g, opt.key) && (SetOption(g, opt) || ClearedOption(g, opt))
    case Av(av) =>
      !literal && NoSeparator(g, av.key) && NoOption(g, av.key) && g.av(av.key, av.val) == Taken
  }

  ghost predicate AllSensible(g: Grammar, ts: seq<Token>, literal: bool)
    decreases |ts|
  {
    ts != [] ==> Sensible(g, ts[0], literal) && AllSensible(g, ts[1..], ts[0].DashDash?)
  }

  lemma FindNothing(g: Grammar, name: string)
    ensures FindSeparator(g.groups, name) == |g.groups| <==> NoSeparator(g, name)
    ensures Find(g.options, name) == |g.options| <==> NoOption(g, name)
  {
    var k, d := FindSeparator(g.groups, name), Find(g.options, name);
    if k < |g.groups| { assert g.groups[k] in g.groups; }
    if d < |g.options| { assert g.options[d] in g.options; }
  }

  lemma ReadIsSensible(g: Grammar, words: seq<string>, literal: bool)
    requires words != [] && ReadToken(g, words, literal).Read?
    ensures Sensible(g, ReadToken(g, words, literal).token, literal)
  {
    var w := words[0];
    if Dashed(w) && !literal {
      FindNothing(g, w[1..]);
      hide Find, FindSeparator, Base, NoSeparator, NoOption;
    }
  }

  /** Every token of a command line says what its words mean: separators come before options,
      options before the rest, and behind a double dash there are only plain words. */
  lemma {:induction false} TokensAreSensible(g: Grammar, words: seq<string>, literal: bool)
    ensures AllSensible(g, Tokens(g, words, literal).0, literal)
    decreases |words|
  {
    hide Sensible, ReadToken, Words;
    if words != [] && ReadToken(g, words, literal).Read? {
      ReadIsSensible(g, words, literal);
      ReadUsesWords(g, words, literal);
      var t := ReadToken(g, words, literal).token;
      TokensAreSensible(g, words[Width(g, t)..], t.DashDash?);
    }
  }

  /** Why splitting stops at the first of `rest`. */
  predicate StopsAt(g: Grammar, rest: seq<string>, ret: Ret)
    requires rest != [] && Dashed(rest[0])
  {
    var name := rest[0][1..];
    match ret
    case Done => false
    case MissingArg =>
      && |rest| == 1
      && (NoSeparator(g, name) ==> exists x <- g.options :: x.name == Base(name) && x.hasArg && !x.exits)
    case AvError => |rest| > 1 && NoSeparator(g, name) && NoOption(g, name) && g.av(name, rest[1]) == Bad
    case Unrecognized =>
      && NoSeparator(g, name) && NoOption(g, name)
      && (|rest| > 1 ==> g.av(name, rest[1]) == NotFound)
      && (|name| >= 2 && name[..2] == "no" ==>
            NoOption(g, name[2..]) || exists x <- g.options :: x.name == Base(name[2..]) && !x.isBool)
  }

  lemma FailStops(g: Grammar, words: seq<string>, literal: bool)
    requires words != [] && ReadToken(g, words, literal).Fail?
    ensures Dashed(words[0]) && !literal && StopsAt(g, words, ReadToken(g, words, literal).ret)
  {
    var name := words[0][1..];
    FindNothing(g, name);
    if |name| >= 2 { FindNothing(g, name[2..]); }
    var d := Find(g.options, name);
    if d < |g.options| { assert g.options[d] in g.options; }
    var k := if |name| >= 2 then Find(g.options, name[2..]) else |g.options|;
    if k < |g.options| { assert g.options[k] in g.options; }
    hide Find, FindSeparator, Base;
  }

  /** An error is returned exactly when some words are left; what came before them was split
      as far as it goes, and the first of them says why. */
  lemma {:induction false} ErrorsAreTrue(g: Grammar, words: seq<string>, literal: bool)
    requires Tokens(g, words, literal).1 != Done
    ensures var (ts, ret) := Tokens(g, words, literal);
            var used := AllWords(g, ts);
            && used < words && Dashed(words[|used|]) && StopsAt(g, words[|used|..], ret)
    decreases |words|
  {
    hide ReadToken, Words, Dashed, StopsAt;
    match ReadToken(g, words, literal)
    case Fail(_) =>
      FailStops(g, words, literal);
      assert words[0..] == words;
    case Read(t) =>
      ReadUsesWords(g, words, literal);
      var rest := words[Width(g, t)..];
      ErrorsAreTrue(g, rest, t.DashDash?);
      var (ts, ret) := Tokens(g, rest, t.DashDash?);
      var used := AllWords(g, ts);
      assert AllWords(g, [t] + ts) == Words(g, t) + used;
      assert words == Words(g, t) + rest;
      assert words[Width(g, t) + |used|..] == rest[|used|..];
  }

  // ----- the grouping, stated on the tokens -----

  predicate IsSeparator(t: Token) { t.Unnamed? || t.Named? }

  // The group a separator ends: the first one for a plain word.
  function GroupOf(t: Token): nat
    requires IsSeparator(t)
  {
    if t.Unnamed? then 0 else t.group
  }

  predicate IsGlobal(g: Grammar, t: Token) {
    t.Known? && !(t.opt.def < |g.options| && g.options[t.opt.def].perFile)
  }

  predicate IsLocal(g: Grammar, t: Token) { t.Known? && !IsGlobal(g, t) }

  function Globals(g: Grammar, ts: seq<Token>): seq<Opt> {
    if ts == [] then []
    else Globals(g, ts[..|ts| - 1]) + if IsGlobal(g, ts[|ts| - 1]) then [ts[|ts| - 1].opt] else []
  }

  function Locals(g: Grammar, ts: seq<Token>): seq<Opt> {
    if ts == [] then []
    else Locals(g, ts[..|ts| - 1]) + if IsLocal(g, ts[|ts| - 1]) then [ts[|ts| - 1].opt] else []
  }

  function AvOpts(ts: seq<Token>): seq<AvOpt> {
    if ts == [] then []
    else AvOpts(ts[..|ts| - 1]) + if ts[|ts| - 1].Av? then [ts[|ts| - 1].av] else []
  }

  /** Where the tokens after the last separator begin. */
  function SectionStart(ts: seq<Token>): (n: nat)
    ensures n <= |ts|
    ensures n > 0 ==> IsSeparator(ts[n - 1])
    ensures forall k :: n <= k < |ts| ==> !IsSeparator(ts[k])
  {
    if ts == [] then 0
    else if IsSeparator(ts[|ts| - 1]) then |ts|
    else SectionStart(ts[..|ts| - 1])
  }

  /** The group a separator closes: the per-file options and AVOptions since the previous
      separator of any kind. */
  function GroupClosed(g: Grammar, before: seq<Token>, sep: Token): Group
    requires IsSeparator(sep)
  {
    var section := before[SectionStart(before)..];
    Group(sep.arg, Locals(g, section), AvOpts(section))
  }

  /** List `k`: the groups closed by its separators, in order. */
  function ListOf(g: Grammar, ts: seq<Token>, k: nat): seq<Group> {
    if ts == [] then []
    else
      var before := ts[..|ts| - 1];
      var t := ts[|ts| - 1];
      ListOf(g, before, k) + if IsSeparator(t) && GroupOf(t) == k then [GroupClosed(g, before, t)] else []
  }

  datatype Context = Context(
    globals: seq<Opt>,
    lists: seq<seq<Group>>,
    cur: seq<Opt>,
    curAv: seq<AvOpt>)

  /** The parse context a list of tokens stands for. */
  function Declared(g: Grammar, ts: seq<Token>): Context {
    var section := ts[SectionStart(ts)..];
    Context(Globals(g, ts), seq(|g.groups|, k requires 0 <= k < |g.groups| => ListOf(g, ts, k)),
            Locals(g, section), AvOpts(section))
  }

  // A group closed, and the list it went to.
  datatype Closed = Closed(list: nat, group: Group)

  /** All groups closed, whatever list they went to, in the order of the separators. */
  function AllClosed(g: Grammar, ts: seq<Token>): seq<Closed> {
    if ts == [] then []
    else
      var before, t := ts[..|ts| - 1], ts[|ts| - 1];
      AllClosed(g, before) + if IsSeparator(t) then [Closed(GroupOf(t), GroupClosed(g, before, t))] else []
  }

  /** Those of list `k`. */
  function InList(cs: seq<Closed>, k: nat): seq<Group> {
    if cs == [] then []
    else InList(cs[..|cs| - 1], k) + if cs[|cs| - 1].list == k then [cs[|cs| - 1].group] else []
  }

  function AllOpts(cs: seq<Closed>): seq<Opt> {
    if cs == [] then [] else AllOpts(cs[..|cs| - 1]) + cs[|cs| - 1].group.opts
  }

  function AllAvOpts(cs: seq<Closed>): seq<AvOpt> {
    if cs == [] then [] else AllAvOpts(cs[..|cs| - 1]) + cs[|cs| - 1].group.avOpts
  }

  lemma ClosedAppend(cs: seq<Closed>, c: Closed)
    ensures AllOpts(cs + [c]) == AllOpts(cs) + c.group.opts
    ensures AllAvOpts(cs + [c]) == AllAvOpts(cs) + c.group.avOpts
    ensures forall k: nat :: InList(cs + [c], k) == InList(cs, k) + if c.list == k then [c.group] else []
  {
    assert (cs + [c])[..|cs|] == cs;
  }

  /** The context's own list `k` is made of the groups closed for it, in order. */
  lemma {:induction false} ListsAreClosed(g: Grammar, ts: seq<Token>, k: nat)
    ensures ListOf(g, ts, k) == InList(AllClosed(g, ts), k)
  {
    if ts != [] {
      var before, t := ts[..|ts| - 1], ts[|ts| - 1];
      ListsAreClosed(g, before, k);
      hide GroupClosed, InList;
      if IsSeparator(t) {
        ClosedAppend(AllClosed(g, before), Closed(GroupOf(t), GroupClosed(g, before, t)));
      } else {
        assert AllClosed(g, ts) == AllClosed(g, before);
      }
    }
  }

  /** Options and AVOptions: what the closed groups hold and what is left over, one after
      the other, are all of them. */
  lemma {:induction false} SectionsCover(g: Grammar, ts: seq<Token>)
    ensures AllOpts(AllClosed(g, ts)) + Declared(g, ts).cur == Locals(g, ts)
    ensures AllAvOpts(AllClosed(g, ts)) + Declared(g, ts).curAv == AvOpts(ts)
  {
    hide AllOpts, AllAvOpts;
    if ts == [] {
      NothingClosed();
    } else {
      var before, t := ts[..|ts| - 1], ts[|ts| - 1];
      SectionsCover(g, before);
      assert before + [t] == ts;
      if IsSeparator(t) {
        SeparatorCovers(g, before, t);
      } else {
        OptionCovers(g, before, t);
      }
    }
  }

  lemma NothingClosed()
    ensures AllOpts([]) == [] && AllAvOpts([]) == []
  {
  }

  lemma SeparatorCovers(g: Grammar, ts: seq<Token>, t: Token)
    requires IsSeparator(t)
    ensures AllOpts(AllClosed(g, ts + [t])) == AllOpts(AllClosed(g, ts)) + Declared(g, ts).cur
    ensures AllAvOpts(AllClosed(g, ts + [t])) == AllAvOpts(AllClosed(g, ts)) + Declared(g, ts).curAv
    ensures Declared(g, ts + [t]).cur == [] && Declared(g, ts + [t]).curAv == []
    ensures Locals(g, ts + [t]) == Locals(g, ts) && AvOpts(ts + [t]) == AvOpts(ts)
  {
    var all := ts + [t];
    assert all[..|ts|] == ts && all[SectionStart(all)..] == [];
    ClosedAppend(AllClosed(g, ts), Closed(GroupOf(t), GroupClosed(g, ts, t)));
  }

  lemma OptionCovers(g: Grammar, ts: seq<Token>, t: Token)
    requires !IsSeparator(t)
    ensures AllClosed(g, ts + [t]) == AllClosed(g, ts)
    ensures Declared(g, ts + [t]).cur == Declared(g, ts).cur + if IsLocal(g, t) then [t.opt] else []
    ensures Declared(g, ts + [t]).curAv == Declared(g, ts).curAv + if t.Av? then [t.av] else []
    ensures Locals(g, ts + [t]) == Locals(g, ts) + if IsLocal(g, t) then [t.opt] else []
    ensures AvOpts(ts + [t]) == AvOpts(ts) + if t.Av? then [t.av] else []
  {
    SectionAppend(g, ts, t);
    assert (ts + [t])[..|ts|] == ts;
  }

  lemma {:induction false} ClosedInRange(g: Grammar, ts: seq<Token>)
    requires forall t <- ts :: IsSeparator(t) ==> GroupOf(t) < |g.groups|
    ensures forall c <- AllClosed(g, ts) :: c.list < |g.groups|
  {
    if ts != [] {
      assert forall t <- ts[..|ts| - 1] :: t in ts;
      ClosedInRange(g, ts[..|ts| - 1]);
    }
  }

  lemma {:induction false} TokensInRange(g: Grammar, words: seq<string>, literal: bool)
    requires g.groups != []
    ensures forall t <- Tokens(g, words, literal).0 :: IsSeparator(t) ==> GroupOf(t) < |g.groups|
    decreases |words|
  {
    hide Words;
    if words != [] && ReadToken(g, words, literal).Read? {
      ReadInRange(g, words, literal);
      ReadUsesWords(g, words, literal);
      var t := ReadToken(g, words, literal).token;
      TokensInRange(g, words[Width(g, t)..], t.DashDash?);
    }
  }

  /** Only global options are kept globally, and only per-file ones in groups. */
  lemma {:induction false} GlobalsAreGlobal(g: Grammar, ts: seq<Token>)
    ensures forall o <- Globals(g, ts) :: o.def < |g.options| ==> !g.options[o.def].perFile
    ensures forall o <- Locals(g, ts) :: o.def < |g.options| ==> g.options[o.def].perFile
    ensures forall t <- ts :: t.Known? ==> (t.opt in Globals(g, ts) || t.opt in Locals(g, ts))
  {
    if ts != [] {
      var before, t := ts[..|ts| - 1], ts[|ts| - 1];
      GlobalsAreGlobal(g, before);
      assert ts == before + [t];
    }
  }

  /** The arguments the groups are named by are those of the separators, in order. */
  lemma {:induction false} GroupsAreNamed(g: Grammar, ts: seq<Token>)
    ensures |AllClosed(g, ts)| == |Separators(ts)|
    ensures forall i :: 0 <= i < |Separators(ts)| ==> AllClosed(g, ts)[i].group.arg == Separators(ts)[i]
  {
    if ts != [] {
      GroupsAreNamed(g, ts[..|ts| - 1]);
    }
  }

  function Separators(ts: seq<Token>): seq<string> {
    if ts == [] then []
    else
      Separators(ts[..|ts| - 1]) + match ts[|ts| - 1]
        case Unnamed(arg) => [arg]
        case Named(_, _, arg) => [arg]
        case _ => []
  }

  /** Every per-file option and AVOption of a command line is in exactly one closed group
      or left over, in its place; and every closed group is in exactly one of the
      context's lists, in its place. */
  lemma OptionsPlacedOnce(g: Grammar, words: seq<string>, literal: bool)
    requires g.groups != []
    ensures var ts := Tokens(g, words, literal).0;
            var closed, c := AllClosed(g, ts), Declared(g, ts);
            && AllOpts(closed) + c.cur == Locals(g, ts)
            && AllAvOpts(closed) + c.curAv == AvOpts(ts)
            && (forall x <- closed :: x.list < |c.lists|)
            && (forall k :: 0 <= k < |c.lists| ==> c.lists[k] == InList(closed, k))
  {
    var ts := Tokens(g, words, literal).0;
    SectionsCover(g, ts);
    TokensInRange(g, words, literal);
    ClosedInRange(g, ts);
    forall k: nat ensures ListOf(g, ts, k) == InList(AllClosed(g, ts), k) { ListsAreClosed(g, ts, k); }
  }

  lemma SectionAppend(g: Grammar, ts: seq<Token>, t: Token)
    requires !IsSeparator(t)
    ensures SectionStart(ts + [t]) == SectionStart(ts)
    ensures Locals(g, (ts + [t])[SectionStart(ts)..]) ==
            Locals(g, ts[SectionStart(ts)..]) + if IsLocal(g, t) then [t.opt] else []
    ensures AvOpts((ts + [t])[SectionStart(ts)..]) ==
            AvOpts(ts[SectionStart(ts)..]) + if t.Av? then [t.av] else []
  {
    var n := SectionStart(ts);
    assert (ts + [t])[..|ts|] == ts;
    assert (ts + [t])[n..] == ts[n..] + [t];
    assert (ts[n..] + [t])[..|ts| - n] == ts[n..];
  }

  // What the splitter does for a token.
  function Acted(g: Grammar, c: Context, t: Token): Context {
    if IsSeparator(t) then
      if GroupOf(t) < |c.lists| then
        Context(c.globals, c.lists[GroupOf(t) := c.lists[GroupOf(t)] + [Group(t.arg, c.cur, c.curAv)]], [], [])
      else c
    else if IsGlobal(g, t) then c.(globals := c.globals + [t.opt])
    else if t.Known? then c.(cur := c.cur + [t.opt])
    else if t.Av? then c.(curAv := c.curAv + [t.av])
    else c
  }

  lemma ReadInRange(g: Grammar, words: seq<string>, literal: bool)
    requires words != [] && g.groups != [] && ReadToken(g, words, literal).Read?
    ensures var t := ReadToken(g, words, literal).token; IsSeparator(t) ==> GroupOf(t) < |g.groups|
  {
  }

  /** The tokens found so far, then those of the words from `i` on, are all of them. */
  ghost predicate StillToCome(g: Grammar, argv: seq<string>, i: nat, literal: bool, ts: seq<Token>) {
    argv != [] &&
    var (rest, ret) := Tokens(g, if i < |argv| then argv[i..] else [], literal);
    Tokens(g, argv[1..], false) == (ts + rest, ret)
  }

  lemma TokensStep(g: Grammar, argv: seq<string>, i: nat, literal: bool, ts: seq<Token>)
    requires i < |argv| && StillToCome(g, argv, i, literal, ts)
    requires ReadToken(g, argv[i..], literal).Read?
    ensures var t := ReadToken(g, argv[i..], literal).token;
            && i + Width(g, t) <= |argv|
            && forall j: nat :: j == i + Width(g, t) || (j > i + Width(g, t) == |argv|) ==>
                 StillToCome(g, argv, j, t.DashDash?, ts + [t])
  {
    hide ReadToken, Words;
    ReadUsesWords(g, argv[i..], literal);
    var t := ReadToken(g, argv[i..], literal).token;
    var next := argv[i + Width(g, t)..];
    assert argv[i..][Width(g, t)..] == next;
    assert ts + ([t] + Tokens(g, next, t.DashDash?).0) == ts + [t] + Tokens(g, next, t.DashDash?).0;
    assert i + Width(g, t) == |argv| ==> next == [];
  }

  lemma TokensFail(g: Grammar, argv: seq<string>, i: nat, literal: bool, ts: seq<Token>, ret: Ret)
    requires i < |argv| && StillToCome(g, argv, i, literal, ts)
    requires ReadToken(g, argv[i..], literal) == Fail(ret)
    ensures Tokens(g, argv[1..], false) == (ts, ret)
  {
    assert ts + [] == ts;
  }

  lemma NothingToCome(g: Grammar, argv: seq<string>, i: nat, literal: bool, ts: seq<Token>)
    requires i >= |argv| && StillToCome(g, argv, i, literal, ts)
    ensures Tokens(g, argv[1..], false) == (ts, Done)
  {
    assert ts + [] == ts;
  }

  /** What one more token does to the context. */
  lemma DeclaredAppend(g: Grammar, ts: seq<Token>, t: Token)
    requires IsSeparator(t) ==> GroupOf(t) < |g.groups|
    ensures Declared(g, ts + [t]) == Acted(g, Declared(g, ts), t)
  {
    var all := ts + [t];
    assert all[..|ts|] == ts;
    if IsSeparator(t) {
      assert all[SectionStart(all)..] == [];
    } else {
      SectionAppend(g, ts, t);
    }
    forall k | 0 <= k < |g.groups|
      ensures ListOf(g, all, k) == if IsSeparator(t) && GroupOf(t) == k
                                   then ListOf(g, ts, k) + [GroupClosed(g, ts, t)] else ListOf(g, ts, k)
    {
    }
    var lists := Declared(g, ts).lists;
    if IsSeparator(t) {
      assert Declared(g, all).lists == lists[GroupOf(t) := lists[GroupOf(t)] + [GroupClosed(g, ts, t)]];
    } else {
      assert Declared(g, all).lists == lists;
    }
    assert Globals(g, all) == if IsGlobal(g, t) then Globals(g, ts) + [t.opt] else Globals(g, ts);
  }

  // ----- the parser as the program updates it -----

  class ParseContext {
    const g: Grammar
    var globalOpts: seq<Opt>
    var groups: array<seq<Group>>
    var curOpts: seq<Opt>
    var curAv: seq<AvOpt>         // the global option dictionaries, in the order set

    ghost function Value(): Context
      reads this, groups
    {
      Context(globalOpts, groups[..], curOpts, curAv)
    }

    constructor (g: Grammar)
      ensures this.g == g && Value() == Declared(g, []) && fresh(groups)
    {
      this.g := g;
      globalOpts, curOpts, curAv := [], [], [];
      groups := new seq<Group>[|g.groups|](_ => []);
    }

    method FinishGroup(k: nat, arg: string)
      requires k < groups.Length
      modifies groups, `curOpts, `curAv
      ensures var c := old(Value());
              Value() == Context(c.globals, c.lists[k := c.lists[k] + [Group(arg, c.cur, c.curAv)]], [], [])
    {
      groups[k] := groups[k] + [Group(arg, curOpts, curAv)];
      curAv := [];
      curOpts := [];
    }

    method AddOpt(def: nat, key: string, val: Option<string>)
      requires def < |g.options|
      modifies `globalOpts, `curOpts
      ensures var c := old(Value());
              Value() == if g.options[def].perFile then c.(cur := c.cur + [Opt(def, key, val)])
                         else c.(globals := c.globals + [Opt(def, key, val)])
    {
      if !g.options[def].perFile {
        globalOpts := globalOpts + [Opt(def, key, val)];
      } else {
        curOpts := curOpts + [Opt(def, key, val)];
      }
    }

    /** match_group_separator: -1 when no group has this separator. */
    method MatchGroupSeparator(name: string) returns (k: int)
      ensures k == if FindSeparator(g.groups, name) < |g.groups| then FindSeparator(g.groups, name) else -1
    {
      var i := 0;
      while i < |g.groups|
        invariant 0 <= i <= |g.groups|
        invariant FindSeparator(g.groups, name) == i + FindSeparator(g.groups[i..], name)
      {
        if g.groups[i].sep == Some(name) {
          return i;
        }
        assert g.groups[i..][1..] == g.groups[i + 1..];
        i := i + 1;
      }
      return -1;
    }

    /** find_option: the position of the terminator when there is none. */
    method FindOption(name: string) returns (k: nat)
      ensures k == Find(g.options, name)
    {
      var len := BaseLength(name);
      k := 0;
      while k < |g.options| && g.options[k].name != name[..len]
        invariant 0 <= k <= |g.options|
        invariant Find(g.options, name) == k + Find(g.options[k..], name)
      {
        assert g.options[k..][1..] == g.options[k + 1..];
        k := k + 1;
      }
    }

    // Where the first colon is, or the end of the name.
    method BaseLength(name: string) returns (len: nat)
      ensures len <= |name| && name[..len] == Base(name)
    {
      hide Base;
      len := 0;
      while len < |name| && name[len] != ':'
        invariant 0 <= len <= |name|
        invariant Base(name) == name[..len] + Base(name[len..])
      {
        BaseOn(name, len);
        len := len + 1;
      }
      BaseStops(name[len..]);
    }

    /** One turn of the loop of split_commandline at `index`: the token it acted on, the
        index after it, or the error to return. */
    method ReadOne(argv: seq<string>, index: nat, dashdash: int) returns (read: Read, index': nat, dashdash': int)
      requires index < |argv| && 0 < groups.Length == |g.groups|
      modifies groups, `globalOpts, `curOpts, `curAv
      ensures read == ReadToken(g, argv[index..], dashdash == index)
      ensures read.Fail? ==> Value() == old(Value())
      ensures read.Read? ==>
                && Value() == Acted(g, old(Value()), read.token)
                && (index' == index + Width(g, read.token) || index' > index + Width(g, read.token) == |argv|)
                && dashdash' == if read.token.DashDash? then index' else dashdash
    {
      hide FindSeparator, ReadOption;
      var opt := argv[index];
      index', dashdash' := index + 1, dashdash;
      if opt == "--" {
        return Read(DashDash), index', index';
      }
      if opt == "" || opt[0] != '-' || |opt| == 1 || dashdash + 1 == index' {
        FinishGroup(0, opt);
        return Read(Unnamed(opt)), index', dashdash;
      }
      var name := opt[1..];
      var hasNext := index' < |argv|;
      var k := MatchGroupSeparator(name);
      if k >= 0 {
        if !hasNext {
          return Fail(MissingArg), index', dashdash;
        }
        FinishGroup(k, argv[index']);
        return Read(Named(k, name, argv[index'])), index' + 1, dashdash;
      }
      var taken;
      read, taken := TakeOption(name, if hasNext then Some(argv[index']) else None);
      return read, index' + taken, dashdash;
    }

    /** The half of the loop for a name that is no separator; `taken` is by how much the
        index goes past the name. */
    method TakeOption(name: string, next: Option<string>) returns (read: Read, taken: nat)
      modifies `globalOpts, `curOpts, `curAv
      ensures read == ReadOption(g, name, next)
      ensures read.Fail? ==> Value() == old(Value())
      ensures read.Read? ==>
                && (read.token.Known? || read.token.Av?)
                && Value() == Acted(g, old(Value()), read.token)
                && (taken + 1 == Width(g, read.token) || (next.None? && taken + 1 > Width(g, read.token) == 1))
    {
      hide Find, Base;
      taken := 0;
      var po := FindOption(name);
      if po < |g.options| {
        var val := Some("1");
        if g.options[po].exits {
          val := next;
          taken := 1;
        } else if g.options[po].hasArg {
          if next.None? {
            return Fail(MissingArg), 0;
          }
          val := next;
          taken := 1;
        }
        AddOpt(po, name, val);
        return Read(Known(Opt(po, name, val))), taken;
      }
      if next.Some? {
        var answer := g.av(name, next.value);
        if answer == Taken {
          curAv := curAv + [AvOpt(name, next.value)];
          return Read(Av(AvOpt(name, next.value))), 1;
        } else if answer != NotFound {
          return Fail(AvError), 0;
        }
      }
      if |name| >= 2 && name[0] == 'n' && name[1] == 'o' {
        po := FindOption(name[2..]);
        if po < |g.options| && g.options[po].isBool {
          AddOpt(po, name, Some("0"));
          return Read(Known(Opt(po, name, Some("0")))), 0;
        }
      }
      return Fail(Unrecognized), 0;
    }

    /** split_commandline, for a fresh context. `ts` are the tokens acted on: all of those
        the words make up, or those before the first error. */
    method Split(argv: seq<string>) returns (ret: Ret, ghost ts: seq<Token>)
      requires argv != [] && 0 < groups.Length == |g.groups| && Value() == Declared(g, [])
      modifies groups, `globalOpts, `curOpts, `curAv
      ensures (ts, ret) == Tokens(g, argv[1..], false)
      ensures Value() == Declared(g, ts)
    {
      var optindex, dashdash := 1, -2;
      ts := [];
      assert ts + Tokens(g, argv[1..], false).0 == Tokens(g, argv[1..], false).0;
      hide Declared, Tokens;
      while optindex < |argv|
        invariant 1 <= optindex && dashdash <= optindex
        invariant Value() == Declared(g, ts)
        invariant StillToCome(g, argv, optindex, dashdash == optindex, ts)
        decreases |argv| - optindex
      {
        var read, index', dashdash' := ReadOne(argv, optindex, dashdash);
        match read {
          case Fail(r) =>
            TokensFail(g, argv, optindex, dashdash == optindex, ts, r);
            return r, ts;
          case Read(t) =>
            ReadInRange(g, argv[optindex..], dashdash == optindex);
            DeclaredAppend(g, ts, t);
            TokensStep(g, argv, optindex, dashdash == optindex, ts);
            ts := ts + [t];
            optindex, dashdash := index', dashdash';
        }
      }
      NothingToCome(g, argv, optindex, dashdash == optindex, ts);
      return Done, ts;
    }
  }
}
