// The command line and the main loop of ls (source/ls.c): the short and
// long option parsers, ParseArguments, and the loop in main that takes
// directories off the head of the queue, lists them, and lets recursion
// append to the tail.

module Ls {
  import opened Wrappers
  import opened LsTypes
  import opened Win32
  import opened Utils
  import opened Directories
  import opened Sorting
  import opened Screen

  // ---------------------------------------------------------------------
  // Short options ("-laR")

  /** The switch of ParseShortArgument for one letter; every other letter is ignored. */
  function ShortLetter(c: char, o: Options): (r: Options)
    ensures r.showAll == (o.showAll || c == 'a' || c == 'A')
    ensures r.showAlmostAll == (o.showAlmostAll || c == 'A')
    ensures r.showLongFormat == (o.showLongFormat || c == 'l')
    ensures r.recursiveList == (o.recursiveList || c == 'R')
    ensures r.reverseOrder == (o.reverseOrder || c == 'r')
    ensures r.showVersion == (o.showVersion || c == 'v')
    ensures r.showHelp == (o.showHelp || c == '?')
    ensures r.colors == o.colors && r.showIcons == o.showIcons && r.showMetaData == o.showMetaData
    ensures r.virtualTerminal == o.virtualTerminal && r.sortField == o.sortField
  {
    match c
    case 'A' => o.(showAlmostAll := true, showAll := true)
    case 'l' => o.(showLongFormat := true)
    case 'R' => o.(recursiveList := true)
    case 'r' => o.(reverseOrder := true)
    case 'v' => o.(showVersion := true)
    case '?' => o.(showHelp := true)
    case 'a' => o.(showAll := true)
    case _ => o
  }

  /** The options after the letters of `arg`, taken left to right. */
  function ShortFlags(arg: string, o: Options): Options {
    if |arg| == 0 then o else ShortLetter(arg[|arg| - 1], ShortFlags(arg[..|arg| - 1], o))
  }

  /** ParseShortArgument: the letters after the dash, one at a time. */
  method ParseShortArgument(arg: string, options: Options) returns (r: Options)
    ensures r == ShortFlags(arg, options)
  {
    r := options;
    var i := 0;
    while i < |arg|
      invariant 0 <= i <= |arg|
      invariant r == ShortFlags(arg[..i], options)
    {
      assert arg[..i + 1][..i] == arg[..i];
      r := ShortLetter(arg[i], r);
      i := i + 1;
    }
    assert arg[..i] == arg;
  }

  /**
   * Each letter acts on its own, whatever the order: a flag ends up set
   * exactly when it was set before or one of its letters occurs, and the
   * fields no letter touches are unchanged.
   */
  lemma {:induction false} ShortFlagsByLetter(arg: string, o: Options)
    ensures ShortFlags(arg, o).showAll == (o.showAll || 'a' in arg || 'A' in arg)
    ensures ShortFlags(arg, o).showAlmostAll == (o.showAlmostAll || 'A' in arg)
    ensures ShortFlags(arg, o).showLongFormat == (o.showLongFormat || 'l' in arg)
    ensures ShortFlags(arg, o).recursiveList == (o.recursiveList || 'R' in arg)
    ensures ShortFlags(arg, o).reverseOrder == (o.reverseOrder || 'r' in arg)
    ensures ShortFlags(arg, o).showVersion == (o.showVersion || 'v' in arg)
    ensures ShortFlags(arg, o).showHelp == (o.showHelp || '?' in arg)
    ensures ShortFlags(arg, o).colors == o.colors && ShortFlags(arg, o).showIcons == o.showIcons
    ensures ShortFlags(arg, o).showMetaData == o.showMetaData && ShortFlags(arg, o).virtualTerminal == o.virtualTerminal
    ensures ShortFlags(arg, o).sortField == o.sortField
  {
    if |arg| > 0 {
      var n := |arg| - 1;
      ShortFlagsByLetter(arg[..n], o);
      InLastOrBefore(arg, 'a');
      InLastOrBefore(arg, 'A');
      InLastOrBefore(arg, 'l');
      InLastOrBefore(arg, 'R');
      InLastOrBefore(arg, 'r');
      InLastOrBefore(arg, 'v');
      InLastOrBefore(arg, '?');
    }
  }

  /** A character of a non-empty string is its last one or one before it. */
  lemma InLastOrBefore(s: string, c: char)
    requires |s| > 0
    ensures (c in s) == (c in s[..|s| - 1] || c == s[|s| - 1])
  {
    if c in s {
      var k :| 0 <= k < |s| && s[k] == c;
      if k < |s| - 1 { assert s[..|s| - 1][k] == c; }
    }
  }

  // ---------------------------------------------------------------------
  // Long options ("--long", "--sort SIZE")

  /** Why the command line is refused: a --sort value that names no key, or no value at all. */
  datatype SortError = BadSortValue(value: string) | MissingSortValue

  /** ParseLongArgument's result: the options and the index of the last argument it consumed, or an error. */
  datatype LongOutcome = Continue(options: Options, last: nat) | Stop(error: SortError)

  /** The keys --sort accepts, in lower case. */
  const SortNames: seq<string> := ["name", "size", "owner", "group", "created", "accessed", "modified"]

  /**
   * The key a --sort value names, compared without regard to case as
   * _strcmpi does; none for any other value.
   */
  function SortValue(value: string): (r: Option<SortBy>)
    ensures r.Some? <==> ToLower(value) in SortNames
    ensures r.Some? ==> r.value != SortNone && r.value != SortDirectoryFirst
    ensures ToLower(value) == "size" ==> r == Some(SortBySize)
    ensures ToLower(value) == "modified" ==> r == Some(SortByLastModified)
  {
    var v := ToLower(value);
    if v == "name" then Some(SortByName)
    else if v == "size" then Some(SortBySize)
    else if v == "owner" then Some(SortByOwner)
    else if v == "group" then Some(SortByGroup)
    else if v == "created" then Some(SortByCreationDate)
    else if v == "accessed" then Some(SortByLastAccessed)
    else if v == "modified" then Some(SortByLastModified)
    else None
  }

  /** The long options other than --sort, matched exactly; any other word is ignored. */
  function LongFlag(arg: string, o: Options): (r: Options)
    ensures FlagsIncluded(o, r)
    ensures r.sortField == if arg == "--group-directories-first" then SortDirectoryFirst else o.sortField
  {
    if arg == "--group-directories-first" then o.(sortField := SortDirectoryFirst)
    else if arg == "--almost-all" then o.(showAlmostAll := true, showAll := true)
    else if arg == "--recursive" then o.(recursiveList := true)
    else if arg == "--version" then o.(showVersion := true)
    else if arg == "--virterm" then o.(virtualTerminal := true)
    else if arg == "--reverse" then o.(reverseOrder := true)
    else if arg == "--long" then o.(showLongFormat := true)
    else if arg == "--help" then o.(showHelp := true)
    else if arg == "--colors" then o.(colors := true)
    else if arg == "--icons" then o.(showIcons := true)
    else if arg == "--all" then o.(showAll := true)
    else if arg == "--smd" then o.(showIcons := true, showMetaData := true)
    else o
  }

  /** Every flag set in `o` is still set in `p`: flags are only ever turned on. */
  predicate FlagsIncluded(o: Options, p: Options) {
    && (o.showAll ==> p.showAll) && (o.showAlmostAll ==> p.showAlmostAll)
    && (o.showLongFormat ==> p.showLongFormat) && (o.reverseOrder ==> p.reverseOrder)
    && (o.recursiveList ==> p.recursiveList) && (o.colors ==> p.colors)
    && (o.showIcons ==> p.showIcons) && (o.showHelp ==> p.showHelp)
    && (o.showVersion ==> p.showVersion) && (o.showMetaData ==> p.showMetaData)
    && (o.virtualTerminal ==> p.virtualTerminal)
  }

  /**
   * ParseLongArgument for argv[i]: --sort consumes argv[i + 1] and either
   * sets the key it names or refuses the command line; every other
   * argument consumes only itself.
   */
  function ParseLongArgument(argv: seq<string>, i: nat, o: Options): (r: LongOutcome)
    requires i < |argv|
    ensures r.Continue? ==> i <= r.last < |argv| && FlagsIncluded(o, r.options)
    ensures argv[i] != "--sort" ==> r.Continue? && r.last == i
    ensures argv[i] != "--sort" && argv[i] != "--group-directories-first" ==> r.options.sortField == o.sortField
    ensures argv[i] == "--group-directories-first" ==> r == Continue(o.(sortField := SortDirectoryFirst), i)
    ensures argv[i] == "--sort" && i + 1 == |argv| ==> r == Stop(MissingSortValue)
    ensures argv[i] == "--sort" && i + 1 < |argv| ==>
      if SortValue(argv[i + 1]).Some? then r == Continue(o.(sortField := SortValue(argv[i + 1]).value), i + 1)
      else r == Stop(BadSortValue(argv[i + 1]))
  {
    if argv[i] != "--sort" then Continue(LongFlag(argv[i], o), i)
    else if i + 1 == |argv| then Stop(MissingSortValue)
    else match SortValue(argv[i + 1])
      case Some(key) => Continue(o.(sortField := key), i + 1)
      case None => Stop(BadSortValue(argv[i + 1]))
  }

  // ---------------------------------------------------------------------
  // ParseArguments

  /** The parsed command line, or the error that makes ls exit with code 1. */
  datatype ParseOutcome = Parsed(args: Arguments) | Failed(error: SortError)

  /** "--x" goes to the long parser. */
  predicate IsLongOption(arg: string) {
    |arg| >= 2 && arg[0] == '-' && arg[1] == '-'
  }

  /** "-x" (and a lone "-") goes to the short parser. */
  predicate IsShortOption(arg: string) {
    |arg| >= 1 && arg[0] == '-'
  }

  /**
   * The outcome of parsing argv[i..] onto `args`: options update the
   * flags, every other argument is queued, and a failing queue node
   * (an allocation site in `failing`) leaves the queue as it was.
   */
  function ParseFrom(argv: seq<string>, i: nat, args: Arguments, failing: set<AllocationSite>): ParseOutcome
    decreases |argv| - i
  {
    if i >= |argv| then Parsed(args)
    else if IsLongOption(argv[i]) then
      match ParseLongArgument(argv, i, args.options)
      case Continue(o, last) => ParseFrom(argv, last + 1, args.(options := o), failing)
      case Stop(e) => Failed(e)
    else if IsShortOption(argv[i]) then
      ParseFrom(argv, i + 1, args.(options := ShortFlags(argv[i][1..], args.options)), failing)
    else
      ParseFrom(argv, i + 1, AddDirectoryToList(args, argv[i], QueueNode(argv[i]) !in failing), failing)
  }

  /** The whole command line; argv[0] is the program name. */
  function Parse(argv: seq<string>, failing: set<AllocationSite>): ParseOutcome {
    ParseFrom(argv, 1, ZeroArguments, failing)
  }

  /** ParseArguments: from all-false options and an empty queue, one argument (or two for --sort) at a time. */
  method ParseArguments(argv: seq<string>, failing: set<AllocationSite>) returns (r: ParseOutcome)
    ensures r == Parse(argv, failing)
  {
    var args := ZeroArguments;
    var i: nat := 1;
    while i < |argv|
      invariant ParseFrom(argv, i, args, failing) == Parse(argv, failing)
      decreases |argv| - i
    {
      var arg := argv[i];
      if IsLongOption(arg) {
        match ParseLongArgument(argv, i, args.options)
        case Continue(o, last) =>
          args := args.(options := o);
          i := last;
        case Stop(e) =>
          return Failed(e);
      } else if IsShortOption(arg) {
        var o := ParseShortArgument(arg[1..], args.options);
        args := args.(options := o);
      } else {
        args := AddDirectoryToList(args, arg, QueueNode(arg) !in failing);
      }
      i := i + 1;
    }
    r := Parsed(args);
  }

  /** Options only turn flags on, so no later argument can clear an earlier one. */
  lemma {:induction false} ParseKeepsFlags(argv: seq<string>, i: nat, args: Arguments, failing: set<AllocationSite>)
    requires ParseFrom(argv, i, args, failing).Parsed?
    ensures FlagsIncluded(args.options, ParseFrom(argv, i, args, failing).args.options)
    decreases |argv| - i
  {
    if i < |argv| {
      if IsLongOption(argv[i]) {
        var r := ParseLongArgument(argv, i, args.options);
        ParseKeepsFlags(argv, r.last + 1, args.(options := r.options), failing);
      } else if IsShortOption(argv[i]) {
        ShortFlagsByLetter(argv[i][1..], args.options);
        ParseKeepsFlags(argv, i + 1, args.(options := ShortFlags(argv[i][1..], args.options)), failing);
      } else {
        ParseKeepsFlags(argv, i + 1, AddDirectoryToList(args, argv[i], QueueNode(argv[i]) !in failing), failing);
      }
    }
  }

  /**
   * Parsing is left to right: once argv has been parsed, what follows it
   * is parsed from the arguments argv produced.
   */
  lemma {:induction false} ParseThenRest(argv: seq<string>, rest: seq<string>, i: nat, args: Arguments, failing: set<AllocationSite>)
    requires i <= |argv| && ParseFrom(argv, i, args, failing).Parsed?
    ensures ParseFrom(argv + rest, i, args, failing) == ParseFrom(argv + rest, |argv|, ParseFrom(argv, i, args, failing).args, failing)
    decreases |argv| - i
  {
    var all := argv + rest;
    if i < |argv| {
      assert all[i] == argv[i];
      if IsLongOption(argv[i]) {
        var r := ParseLongArgument(argv, i, args.options);
        assert argv[i] == "--sort" ==> all[i + 1] == argv[i + 1];
        assert ParseLongArgument(all, i, args.options) == r;
        ParseThenRest(argv, rest, r.last + 1, args.(options := r.options), failing);
      } else if IsShortOption(argv[i]) {
        ParseThenRest(argv, rest, i + 1, args.(options := ShortFlags(argv[i][1..], args.options)), failing);
      } else {
        ParseThenRest(argv, rest, i + 1, AddDirectoryToList(args, argv[i], QueueNode(argv[i]) !in failing), failing);
      }
    }
  }

  /** For the sort key the last --sort wins: appending one overrides whatever came before. */
  lemma LastSortWins(argv: seq<string>, value: string, failing: set<AllocationSite>)
    requires |argv| >= 1 && Parse(argv, failing).Parsed? && SortValue(value).Some?
    ensures Parse(argv + ["--sort", value], failing) ==
      Parsed(Parse(argv, failing).args.(options := Parse(argv, failing).args.options.(sortField := SortValue(value).value)))
  {
    var all := argv + ["--sort", value];
    ParseThenRest(argv, ["--sort", value], 1, ZeroArguments, failing);
    assert all[|argv|] == "--sort" && all[|argv| + 1] == value;
  }

  /** An operand that is no option is queued at the tail, after every path before it. */
  lemma AppendedOperandIsQueuedLast(argv: seq<string>, path: string, failing: set<AllocationSite>)
    requires |argv| >= 1 && Parse(argv, failing).Parsed?
    requires !IsShortOption(path) && QueueNode(path) !in failing
    ensures Parse(argv + [path], failing) ==
      Parsed(Parse(argv, failing).args.(dirs := Parse(argv, failing).args.dirs + [path]))
  {
    var all := argv + [path];
    ParseThenRest(argv, [path], 1, ZeroArguments, failing);
    assert all[|argv|] == path;
  }

  /** Operands that are no options are queued in command-line order. */
  lemma {:induction false} OperandsQueuedInOrder(argv: seq<string>, i: nat, args: Arguments, failing: set<AllocationSite>)
    requires i <= |argv|
    requires forall k :: i <= k < |argv| ==> !IsShortOption(argv[k]) && QueueNode(argv[k]) !in failing
    ensures ParseFrom(argv, i, args, failing) == Parsed(args.(dirs := args.dirs + argv[i..]))
    decreases |argv| - i
  {
    if i < |argv| {
      OperandsQueuedInOrder(argv, i + 1, args.(dirs := args.dirs + [argv[i]]), failing);
      assert args.dirs + [argv[i]] + argv[i + 1..] == args.dirs + argv[i..];
    }
  }
}

// The main loop of ls, in its own module so that the parser's
// definitions stay out of its proofs.
module LsMain {
  import opened Wrappers
  import opened LsTypes
  import opened Win32
  import opened Utils
  import opened Directories
  import opened Sorting
  import opened Screen
  import opened Ls
  import opened AssetMetaDataTable

  // ---------------------------------------------------------------------
  // Host assumptions

  /** Every name the host enumerates fits cFileName, a MAX_PATH buffer. */
  predicate NamesFit(host: Host) {
    forall pattern, e :: pattern in host.listings && e in host.listings[pattern] ==> |e.name| < PATH_SIZE
  }

  /** The accepted entries are entries. */
  lemma {:induction false} AcceptedAreEntries(es: seq<FindData>, options: Options)
    ensures forall e :: e in Accepted(es, options) ==> e in es
  {
    if |es| > 0 {
      var n := |es| - 1;
      AcceptedAreEntries(es[..n], options);
      forall e | e in es[..n] ensures e in es {
        var k :| 0 <= k < n && es[..n][k] == e;
        assert es[k] == e;
      }
    }
  }

  /** An asset takes its name from its entry. */
  lemma AssetNamesFit(es: seq<FindData>, options: Options, host: Host, currentPath: string)
    requires forall e :: e in es ==> |e.name| < PATH_SIZE
    ensures forall a :: a in AssetsOf(es, options, host, currentPath) ==> |a.name| < PATH_SIZE
  {
    var accepted := Accepted(es, options);
    AcceptedAreEntries(es, options);
    forall a | a in AssetsOf(es, options, host, currentPath) ensures |a.name| < PATH_SIZE {
      var assets := AssetsOf(es, options, host, currentPath);
      var i :| 0 <= i < |assets| && assets[i] == a;
      assert a.name == accepted[i].name;
    }
  }

  /** The assets of a listing carry names the host enumerated, so they fit the name buffer. */
  lemma ListedNamesFit(path: string, options: Options, host: Host)
    requires NamesFit(host) && Scan(path, options, host).Listed?
    ensures forall a :: a in Scan(path, options, host).assets ==> |a.name| < PATH_SIZE
  {
    var pattern := SearchPattern(path, host).value;
    var es := EntriesOf(host, pattern);
    var m := StopIndex(es, options, host, path, 0);
    forall e | e in es[..m] ensures |e.name| < PATH_SIZE {
      var k :| 0 <= k < m && es[..m][k] == e;
      assert es[k] in host.listings[pattern];
    }
    AssetNamesFit(es[..m], options, host, CurrentPath(path, host));
  }

  // ---------------------------------------------------------------------
  // The order of the loop

  /** One turn of the loop: the directory at the head of the queue, and whether another follows it then. */
  datatype Visit = Visit(path: string, more: bool)

  /** What listing `path` appends to the tail of the queue. */
  function Found(path: string, options: Options, host: Host): seq<string> {
    match Scan(path, options, host)
    case NotFound => []
    case Listed(_, discovered) => discovered
  }

  /**
   * The turns of the loop from `queue`, for at most `fuel` turns: the head
   * is listed, what it discovers goes to the tail, and the head is dropped.
   */
  function Schedule(queue: seq<string>, options: Options, host: Host, fuel: nat): seq<Visit>
    decreases fuel
  {
    if fuel == 0 || |queue| == 0 then []
    else
      var after := queue + Found(queue[0], options, host);
      [Visit(queue[0], |after| > 1)] + Schedule(after[1..], options, host, fuel - 1)
  }

  /**
   * The queue is served first in first out: the directories already queued
   * are listed, in their order, before anything found while listing them.
   */
  lemma {:induction false} QueueServedFirst(queue: seq<string>, later: seq<string>, options: Options, host: Host, fuel: nat)
    requires |queue| <= fuel
    ensures |Schedule(queue + later, options, host, fuel)| >= |queue|
    ensures forall k :: 0 <= k < |queue| ==> Schedule(queue + later, options, host, fuel)[k].path == queue[k]
  {
    if |queue| > 0 {
      var all := queue + later;
      var after := all + Found(all[0], options, host);
      assert after[1..] == queue[1..] + (later + Found(all[0], options, host));
      QueueServedFirst(queue[1..], later + Found(all[0], options, host), options, host, fuel - 1);
    }
  }

  /**
   * When the queue runs dry before the fuel does, a turn sees another
   * directory behind its own exactly when it is not the last turn.
   */
  lemma {:induction false} MoreUnlessLast(queue: seq<string>, options: Options, host: Host, fuel: nat, j: nat)
    requires |Schedule(queue, options, host, fuel)| < fuel
    requires j < |Schedule(queue, options, host, fuel)|
    ensures Schedule(queue, options, host, fuel)[j].more <==> j + 1 < |Schedule(queue, options, host, fuel)|
    decreases j
  {
    var after := queue + Found(queue[0], options, host);
    if j > 0 {
      MoreUnlessLast(after[1..], options, host, fuel - 1, j - 1);
    }
  }

  /** Without -R nothing is appended, so exactly the queued directories are listed, in order. */
  lemma {:induction false} NonRecursiveListsQueue(queue: seq<string>, options: Options, host: Host, fuel: nat)
    requires !options.recursiveList && |queue| <= fuel
    ensures |Schedule(queue, options, host, fuel)| == |queue|
    ensures forall k :: 0 <= k < |queue| ==> Schedule(queue, options, host, fuel)[k].path == queue[k]
  {
    if |queue| > 0 {
      match SearchPattern(queue[0], host) {
        case None =>
        case Some(pattern) =>
          var es := EntriesOf(host, pattern);
          var m := StopIndex(es, options, host, queue[0], 0);
          DiscoveredOnlyWhenRecursive(es[..m], options, host, CurrentPath(queue[0], host));
      }
      assert (queue + Found(queue[0], options, host))[1..] == queue[1..];
      NonRecursiveListsQueue(queue[1..], options, host, fuel - 1);
    }
  }

  // ---------------------------------------------------------------------
  // What each turn writes

  /** A turn's outcome: the directory was not found, was empty, or was listed in the order given. */
  datatype Report = Missing(path: string) | Skipped(path: string) | Shown(path: string, more: bool, assets: seq<Asset>)

  /** The order SortDirectoryContent leaves the listing of `assets` in. */
  predicate Arranged(sorted: seq<Asset>, assets: seq<Asset>, options: Options) {
    && multiset(sorted) == multiset(assets)
    && (options.sortField == SortNone ==> sorted == (if options.reverseOrder then Reversed(assets) else assets))
    && (options.sortField != SortNone ==> Sorted(options.sortField, if options.reverseOrder then Reversed(sorted) else sorted))
  }

  /**
   * The report main makes for a turn: a path that cannot be listed is
   * reported missing; an empty listing is skipped; any other is shown,
   * sorted as the options ask.
   */
  predicate Reports(r: Report, v: Visit, options: Options, host: Host) {
    match Scan(v.path, options, host)
    case NotFound => r == Missing(v.path)
    case Listed(assets, _) =>
      if |assets| == 0 then r == Skipped(v.path)
      else r.Shown? && r.path == v.path && r.more == v.more && Arranged(r.assets, assets, options)
  }

  /** Report by report, the turns of the loop. */
  predicate ReportsAll(rs: seq<Report>, vs: seq<Visit>, options: Options, host: Host) {
    |rs| == |vs| && forall j :: 0 <= j < |vs| ==> Reports(rs[j], vs[j], options, host)
  }

  /** The message for a path that cannot be listed. */
  function NotFoundMessage(path: string): Segment {
    Segment(Plain, "\"" + path + "\": No such file or directory\n")
  }

  /** The path as a header, when another directory follows. */
  function Header(path: string, more: bool): seq<Segment> {
    if more then [Segment(Plain, path + "\n")] else []
  }

  /** Two line breaks after the listing, when another directory follows. */
  function Trailer(more: bool): seq<Segment> {
    if more then [Segment(Plain, "\n\n")] else []
  }

  /** The listing in the long or the short format. */
  function ListingText(assets: seq<Asset>, options: Options, path: string, host: Host, table: seq<AssetMetadata>): seq<Segment> {
    if options.showLongFormat then LongListing(assets, options, path, host, table)
    else ShortLines(assets, |assets|, options, table)
  }

  /**
   * What a turn writes: the message for a missing path, nothing for an
   * empty one; otherwise the listing, between the path as a header and
   * two line breaks when another directory follows.
   */
  function Block(r: Report, options: Options, host: Host, table: seq<AssetMetadata>): seq<Segment> {
    match r
    case Missing(path) => [NotFoundMessage(path)]
    case Skipped(_) => []
    case Shown(path, more, assets) => Header(path, more) + ListingText(assets, options, path, host, table) + Trailer(more)
  }

  /** The text of the turns, in order. */
  function Render(rs: seq<Report>, options: Options, host: Host, table: seq<AssetMetadata>): seq<Segment> {
    if |rs| == 0 then [] else Render(rs[..|rs| - 1], options, host, table) + Block(rs[|rs| - 1], options, host, table)
  }

  /** One turn of the loop in main, for the directory at the head of the queue. */
  method ListHead(queue: seq<string>, options: Options, host: Host, table: seq<AssetMetadata>)
    returns (report: Report, text: seq<Segment>, rest: seq<string>)
    requires |queue| > 0 && NamesFit(host)
    ensures Reports(report, Visit(queue[0], |queue + Found(queue[0], options, host)| > 1), options, host)
    ensures text == Block(report, options, host, table)
    ensures rest == (queue + Found(queue[0], options, host))[1..]
  {
    var path := queue[0];
    var content, args := GetDirectoryContent(path, Arguments(options, queue), host);
    var more := |args.dirs| > 1;
    rest := args.dirs[1..];
    if content == null {
      report := Missing(path);
      text := [NotFoundMessage(path)];
      return;
    }
    if content.size == 0 {
      report := Skipped(path);
      text := [];
      return;
    }
    ListedNamesFit(path, options, host);
    report, text := ShowContent(content, path, more, options, host, table);
  }

  /** A non-empty container: sorted, then written between its header and trailer. */
  method ShowContent(content: Directory, path: string, more: bool, options: Options, host: Host, table: seq<AssetMetadata>)
    returns (report: Report, text: seq<Segment>)
    requires content.Valid() && content.size > 0
    requires forall a :: a in content.Contents() ==> |a.name| < PATH_SIZE
    modifies content.data
    ensures report.Shown? && report.path == path && report.more == more
    ensures Arranged(report.assets, old(content.Contents()), options)
    ensures text == Block(report, options, host, table)
  {
    ghost var assets := content.Contents();
    SortDirectoryContent(content, options);
    forall i | 0 <= i < content.size ensures |content.data[i].name| < PATH_SIZE {
      assert content.data[i] == content.Contents()[i];
      assert content.data[i] in multiset(assets);
    }
    var listing := PrintListing(content, path, options, host, table);
    text := Header(path, more) + listing + Trailer(more);
    report := Shown(path, more, content.data[..content.size]);
  }

  /** The listing of a sorted container, in the format the options ask for. */
  method PrintListing(content: Directory, path: string, options: Options, host: Host, table: seq<AssetMetadata>)
    returns (listing: seq<Segment>)
    requires content.Valid()
    requires forall i :: 0 <= i < content.size ==> |content.data[i].name| < PATH_SIZE
    ensures listing == ListingText(content.Contents(), options, path, host, table)
  {
    if options.showLongFormat {
      listing := PrintAssetLongFormat(content, path, options, host, table);
    } else {
      listing := PrintAssetShortFormat(content, options, table);
    }
  }

  /** One turn of the schedule moves its first visit to the visits done. */
  lemma ScheduleAdvance(done: seq<Visit>, queue: seq<string>, options: Options, host: Host, fuel: nat)
    requires fuel > 0 && |queue| > 0
    ensures done + Schedule(queue, options, host, fuel) ==
      (done + [Visit(queue[0], |queue + Found(queue[0], options, host)| > 1)])
      + Schedule((queue + Found(queue[0], options, host))[1..], options, host, fuel - 1)
  {
  }

  lemma ReportsAllSnoc(rs: seq<Report>, vs: seq<Visit>, r: Report, v: Visit, options: Options, host: Host)
    requires ReportsAll(rs, vs, options, host) && Reports(r, v, options, host)
    ensures ReportsAll(rs + [r], vs + [v], options, host)
  {
  }

  lemma RenderSnoc(rs: seq<Report>, r: Report, options: Options, host: Host, table: seq<AssetMetadata>)
    ensures Render(rs + [r], options, host, table) == Render(rs, options, host, table) + Block(r, options, host, table)
  {
    assert (rs + [r])[..|rs|] == rs;
  }

  /** The loop of main: turns until the queue is empty, or for at most `fuel` turns. */
  method ListDirectories(queue: seq<string>, options: Options, host: Host, table: seq<AssetMetadata>, fuel: nat)
    returns (out: seq<Segment>, reports: seq<Report>)
    requires NamesFit(host)
    ensures ReportsAll(reports, Schedule(queue, options, host, fuel), options, host)
    ensures out == Render(reports, options, host, table)
  {
    out := [];
    reports := [];
    var q := queue;
    var turns: nat := 0;
    ghost var done: seq<Visit> := [];
    while turns < fuel && |q| > 0
      invariant turns <= fuel
      invariant done + Schedule(q, options, host, fuel - turns) == Schedule(queue, options, host, fuel)
      invariant ReportsAll(reports, done, options, host)
      invariant out == Render(reports, options, host, table)
      decreases fuel - turns
    {
      var report, text, rest := ListHead(q, options, host, table);
      ghost var visit := Visit(q[0], |q + Found(q[0], options, host)| > 1);
      ScheduleAdvance(done, q, options, host, fuel - turns);
      ReportsAllSnoc(reports, done, report, visit, options, host);
      RenderSnoc(reports, report, options, host, table);
      done := done + [visit];
      reports := reports + [report];
      out := out + text;
      q := rest;
      turns := turns + 1;
    }
  }

  // ---------------------------------------------------------------------
  // main

  /** The messages of a refused --sort; a missing value writes nothing. */
  function SortErrorText(e: SortError): seq<Segment> {
    match e
    case BadSortValue(value) =>
      [Segment(Plain, "Invalid sort argument: " + value + "\n"),
       Segment(Plain, "Valid fields are: NAME, SIZE, OWNER, GROUP, CREATED, ACCESSED, MODIFIED (insensitive case)")]
    case MissingSortValue => []
  }

  /** The warnings for a console that refuses UTF-8 (with icons) or the virtual terminal (with --virterm). */
  function Warnings(options: Options, codePageSet: bool, terminalEnabled: bool): seq<Segment> {
    (if options.showIcons && !codePageSet
     then [Segment(Plain, "WARNING:\n"),
           Segment(Plain, "Can not set console to UNICODE-UTF8. Some characters may not display correctly.\n\n")]
     else [])
    + (if options.virtualTerminal && !terminalEnabled
       then [Segment(Plain, "WARNING:\n"), Segment(Plain, "Can not enable virtual terminal.\n\n")]
       else [])
  }

  /** The options the loop runs with: --virterm stays on only when the terminal could be enabled. */
  function RunOptions(options: Options, terminalEnabled: bool): Options {
    options.(virtualTerminal := options.virtualTerminal && terminalEnabled)
  }

  /** The queue the loop starts from: the operands, or the working directory when there are none. */
  function StartQueue(args: Arguments, host: Host): seq<string> {
    if |args.dirs| == 0
    then AddDirectoryToList(args, host.workingDirectory, QueueNode(host.workingDirectory) !in host.failingAllocations).dirs
    else args.dirs
  }

  /**
   * main: parse; warn about the console; stop after the metadata table,
   * the help or the version when they are asked for; otherwise list the
   * queue, starting from the working directory when no path was given.
   * `codePageSet` and `terminalEnabled` are what SetConsoleOutputCP and
   * EnableVirtualTerminal answer.
   */
  method RunLs(argv: seq<string>, host: Host, table: seq<AssetMetadata>, codePageSet: bool, terminalEnabled: bool, fuel: nat)
    returns (exitCode: nat, out: seq<Segment>, reports: seq<Report>)
    requires NamesFit(host)
    ensures Parse(argv, host.failingAllocations).Failed? ==>
      exitCode == 1 && reports == [] && out == SortErrorText(Parse(argv, host.failingAllocations).error)
    ensures Parse(argv, host.failingAllocations).Parsed? ==>
      var args := Parse(argv, host.failingAllocations).args;
      var options := RunOptions(args.options, terminalEnabled);
      && exitCode == 0
      && (if args.options.showMetaData || args.options.showHelp || args.options.showVersion
          then reports == [] && out == Warnings(args.options, codePageSet, terminalEnabled)
          else && ReportsAll(reports, Schedule(StartQueue(args, host), options, host, fuel), options, host)
               && out == Warnings(args.options, codePageSet, terminalEnabled) + Render(reports, options, host, table))
  {
    var parsed := ParseArguments(argv, host.failingAllocations);
    if parsed.Failed? {
      return 1, SortErrorText(parsed.error), [];
    }
    var args := parsed.args;
    out := Warnings(args.options, codePageSet, terminalEnabled);
    var options := RunOptions(args.options, terminalEnabled);
    args := args.(options := options);
    if options.showMetaData || options.showHelp || options.showVersion {
      return 0, out, [];
    }
    if |args.dirs| == 0 {
      args := AddDirectoryToList(args, host.workingDirectory, QueueNode(host.workingDirectory) !in host.failingAllocations);
    }
    var listing;
    listing, reports := ListDirectories(args.dirs, options, host, table, fuel);
    out := out + listing;
    exitCode := 0;
  }
}
