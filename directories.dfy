/**
 * Directory enumeration (source/directory.c): the dot and hidden tests, the
 * date shown for an asset, the growable asset container, and the loop that
 * turns the entries the host enumerates into a container of assets.
 */
module Directories {
  import opened Wrappers
  import opened LsTypes
  import opened Win32
  import opened Utils

  // ---------------------------------------------------------------------
  // IsDotPath and IsHiddenOrDot

  /** "." or "..": the current and the parent directory. */
  predicate IsDotPath(name: string) {
    name == "." || name == ".."
  }

  /** The hidden attribute bit is set, or the name starts with '.' or '$'. */
  predicate IsHiddenOrDot(attributes: bv32, name: string) {
    HasAttribute(attributes, FILE_ATTRIBUTE_HIDDEN) || HasHiddenName(name)
  }

  /**
   * The filter and the decoded flags agree: an entry is hidden-or-dot iff its
   * hidden bit is set or TranslateAttributes would flag it hidden; "." and
   * ".." are always hidden-or-dot, so without showAll they are skipped too.
   */
  lemma HiddenOrDotAgreesWithFlags(attributes: bv32, name: string)
    ensures IsHiddenOrDot(attributes, name) <==>
      HasAttribute(attributes, FILE_ATTRIBUTE_HIDDEN) || AttributeFlags(attributes, name).hidden
    ensures IsDotPath(name) ==> IsHiddenOrDot(attributes, name)
  {
  }

  // ---------------------------------------------------------------------
  // GetTimestaps

  /** The month abbreviations, with "" standing at index 0 because SYSTEMTIME months start at 1. */
  function MonthName(m: MonthIndex): (s: string)
    ensures m == 0 <==> s == ""
    ensures m != 0 ==> |s| == 3
  {
    ["", "Jan", "Feb", "Mar", "Apr", "May", "Jun", "Jul", "Aug", "Sep", "Oct", "Nov", "Dec"][m]
  }

  /** The month names are distinct, so the month can be read back from the date. */
  lemma MonthNameInjective(m: MonthIndex, n: MonthIndex)
    ensures MonthName(m) == MonthName(n) ==> m == n
  {
  }

  /**
   * The date text: "DD Mon  YYYY" (two spaces) for a year other than the
   * current one, "DD Mon HH:MM" otherwise.
   */
  function FormatDate(t: SystemTime, currentYear: Word): string {
    if currentYear != t.year then
      ZeroPad2(t.day) + " " + MonthName(t.month) + "  " + Decimal(t.year)
    else
      ZeroPad2(t.day) + " " + MonthName(t.month) + " " + ZeroPad2(t.hour) + ":" + ZeroPad2(t.minute)
  }

  /** Every date fits its 32-byte buffer with the terminator, whatever the calendar fields hold. */
  lemma DateFits(t: SystemTime, currentYear: Word)
    ensures |FormatDate(t, currentYear)| < DATE_SIZE
  {
    DecimalLength(t.day, 5, Pow10(5));
    DecimalLength(t.year, 5, Pow10(5));
    DecimalLength(t.hour, 5, Pow10(5));
    DecimalLength(t.minute, 5, Pow10(5));
  }

  /** A calendar date a successful FileTimeToSystemTime produces. */
  predicate IsCalendarDate(t: SystemTime) {
    1 <= t.month <= 12 && 1 <= t.day <= 31 && t.hour < 24 && t.minute < 60
  }

  /**
   * The date text can be read back: the day, the month, and then either the
   * year (after two spaces) or the time (after one), and the two layouts are
   * told apart by the character at index 7.
   */
  lemma FormatDateReadBack(t: SystemTime, currentYear: Word)
    requires IsCalendarDate(t)
    ensures var d := FormatDate(t, currentYear);
      && |d| >= 9
      && IsDigits(d[..2]) && DigitsValue(d[..2]) == t.day
      && d[2] == ' ' && d[3..6] == MonthName(t.month) && d[6] == ' '
      && (d[7] == ' ' <==> currentYear != t.year)
      && (currentYear != t.year ==> IsDigits(d[8..]) && DigitsValue(d[8..]) == t.year)
      && (currentYear == t.year ==> |d| == 12 && IsDigits(d[7..9]) && DigitsValue(d[7..9]) == t.hour
                                    && d[9] == ':' && IsDigits(d[10..]) && DigitsValue(d[10..]) == t.minute)
  {
    ZeroPad2RoundTrip(t.day);
    if currentYear != t.year {
      YearLayout(t, currentYear);
      DecimalRoundTrip(t.year);
    } else {
      TimeLayout(t);
      ZeroPad2RoundTrip(t.hour);
      ZeroPad2RoundTrip(t.minute);
    }
  }

  /** The layout in another year: "DD Mon  YYYY". */
  lemma YearLayout(t: SystemTime, currentYear: Word)
    requires IsCalendarDate(t) && currentYear != t.year
    ensures var d := FormatDate(t, currentYear);
      && |d| >= 9 && d[..2] == ZeroPad2(t.day) && d[2] == ' ' && d[3..6] == MonthName(t.month)
      && d[6] == ' ' && d[7] == ' ' && d[8..] == Decimal(t.year)
  {
    var head := ZeroPad2(t.day) + " " + MonthName(t.month) + "  ";
    assert |head| == 8 && FormatDate(t, currentYear) == head + Decimal(t.year);
  }

  /** The layout in the current year: "DD Mon HH:MM". */
  lemma TimeLayout(t: SystemTime)
    requires IsCalendarDate(t)
    ensures var d := FormatDate(t, t.year);
      && |d| == 12 && d[..2] == ZeroPad2(t.day) && d[2] == ' ' && d[3..6] == MonthName(t.month)
      && d[6] == ' ' && d[7..9] == ZeroPad2(t.hour) && d[9] == ':' && d[10..] == ZeroPad2(t.minute)
  {
    var head := ZeroPad2(t.day) + " " + MonthName(t.month) + " ";
    var hh, mm := ZeroPad2(t.hour), ZeroPad2(t.minute);
    assert |head| == 7 && |hh| == 2 && |mm| == 2;
    assert FormatDate(t, t.year) == head + hh + (":" + mm);
  }

  /**
   * The calendar date shown: the creation date, unless the listing is sorted
   * by last access or last write, in which case that conversion replaces it;
   * a failed conversion leaves the previous value (zero at first).
   */
  function SelectedDate(e: FindData, sortField: SortBy): SystemTime {
    var created := e.creationDate.GetOr(ZeroSystemTime);
    match sortField
    case SortByLastAccessed => e.lastAccessDate.GetOr(created)
    case SortByLastModified => e.lastWriteDate.GetOr(created)
    case _ => created
  }

  /** The date shown follows the sort key, so a time-sorted listing shows the times it is sorted by. */
  lemma SelectedDateFollowsSortKey(e: FindData, sortField: SortBy)
    requires e.creationDate.Some? && e.lastAccessDate.Some? && e.lastWriteDate.Some?
    ensures sortField == SortByLastAccessed ==> SelectedDate(e, sortField) == e.lastAccessDate.value
    ensures sortField == SortByLastModified ==> SelectedDate(e, sortField) == e.lastWriteDate.value
    ensures sortField != SortByLastAccessed && sortField != SortByLastModified ==>
      SelectedDate(e, sortField) == e.creationDate.value
  {
  }

  /** The value a stored timestamp gets as the source writes it: the high DWORD in both halves. */
  function StoredTimestampAsWritten(ft: FileTime): nat {
    ft.high * 0x1_0000_0000 + ft.high
  }

  /** Two file times a tick apart within the same high word are stored equal as written. */
  lemma StoredTimestampLosesLowHalf()
    ensures StoredTimestampAsWritten(FileTime(7, 0)) == StoredTimestampAsWritten(FileTime(7, 1))
    ensures FileTimeValue(FileTime(7, 0)) < FileTimeValue(FileTime(7, 1))
  {
  }

  /** The 64-bit tick count of a FILETIME, the value the timestamp fields are meant to hold. */
  function FileTimeValue(ft: FileTime): nat {
    TranslateFileSize(ft.high, ft.low)
  }

  /** The stored value preserves the order of file times, which the timestamp sort keys rely on. */
  lemma FileTimeValueMonotone(a: FileTime, b: FileTime)
    ensures FileTimeValue(a) < FileTimeValue(b) <==> a.high < b.high || (a.high == b.high && a.low < b.low)
  {
  }

  /**
   * GetTimestaps: stores the three timestamps and the date text of the
   * selected calendar date. The stored values are the full 64-bit ticks
   * (see the findings in README for the source's own assignment).
   */
  function GetTimestaps(e: FindData, sortField: SortBy, currentYear: Word, asset: Asset): (r: Asset)
    ensures r.date == FormatDate(SelectedDate(e, sortField), currentYear) && |r.date| < DATE_SIZE
    ensures r.timestamp == Timestamp(FileTimeValue(e.lastAccessTime), FileTimeValue(e.creationTime), FileTimeValue(e.lastWriteTime))
    ensures r == asset.(date := r.date, timestamp := r.timestamp)
  {
    DateFits(SelectedDate(e, sortField), currentYear);
    asset.(
      date := FormatDate(SelectedDate(e, sortField), currentYear),
      timestamp := Timestamp(FileTimeValue(e.lastAccessTime), FileTimeValue(e.creationTime), FileTimeValue(e.lastWriteTime)))
  }

  // ---------------------------------------------------------------------
  // ResizeAssetArray and the growth sequence

  /** The capacity after one growth step: c + c/2 rounded half up. */
  function Grow(c: nat): (r: nat)
    ensures c >= 1 ==> r > c
  {
    c + (c + 1) / 2
  }

  /** The integer step is the source's expression c + c*0.5 + 0.5 truncated, computed exactly. */
  lemma GrowTruncatesFormula(c: nat)
    ensures Grow(c) as real <= c as real + c as real * 0.5 + 0.5 < Grow(c) as real + 1.0
  {
  }

  /** The least capacity of the growth sequence 128, 192, 288, ... (from c on) that is at least n. */
  function CapacityAtLeast(c: nat, n: nat): (r: nat)
    requires c >= 1
    ensures r >= n && r >= c
    decreases n - c
  {
    if n <= c then c else CapacityAtLeast(Grow(c), n)
  }

  /** The capacity a container holding n assets grows to next: the least capacity above n. */
  function NextCapacity(n: nat): (r: nat)
    ensures r > n
  {
    CapacityAtLeast(STARTUP_CONTAINER_SIZE, n + 1)
  }

  /** n is a capacity the container passes through. */
  predicate IsGrowthPoint(n: nat) {
    CapacityAtLeast(STARTUP_CONTAINER_SIZE, n) == n
  }

  /** Moving the bound up by one keeps the least capacity, or steps past it to the next one. */
  lemma {:induction false} CapacityAtLeastStep(c: nat, n: nat)
    requires c >= 1
    ensures CapacityAtLeast(c, n) > n ==> CapacityAtLeast(c, n + 1) == CapacityAtLeast(c, n)
    ensures CapacityAtLeast(c, n) == n ==> CapacityAtLeast(c, n + 1) == Grow(n)
    decreases n - c
  {
    if n + 1 <= c {
    } else if n == c {
    } else {
      CapacityAtLeastStep(Grow(c), n);
    }
  }

  /** The least capacity at or above a bound is itself a capacity of the sequence. */
  lemma {:induction false} CapacityAtLeastIsGrowthPoint(c: nat, n: nat)
    requires c >= 1 && IsGrowthPoint(c)
    ensures IsGrowthPoint(CapacityAtLeast(c, n))
    decreases n - c
  {
    if n > c {
      CapacityAtLeastStep(STARTUP_CONTAINER_SIZE, c);
      assert CapacityAtLeast(STARTUP_CONTAINER_SIZE, c + 1) == Grow(c);
      GrowthPointNext(c);
      CapacityAtLeastIsGrowthPoint(Grow(c), n);
    }
  }

  lemma GrowthPointNext(c: nat)
    requires IsGrowthPoint(c)
    ensures IsGrowthPoint(Grow(c))
  {
    CapacityAtLeastStep(STARTUP_CONTAINER_SIZE, c);
    assert CapacityAtLeast(STARTUP_CONTAINER_SIZE, c + 1) == Grow(c);
    var g := Grow(c);
    CapacityAtLeastFrom(c + 1, g);
  }

  /** Between a bound and the least capacity above it there is no other capacity. */
  lemma {:induction false} CapacityAtLeastFrom(m: nat, n: nat)
    requires m <= n && CapacityAtLeast(STARTUP_CONTAINER_SIZE, m) == n
    ensures CapacityAtLeast(STARTUP_CONTAINER_SIZE, n) == n
    decreases n - m
  {
    if m < n {
      CapacityAtLeastStep(STARTUP_CONTAINER_SIZE, m);
      CapacityAtLeastFrom(m + 1, n);
    }
  }

  /**
   * The growth sequence: a container's capacities are 128, then each growth
   * point's Grow; the next capacity above a growth point is its Grow, and the
   * next capacity above any size is a growth point.
   */
  lemma GrowthSequence(n: nat)
    ensures IsGrowthPoint(STARTUP_CONTAINER_SIZE) && NextCapacity(STARTUP_CONTAINER_SIZE) == 192
    ensures NextCapacity(192) == 288
    ensures IsGrowthPoint(n) ==> NextCapacity(n) == Grow(n)
    ensures IsGrowthPoint(NextCapacity(n))
    ensures IsGrowthPoint(n + 1) <==> NextCapacity(n) == n + 1
    ensures !IsGrowthPoint(n + 1) ==> NextCapacity(n + 1) == NextCapacity(n)
  {
    CapacityAtLeastStep(STARTUP_CONTAINER_SIZE, n);
    CapacityAtLeastStep(STARTUP_CONTAINER_SIZE, n + 1);
    CapacityAtLeastFrom(n + 1, NextCapacity(n));
    assert CapacityAtLeast(STARTUP_CONTAINER_SIZE, 192) == 192 by {
      assert CapacityAtLeast(192, 192) == 192;
    }
    CapacityAtLeastStep(STARTUP_CONTAINER_SIZE, 192);
  }

  /**
   * ResizeAssetArray: makes room for one more asset. A missing container is
   * allocated with STARTUP_CONTAINER_SIZE slots; a container with a free slot
   * is returned as it is; a full one grows to Grow(capacity) slots, keeping
   * its assets and zero-filling the new slots. A failed allocation yields
   * null and leaves the container as it was.
   */
  method ResizeAssetArray(container: Directory?, allocationFails: bool) returns (r: Directory?)
    requires container != null ==> container.Valid()
    modifies container
    ensures container == null && allocationFails ==> r == null
    ensures container == null && !allocationFails ==>
      r != null && fresh(r) && fresh(r.data) && r.Valid()
      && r.size == 0 && r.capacity == STARTUP_CONTAINER_SIZE
    ensures container != null && old(container.size) < old(container.capacity) ==>
      r == container && unchanged(container)
    ensures container != null && old(container.size) == old(container.capacity) && allocationFails ==>
      r == null && unchanged(container)
    ensures container != null && old(container.size) == old(container.capacity) && !allocationFails ==>
      && r == container && container.Valid() && fresh(container.data)
      && container.size == old(container.size)
      && container.capacity == Grow(old(container.capacity))
      && container.data[..container.size] == old(container.data[..container.size])
      && (forall i :: container.size <= i < container.capacity ==> container.data[i] == ZeroAsset)
  {
    if container == null {
      if allocationFails {
        return null;
      }
      r := new Directory(STARTUP_CONTAINER_SIZE);
      return;
    }
    if container.size < container.capacity {
      return container;
    }
    var newCapacity := Grow(container.capacity);
    if allocationFails {
      return null;
    }
    var newData := new Asset[newCapacity](_ => ZeroAsset);
    forall i | 0 <= i < container.size {
      newData[i] := container.data[i];
    }
    container.data := newData;
    container.capacity := newCapacity;
    r := container;
  }

  // ---------------------------------------------------------------------
  // GetDirectoryContent

  /**
   * The search pattern: a wildcard path or a document is searched as it is,
   * a directory gets "\*" appended, anything else is not found.
   */
  function SearchPattern(path: string, host: Host): Option<string> {
    var attributes := FileAttributes(host, path);
    if '*' in path || IsValidDocument(attributes) then Some(path)
    else if IsValidDirectory(attributes) then Some(path + "\\*")
    else None
  }

  /** The entries the host enumerates for a pattern; none means the first find fails. */
  function EntriesOf(host: Host, pattern: string): seq<FindData> {
    if pattern in host.listings then host.listings[pattern] else []
  }

  /** The directory the entries' paths are built from. */
  function CurrentPath(path: string, host: Host): string {
    DirectoryFromPath(path, IsValidDocument(FileAttributes(host, path)), host.workingDirectory)
  }

  /** The full path of an entry: the current path, a backslash, the entry name. */
  function EntryPath(currentPath: string, name: string): string {
    currentPath + "\\" + name
  }

  /** The two filters: "." and ".." go with showAlmostAll; hidden-or-dot entries go without showAll. */
  predicate Accepts(e: FindData, options: Options) {
    !(options.showAlmostAll && IsDotPath(e.name)) && (options.showAll || !IsHiddenOrDot(e.attributes, e.name))
  }

  /** The entries that pass the filters, in enumeration order. */
  function Accepted(es: seq<FindData>, options: Options): (r: seq<FindData>)
    ensures |r| <= |es|
  {
    if |es| == 0 then []
    else Accepted(es[..|es| - 1], options) + (if Accepts(es[|es| - 1], options) then [es[|es| - 1]] else [])
  }

  /** The asset the loop body builds for an accepted entry, in the order the source fills it. */
  function NewAsset(e: FindData, options: Options, host: Host, currentPath: string): Asset {
    var path := EntryPath(currentPath, e.name);
    var kind := AttributeFlags(e.attributes, e.name);
    Asset(
      accessRights := Permissions(SecurityOf(host, path)),
      kind := kind,
      timestamp := Timestamp(FileTimeValue(e.lastAccessTime), FileTimeValue(e.creationTime), FileTimeValue(e.lastWriteTime)),
      size := TranslateFileSize(e.sizeHigh, e.sizeLow),
      date := FormatDate(SelectedDate(e, options.sortField), host.currentYear),
      name := e.name,
      link := if kind.symlink then LinkTarget(host, path, "") else "",
      path := path,
      domain := DomainOf(OwnerQueryOf(host, path)),
      owner := OwnerOf(OwnerQueryOf(host, path)))
  }

  /** The assets of the accepted entries, in enumeration order. */
  function AssetsOf(es: seq<FindData>, options: Options, host: Host, currentPath: string): (r: seq<Asset>)
    ensures |r| == |Accepted(es, options)|
  {
    var accepted := Accepted(es, options);
    seq(|accepted|, i requires 0 <= i < |accepted| => NewAsset(accepted[i], options, host, currentPath))
  }

  /** What one entry adds to the queue: its path, for an accepted directory other than "." and "..", in recursive mode. */
  function Queued(e: FindData, options: Options, host: Host, currentPath: string): seq<string> {
    var path := EntryPath(currentPath, e.name);
    if Accepts(e, options) && options.recursiveList && AttributeFlags(e.attributes, e.name).directory
       && !IsDotPath(e.name) && QueueNode(path) !in host.failingAllocations
    then [path] else []
  }

  /** The paths the entries add to the queue, in enumeration order. */
  function Discovered(es: seq<FindData>, options: Options, host: Host, currentPath: string): seq<string> {
    if |es| == 0 then []
    else Discovered(es[..|es| - 1], options, host, currentPath) + Queued(es[|es| - 1], options, host, currentPath)
  }

  /**
   * Whether pass k of the loop allocates: the first pass allocates the
   * container, and a later pass grows it when the previous pass filled it
   * up to a capacity of the growth sequence.
   */
  predicate NeedsAllocation(es: seq<FindData>, options: Options, k: nat)
    requires k <= |es|
  {
    k == 0 || (Accepts(es[k - 1], options) && IsGrowthPoint(|Accepted(es[..k], options)|))
  }

  /** The first pass, from k on, whose allocation fails; |es| when none does. */
  function StopIndex(es: seq<FindData>, options: Options, host: Host, path: string, k: nat): (m: nat)
    requires k <= |es|
    ensures k <= m <= |es|
    decreases |es| - k
  {
    if k == |es| then |es|
    else if NeedsAllocation(es, options, k) && ContainerGrowth(path, k) in host.failingAllocations then k
    else StopIndex(es, options, host, path, k + 1)
  }

  /** The outcome of listing one path. */
  datatype Listing = NotFound | Listed(assets: seq<Asset>, discovered: seq<string>)

  /**
   * What GetDirectoryContent yields for `path`: not found when there is no
   * pattern, no entry, or the container cannot be allocated; otherwise the
   * assets and queued paths of the passes before the first failing growth.
   */
  function Scan(path: string, options: Options, host: Host): Listing {
    match SearchPattern(path, host)
    case None => NotFound
    case Some(pattern) =>
      var es := EntriesOf(host, pattern);
      var m := StopIndex(es, options, host, path, 0);
      if m == 0 then NotFound
      else Listed(AssetsOf(es[..m], options, host, CurrentPath(path, host)),
                  Discovered(es[..m], options, host, CurrentPath(path, host)))
  }

  lemma AcceptedStep(es: seq<FindData>, options: Options, k: nat)
    requires k < |es|
    ensures Accepted(es[..k + 1], options) ==
      Accepted(es[..k], options) + (if Accepts(es[k], options) then [es[k]] else [])
  {
    assert es[..k + 1][..k] == es[..k];
  }

  lemma DiscoveredStep(es: seq<FindData>, options: Options, host: Host, currentPath: string, k: nat, queue: seq<string>)
    requires k < |es|
    ensures queue + Discovered(es[..k + 1], options, host, currentPath) ==
      (queue + Discovered(es[..k], options, host, currentPath)) + Queued(es[k], options, host, currentPath)
  {
    assert es[..k + 1][..k] == es[..k];
  }

  lemma AssetsOfStep(es: seq<FindData>, options: Options, host: Host, currentPath: string, k: nat)
    requires k < |es|
    ensures AssetsOf(es[..k + 1], options, host, currentPath) ==
      AssetsOf(es[..k], options, host, currentPath)
      + Added(es[k], options, host, currentPath)
  {
    AcceptedStep(es, options, k);
  }

  /**
   * The capacity before pass k + 1, from the capacity after the growth of
   * pass k: unchanged by a skipped entry, and after an accepted one either
   * exactly full (at a growth point) or still the next capacity up.
   */
  lemma CapacityAfterPass(es: seq<FindData>, options: Options, k: nat, size: nat, capacity: nat)
    requires k < |es| && size == |Accepted(es[..k], options)| && capacity == NextCapacity(size)
    ensures var size' := size + (if Accepts(es[k], options) then 1 else 0);
      capacity == (if NeedsAllocation(es, options, k + 1) then size' else NextCapacity(size'))
  {
    AcceptedStep(es, options, k);
    GrowthSequence(size);
  }

  /** The asset-filling part of the loop body: the calls of the source in order, on a zeroed slot. */
  method FillAsset(e: FindData, options: Options, host: Host, currentPath: string) returns (asset: Asset)
    ensures asset == NewAsset(e, options, host, currentPath)
    ensures asset.name == e.name && asset.path == EntryPath(currentPath, e.name)
    ensures asset.kind == AttributeFlags(e.attributes, e.name)
  {
    var assetPath := EntryPath(currentPath, e.name);
    asset := ZeroAsset.(name := e.name, path := assetPath);
    asset := GetPermissions(SecurityOf(host, assetPath), asset);
    var ownerFound;
    asset, ownerFound := GetOwnerAndDomain(OwnerQueryOf(host, assetPath), asset);
    asset := GetTimestaps(e, options.sortField, host.currentYear, asset);
    asset := asset.(size := TranslateFileSize(e.sizeHigh, e.sizeLow));
    asset := TranslateAttributes(e.attributes, asset);
    if asset.kind.symlink {
      var linked;
      asset, linked := GetLinkTarget(host, assetPath, asset);
    }
  }

  /** What one entry adds to the listing: its asset when it passes the filters. */
  function Added(e: FindData, options: Options, host: Host, currentPath: string): seq<Asset> {
    if Accepts(e, options) then [NewAsset(e, options, host, currentPath)] else []
  }

  /**
   * The body of the enumeration loop after the container has room: the two
   * filters, the filling of the slot at index `size`, and the queueing of a
   * subdirectory in recursive mode.
   */
  method AddEntry(content: Directory, e: FindData, args: Arguments, host: Host, currentPath: string)
    returns (argsOut: Arguments)
    requires content.Valid() && content.size < content.capacity
    modifies content, content.data
    ensures content.Valid() && content.data == old(content.data) && content.capacity == old(content.capacity)
    ensures content.Contents() == old(content.Contents()) + Added(e, args.options, host, currentPath)
    ensures argsOut == args.(dirs := args.dirs + Queued(e, args.options, host, currentPath))
  {
    argsOut := args;
    if args.options.showAlmostAll && IsDotPath(e.name) {
      return;
    }
    if !args.options.showAll && IsHiddenOrDot(e.attributes, e.name) {
      return;
    }
    var asset := FillAsset(e, args.options, host, currentPath);
    content.Append(asset);
    if args.options.recursiveList && asset.kind.directory && !IsDotPath(e.name) {
      argsOut := AddDirectoryToList(argsOut, asset.path, QueueNode(asset.path) !in host.failingAllocations);
    }
  }

  /**
   * The container after k passes: valid, holding the assets of the accepted
   * entries among the first k, with the capacity of the growth sequence.
   */
  ghost predicate Gathered(content: Directory, es: seq<FindData>, options: Options, host: Host, currentPath: string, k: nat)
    requires k <= |es|
    reads content, content.data
  {
    && content.Valid()
    && content.Contents() == AssetsOf(es[..k], options, host, currentPath)
    && content.capacity == (if NeedsAllocation(es, options, k) then content.size else NextCapacity(content.size))
  }

  /**
   * Pass k of the enumeration loop: the growth of the container, then the
   * entry. A null result is the failed growth that ends the loop.
   */
  method Pass(content: Directory?, es: seq<FindData>, k: nat, args: Arguments, host: Host, path: string, currentPath: string)
    returns (r: Directory?, argsOut: Arguments)
    requires k < |es| && (k == 0 <==> content == null)
    requires content != null ==> Gathered(content, es, args.options, host, currentPath, k)
    modifies if content == null then {} else {content, content.data}
    ensures r == null <==> NeedsAllocation(es, args.options, k) && ContainerGrowth(path, k) in host.failingAllocations
    ensures r == null && content != null ==>
      content.data == old(content.data) && Gathered(content, es, args.options, host, currentPath, k)
    ensures r != null ==>
      && (if content == null then fresh(r) else r == content)
      && (fresh(r.data) || (content != null && r.data == old(content.data)))
      && Gathered(r, es, args.options, host, currentPath, k + 1)
      && argsOut == args.(dirs := args.dirs + Queued(es[k], args.options, host, currentPath))
  {
    if content != null {
      GrowthSequence(content.size);
    }
    var grown := ResizeAssetArray(content, ContainerGrowth(path, k) in host.failingAllocations);
    if grown == null {
      return null, args;
    }
    GrowthSequence(grown.size);
    argsOut := AddNext(grown, es, k, args, host, currentPath);
    r := grown;
  }

  /** The rest of pass k, once the container has room: entry k is added and the growth sequence kept. */
  method AddNext(content: Directory, es: seq<FindData>, k: nat, args: Arguments, host: Host, currentPath: string)
    returns (argsOut: Arguments)
    requires k < |es| && content.Valid() && content.size < content.capacity
    requires content.Contents() == AssetsOf(es[..k], args.options, host, currentPath)
    requires content.capacity == NextCapacity(content.size)
    modifies content, content.data
    ensures content.data == old(content.data)
    ensures Gathered(content, es, args.options, host, currentPath, k + 1)
    ensures argsOut == args.(dirs := args.dirs + Queued(es[k], args.options, host, currentPath))
  {
    CapacityAfterPass(es, args.options, k, content.size, content.capacity);
    AssetsOfStep(es, args.options, host, currentPath, k);
    argsOut := AddEntry(content, es[k], args, host, currentPath);
  }

  /**
   * The enumeration loop of GetDirectoryContent over the entries `es`: one
   * pass per entry until the entries run out or a growth fails. It stops
   * at the pass StopIndex names.
   */
  method Enumerate(es: seq<FindData>, args: Arguments, host: Host, path: string, currentPath: string)
    returns (content: Directory?, argsOut: Arguments)
    ensures var m := StopIndex(es, args.options, host, path, 0);
      && argsOut.options == args.options
      && (m == 0 ==> content == null && argsOut == args)
      && (m > 0 ==>
        && content != null && fresh(content) && fresh(content.data)
        && Gathered(content, es, args.options, host, currentPath, m)
        && argsOut.dirs == args.dirs + Discovered(es[..m], args.options, host, currentPath))
  {
    ghost var options := args.options;
    argsOut := args;
    content := null;
    var k := 0;
    while k < |es|
      invariant 0 <= k <= |es|
      invariant StopIndex(es, options, host, path, 0) == StopIndex(es, options, host, path, k)
      invariant k == 0 <==> content == null
      invariant content != null ==>
        fresh(content) && fresh(content.data) && Gathered(content, es, options, host, currentPath, k)
      invariant argsOut.options == options
      invariant argsOut.dirs == args.dirs + Discovered(es[..k], options, host, currentPath)
    {
      var grown, next := Pass(content, es, k, argsOut, host, path, currentPath);
      if grown == null {
        return content, argsOut;
      }
      DiscoveredStep(es, options, host, currentPath, k, args.dirs);
      content, argsOut := grown, next;
      k := k + 1;
    }
  }

  /**
   * GetDirectoryContent: picks the search pattern of `path`, enumerates its
   * entries, growing the container before each entry, filtering, appending
   * each accepted entry at index `size`, and queueing subdirectories in
   * recursive mode. A failed growth ends the enumeration with what was
   * gathered so far.
   */
  method GetDirectoryContent(path: string, args: Arguments, host: Host) returns (content: Directory?, argsOut: Arguments)
    ensures argsOut.options == args.options
    ensures Scan(path, args.options, host).NotFound? ==> content == null && argsOut == args
    ensures Scan(path, args.options, host).Listed? ==>
      && content != null && fresh(content) && fresh(content.data) && content.Valid()
      && content.Contents() == Scan(path, args.options, host).assets
      && argsOut.dirs == args.dirs + Scan(path, args.options, host).discovered
      && (content.capacity == content.size || content.capacity == NextCapacity(content.size))
  {
    var attributes := FileAttributes(host, path);
    var pattern: string;
    if '*' in path || IsValidDocument(attributes) {
      pattern := path;
    } else if IsValidDirectory(attributes) {
      pattern := path + "\\*";
    } else {
      return null, args;
    }
    var es := EntriesOf(host, pattern);
    if |es| == 0 {
      return null, args;
    }
    var currentPath := GetDirectoryFromPath(path, IsValidDocument(attributes), host.workingDirectory);
    content, argsOut := Enumerate(es, args, host, path, currentPath);
  }

  // ---------------------------------------------------------------------
  // Properties of a listing

  /** The accepted entries are entries of the enumeration that pass both filters. */
  lemma {:induction false} AcceptedPassFilters(es: seq<FindData>, options: Options)
    ensures forall i :: 0 <= i < |Accepted(es, options)| ==>
      Accepted(es, options)[i] in es && Accepts(Accepted(es, options)[i], options)
    decreases |es|
  {
    if |es| > 0 {
      var init := es[..|es| - 1];
      AcceptedPassFilters(init, options);
      assert forall e :: e in init ==> e in es;
    }
  }

  /**
   * What a listing shows: every asset's path is the current path, a
   * backslash and its name; "." and ".." are left out with showAlmostAll;
   * without showAll no asset is flagged hidden.
   */
  lemma ListedAssetsPassFilters(path: string, options: Options, host: Host)
    requires Scan(path, options, host).Listed?
    ensures forall a :: a in Scan(path, options, host).assets ==>
      && a.path == EntryPath(CurrentPath(path, host), a.name)
      && !(options.showAlmostAll && IsDotPath(a.name))
      && (options.showAll || !a.kind.hidden)
  {
    var es := EntriesOf(host, SearchPattern(path, host).value);
    var m := StopIndex(es, options, host, path, 0);
    AcceptedPassFilters(es[..m], options);
  }

  /** Every queued path is the path of a listed directory other than "." and "..". */
  lemma {:induction false} DiscoveredAreListedDirectories(es: seq<FindData>, options: Options, host: Host, currentPath: string)
    ensures forall p :: p in Discovered(es, options, host, currentPath) ==>
      exists a :: a in AssetsOf(es, options, host, currentPath) && a.path == p && a.kind.directory && !IsDotPath(a.name)
    decreases |es|
  {
    if |es| > 0 {
      var k := |es| - 1;
      DiscoveredAreListedDirectories(es[..k], options, host, currentPath);
      AssetsOfStep(es, options, host, currentPath, k);
      assert es[..k + 1] == es;
      assert Discovered(es, options, host, currentPath) ==
        Discovered(es[..k], options, host, currentPath) + Queued(es[k], options, host, currentPath);
      forall p | p in Discovered(es, options, host, currentPath)
        ensures exists a :: a in AssetsOf(es, options, host, currentPath) && a.path == p && a.kind.directory && !IsDotPath(a.name)
      {
        if p in Queued(es[k], options, host, currentPath) {
          var a := NewAsset(es[k], options, host, currentPath);
          assert a in AssetsOf(es, options, host, currentPath);
        } else {
          var a :| a in AssetsOf(es[..k], options, host, currentPath) && a.path == p && a.kind.directory && !IsDotPath(a.name);
          assert a in AssetsOf(es, options, host, currentPath);
        }
      }
    }
  }

  /** Nothing is queued outside recursive mode. */
  lemma {:induction false} DiscoveredOnlyWhenRecursive(es: seq<FindData>, options: Options, host: Host, currentPath: string)
    requires !options.recursiveList
    ensures Discovered(es, options, host, currentPath) == []
    decreases |es|
  {
    if |es| > 0 {
      DiscoveredOnlyWhenRecursive(es[..|es| - 1], options, host, currentPath);
    }
  }

  /** The assets of a prefix of the entries are a prefix of the assets of all of them. */
  lemma {:induction false} AssetsOfPrefix(es: seq<FindData>, m: nat, options: Options, host: Host, currentPath: string)
    requires m <= |es|
    ensures AssetsOf(es[..m], options, host, currentPath) <= AssetsOf(es, options, host, currentPath)
    decreases |es| - m
  {
    if m == |es| {
      assert es[..m] == es;
    } else {
      AssetsOfStep(es, options, host, currentPath, m);
      AssetsOfPrefix(es, m + 1, options, host, currentPath);
    }
  }

  /** Without a failing allocation the loop runs over every entry. */
  lemma {:induction false} StopIndexWithoutFailures(es: seq<FindData>, options: Options, host: Host, path: string, k: nat)
    requires k <= |es| && host.failingAllocations == {}
    ensures StopIndex(es, options, host, path, k) == |es|
    decreases |es| - k
  {
    if k < |es| {
      StopIndexWithoutFailures(es, options, host, path, k + 1);
    }
  }

  /**
   * A listing cut short by a failed growth shows a prefix of the full
   * listing, and the whole of it when no allocation fails.
   */
  lemma ScanIsPrefixOfFullListing(path: string, options: Options, host: Host)
    requires Scan(path, options, host).Listed?
    ensures var es := EntriesOf(host, SearchPattern(path, host).value);
      var full := AssetsOf(es, options, host, CurrentPath(path, host));
      && Scan(path, options, host).assets <= full
      && (host.failingAllocations == {} ==> Scan(path, options, host).assets == full)
  {
    var es := EntriesOf(host, SearchPattern(path, host).value);
    var m := StopIndex(es, options, host, path, 0);
    AssetsOfPrefix(es, m, options, host, CurrentPath(path, host));
    if host.failingAllocations == {} {
      StopIndexWithoutFailures(es, options, host, path, 0);
      assert es[..m] == es;
    }
  }
}
