/**
 * Printing a listing (source/screen.c). The console is not modelled: what a
 * print routine writes is a sequence of segments, each a piece of text with
 * the colour it is written in. Plain text is what is written with the
 * console's current colour, which is every segment when colours are off.
 */
module Screen {
  import opened Wrappers
  import opened LsTypes
  import opened Win32
  import opened Utils
  import opened Directories
  import opened AssetMetaDataTable

  // ---------------------------------------------------------------------
  // StringEndsWith

  /** The last |suffix| characters of `str` are `suffix`; a longer suffix never matches. */
  predicate StringEndsWith(str: string, suffix: string) {
    |suffix| <= |str| && str[|str| - |suffix|..] == suffix
  }

  /** StringEndsWith holds exactly when `str` is something followed by `suffix`. */
  lemma EndsWithMeansSuffix(str: string, suffix: string)
    ensures StringEndsWith(str, suffix) <==> exists prefix :: prefix + suffix == str
  {
    if StringEndsWith(str, suffix) {
      var prefix := str[..|str| - |suffix|];
      assert prefix + suffix == str;
    }
    if exists prefix :: prefix + suffix == str {
      var prefix :| prefix + suffix == str;
      assert str[|str| - |suffix|..] == suffix;
    }
  }

  /** A suffix of a suffix is a suffix. */
  lemma EndsWithTransitive(str: string, middle: string, suffix: string)
    requires StringEndsWith(str, middle) && StringEndsWith(middle, suffix)
    ensures StringEndsWith(str, suffix)
  {
    assert str[|str| - |suffix|..] == middle[|middle| - |suffix|..];
  }

  // ---------------------------------------------------------------------
  // GetTextNameColor and GetContentType

  /** The colour of a name: the first of symlink, directory, compressed, encrypted, temporary, system that holds. */
  function GetTextNameColor(a: Asset): TextColor {
    if a.kind.symlink then Cyan
    else if a.kind.directory then Green
    else if a.kind.compressed then Magenta
    else if a.kind.encrypted then Blue
    else if a.kind.temporary then DarkGray
    else if a.kind.system then Red
    else White
  }

  /** Each colour is chosen exactly when its flag holds and no flag before it does. */
  lemma NameColorPriority(a: Asset)
    ensures GetTextNameColor(a) == Cyan <==> a.kind.symlink
    ensures GetTextNameColor(a) == Green <==> !a.kind.symlink && a.kind.directory
    ensures GetTextNameColor(a) == Magenta <==> !a.kind.symlink && !a.kind.directory && a.kind.compressed
    ensures GetTextNameColor(a) == Blue <==>
      !a.kind.symlink && !a.kind.directory && !a.kind.compressed && a.kind.encrypted
    ensures GetTextNameColor(a) == DarkGray <==>
      !a.kind.symlink && !a.kind.directory && !a.kind.compressed && !a.kind.encrypted && a.kind.temporary
    ensures GetTextNameColor(a) == Red <==>
      !a.kind.symlink && !a.kind.directory && !a.kind.compressed && !a.kind.encrypted && !a.kind.temporary
      && a.kind.system
    ensures GetTextNameColor(a) == White <==>
      !a.kind.symlink && !a.kind.directory && !a.kind.compressed && !a.kind.encrypted && !a.kind.temporary
      && !a.kind.system
  {
  }

  /** The type column: 'l' for a symlink (directory or not), 'd' for a directory, '-' otherwise. */
  function GetContentType(a: Asset): char {
    if a.kind.symlink then 'l'
    else if a.kind.directory then 'd'
    else '-'
  }

  /** The type column tells the three kinds apart. */
  lemma ContentTypeMeaning(a: Asset)
    ensures GetContentType(a) == 'l' <==> a.kind.symlink
    ensures GetContentType(a) == 'd' <==> !a.kind.symlink && a.kind.directory
    ensures GetContentType(a) == '-' <==> !a.kind.symlink && !a.kind.directory
  {
  }

  // ---------------------------------------------------------------------
  // GetAssetMetadata

  /** The lowest index of a row of `t` whose key ends `name`. */
  function FirstMatch(name: string, t: seq<AssetMetadata>): (r: Option<nat>)
    ensures r.Some? ==> r.value < |t| && StringEndsWith(name, t[r.value].ext)
    ensures r.Some? ==> forall j :: 0 <= j < r.value ==> !StringEndsWith(name, t[j].ext)
    ensures r.None? ==> forall j :: 0 <= j < |t| ==> !StringEndsWith(name, t[j].ext)
    decreases |t|
  {
    if |t| == 0 then None
    else if StringEndsWith(name, t[0].ext) then Some(0)
    else match FirstMatch(name, t[1..])
      case None => None
      case Some(i) => Some(i + 1)
  }

  /** The first match is at or before any row that matches. */
  lemma {:induction false} FirstMatchAtMost(name: string, t: seq<AssetMetadata>, k: nat)
    requires k < |t| && StringEndsWith(name, t[k].ext)
    ensures FirstMatch(name, t).Some? && FirstMatch(name, t).value <= k
    decreases k
  {
    if k > 0 && !StringEndsWith(name, t[0].ext) {
      FirstMatchAtMost(name, t[1..], k - 1);
    }
  }

  /** The fallback rows, for a name no key matches. */
  const SymlinkDirectoryMetadata := AssetMetadata(139, 233, 253, "", "\U{f482}")
  const SymlinkMetadata := AssetMetadata(139, 233, 253, "", "\U{f481}")
  const DirectoryMetadata := AssetMetadata(80, 250, 123, "", "\U{f74a}")
  const OtherMetadata := AssetMetadata(255, 255, 255, "", "\U{f15b}")

  /** The fallback by type: symlinked directory, symlink, directory, anything else. */
  function Fallback(a: Asset): AssetMetadata {
    if a.kind.symlink && a.kind.directory then SymlinkDirectoryMetadata
    else if a.kind.symlink then SymlinkMetadata
    else if a.kind.directory then DirectoryMetadata
    else OtherMetadata
  }

  /**
   * The metadata of an asset: the first row of the table whose key ends its
   * lowered name, else the fallback. The table is AssetMetaData; it is a
   * parameter so that proofs about printing do not carry its 147 rows.
   */
  function MetadataFor(a: Asset, table: seq<AssetMetadata>): AssetMetadata {
    match FirstMatch(ToLower(a.name), table)
    case Some(i) => table[i]
    case None => Fallback(a)
  }

  /** The lowering loop of GetAssetMetadata: tolower on each character of a copy of the name. */
  method LowerName(name: string) returns (lowered: string)
    requires |name| < PATH_SIZE
    ensures lowered == ToLower(name)
  {
    lowered := name;
    var i := 0;
    while i < PATH_SIZE && i < |lowered|
      invariant 0 <= i <= |lowered| == |name|
      invariant forall k :: 0 <= k < i ==> lowered[k] == ToLowerChar(name[k])
      invariant forall k :: i <= k < |lowered| ==> lowered[k] == name[k]
    {
      lowered := lowered[i := ToLowerChar(lowered[i])];
      i := i + 1;
    }
  }

  /** The scan of GetAssetMetadata: the rows in order until a key ends the name. */
  method FindRow(name: string, t: seq<AssetMetadata>) returns (r: Option<nat>)
    ensures r == FirstMatch(name, t)
  {
    var k := 0;
    while k < |t|
      invariant 0 <= k <= |t|
      invariant forall j :: 0 <= j < k ==> !StringEndsWith(name, t[j].ext)
    {
      if StringEndsWith(name, t[k].ext) {
        FirstMatchAtMost(name, t, k);
        return Some(k);
      }
      k := k + 1;
    }
    return None;
  }

  /**
   * GetAssetMetadata: lowers a copy of the name, then scans the table in
   * order for a key the name ends with; only when none does, the fallback
   * of the asset's type.
   */
  method GetAssetMetadata(a: Asset, table: seq<AssetMetadata>) returns (m: AssetMetadata)
    requires |a.name| < PATH_SIZE
    ensures m == MetadataFor(a, table)
    ensures FirstMatch(ToLower(a.name), table).None? ==> m == Fallback(a)
    ensures FirstMatch(ToLower(a.name), table).Some? ==> m in table && StringEndsWith(ToLower(a.name), m.ext)
  {
    var name := LowerName(a.name);
    var row := FindRow(name, table);
    if row.Some? {
      return table[row.value];
    }
    if a.kind.symlink && a.kind.directory {
      return SymlinkDirectoryMetadata;
    }
    if a.kind.symlink {
      return SymlinkMetadata;
    }
    if a.kind.directory {
      return DirectoryMetadata;
    }
    return OtherMetadata;
  }

  /** A row whose key ends with the key of an earlier row is never the first match. */
  lemma ShadowedBy(name: string, t: seq<AssetMetadata>, earlier: nat, k: nat)
    requires earlier < k < |t| && StringEndsWith(t[k].ext, t[earlier].ext)
    ensures FirstMatch(name, t) != Some(k)
  {
    if StringEndsWith(name, t[k].ext) {
      EndsWithTransitive(name, t[k].ext, t[earlier].ext);
      FirstMatchAtMost(name, t, earlier);
    }
  }

  /**
   * Three rows can never be chosen: "license.md" and "readme.md" end with
   * ".md", which comes earlier, and the second ".jar" repeats an earlier key.
   */
  lemma ShadowedRows(name: string)
    ensures FirstMatch(name, AssetMetaData) != Some(102)
    ensures FirstMatch(name, AssetMetaData) != Some(104)
    ensures FirstMatch(name, AssetMetaData) != Some(128)
  {
    TableShape();
    var t := AssetMetaData;
    assert StringEndsWith(t[102].ext, t[99].ext);
    assert StringEndsWith(t[104].ext, t[99].ext);
    assert StringEndsWith(t[128].ext, t[35].ext);
    ShadowedBy(name, t, 99, 102);
    ShadowedBy(name, t, 99, 104);
    ShadowedBy(name, t, 35, 128);
  }

  // ---------------------------------------------------------------------
  // Output

  /** The colour a segment is written in. */
  datatype Color = Plain | Console(textColor: TextColor) | TrueColor(r: int, g: int, b: int)

  /** A piece of written text with its colour. */
  datatype Segment = Segment(color: Color, text: string)

  /** color_printf: the console colour when colours are on, plain text otherwise. */
  function ColorText(colors: bool, textColor: TextColor, text: string): Segment {
    Segment(if colors then Console(textColor) else Plain, text)
  }

  /** color_printf_vt: the row's RGB colour as an escape sequence when colours are on, plain text otherwise. */
  function ColorTextVt(colors: bool, m: AssetMetadata, text: string): Segment {
    Segment(if colors then TrueColor(m.r, m.g, m.b) else Plain, text)
  }

  /** The text of the name column: in the row's RGB colour on a virtual terminal, in the name colour otherwise. */
  function NameText(options: Options, textColor: TextColor, m: AssetMetadata, text: string): Segment {
    if options.virtualTerminal then ColorTextVt(options.colors, m, text) else ColorText(options.colors, textColor, text)
  }

  /** What the segments read as, colours aside. */
  function Text(out: seq<Segment>): string {
    if |out| == 0 then "" else Text(out[..|out| - 1]) + out[|out| - 1].text
  }

  lemma {:induction false} TextAppend(a: seq<Segment>, b: seq<Segment>)
    ensures Text(a + b) == Text(a) + Text(b)
    decreases |b|
  {
    if |b| == 0 {
      assert a + b == a;
    } else {
      TextAppend(a, b[..|b| - 1]);
      assert (a + b)[..|a + b| - 1] == a + b[..|b| - 1];
    }
  }

  /** n spaces. */
  function Spaces(n: nat): (r: string)
    ensures |r| == n && forall k :: 0 <= k < n ==> r[k] == ' '
  {
    seq(n, _ => ' ')
  }

  /** "%*.*s" with width and precision w: at most w characters of s, right-aligned in w columns. */
  function PadField(s: string, w: nat): string {
    var shown := if |s| <= w then s else s[..w];
    Spaces(w - |shown|) + shown
  }

  /** A field no wider than w is padded on the left to exactly w columns, and kept whole. */
  lemma PadFieldWidth(s: string, w: nat)
    requires |s| <= w
    ensures |PadField(s, w)| == w
    ensures PadField(s, w)[w - |s|..] == s
    ensures forall k :: 0 <= k < w - |s| ==> PadField(s, w)[k] == ' '
  {
  }

  /** The longest of the strings, 0 for none. */
  function MaxLength(xs: seq<string>): (r: nat)
    ensures forall i :: 0 <= i < |xs| ==> |xs[i]| <= r
    ensures |xs| > 0 ==> exists i :: 0 <= i < |xs| && |xs[i]| == r
    ensures |xs| == 0 ==> r == 0
  {
    if |xs| == 0 then 0
    else
      var m := MaxLength(xs[..|xs| - 1]);
      var last := |xs[|xs| - 1]|;
      if m < last then last else m
  }

  /** The domains of the assets. */
  function Domains(s: seq<Asset>): (r: seq<string>)
    ensures |r| == |s| && forall i :: 0 <= i < |s| ==> r[i] == s[i].domain
  {
    seq(|s|, i requires 0 <= i < |s| => s[i].domain)
  }

  /** The owners of the assets. */
  function Owners(s: seq<Asset>): (r: seq<string>)
    ensures |r| == |s| && forall i :: 0 <= i < |s| ==> r[i] == s[i].owner
  {
    seq(|s|, i requires 0 <= i < |s| => s[i].owner)
  }

  /** The widths of the domain and owner columns: the longest of each in long format, 0 otherwise. */
  datatype Widths = Widths(domain: nat, owner: nat)

  function ColumnWidths(s: seq<Asset>, options: Options): Widths {
    if options.showLongFormat then Widths(MaxLength(Domains(s)), MaxLength(Owners(s))) else Widths(0, 0)
  }

  /** The path from index k on; the empty string past its end. */
  function PathTail(path: string, k: nat): string {
    if k <= |path| then path[k..] else ""
  }

  /** The size column for a size of `bytes`. */
  function SizeColumn(bytes: nat): string {
    SizeTextString(HumanSize(bytes))
  }

  /**
   * The fixed columns of a long line: type, the three rights, size, domain,
   * owner and date, each followed by its separator.
   */
  function LongColumns(a: Asset, colors: bool, widths: Widths): seq<Segment> {
    [ ColorText(colors, Gray, [GetContentType(a)]),
      ColorText(colors, Yellow, [if a.accessRights.read then 'r' else '-']),
      ColorText(colors, Red, [if a.accessRights.write then 'w' else '-']),
      ColorText(colors, Green, [if a.accessRights.execution then 'x' else '-']),
      ColorText(colors, Green, SizeColumn(a.size) + "  "),
      ColorText(colors, Yellow, PadField(a.domain, widths.domain) + "  "),
      ColorText(colors, DarkYellow, PadField(a.owner, widths.owner) + "  "),
      ColorText(colors, Cyan, a.date + "  ") ]
  }

  /**
   * The name columns of a long line: the icon when asked for, the name (or,
   * in recursive mode, the path after the listed directory and one
   * separator), and the link target when there is one.
   */
  function LongName(a: Asset, options: Options, directoryLength: nat, table: seq<AssetMetadata>): seq<Segment> {
    var textColor := GetTextNameColor(a);
    var m := MetadataFor(a, table);
    IconSegments(options, textColor, m)
    + [NameText(options, textColor, m, if options.recursiveList then PathTail(a.path, directoryLength + 1) else a.name)]
    + LinkSegments(a, options.colors, textColor)
  }

  /** The icon and a space, when icons are asked for. */
  function IconSegments(options: Options, textColor: TextColor, m: AssetMetadata): seq<Segment> {
    if options.showIcons then [NameText(options, textColor, m, m.icon + " ")] else []
  }

  /** " -> " and the link target, when there is one. */
  function LinkSegments(a: Asset, colors: bool, textColor: TextColor): seq<Segment> {
    if |a.link| > 0 then [Segment(Plain, " -> "), ColorText(colors, textColor, a.link)] else []
  }

  /** One long line, without its line break. */
  function LongEntry(a: Asset, options: Options, widths: Widths, directoryLength: nat, table: seq<AssetMetadata>): seq<Segment> {
    LongColumns(a, options.colors, widths) + LongName(a, options, directoryLength, table)
  }

  /** The line break written between two long lines. */
  const LineBreak := Segment(Plain, "\n")

  /** What follows line i of n lines: a line break, except after the last. */
  function LineEnd(i: nat, n: nat): seq<Segment> {
    if i + 1 < n then [LineBreak] else []
  }

  /** The first k long lines of the listing s, with a line break between two lines and none after the last. */
  function LongLines(s: seq<Asset>, k: nat, options: Options, widths: Widths, directoryLength: nat, table: seq<AssetMetadata>): seq<Segment>
    requires k <= |s|
  {
    if k == 0 then []
    else LongLines(s, k - 1, options, widths, directoryLength, table)
         + LongEntry(s[k - 1], options, widths, directoryLength, table) + LineEnd(k - 1, |s|)
  }

  /** The whole long listing of s, for the listed path `directoryName`. */
  function LongListing(s: seq<Asset>, options: Options, directoryName: string, host: Host, table: seq<AssetMetadata>): seq<Segment> {
    var currentPath := DirectoryFromPath(directoryName, IsValidDocument(FileAttributes(host, directoryName)), host.workingDirectory);
    LongLines(s, |s|, options, ColumnWidths(s, options), |currentPath|, table)
  }

  /** The width loop of PrintAssetLongFormat: the longest domain and owner, in long format only. */
  method MeasureColumns(content: Directory, options: Options) returns (widths: Widths)
    requires content.Valid()
    ensures widths == ColumnWidths(content.Contents(), options)
  {
    var domainLength := 0;
    var ownerLength := 0;
    var i := 0;
    while i < content.size && options.showLongFormat
      invariant 0 <= i <= content.size
      invariant options.showLongFormat ==> domainLength == MaxLength(Domains(content.data[..i]))
      invariant options.showLongFormat ==> ownerLength == MaxLength(Owners(content.data[..i]))
      invariant !options.showLongFormat ==> domainLength == 0 && ownerLength == 0
    {
      assert Domains(content.data[..i + 1])[..i] == Domains(content.data[..i]);
      assert Owners(content.data[..i + 1])[..i] == Owners(content.data[..i]);
      var s := |content.data[i].domain|;
      domainLength := if domainLength < s then s else domainLength;
      s := |content.data[i].owner|;
      ownerLength := if ownerLength < s then s else ownerLength;
      i := i + 1;
    }
    widths := Widths(domainLength, ownerLength);
  }

  /** The fixed columns as PrintAssetLongFormat writes them, one call after the other. */
  method PrintLongColumns(a: Asset, colors: bool, widths: Widths) returns (out: seq<Segment>)
    ensures out == LongColumns(a, colors, widths)
  {
    var size := GetFileSizeAsText(a.size);
    out := [ ColorText(colors, Gray, [GetContentType(a)]),
             ColorText(colors, Yellow, [if a.accessRights.read then 'r' else '-']),
             ColorText(colors, Red, [if a.accessRights.write then 'w' else '-']),
             ColorText(colors, Green, [if a.accessRights.execution then 'x' else '-']),
             ColorText(colors, Green, SizeTextString(size) + "  "),
             ColorText(colors, Yellow, PadField(a.domain, widths.domain) + "  "),
             ColorText(colors, DarkYellow, PadField(a.owner, widths.owner) + "  "),
             ColorText(colors, Cyan, a.date + "  ") ];
  }

  /** The name columns as PrintAssetLongFormat writes them. */
  method PrintLongName(a: Asset, options: Options, directoryLength: nat, table: seq<AssetMetadata>)
    returns (out: seq<Segment>)
    requires |a.name| < PATH_SIZE
    ensures out == LongName(a, options, directoryLength, table)
  {
    var textColor := GetTextNameColor(a);
    var m := GetAssetMetadata(a, table);
    out := [];
    if options.showIcons {
      out := out + [NameText(options, textColor, m, m.icon + " ")];
    }
    if options.recursiveList {
      out := out + [NameText(options, textColor, m, PathTail(a.path, directoryLength + 1))];
    } else {
      out := out + [NameText(options, textColor, m, a.name)];
    }
    if |a.link| > 0 {
      out := out + [Segment(Plain, " -> "), ColorText(options.colors, textColor, a.link)];
    }
  }

  /** One line of PrintAssetLongFormat, without its line break. */
  method PrintLongEntry(a: Asset, options: Options, widths: Widths, directoryLength: nat, table: seq<AssetMetadata>)
    returns (out: seq<Segment>)
    requires |a.name| < PATH_SIZE
    ensures out == LongEntry(a, options, widths, directoryLength, table)
  {
    out := PrintLongColumns(a, options.colors, widths);
    var name := PrintLongName(a, options, directoryLength, table);
    out := out + name;
  }

  /** The line break after line i of n, written unless it is the last. */
  method PrintLineEnd(i: nat, n: nat) returns (out: seq<Segment>)
    ensures out == LineEnd(i, n)
  {
    out := [];
    if i < n - 1 {
      out := [LineBreak];
    }
  }

  /** One pass of the printing loop of PrintAssetLongFormat: line i, then its line break unless it is the last. */
  method PrintLongLine(s: seq<Asset>, i: nat, options: Options, widths: Widths, directoryLength: nat, table: seq<AssetMetadata>,
                       out: seq<Segment>)
    returns (out': seq<Segment>)
    requires i < |s| && |s[i].name| < PATH_SIZE
    requires out == LongLines(s, i, options, widths, directoryLength, table)
    ensures out' == LongLines(s, i + 1, options, widths, directoryLength, table)
  {
    var entry := PrintLongEntry(s[i], options, widths, directoryLength, table);
    var end := PrintLineEnd(i, |s|);
    out' := out + entry + end;
  }

  /** The printing loop of PrintAssetLongFormat: one line per asset, a line break between two lines. */
  method PrintLongLines(s: seq<Asset>, options: Options, widths: Widths, directoryLength: nat, table: seq<AssetMetadata>)
    returns (out: seq<Segment>)
    requires forall i :: 0 <= i < |s| ==> |s[i].name| < PATH_SIZE
    ensures out == LongLines(s, |s|, options, widths, directoryLength, table)
  {
    out := [];
    var i := 0;
    while i < |s|
      invariant 0 <= i <= |s|
      invariant out == LongLines(s, i, options, widths, directoryLength, table)
    {
      out := PrintLongLine(s, i, options, widths, directoryLength, table, out);
      i := i + 1;
    }
  }

  /**
   * PrintAssetLongFormat: measures the domain and owner columns, then writes
   * one line per live asset, with a line break between lines and none after
   * the last.
   */
  method PrintAssetLongFormat(content: Directory, directoryName: string, options: Options, host: Host, table: seq<AssetMetadata>)
    returns (out: seq<Segment>)
    requires content.Valid()
    requires forall i :: 0 <= i < content.size ==> |content.data[i].name| < PATH_SIZE
    ensures out == LongListing(content.Contents(), options, directoryName, host, table)
  {
    var currentPath := GetDirectoryFromPath(directoryName, IsValidDocument(FileAttributes(host, directoryName)), host.workingDirectory);
    var widths := MeasureColumns(content, options);
    out := PrintLongLines(content.data[..content.size], options, widths, |currentPath|, table);
  }

  /** One short entry: the icon and a space when asked for, then the name and a line break. */
  function ShortEntry(a: Asset, options: Options, table: seq<AssetMetadata>): seq<Segment> {
    var textColor := GetTextNameColor(a);
    var m := MetadataFor(a, table);
    IconSegments(options, textColor, m) + [NameText(options, textColor, m, a.name + "\n")]
  }

  /** The first k short entries of s. */
  function ShortLines(s: seq<Asset>, k: nat, options: Options, table: seq<AssetMetadata>): seq<Segment>
    requires k <= |s|
  {
    if k == 0 then [] else ShortLines(s, k - 1, options, table) + ShortEntry(s[k - 1], options, table)
  }

  /** One pass of the printing loop of PrintAssetShortFormat. */
  method PrintShortEntry(a: Asset, options: Options, table: seq<AssetMetadata>) returns (out: seq<Segment>)
    requires |a.name| < PATH_SIZE
    ensures out == ShortEntry(a, options, table)
  {
    var textColor := GetTextNameColor(a);
    var m := GetAssetMetadata(a, table);
    out := [];
    if options.showIcons {
      out := out + [NameText(options, textColor, m, m.icon + " ")];
    }
    out := out + [NameText(options, textColor, m, a.name + "\n")];
  }

  /** PrintAssetShortFormat: one entry per live asset, each ending its line. */
  method PrintAssetShortFormat(content: Directory, options: Options, table: seq<AssetMetadata>) returns (out: seq<Segment>)
    requires content.Valid()
    requires forall i :: 0 <= i < content.size ==> |content.data[i].name| < PATH_SIZE
    ensures out == ShortLines(content.Contents(), content.size, options, table)
  {
    out := [];
    var i := 0;
    while i < content.size
      invariant 0 <= i <= content.size
      invariant out == ShortLines(content.Contents(), i, options, table)
    {
      var entry := PrintShortEntry(content.data[i], options, table);
      out := out + entry;
      i := i + 1;
    }
  }

  // ---------------------------------------------------------------------
  // Properties of the listings

  /** Two segment sequences that read the same piece by piece, whatever their colours. */
  predicate SameText(a: seq<Segment>, b: seq<Segment>) {
    |a| == |b| && forall i :: 0 <= i < |a| ==> a[i].text == b[i].text
  }

  lemma {:induction false} SameTextText(a: seq<Segment>, b: seq<Segment>)
    requires SameText(a, b)
    ensures Text(a) == Text(b)
    decreases |a|
  {
    if |a| > 0 {
      SameTextText(a[..|a| - 1], b[..|b| - 1]);
    }
  }

  lemma SameTextAppend(a: seq<Segment>, b: seq<Segment>, c: seq<Segment>, d: seq<Segment>)
    requires SameText(a, b) && SameText(c, d)
    ensures SameText(a + c, b + d)
  {
    forall i | 0 <= i < |a + c|
      ensures (a + c)[i].text == (b + d)[i].text
    {
      if i >= |a| {
        assert (a + c)[i] == c[i - |a|] && (b + d)[i] == d[i - |b|];
      }
    }
  }

  /** Options that differ at most in whether and how colours are written. */
  predicate SameButColors(o1: Options, o2: Options) {
    && o1.showAll == o2.showAll && o1.showAlmostAll == o2.showAlmostAll
    && o1.showLongFormat == o2.showLongFormat && o1.reverseOrder == o2.reverseOrder
    && o1.recursiveList == o2.recursiveList && o1.showIcons == o2.showIcons
    && o1.showHelp == o2.showHelp && o1.showVersion == o2.showVersion
    && o1.showMetaData == o2.showMetaData && o1.sortField == o2.sortField
  }

  lemma LongColumnsSameText(a: Asset, c1: bool, c2: bool, widths: Widths)
    ensures SameText(LongColumns(a, c1, widths), LongColumns(a, c2, widths))
  {
  }

  lemma IconSegmentsSameText(o1: Options, o2: Options, textColor: TextColor, m: AssetMetadata)
    requires o1.showIcons == o2.showIcons
    ensures SameText(IconSegments(o1, textColor, m), IconSegments(o2, textColor, m))
  {
  }

  lemma LongNameSameText(a: Asset, o1: Options, o2: Options, directoryLength: nat, table: seq<AssetMetadata>)
    requires SameButColors(o1, o2)
    ensures SameText(LongName(a, o1, directoryLength, table), LongName(a, o2, directoryLength, table))
  {
    var textColor, m := GetTextNameColor(a), MetadataFor(a, table);
    var shown := if o1.recursiveList then PathTail(a.path, directoryLength + 1) else a.name;
    var icon1, icon2 := IconSegments(o1, textColor, m), IconSegments(o2, textColor, m);
    var name1, name2 := [NameText(o1, textColor, m, shown)], [NameText(o2, textColor, m, shown)];
    var link1, link2 := LinkSegments(a, o1.colors, textColor), LinkSegments(a, o2.colors, textColor);
    IconSegmentsSameText(o1, o2, textColor, m);
    SameTextAppend(icon1, icon2, name1, name2);
    SameTextAppend(icon1 + name1, icon2 + name2, link1, link2);
  }

  lemma LongEntrySameText(a: Asset, o1: Options, o2: Options, widths: Widths, directoryLength: nat, table: seq<AssetMetadata>)
    requires SameButColors(o1, o2)
    ensures SameText(LongEntry(a, o1, widths, directoryLength, table), LongEntry(a, o2, widths, directoryLength, table))
  {
    LongColumnsSameText(a, o1.colors, o2.colors, widths);
    LongNameSameText(a, o1, o2, directoryLength, table);
    SameTextAppend(LongColumns(a, o1.colors, widths), LongColumns(a, o2.colors, widths),
                   LongName(a, o1, directoryLength, table), LongName(a, o2, directoryLength, table));
  }

  /** Adding line i keeps the two listings reading the same. */
  lemma LongLinesTextStep(s: seq<Asset>, i: nat, o1: Options, o2: Options, widths: Widths,
                          directoryLength: nat, table: seq<AssetMetadata>)
    requires i < |s| && SameButColors(o1, o2)
    requires Text(LongLines(s, i, o1, widths, directoryLength, table)) == Text(LongLines(s, i, o2, widths, directoryLength, table))
    ensures Text(LongLines(s, i + 1, o1, widths, directoryLength, table)) == Text(LongLines(s, i + 1, o2, widths, directoryLength, table))
  {
    var l1, l2 := LongLines(s, i, o1, widths, directoryLength, table), LongLines(s, i, o2, widths, directoryLength, table);
    var e1, e2 := LongEntry(s[i], o1, widths, directoryLength, table), LongEntry(s[i], o2, widths, directoryLength, table);
    LongEntrySameText(s[i], o1, o2, widths, directoryLength, table);
    SameTextText(e1, e2);
    TextAppend(l1, e1);
    TextAppend(l2, e2);
    TextAppend(l1 + e1, LineEnd(i, |s|));
    TextAppend(l2 + e2, LineEnd(i, |s|));
  }

  lemma LongLinesText(s: seq<Asset>, k: nat, o1: Options, o2: Options, widths: Widths,
                      directoryLength: nat, table: seq<AssetMetadata>)
    requires k <= |s| && SameButColors(o1, o2)
    ensures Text(LongLines(s, k, o1, widths, directoryLength, table)) == Text(LongLines(s, k, o2, widths, directoryLength, table))
  {
    var i := 0;
    while i < k
      invariant i <= k
      invariant Text(LongLines(s, i, o1, widths, directoryLength, table)) == Text(LongLines(s, i, o2, widths, directoryLength, table))
    {
      LongLinesTextStep(s, i, o1, o2, widths, directoryLength, table);
      i := i + 1;
    }
  }

  /**
   * Colours change how the long listing is written, never what it reads:
   * with or without colours, on a virtual terminal or not, the text is the same.
   */
  lemma LongListingTextIgnoresColors(s: seq<Asset>, o1: Options, o2: Options, directoryName: string, host: Host,
                                     table: seq<AssetMetadata>)
    requires SameButColors(o1, o2)
    ensures Text(LongListing(s, o1, directoryName, host, table)) == Text(LongListing(s, o2, directoryName, host, table))
  {
    var currentPath := DirectoryFromPath(directoryName, IsValidDocument(FileAttributes(host, directoryName)), host.workingDirectory);
    assert ColumnWidths(s, o1) == ColumnWidths(s, o2);
    LongLinesText(s, |s|, o1, o2, ColumnWidths(s, o1), |currentPath|, table);
  }

  lemma ShortEntrySameText(a: Asset, o1: Options, o2: Options, table: seq<AssetMetadata>)
    requires SameButColors(o1, o2)
    ensures SameText(ShortEntry(a, o1, table), ShortEntry(a, o2, table))
  {
    var textColor, m := GetTextNameColor(a), MetadataFor(a, table);
    IconSegmentsSameText(o1, o2, textColor, m);
    SameTextAppend(IconSegments(o1, textColor, m), IconSegments(o2, textColor, m),
                   [NameText(o1, textColor, m, a.name + "\n")], [NameText(o2, textColor, m, a.name + "\n")]);
  }

  /** Adding entry i keeps the two short listings reading the same. */
  lemma ShortLinesTextStep(s: seq<Asset>, i: nat, o1: Options, o2: Options, table: seq<AssetMetadata>)
    requires i < |s| && SameButColors(o1, o2)
    requires Text(ShortLines(s, i, o1, table)) == Text(ShortLines(s, i, o2, table))
    ensures Text(ShortLines(s, i + 1, o1, table)) == Text(ShortLines(s, i + 1, o2, table))
  {
    var e1, e2 := ShortEntry(s[i], o1, table), ShortEntry(s[i], o2, table);
    ShortEntrySameText(s[i], o1, o2, table);
    SameTextText(e1, e2);
    TextAppend(ShortLines(s, i, o1, table), e1);
    TextAppend(ShortLines(s, i, o2, table), e2);
  }

  lemma ShortLinesText(s: seq<Asset>, k: nat, o1: Options, o2: Options, table: seq<AssetMetadata>)
    requires k <= |s| && SameButColors(o1, o2)
    ensures Text(ShortLines(s, k, o1, table)) == Text(ShortLines(s, k, o2, table))
  {
    var i := 0;
    while i < k
      invariant i <= k
      invariant Text(ShortLines(s, i, o1, table)) == Text(ShortLines(s, i, o2, table))
    {
      ShortLinesTextStep(s, i, o1, o2, table);
      i := i + 1;
    }
  }

  /** The short listing, too, reads the same whatever the colour options. */
  lemma ShortListingTextIgnoresColors(s: seq<Asset>, o1: Options, o2: Options, table: seq<AssetMetadata>)
    requires SameButColors(o1, o2)
    ensures Text(ShortLines(s, |s|, o1, table)) == Text(ShortLines(s, |s|, o2, table))
  {
    ShortLinesText(s, |s|, o1, o2, table);
  }

  /** The text of one more segment is the text so far followed by its text. */
  lemma TextSnoc(c: seq<Segment>, j: nat)
    requires j < |c|
    ensures Text(c[..j + 1]) == Text(c[..j]) + c[j].text
  {
    assert c[..j + 1][..j] == c[..j];
  }

  /** The text of eight segments, and of their first seven, is as long as their texts together. */
  lemma EightSegmentsLength(c: seq<Segment>)
    requires |c| == 8
    ensures |Text(c[..7])| == |c[0].text| + |c[1].text| + |c[2].text| + |c[3].text| + |c[4].text| + |c[5].text| + |c[6].text|
    ensures |Text(c)| == |Text(c[..7])| + |c[7].text|
  {
    assert Text(c[..0]) == "";
    TextSnoc(c, 0);
    TextSnoc(c, 1);
    TextSnoc(c, 2);
    TextSnoc(c, 3);
    TextSnoc(c, 4);
    TextSnoc(c, 5);
    TextSnoc(c, 6);
    TextSnoc(c, 7);
    assert c[..8] == c;
  }

  /**
   * The fixed columns before the date take the same room on every line:
   * one character each for type and rights, nine for the size, and the two
   * measured widths, each column followed by two spaces.
   */
  lemma LongColumnsWidth(a: Asset, colors: bool, widths: Widths)
    requires a.size < 0x1_0000_0000_0000_0000
    requires |a.domain| <= widths.domain && |a.owner| <= widths.owner
    ensures |Text(LongColumns(a, colors, widths)[..7])| == 4 + 11 + (widths.domain + 2) + (widths.owner + 2)
    ensures |Text(LongColumns(a, colors, widths))| == 4 + 11 + (widths.domain + 2) + (widths.owner + 2) + |a.date| + 2
  {
    var c := LongColumns(a, colors, widths);
    SizeTextWidth(a.size);
    PadFieldWidth(a.domain, widths.domain);
    PadFieldWidth(a.owner, widths.owner);
    EightSegmentsLength(c);
  }

  /**
   * In a long listing the date column starts at the same offset on every
   * line: the measured widths bound every domain and owner of the listing.
   */
  lemma LongListingAligned(s: seq<Asset>, options: Options, i: nat, j: nat)
    requires options.showLongFormat && i < |s| && j < |s|
    requires s[i].size < 0x1_0000_0000_0000_0000 && s[j].size < 0x1_0000_0000_0000_0000
    ensures var widths := ColumnWidths(s, options);
      |Text(LongColumns(s[i], options.colors, widths)[..7])| == |Text(LongColumns(s[j], options.colors, widths)[..7])|
  {
    var widths := ColumnWidths(s, options);
    assert Domains(s)[i] == s[i].domain && Domains(s)[j] == s[j].domain;
    assert Owners(s)[i] == s[i].owner && Owners(s)[j] == s[j].owner;
    LongColumnsWidth(s[i], options.colors, widths);
    LongColumnsWidth(s[j], options.colors, widths);
  }

  /**
   * In recursive mode the name column shows the asset's path past the
   * listed directory and its separator, which for every listed asset is
   * its name: the recursive flag does not change what a line reads.
   */
  lemma RecursiveNameIsName(path: string, options: Options, host: Host, table: seq<AssetMetadata>)
    requires Scan(path, options, host).Listed?
    ensures forall a :: a in Scan(path, options, host).assets ==>
      PathTail(a.path, |CurrentPath(path, host)| + 1) == a.name
      && LongName(a, options.(recursiveList := true), |CurrentPath(path, host)|, table)
         == LongName(a, options.(recursiveList := false), |CurrentPath(path, host)|, table)
  {
    ListedAssetsPassFilters(path, options, host);
    var cp := CurrentPath(path, host);
    forall a | a in Scan(path, options, host).assets
      ensures PathTail(a.path, |cp| + 1) == a.name
    {
      assert a.path == cp + "\\" + a.name;
      assert a.path[|cp| + 1..] == a.name;
    }
  }
}
