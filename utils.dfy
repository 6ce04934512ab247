/**
 * String and path helpers, the directory queue, and the human-readable size
 * text (source/utils.c), together with the printf conversions the listing
 * relies on ("%d", "%02d", "% 8.2lf").
 */
module Utils {
  import opened Wrappers
  import opened LsTypes

  /** The separators FindLastDelimiter is given by GetDirectoryFromPath. */
  const PathSeparators: string := "\\/"

  // ---------------------------------------------------------------------
  // FindLastDelimiter

  /** The rightmost index of `s` holding one of `delimiters`, if any. */
  function LastDelimiter(s: string, delimiters: string): (r: Option<nat>)
    ensures r.Some? ==> r.value < |s| && s[r.value] in delimiters
    ensures r.Some? ==> forall j :: r.value < j < |s| ==> s[j] !in delimiters
    ensures r.None? ==> forall j :: 0 <= j < |s| ==> s[j] !in delimiters
  {
    if |s| == 0 then None
    else if s[|s| - 1] in delimiters then Some(|s| - 1)
    else LastDelimiter(s[..|s| - 1], delimiters)
  }

  /** FindLastDelimiter: scans `s` backwards from its last character; an empty string has no delimiter. */
  method FindLastDelimiter(s: string, delimiters: string) returns (r: Option<nat>)
    ensures r == LastDelimiter(s, delimiters)
  {
    if |s| < 1 {
      return None;
    }
    var c: int := |s| - 1;
    while c >= 0
      invariant -1 <= c < |s|
      invariant forall j :: c < j < |s| ==> s[j] !in delimiters
    {
      if s[c] in delimiters {
        return Some(c);
      }
      c := c - 1;
    }
    return None;
  }

  // ---------------------------------------------------------------------
  // GetDirectoryFromPath

  /** Drops one trailing '\' or '/', if there is one. */
  function StripTrailingSeparator(s: string): (r: string)
    ensures r == s || (|s| > 0 && s[|s| - 1] in PathSeparators && r == s[..|s| - 1])
  {
    if |s| > 0 && s[|s| - 1] in PathSeparators then s[..|s| - 1] else s
  }

  /**
   * The directory part of a listed path. A document or a wildcard pattern is
   * cut at its last separator (the working directory stands in when it has
   * none); then one trailing separator is removed.
   */
  function DirectoryFromPath(path: string, isDocument: bool, workingDirectory: string): string {
    var cut :=
      if isDocument || '*' in path then
        match LastDelimiter(path, PathSeparators)
        case Some(i) => path[..i]
        case None => workingDirectory
      else path;
    StripTrailingSeparator(cut)
  }

  /**
   * What DirectoryFromPath keeps: a plain directory path loses at most its
   * trailing separator; a document or pattern keeps what precedes its last
   * separator, minus one more trailing separator; with no separator at all
   * the working directory is used.
   */
  lemma DirectoryFromPathShape(path: string, isDocument: bool, workingDirectory: string)
    ensures var r := DirectoryFromPath(path, isDocument, workingDirectory);
      && (!(isDocument || '*' in path) ==> r == StripTrailingSeparator(path) && path[..|r|] == r)
      && ((isDocument || '*' in path) && LastDelimiter(path, PathSeparators).Some? ==>
            var i := LastDelimiter(path, PathSeparators).value;
            |r| <= i && path[..|r|] == r && |r| + 1 >= i)
      && ((isDocument || '*' in path) && LastDelimiter(path, PathSeparators).None? ==>
            r == StripTrailingSeparator(workingDirectory))
  {
  }

  /** A document path "dir\name" yields "dir", the directory the enumeration reports it in. */
  lemma DocumentDirectory(dir: string, name: string, workingDirectory: string)
    requires forall j :: 0 <= j < |name| ==> name[j] !in PathSeparators
    requires |dir| == 0 || dir[|dir| - 1] !in PathSeparators
    ensures DirectoryFromPath(dir + "\\" + name, true, workingDirectory) == dir
  {
    var p := dir + "\\" + name;
    assert p[|dir|] == '\\';
    assert forall j :: |dir| < j < |p| ==> p[j] == name[j - |dir| - 1];
    assert p[|dir|] in PathSeparators;
    assert LastDelimiter(p, PathSeparators) == Some(|dir|);
    assert p[..|dir|] == dir;
  }

  /** GetDirectoryFromPath: copies the path into the buffer, cuts it, then strips one separator. */
  method GetDirectoryFromPath(path: string, isDocument: bool, workingDirectory: string) returns (buffer: string)
    ensures buffer == DirectoryFromPath(path, isDocument, workingDirectory)
  {
    buffer := path;
    if isDocument || '*' in buffer {
      var c := FindLastDelimiter(buffer, PathSeparators);
      if c.None? {
        buffer := workingDirectory;
      } else {
        buffer := buffer[..c.value];
      }
    }
    var len := |buffer|;
    if len > 0 && buffer[len - 1] in PathSeparators {
      buffer := buffer[..len - 1];
    }
  }

  // ---------------------------------------------------------------------
  // AddDirectoryToList

  /**
   * AddDirectoryToList: appends `path` at the tail of the queue; the first
   * node becomes head and tail at once. When the node cannot be nodeAllocated
   * the queue is unchanged.
   */
  function AddDirectoryToList(args: Arguments, path: string, nodeAllocated: bool): (r: Arguments)
    ensures r.options == args.options
    ensures !nodeAllocated ==> r == args
    ensures nodeAllocated ==> |r.dirs| == |args.dirs| + 1 && r.dirs[..|args.dirs|] == args.dirs
    ensures nodeAllocated ==> r.dirs[|r.dirs| - 1] == path && (args.dirs == [] ==> r.dirs == [path])
  {
    if nodeAllocated then args.(dirs := args.dirs + [path]) else args
  }

  // ---------------------------------------------------------------------
  // Decimal conversions ("%d" and "%02d")

  function DigitChar(d: nat): (c: char)
    requires d < 10
    ensures '0' <= c <= '9'
  {
    ('0' as int + d) as char
  }

  predicate IsDigits(s: string) {
    forall k :: 0 <= k < |s| ==> '0' <= s[k] <= '9'
  }

  /** "%d" of a non-negative number. */
  function Decimal(n: nat): (s: string)
    ensures |s| >= 1 && IsDigits(s)
    ensures n < 10 <==> |s| == 1
  {
    if n < 10 then [DigitChar(n)] else Decimal(n / 10) + [DigitChar(n % 10)]
  }

  /** "%02d": at least two digits, zero-padded. */
  function ZeroPad2(n: nat): (s: string)
    ensures IsDigits(s) && |s| >= 2
    ensures n < 100 ==> |s| == 2
  {
    if n < 10 then "0" + Decimal(n) else Decimal(n)
  }

  /** The number a string of digits spells. */
  function DigitsValue(s: string): nat
    requires IsDigits(s)
  {
    if |s| == 0 then 0 else 10 * DigitsValue(s[..|s| - 1]) + (s[|s| - 1] as int - '0' as int)
  }

  /** Reading back "%d" gives the number printed. */
  lemma {:induction false} DecimalRoundTrip(n: nat)
    ensures DigitsValue(Decimal(n)) == n
  {
    if n >= 10 {
      var s := Decimal(n);
      assert s[..|s| - 1] == Decimal(n / 10);
      DecimalRoundTrip(n / 10);
    }
  }

  /** Reading back "%02d" gives the number printed. */
  lemma ZeroPad2RoundTrip(n: nat)
    ensures DigitsValue(ZeroPad2(n)) == n
  {
    DecimalRoundTrip(n);
    if n < 10 {
      assert ZeroPad2(n)[..1] == "0";
    }
  }

  /** "%d" of a number below 10^k has at most k digits. */
  lemma {:induction false} DecimalLength(n: nat, k: nat, bound: nat)
    requires bound == Pow10(k) && n < bound
    ensures |Decimal(n)| <= if k == 0 then 1 else k
  {
    if n >= 10 {
      DecimalLength(n / 10, k - 1, Pow10(k - 1));
    }
  }

  function Pow10(k: nat): nat {
    if k == 0 then 1 else 10 * Pow10(k - 1)
  }

  /** Left-pads with spaces to `width` characters (printf's field width). */
  function PadLeft(s: string, width: nat): (r: string)
    ensures |r| == if |s| < width then width else |s|
    ensures r[|r| - |s|..] == s
    ensures forall k :: 0 <= k < |r| - |s| ==> r[k] == ' '
  {
    if |s| < width then seq(width - |s|, _ => ' ') + s else s
  }

  // ---------------------------------------------------------------------
  // GetFileSizeAsText

  /** The unit letters, one for each division by 1024. */
  const Units: string := "BKMGTPEZY"

  function Power1024(k: nat): (p: nat)
    ensures p >= 1
  {
    if k == 0 then 1 else 1024 * Power1024(k - 1)
  }

  /** The number of k in 1..n with bytes > 1024^k. */
  function UnitsAbove(bytes: nat, n: nat): (c: nat)
    ensures c <= n
  {
    if n == 0 then 0 else UnitsAbove(bytes, n - 1) + (if bytes > Power1024(n) then 1 else 0)
  }

  /** The index of the unit letter: how many of the eight divisions happen. */
  function UnitIndex(bytes: nat): (k: nat)
    ensures k <= 8
  {
    UnitsAbove(bytes, 8)
  }

  /** The size text before it is rendered: a dash, or an amount with its unit. */
  datatype SizeText = Dash | Amount(value: real, unit: char)

  /** What GetFileSizeAsText shows for `bytes`. */
  function HumanSize(bytes: nat): SizeText {
    if bytes == 0 then Dash
    else Amount(bytes as real / Power1024(UnitIndex(bytes)) as real, Units[UnitIndex(bytes)])
  }

  lemma {:induction false} Power1024Monotone(i: nat, j: nat)
    requires i <= j
    ensures Power1024(i) <= Power1024(j)
  {
    if i < j {
      Power1024Monotone(i, j - 1);
    }
  }

  /** The thresholds are increasing, so the count of those exceeded is the largest one exceeded. */
  lemma {:induction false} UnitsAboveIsLargest(bytes: nat, n: nat, k: nat)
    requires k <= n
    ensures UnitsAbove(bytes, n) >= k <==> (k == 0 || bytes > Power1024(k))
  {
    if n == 0 {
    } else {
      if k == n {
        if bytes > Power1024(n) {
          forall j | 1 <= j < n ensures bytes > Power1024(j) {
            Power1024Monotone(j, n);
          }
          UnitsAboveAll(bytes, n - 1);
        } else {
          UnitsAboveIsLargest(bytes, n - 1, n - 1);
        }
      } else {
        UnitsAboveIsLargest(bytes, n - 1, k);
        if bytes > Power1024(n) {
          Power1024Monotone(k, n);
          forall j | 1 <= j <= n - 1 ensures bytes > Power1024(j) {
            Power1024Monotone(j, n);
          }
          UnitsAboveAll(bytes, n - 1);
        }
      }
    }
  }

  lemma {:induction false} UnitsAboveAll(bytes: nat, n: nat)
    requires forall j :: 1 <= j <= n ==> bytes > Power1024(j)
    ensures UnitsAbove(bytes, n) == n
  {
    if n > 0 {
      UnitsAboveAll(bytes, n - 1);
    }
  }

  /**
   * The unit is the largest power of 1024 that `bytes` strictly exceeds:
   * exactly 1024 bytes stay in 'B', and the amount shown is above 1 and at
   * most 1024 unless the letters run out.
   */
  lemma UnitBounds(bytes: nat)
    requires bytes >= 1
    ensures var k := UnitIndex(bytes);
      && (k > 0 ==> bytes > Power1024(k))
      && (k < 8 ==> bytes <= Power1024(k + 1))
  {
    var k := UnitIndex(bytes);
    UnitsAboveIsLargest(bytes, 8, k);
    if k < 8 {
      UnitsAboveIsLargest(bytes, 8, k + 1);
    }
  }

  /** Sizes that fit in 64 bits never go past 'E'. */
  lemma UnitOfMachineSize(bytes: nat)
    requires bytes < 0x1_0000_0000_0000_0000
    ensures UnitIndex(bytes) <= 6
    ensures bytes >= 1 ==> bytes <= Power1024(UnitIndex(bytes) + 1)
  {
    if UnitIndex(bytes) > 6 {
      UnitsAboveIsLargest(bytes, 8, 7);
    }
    if bytes >= 1 {
      UnitBounds(bytes);
    }
  }

  /** The size text is a dash exactly for an empty asset; anything else shows at least one unit. */
  lemma DashOnlyForZero(bytes: nat)
    ensures HumanSize(bytes).Dash? <==> bytes == 0
    ensures HumanSize(bytes).Amount? ==> HumanSize(bytes).value >= 1.0
    ensures bytes == 1024 ==> HumanSize(bytes) == Amount(1024.0, 'B')
    ensures bytes == 1025 ==> HumanSize(bytes).unit == 'K'
  {
    if bytes >= 1 {
      AmountAtLeastOne(bytes);
    }
    if bytes == 1024 || bytes == 1025 {
      UnitsAboveIsLargest(bytes, 8, 1);
      UnitsAboveIsLargest(bytes, 8, 2);
      assert Power1024(2) == 1048576;
    }
  }

  /** Dividing by a positive divisor compares and chains as expected. */
  lemma RealDivision(b: real, p: real, sz: real)
    requires p > 0.0 && sz == b / p
    ensures sz > 1024.0 <==> b > 1024.0 * p
    ensures sz / 1024.0 == b / (1024.0 * p)
  {
    assert sz * p == b;
    if sz > 1024.0 {
      assert (sz - 1024.0) * p > 0.0;
    } else {
      assert (1024.0 - sz) * p >= 0.0;
    }
  }

  /** One of the eight steps: the value exceeds 1024 exactly when bytes exceed the next power of 1024. */
  lemma DivisionStep(bytes: nat, j: nat, k: nat, sz: real)
    requires j < 8 && k == UnitsAbove(bytes, j) && sz == bytes as real / Power1024(k) as real
    ensures sz > 1024.0 ==> k == j && UnitsAbove(bytes, j + 1) == j + 1
    ensures sz > 1024.0 ==> sz / 1024.0 == bytes as real / Power1024(j + 1) as real
    ensures !(sz > 1024.0) ==> UnitsAbove(bytes, j + 1) == k
  {
    RealDivision(bytes as real, Power1024(k) as real, sz);
    assert Power1024(k + 1) as real == 1024.0 * Power1024(k) as real;
    if sz > 1024.0 {
      if k < j {
        UnitsAboveIsLargest(bytes, j, k + 1);
      }
    } else {
      Power1024Monotone(k + 1, j + 1);
    }
  }

  /** A non-empty size keeps an amount of at least 1 after the divisions. */
  lemma AmountAtLeastOne(bytes: nat)
    requires bytes >= 1
    ensures bytes as real / Power1024(UnitIndex(bytes)) as real >= 1.0
  {
    UnitBounds(bytes);
    var k := UnitIndex(bytes);
    if k > 0 {
      Power1024Monotone(0, k);
    }
    QuotientAtLeastOne(bytes as real, Power1024(k) as real);
  }

  /** A value no smaller than a positive divisor is at least one of it. */
  lemma QuotientAtLeastOne(b: real, p: real)
    requires p > 0.0 && b >= p
    ensures b / p >= 1.0
  {
    assert (b / p) * p == b;
  }

  /**
   * One line of GetFileSizeAsText's chain: divide by 1024 and move to the
   * next unit letter when the value exceeds 1024. After the j-th line the
   * value is bytes / 1024^k with k the number of divisions so far.
   */
  method DivideAbove1024(sz: real, ex: char, letter: char, ghost bytes: nat, ghost j: nat, ghost k: nat)
    returns (sz': real, ex': char, ghost k': nat)
    requires j < 8 && letter == Units[j + 1]
    requires k == UnitsAbove(bytes, j) && sz == bytes as real / Power1024(k) as real && ex == Units[k]
    ensures k' == UnitsAbove(bytes, j + 1) && sz' == bytes as real / Power1024(k') as real && ex' == Units[k']
  {
    DivisionStep(bytes, j, k, sz);
    sz', ex', k' := sz, ex, k;
    if sz > 1024.0 {
      sz' := sz / 1024.0;
      ex' := letter;
      k' := j + 1;
    }
  }

  /**
   * GetFileSizeAsText: divides by 1024 while the value exceeds 1024, at most
   * eight times, stepping the unit letter each time; a value below 0.01 is
   * shown as a dash. Arithmetic is exact here (see README).
   */
  method GetFileSizeAsText(bytes: nat) returns (r: SizeText)
    ensures r == HumanSize(bytes)
  {
    var sz: real := bytes as real;
    var ex: char := 'B';
    ghost var k: nat := 0;
    sz, ex, k := DivideAbove1024(sz, ex, 'K', bytes, 0, k);
    sz, ex, k := DivideAbove1024(sz, ex, 'M', bytes, 1, k);
    sz, ex, k := DivideAbove1024(sz, ex, 'G', bytes, 2, k);
    sz, ex, k := DivideAbove1024(sz, ex, 'T', bytes, 3, k);
    sz, ex, k := DivideAbove1024(sz, ex, 'P', bytes, 4, k);
    sz, ex, k := DivideAbove1024(sz, ex, 'E', bytes, 5, k);
    sz, ex, k := DivideAbove1024(sz, ex, 'Z', bytes, 6, k);
    sz, ex, k := DivideAbove1024(sz, ex, 'Y', bytes, 7, k);
    if bytes >= 1 {
      AmountAtLeastOne(bytes);
    }
    if sz < 0.01 {
      r := Dash;
    } else {
      r := Amount(sz, ex);
    }
  }

  /** "% 8.2lf": the value rounded to hundredths, after a space for the sign, right-aligned in 8 columns. */
  function FixedTwo(v: real): string {
    var rounded := (v * 100.0 + 0.5).Floor;
    var hundredths: nat := if rounded < 0 then 0 else rounded;
    PadLeft(" " + Decimal(hundredths / 100) + "." + ZeroPad2(hundredths % 100), 8)
  }

  /** The text GetFileSizeAsText returns. */
  function SizeTextString(t: SizeText): string {
    match t
    case Dash => "        -"
    case Amount(v, unit) => FixedTwo(v) + [unit]
  }

  /** An amount of at most 1024 fills exactly the eight columns. */
  lemma FixedTwoWidth(v: real)
    requires 0.0 <= v <= 1024.0
    ensures |FixedTwo(v)| == 8
  {
    var rounded := (v * 100.0 + 0.5).Floor;
    assert 0 <= rounded <= 102400;
    DecimalLength(rounded / 100, 4, Pow10(4));
  }

  lemma AmountAtMost1024(bytes: nat)
    requires 1 <= bytes < 0x1_0000_0000_0000_0000
    ensures bytes as real / Power1024(UnitIndex(bytes)) as real <= 1024.0
  {
    UnitOfMachineSize(bytes);
    var k := UnitIndex(bytes);
    var p := Power1024(k) as real;
    var sz := bytes as real / p;
    assert Power1024(k + 1) as real == 1024.0 * p;
    assert sz * p == bytes as real;
  }

  /**
   * Every size text of a 64-bit size is nine characters wide, so the columns
   * after it line up in the long listing.
   */
  lemma SizeTextWidth(bytes: nat)
    requires bytes < 0x1_0000_0000_0000_0000
    ensures |SizeTextString(HumanSize(bytes))| == 9
  {
    if bytes >= 1 {
      AmountAtLeastOne(bytes);
      AmountAtMost1024(bytes);
      FixedTwoWidth(HumanSize(bytes).value);
    }
  }
}
