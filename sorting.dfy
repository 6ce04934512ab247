/**
 * Sorting a listing (source/sort.c): the eight comparators, the in-place
 * sort of the live assets by one of them, and the in-place reversal.
 *
 * The C library's qsort is not part of this model; the sort here is an
 * insertion sort proved against what qsort promises: the live assets end up
 * a permutation of what they were, ordered by the comparator. qsort is not
 * stable, so nothing is said about the order of assets the comparator ties.
 */
module Sorting {
  import opened LsTypes

  // ---------------------------------------------------------------------
  // _strcmpi

  /** The lowered code of the first character, 0 (the terminator) for the empty string. */
  function HeadCode(s: string): (c: int)
    ensures c >= 0
    ensures |s| == 0 ==> c == 0
  {
    if |s| == 0 then 0 else ToLowerChar(s[0]) as int
  }

  /**
   * _strcmpi: walks both strings while their lowered characters agree and
   * are not the terminator, and returns the difference of the first lowered
   * pair that differs (0 when both end together).
   */
  function CompareIgnoreCase(a: string, b: string): int
    decreases |a|
  {
    var ha := HeadCode(a);
    var hb := HeadCode(b);
    if ha != hb then ha - hb
    else if ha == 0 then 0
    else CompareIgnoreCase(a[1..], b[1..])
  }

  /** Swapping the arguments negates the result. */
  lemma {:induction false} CompareIgnoreCaseAntisymmetric(a: string, b: string)
    ensures CompareIgnoreCase(b, a) == -CompareIgnoreCase(a, b)
    decreases |a|
  {
    if HeadCode(a) == HeadCode(b) && HeadCode(a) != 0 {
      CompareIgnoreCaseAntisymmetric(a[1..], b[1..]);
    }
  }

  /** "Not after" is transitive, so _strcmpi is a consistent qsort comparison. */
  lemma {:induction false} CompareIgnoreCaseTransitive(a: string, b: string, c: string)
    requires CompareIgnoreCase(a, b) <= 0 && CompareIgnoreCase(b, c) <= 0
    ensures CompareIgnoreCase(a, c) <= 0
    decreases |a|
  {
    if HeadCode(a) == HeadCode(b) == HeadCode(c) && HeadCode(a) != 0 {
      CompareIgnoreCaseTransitive(a[1..], b[1..], c[1..]);
    }
  }

  /** A string with no terminator inside it, as every C string is. */
  predicate IsCString(s: string) {
    forall k :: 0 <= k < |s| ==> s[k] != '\0'
  }

  /** For C strings, _strcmpi reports equality exactly when the lowered strings are equal. */
  lemma {:induction false} CompareIgnoreCaseZero(a: string, b: string)
    requires IsCString(a) && IsCString(b)
    ensures CompareIgnoreCase(a, b) == 0 <==> ToLower(a) == ToLower(b)
    decreases |a|
  {
    if |a| > 0 && |b| > 0 {
      assert ToLowerChar(a[0]) != '\0' && ToLowerChar(b[0]) != '\0';
      CompareIgnoreCaseZero(a[1..], b[1..]);
      assert ToLower(a) == [ToLowerChar(a[0])] + ToLower(a[1..]);
      assert ToLower(b) == [ToLowerChar(b[0])] + ToLower(b[1..]);
    } else if |a| > 0 {
      assert ToLowerChar(a[0]) != '\0';
      assert |ToLower(a)| != |ToLower(b)|;
    } else if |b| > 0 {
      assert ToLowerChar(b[0]) != '\0';
      assert |ToLower(a)| != |ToLower(b)|;
    }
  }

  // ---------------------------------------------------------------------
  // The comparators

  /** GetContentType: 'l' for a symlink, 'd' for another directory, 'z' for the rest. */
  function ContentType(a: Asset): char {
    if a.kind.symlink then 'l'
    else if a.kind.directory then 'd'
    else 'z'
  }

  /** Directories come first, then symlinks, then everything else. */
  lemma ContentTypeRank(a: Asset, b: Asset)
    ensures ContentType(a) < ContentType(b) <==>
      (!a.kind.symlink && a.kind.directory && (b.kind.symlink || !b.kind.directory))
      || (a.kind.symlink && !b.kind.symlink && !b.kind.directory)
  {
  }

  /**
   * The comparator qsort is given for each sort key, as the sign of the true
   * difference: negative when `a` goes before `b`. Size and timestamps put the
   * larger value first; the text keys compare without case; SortNone has no
   * comparator because it is not sorted.
   */
  function Compare(field: SortBy, a: Asset, b: Asset): int {
    match field
    case SortNone => 0
    case SortDirectoryFirst => ContentType(a) as int - ContentType(b) as int
    case SortByName => CompareIgnoreCase(a.name, b.name)
    case SortByGroup => CompareIgnoreCase(a.domain, b.domain)
    case SortByOwner => CompareIgnoreCase(a.owner, b.owner)
    case SortBySize => b.size - a.size
    case SortByCreationDate => b.timestamp.creation - a.timestamp.creation
    case SortByLastModified => b.timestamp.modification - a.timestamp.modification
    case SortByLastAccessed => b.timestamp.access - a.timestamp.access
  }

  /** `a` may stand before `b`. */
  predicate InOrder(field: SortBy, a: Asset, b: Asset) {
    Compare(field, a, b) <= 0
  }

  /**
   * Each comparator is a consistent qsort comparison: swapping the arguments
   * flips the sign, any two assets are in order one way round, and the order
   * is transitive.
   */
  lemma CompareIsConsistent(field: SortBy, a: Asset, b: Asset, c: Asset)
    ensures Compare(field, a, b) < 0 <==> Compare(field, b, a) > 0
    ensures InOrder(field, a, b) || InOrder(field, b, a)
    ensures InOrder(field, a, b) && InOrder(field, b, c) ==> InOrder(field, a, c)
  {
    match field
    case SortByName =>
      CompareIgnoreCaseAntisymmetric(a.name, b.name);
      if InOrder(field, a, b) && InOrder(field, b, c) {
        CompareIgnoreCaseTransitive(a.name, b.name, c.name);
      }
    case SortByGroup =>
      CompareIgnoreCaseAntisymmetric(a.domain, b.domain);
      if InOrder(field, a, b) && InOrder(field, b, c) {
        CompareIgnoreCaseTransitive(a.domain, b.domain, c.domain);
      }
    case SortByOwner =>
      CompareIgnoreCaseAntisymmetric(a.owner, b.owner);
      if InOrder(field, a, b) && InOrder(field, b, c) {
        CompareIgnoreCaseTransitive(a.owner, b.owner, c.owner);
      }
    case _ =>
  }

  /** What "in order" means for each key. */
  lemma InOrderMeaning(field: SortBy, a: Asset, b: Asset)
    ensures field == SortBySize ==> (InOrder(field, a, b) <==> a.size >= b.size)
    ensures field == SortByCreationDate ==> (InOrder(field, a, b) <==> a.timestamp.creation >= b.timestamp.creation)
    ensures field == SortByLastModified ==> (InOrder(field, a, b) <==> a.timestamp.modification >= b.timestamp.modification)
    ensures field == SortByLastAccessed ==> (InOrder(field, a, b) <==> a.timestamp.access >= b.timestamp.access)
    ensures field == SortByName ==> (InOrder(field, a, b) <==> CompareIgnoreCase(a.name, b.name) <= 0)
    ensures field == SortByOwner ==> (InOrder(field, a, b) <==> CompareIgnoreCase(a.owner, b.owner) <= 0)
    ensures field == SortByGroup ==> (InOrder(field, a, b) <==> CompareIgnoreCase(a.domain, b.domain) <= 0)
    ensures field == SortDirectoryFirst ==> (InOrder(field, a, b) <==> ContentType(a) <= ContentType(b))
    ensures field == SortNone ==> InOrder(field, a, b)
  {
  }

  // ---------------------------------------------------------------------
  // The comparators as written: a 64-bit difference cast to int

  /** (long long) of an unsigned 64-bit value: two's complement reinterpretation. */
  function AsLongLong(x: SizeT): (r: int)
    ensures -0x8000_0000_0000_0000 <= r < 0x8000_0000_0000_0000
  {
    if x < 0x8000_0000_0000_0000 then x else x - 0x1_0000_0000_0000_0000
  }

  /** The low 32 bits of an integer read as a signed int, as the (int) cast keeps them. */
  function AsInt(x: int): (r: int)
    ensures -0x8000_0000 <= r < 0x8000_0000
    ensures (r - x) % 0x1_0000_0000 == 0
  {
    var low := x % 0x1_0000_0000;
    if low < 0x8000_0000 then low else low - 0x1_0000_0000
  }

  /**
   * OrderBySize as the source writes it: (int)((long long)b - (long long)a).
   * The long long subtraction cannot overflow for values below 2^63, which
   * every file size is in practice; the cast to int keeps only 32 bits.
   */
  function OrderBySizeAsWritten(a: Asset, b: Asset): int
    requires a.size < 0x8000_0000_0000_0000 && b.size < 0x8000_0000_0000_0000
  {
    AsInt(AsLongLong(b.size) - AsLongLong(a.size))
  }

  /**
   * The truncation loses the order: a 4 GiB file ties with an empty one, and
   * a 2 GiB file is put after an empty one although the key puts larger
   * sizes first.
   */
  lemma OrderBySizeTruncates()
    ensures var empty := ZeroAsset;
      var big := ZeroAsset.(size := 0x1_0000_0000);
      var half := ZeroAsset.(size := 0x8000_0001);
      && OrderBySizeAsWritten(empty, big) == 0 && Compare(SortBySize, empty, big) > 0
      && OrderBySizeAsWritten(half, empty) > 0 && Compare(SortBySize, half, empty) < 0
  {
  }

  /** The cast is harmless while the two sizes are less than 2^31 apart. */
  lemma OrderBySizeAsWrittenAgreesWhenClose(a: Asset, b: Asset)
    requires a.size < 0x8000_0000_0000_0000 && b.size < 0x8000_0000_0000_0000
    requires -0x8000_0000 <= b.size - a.size < 0x8000_0000
    ensures OrderBySizeAsWritten(a, b) == Compare(SortBySize, a, b)
  {
  }

  // ---------------------------------------------------------------------
  // Sorted sequences

  /** Every asset is in order with the next one. */
  predicate Sorted(field: SortBy, s: seq<Asset>) {
    forall i :: 0 < i < |s| ==> InOrder(field, s[i - 1], s[i])
  }

  /** Adjacent order extends to every pair, by transitivity. */
  lemma {:induction false} SortedPairwise(field: SortBy, s: seq<Asset>)
    requires Sorted(field, s)
    ensures forall i, j :: 0 <= i < j < |s| ==> InOrder(field, s[i], s[j])
    decreases |s|
  {
    if |s| > 1 {
      var init := s[..|s| - 1];
      assert Sorted(field, init);
      SortedPairwise(field, init);
      forall i | 0 <= i < |s| - 1
        ensures InOrder(field, s[i], s[|s| - 1])
      {
        if i < |s| - 2 {
          assert InOrder(field, init[i], init[|s| - 2]);
          CompareIsConsistent(field, s[i], s[|s| - 2], s[|s| - 1]);
        }
      }
    }
  }

  /**
   * What a sorted listing looks like, key by key: the largest and newest
   * first, names, owners and groups ascending without case, and directories,
   * then symlinks, then the rest.
   */
  lemma SortedMeaning(field: SortBy, s: seq<Asset>, i: nat, j: nat)
    requires Sorted(field, s) && i < j < |s|
    ensures field == SortBySize ==> s[i].size >= s[j].size
    ensures field == SortByCreationDate ==> s[i].timestamp.creation >= s[j].timestamp.creation
    ensures field == SortByLastModified ==> s[i].timestamp.modification >= s[j].timestamp.modification
    ensures field == SortByLastAccessed ==> s[i].timestamp.access >= s[j].timestamp.access
    ensures field == SortByName ==> CompareIgnoreCase(s[i].name, s[j].name) <= 0
    ensures field == SortByOwner ==> CompareIgnoreCase(s[i].owner, s[j].owner) <= 0
    ensures field == SortByGroup ==> CompareIgnoreCase(s[i].domain, s[j].domain) <= 0
    ensures field == SortDirectoryFirst ==> ContentType(s[i]) <= ContentType(s[j])
  {
    SortedPairwise(field, s);
    assert InOrder(field, s[i], s[j]);
  }

  // ---------------------------------------------------------------------
  // Reversal

  /** The sequence back to front. */
  function Reversed(s: seq<Asset>): (r: seq<Asset>)
    ensures |r| == |s|
    ensures forall i :: 0 <= i < |s| ==> r[i] == s[|s| - 1 - i]
  {
    seq(|s|, i requires 0 <= i < |s| => s[|s| - 1 - i])
  }

  /** Reversing twice gives the sequence back. */
  lemma ReversedTwice(s: seq<Asset>)
    ensures Reversed(Reversed(s)) == s
  {
  }

  /** Reversal only reorders. */
  lemma {:induction false} ReversedPermutes(s: seq<Asset>)
    ensures multiset(Reversed(s)) == multiset(s)
    decreases |s|
  {
    if |s| > 0 {
      var init := s[..|s| - 1];
      ReversedPermutes(init);
      assert s == init + [s[|s| - 1]];
      assert Reversed(s) == [s[|s| - 1]] + Reversed(init);
    }
  }

  /** A reversed sorted listing is ordered the other way round: smallest and oldest first. */
  lemma ReversedSortedMeaning(field: SortBy, s: seq<Asset>, i: nat, j: nat)
    requires Sorted(field, Reversed(s)) && i < j < |s|
    ensures InOrder(field, s[j], s[i])
  {
    var r := Reversed(s);
    SortedPairwise(field, r);
    assert r[|s| - 1 - j] == s[j] && r[|s| - 1 - i] == s[i];
  }

  /**
   * The array contents after the reversal loop has exchanged the first `low`
   * slots with the last `low` of the first n: those are reversed, the rest
   * is as it was.
   */
  function PartlyReversed(s: seq<Asset>, n: nat, low: nat): (r: seq<Asset>)
    requires n <= |s|
    ensures |r| == |s|
  {
    seq(|s|, i requires 0 <= i < |s| => if i < n && (i < low || i >= n - low) then s[n - 1 - i] else s[i])
  }

  /** One exchange of the reversal loop moves `low` on by one. */
  lemma PartlyReversedStep(s: seq<Asset>, n: nat, low: nat)
    requires n <= |s| && low < n - 1 - low
    ensures var p := PartlyReversed(s, n, low);
      p[low := p[n - 1 - low]][n - 1 - low := p[low]] == PartlyReversed(s, n, low + 1)
  {
  }

  /** When the two indices meet, the first n are reversed and the rest is untouched. */
  lemma PartlyReversedDone(s: seq<Asset>, n: nat, low: nat)
    requires n <= |s| && low <= n && n - 1 - low <= low
    ensures PartlyReversed(s, n, low)[..n] == Reversed(s[..n])
    ensures PartlyReversed(s, n, low)[n..] == s[n..]
  {
  }

  /**
   * ReverseOrder: swaps data[low] and data[high] while low < high, with
   * high starting at size - 1. The caller guarantees size >= 1, since the
   * unsigned size - 1 would wrap around for an empty container.
   */
  method ReverseOrder(directory: Directory)
    requires directory.Valid() && directory.size >= 1
    modifies directory.data
    ensures directory.Valid()
    ensures directory.Contents() == Reversed(old(directory.Contents()))
    ensures directory.data[directory.size..] == old(directory.data[directory.size..])
  {
    var data := directory.data;
    var size := directory.size;
    ghost var original := data[..];
    var low: nat := 0;
    var high: nat := size - 1;
    while low < high
      invariant low + high == size - 1 && low <= size
      invariant data[..] == PartlyReversed(original, size, low)
    {
      PartlyReversedStep(original, size, low);
      data[low], data[high] := data[high], data[low];
      low := low + 1;
      high := high - 1;
    }
    PartlyReversedDone(original, size, low);
    assert data[..size] == data[..][..size] && data[size..] == data[..][size..];
  }

  // ---------------------------------------------------------------------
  // SortDirectoryContent

  /** Exchanges two slots of the array. */
  method Swap(data: array<Asset>, i: nat, j: nat)
    requires i < data.Length && j < data.Length
    modifies data
    ensures data[..] == old(data[..])[i := old(data[j])][j := old(data[i])]
  {
    data[i], data[j] := data[j], data[i];
  }

  /** Exchanging two slots below n keeps the multiset of the first n and what follows them. */
  lemma SwapPermutes(s: seq<Asset>, i: nat, j: nat, n: nat)
    requires i < n && j < n && n <= |s|
    ensures multiset(s[i := s[j]][j := s[i]][..n]) == multiset(s[..n])
    ensures s[i := s[j]][j := s[i]][n..] == s[n..]
  {
    var t := s[..n];
    assert s[i := s[j]][j := s[i]][..n] == t[i := t[j]][j := t[i]];
  }

  /** Adjacent assets with index in (lo, hi) are in order. */
  predicate SortedBetween(field: SortBy, s: seq<Asset>, lo: nat, hi: nat)
    requires lo <= hi <= |s|
  {
    forall k :: lo < k < hi ==> InOrder(field, s[k - 1], s[k])
  }

  /**
   * One step of the sinking asset at j: everything before it and everything
   * from it up to i is in order, and its left neighbour is in order with its
   * right neighbour. Exchanging it with a left neighbour it is out of order
   * with keeps all three facts one slot further left.
   */
  lemma SinkStep(field: SortBy, s: seq<Asset>, j: nat, i: nat)
    requires 0 < j <= i < |s|
    requires SortedBetween(field, s, 0, j) && SortedBetween(field, s, j, i + 1)
    requires j < i ==> InOrder(field, s[j - 1], s[j + 1])
    requires !InOrder(field, s[j - 1], s[j])
    ensures var t := s[j - 1 := s[j]][j := s[j - 1]];
      && SortedBetween(field, t, 0, j - 1) && SortedBetween(field, t, j - 1, i + 1)
      && (0 < j - 1 < i ==> InOrder(field, t[j - 2], t[j]))
  {
    var t := s[j - 1 := s[j]][j := s[j - 1]];
    CompareIsConsistent(field, s[j - 1], s[j], s[j]);
    if j > 1 {
      assert InOrder(field, s[j - 2], s[j - 1]);
    }
    forall k | j - 1 < k < i + 1
      ensures InOrder(field, t[k - 1], t[k])
    {
      if k > j + 1 {
        assert t[k - 1] == s[k - 1] && t[k] == s[k];
      }
    }
  }

  /**
   * Sinks the asset at index i past the ones before it that the comparator
   * puts after it, so that the first i + 1 assets are in order.
   */
  method SinkDown(data: array<Asset>, field: SortBy, i: nat, n: nat)
    requires 0 < i < n <= data.Length && SortedBetween(field, data[..], 0, i)
    modifies data
    ensures SortedBetween(field, data[..], 0, i + 1)
    ensures multiset(data[..][..n]) == multiset(old(data[..][..n]))
    ensures data[..][n..] == old(data[..][n..])
  {
    var j := i;
    while j > 0 && !InOrder(field, data[j - 1], data[j])
      invariant 0 <= j <= i
      invariant multiset(data[..][..n]) == multiset(old(data[..][..n]))
      invariant data[..][n..] == old(data[..][n..])
      invariant SortedBetween(field, data[..], 0, j) && SortedBetween(field, data[..], j, i + 1)
      invariant 0 < j < i ==> InOrder(field, data[j - 1], data[j + 1])
    {
      SinkStep(field, data[..], j, i);
      SwapPermutes(data[..], j - 1, j, n);
      Swap(data, j - 1, j);
      j := j - 1;
    }
  }

  /**
   * The sort qsort performs, as an insertion sort: each asset in turn sinks
   * into place among the ones before it.
   */
  method SortLive(directory: Directory, field: SortBy)
    requires directory.Valid()
    modifies directory.data
    ensures directory.Valid()
    ensures multiset(directory.Contents()) == multiset(old(directory.Contents()))
    ensures Sorted(field, directory.Contents())
    ensures directory.data[directory.size..] == old(directory.data[directory.size..])
  {
    var data := directory.data;
    var n := directory.size;
    ghost var original := data[..];
    var i := 1;
    while i < n
      invariant n == 0 || 1 <= i <= n
      invariant multiset(data[..][..n]) == multiset(original[..n])
      invariant data[..][n..] == original[n..]
      invariant n > 0 ==> SortedBetween(field, data[..], 0, i)
    {
      SinkDown(data, field, i, n);
      i := i + 1;
    }
    assert data[..n] == data[..][..n] && data[n..] == data[..][n..];
  }

  /**
   * SortDirectoryContent: sorts the live assets by the chosen key (no key
   * leaves them in place), then reverses them when asked to. Reversal needs
   * at least one asset; the listing never sorts an empty container.
   */
  method SortDirectoryContent(directory: Directory, options: Options)
    requires directory.Valid()
    requires options.reverseOrder ==> directory.size >= 1
    modifies directory.data
    ensures directory.Valid()
    ensures multiset(directory.Contents()) == multiset(old(directory.Contents()))
    ensures directory.data[directory.size..] == old(directory.data[directory.size..])
    ensures options.sortField == SortNone ==>
      directory.Contents() == (if options.reverseOrder then Reversed(old(directory.Contents())) else old(directory.Contents()))
    ensures options.sortField != SortNone ==>
      Sorted(options.sortField, if options.reverseOrder then Reversed(directory.Contents()) else directory.Contents())
  {
    if options.sortField != SortNone {
      SortLive(directory, options.sortField);
    }
    if options.reverseOrder {
      ghost var sorted := directory.Contents();
      ReverseOrder(directory);
      ReversedPermutes(sorted);
      ReversedTwice(sorted);
    }
  }
}
