/**
 * The data model of the listing tool (source/types.h): constants, the asset
 * record, the growable asset container, the parsed command line, and the
 * character helpers the C runtime provides (tolower).
 *
 * Strings are `seq<char>` where each `char` stands for one byte of an ANSI
 * string; a C string never holds '\0', and neither do the strings here.
 */
module LsTypes {

  /** Startup capacity of the asset container (STARTUP_CONTAINER_SIZE). */
  const STARTUP_CONTAINER_SIZE: nat := 128

  /** MAX_PATH, the size of every path buffer (PATH_SIZE). */
  const PATH_SIZE: nat := 260

  /** Sizes of the date, domain and owner buffers, terminating '\0' included. */
  const DATE_SIZE: nat := 32
  const DOMAIN_SIZE: nat := 32
  const OWNER_SIZE: nat := 32

  /** Unsigned machine integers: DWORD, WORD, and the 64-bit size_t. */
  type DWord = x: nat | x < 0x1_0000_0000
  type Word = x: nat | x < 0x1_0000
  type SizeT = x: nat | x < 0x1_0000_0000_0000_0000

  /** Console colours (text_color_t). */
  datatype TextColor =
    | Black | DarkBlue | DarkGreen | DarkCyan | DarkRed | DarkMagenta | DarkYellow | DarkGray
    | Gray | Blue | Green | Cyan | Red | Magenta | Yellow | White

  /** The sort key (sort_by_e), in declaration order. */
  datatype SortBy =
    | SortNone
    | SortDirectoryFirst
    | SortBySize
    | SortByName
    | SortByGroup
    | SortByOwner
    | SortByCreationDate
    | SortByLastModified
    | SortByLastAccessed

  /** The enumerator value C gives each sort key: SORT_NONE is 0, the rest count up to 8. */
  function SortOrdinal(s: SortBy): (n: nat)
    ensures n < 9
    ensures n == 0 <==> s == SortNone
  {
    match s
    case SortNone => 0
    case SortDirectoryFirst => 1
    case SortBySize => 2
    case SortByName => 3
    case SortByGroup => 4
    case SortByOwner => 5
    case SortByCreationDate => 6
    case SortByLastModified => 7
    case SortByLastAccessed => 8
  }

  /** The nine keys have nine distinct values, so a zero-filled record means SortNone. */
  lemma SortOrdinalInjective(a: SortBy, b: SortBy)
    ensures SortOrdinal(a) == SortOrdinal(b) ==> a == b
  {
  }

  /** User access rights for one asset (access_rights_t). */
  datatype AccessRights = AccessRights(read: bool, write: bool, execution: bool)

  /** The one-bit type flags of an asset (asset_type_t). */
  datatype AssetType = AssetType(
    directory: bool, document: bool,
    compressed: bool, encrypted: bool,
    temporary: bool, system: bool,
    symlink: bool, hidden: bool)

  /** The three stored timestamps (timestamp_t). */
  datatype Timestamp = Timestamp(access: nat, creation: nat, modification: nat)

  /** One listed file or directory (asset_t). */
  datatype Asset = Asset(
    accessRights: AccessRights,
    kind: AssetType,
    timestamp: Timestamp,
    size: nat,
    date: string,
    name: string,
    link: string,
    path: string,
    domain: string,
    owner: string)

  /** An all-zero asset, as `memset(asset, 0, sizeof(asset_t))` leaves it. */
  const ZeroAsset: Asset := Asset(
    AccessRights(false, false, false),
    AssetType(false, false, false, false, false, false, false, false),
    Timestamp(0, 0, 0), 0, "", "", "", "", "", "")

  /**
   * The asset container (directory_t): `capacity` slots of which the first
   * `size` are live. The C flexible array member becomes an array whose length
   * is the capacity.
   */
  class Directory {
    var size: nat
    var capacity: nat
    var data: array<Asset>

    ghost predicate Valid()
      reads this
    {
      data.Length == capacity && size <= capacity
    }

    /** The live assets, in order. */
    ghost function Contents(): seq<Asset>
      reads this, data
      requires Valid()
    {
      data[..size]
    }

    /** Stores `asset` at index `size` and counts it: `data[size++] = asset`. */
    method Append(asset: Asset)
      requires Valid() && size < capacity
      modifies this, data
      ensures Valid() && data == old(data) && capacity == old(capacity)
      ensures size == old(size) + 1
      ensures Contents() == old(Contents()) + [asset]
    {
      data[size] := asset;
      size := size + 1;
    }

    /** A freshly allocated container with `capacity` slots and no live asset. */
    constructor (capacity: nat)
      ensures Valid() && fresh(data)
      ensures this.capacity == capacity && size == 0
    {
      size := 0;
      this.capacity := capacity;
      data := new Asset[capacity](_ => ZeroAsset);
    }
  }

  /** The option flags of arguments_t. */
  datatype Options = Options(
    showAll: bool,
    showAlmostAll: bool,
    showLongFormat: bool,
    reverseOrder: bool,
    recursiveList: bool,
    colors: bool,
    showIcons: bool,
    showHelp: bool,
    showVersion: bool,
    showMetaData: bool,
    virtualTerminal: bool,
    sortField: SortBy)

  /**
   * The parsed command line (arguments_t): the options, and the queue of
   * directories still to list (the linked list from currentDir to lastDir),
   * head first.
   */
  datatype Arguments = Arguments(options: Options, dirs: seq<string>)

  /** `arguments_t retData = { 0 }`: every flag FALSE, SORT_NONE, empty queue. */
  const ZeroOptions: Options :=
    Options(false, false, false, false, false, false, false, false, false, false, false, SortNone)
  const ZeroArguments: Arguments := Arguments(ZeroOptions, [])

  /** An upper-case ASCII letter. */
  predicate IsUpperAscii(c: char) {
    'A' <= c <= 'Z'
  }

  /** tolower in the "C" locale: ASCII letters only, every other byte unchanged. */
  function ToLowerChar(c: char): (r: char)
    ensures !IsUpperAscii(r)
    ensures !IsUpperAscii(c) ==> r == c
  {
    if IsUpperAscii(c) then (c as int + 32) as char else c
  }

  /** A string with no upper-case ASCII letter. */
  predicate IsLowercase(s: string) {
    forall k :: 0 <= k < |s| ==> !IsUpperAscii(s[k])
  }

  /** The string with every ASCII letter lowered. */
  function ToLower(s: string): (r: string)
    ensures |r| == |s|
    ensures forall k :: 0 <= k < |s| ==> r[k] == ToLowerChar(s[k])
    ensures IsLowercase(r)
  {
    seq(|s|, k requires 0 <= k < |s| => ToLowerChar(s[k]))
  }

  /** Lowering changes nothing in a string that is already lower-case. */
  lemma ToLowerOfLowercase(s: string)
    requires IsLowercase(s)
    ensures ToLower(s) == s
  {
  }
}
