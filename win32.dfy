/**
 * The Windows layer (source/win32.c). Every operating-system query the
 * listing makes is answered by a `Host` value instead of a system call;
 * what the source does with the answers is modelled.
 */
module Win32 {
  import opened Wrappers
  import opened LsTypes

  /** File attribute bits of the Win32 attribute word. */
  const FILE_ATTRIBUTE_HIDDEN: bv32 := 0x2
  const FILE_ATTRIBUTE_SYSTEM: bv32 := 0x4
  const FILE_ATTRIBUTE_DIRECTORY: bv32 := 0x10
  const FILE_ATTRIBUTE_TEMPORARY: bv32 := 0x100
  const FILE_ATTRIBUTE_REPARSE_POINT: bv32 := 0x400
  const FILE_ATTRIBUTE_COMPRESSED: bv32 := 0x800
  const FILE_ATTRIBUTE_ENCRYPTED: bv32 := 0x4000
  const INVALID_FILE_ATTRIBUTES: bv32 := 0xFFFF_FFFF

  /** `(attributes & flag) == flag`. */
  predicate HasAttribute(attributes: bv32, flag: bv32) {
    (attributes & flag) == flag
  }

  /** A FILETIME: a 64-bit tick count split into two DWORDs. */
  datatype FileTime = FileTime(high: DWord, low: DWord)

  /** The fields of a SYSTEMTIME the listing reads; the month is 1..12 (0 only in a zeroed record). */
  type MonthIndex = m: nat | m <= 12
  datatype SystemTime = SystemTime(year: Word, month: MonthIndex, day: Word, hour: Word, minute: Word)

  /** A zero-initialised SYSTEMTIME. */
  const ZeroSystemTime: SystemTime := SystemTime(0, 0, 0, 0, 0)

  /**
   * One raw directory entry (WIN32_FIND_DATAA). Each FILETIME comes with the
   * answer FileTimeToSystemTime gives for it: None when the conversion fails.
   */
  datatype FindData = FindData(
    name: string,
    attributes: bv32,
    sizeHigh: DWord,
    sizeLow: DWord,
    creationTime: FileTime,
    lastAccessTime: FileTime,
    lastWriteTime: FileTime,
    creationDate: Option<SystemTime>,
    lastAccessDate: Option<SystemTime>,
    lastWriteDate: Option<SystemTime>)

  /**
   * The outcomes of the calls GetPermissions makes for one path, in call order.
   * An access check is None when the AccessCheck call itself fails, which
   * leaves its output status untouched.
   */
  datatype SecurityQuery = SecurityQuery(
    probeSucceeds: bool,
    insufficientBuffer: bool,
    bufferAllocated: bool,
    descriptorRead: bool,
    tokenOpened: bool,
    tokenDuplicated: bool,
    readCheck: Option<bool>,
    writeCheck: Option<bool>,
    executeCheck: Option<bool>)

  /** GetFileSecurityA fails outright: the answer for a path the host knows nothing about. */
  const SecurityUnavailable: SecurityQuery :=
    SecurityQuery(false, false, false, false, false, false, None, None, None)

  /** An account or domain name that fits its 32-byte buffer together with its terminator. */
  type AccountName = s: string | |s| < OWNER_SIZE

  /** The outcome of the owner lookup for one path. */
  datatype OwnerQuery =
    | OpenFailed            // CreateFileA fails
    | SecurityInfoFailed    // GetSecurityInfo fails or yields no owner SID
    | LookupFailed          // LookupAccountSidA fails
    | Resolved(owner: AccountName, domain: AccountName)

  /** The places where the listing allocates memory, so that a host can make one of them fail. */
  datatype AllocationSite =
    | ContainerGrowth(path: string, iteration: nat)      // ResizeAssetArray in the k-th pass of the listing of `path`
    | QueueNode(path: string)                            // AddDirectoryToList for `path`

  /** Everything the operating system answers during one run. */
  datatype Host = Host(
    attributes: map<string, bv32>,           // GetFileAttributesA; a missing path is INVALID_FILE_ATTRIBUTES
    listings: map<string, seq<FindData>>,    // FindFirstFileExA/FindNextFileA per search pattern
    security: map<string, SecurityQuery>,    // GetPermissions' calls per path
    owners: map<string, OwnerQuery>,         // GetOwnerAndDomain's calls per path
    links: map<string, string>,              // the final path of each link that CreateFileA can open
    workingDirectory: string,                // GetCurrentDirectoryA
    currentYear: Word,                       // GetSystemTime
    failingAllocations: set<AllocationSite>)

  /** GetFileAttributesA. */
  function FileAttributes(host: Host, path: string): bv32 {
    if path in host.attributes then host.attributes[path] else INVALID_FILE_ATTRIBUTES
  }

  function SecurityOf(host: Host, path: string): SecurityQuery {
    if path in host.security then host.security[path] else SecurityUnavailable
  }

  function OwnerQueryOf(host: Host, path: string): OwnerQuery {
    if path in host.owners then host.owners[path] else OpenFailed
  }

  /** The attribute test of IsValidDirectory, on the word GetFileAttributesA returned. */
  predicate IsValidDirectory(attributes: bv32) {
    attributes != INVALID_FILE_ATTRIBUTES && (attributes & FILE_ATTRIBUTE_DIRECTORY) != 0
  }

  /** The attribute test of IsValidDocument. */
  predicate IsValidDocument(attributes: bv32) {
    attributes != INVALID_FILE_ATTRIBUTES && (attributes & FILE_ATTRIBUTE_DIRECTORY) == 0
  }

  /** A path is never both a directory and a document, and a missing path is neither. */
  lemma ValidTestsExclusive(attributes: bv32)
    ensures !(IsValidDirectory(attributes) && IsValidDocument(attributes))
    ensures attributes == INVALID_FILE_ATTRIBUTES ==> !IsValidDirectory(attributes) && !IsValidDocument(attributes)
    ensures attributes != INVALID_FILE_ATTRIBUTES ==> IsValidDirectory(attributes) || IsValidDocument(attributes)
  {
  }

  /** A name the listing treats as hidden: it starts with '.' or '$'. */
  predicate HasHiddenName(name: string) {
    |name| > 0 && (name[0] == '.' || name[0] == '$')
  }

  /** The type flags TranslateAttributes leaves in an asset called `name`. */
  function AttributeFlags(attributes: bv32, name: string): AssetType {
    AssetType(
      directory := HasAttribute(attributes, FILE_ATTRIBUTE_DIRECTORY),
      document := !HasAttribute(attributes, FILE_ATTRIBUTE_DIRECTORY),
      compressed := HasAttribute(attributes, FILE_ATTRIBUTE_COMPRESSED),
      encrypted := HasAttribute(attributes, FILE_ATTRIBUTE_ENCRYPTED),
      temporary := HasAttribute(attributes, FILE_ATTRIBUTE_TEMPORARY),
      system := HasAttribute(attributes, FILE_ATTRIBUTE_SYSTEM),
      symlink := HasAttribute(attributes, FILE_ATTRIBUTE_REPARSE_POINT),
      hidden := HasHiddenName(name))
  }

  /**
   * TranslateAttributes: sets the type flags one by one. The hidden flag is
   * assigned twice, from the attribute bit and then from the name, and the
   * second assignment wins.
   */
  method TranslateAttributes(attributes: bv32, asset: Asset) returns (r: Asset)
    ensures r == asset.(kind := AttributeFlags(attributes, asset.name))
  {
    var t := asset.kind;
    t := t.(directory := (attributes & FILE_ATTRIBUTE_DIRECTORY) == FILE_ATTRIBUTE_DIRECTORY);
    t := t.(document := !t.directory);
    t := t.(compressed := (attributes & FILE_ATTRIBUTE_COMPRESSED) == FILE_ATTRIBUTE_COMPRESSED);
    t := t.(encrypted := (attributes & FILE_ATTRIBUTE_ENCRYPTED) == FILE_ATTRIBUTE_ENCRYPTED);
    t := t.(temporary := (attributes & FILE_ATTRIBUTE_TEMPORARY) == FILE_ATTRIBUTE_TEMPORARY);
    t := t.(system := (attributes & FILE_ATTRIBUTE_SYSTEM) == FILE_ATTRIBUTE_SYSTEM);
    t := t.(symlink := (attributes & FILE_ATTRIBUTE_REPARSE_POINT) == FILE_ATTRIBUTE_REPARSE_POINT);
    t := t.(hidden := (attributes & FILE_ATTRIBUTE_HIDDEN) == FILE_ATTRIBUTE_HIDDEN);
    t := t.(hidden := |asset.name| > 0 && (asset.name[0] == '.' || asset.name[0] == '$'));
    r := asset.(kind := t);
  }

  /**
   * Decoding agrees with the validity tests: for an existing path, the
   * directory flag is IsValidDirectory and the document flag IsValidDocument.
   */
  lemma FlagsAgreeWithValidTests(attributes: bv32, name: string)
    requires attributes != INVALID_FILE_ATTRIBUTES
    ensures AttributeFlags(attributes, name).directory <==> IsValidDirectory(attributes)
    ensures AttributeFlags(attributes, name).document <==> IsValidDocument(attributes)
  {
  }

  /**
   * Each flag but `hidden` depends only on its own attribute bit, never on
   * the name; `hidden` depends only on the name, never on any attribute bit.
   */
  lemma FlagsMirrorBits(a: bv32, b: bv32, m: string, n: string)
    ensures AttributeFlags(a, m).hidden == AttributeFlags(b, m).hidden
    ensures (HasAttribute(a, FILE_ATTRIBUTE_DIRECTORY) <==> HasAttribute(b, FILE_ATTRIBUTE_DIRECTORY)) ==>
      AttributeFlags(a, m).directory == AttributeFlags(b, n).directory && AttributeFlags(a, m).document == AttributeFlags(b, n).document
    ensures (HasAttribute(a, FILE_ATTRIBUTE_COMPRESSED) <==> HasAttribute(b, FILE_ATTRIBUTE_COMPRESSED)) ==>
      AttributeFlags(a, m).compressed == AttributeFlags(b, n).compressed
    ensures (HasAttribute(a, FILE_ATTRIBUTE_ENCRYPTED) <==> HasAttribute(b, FILE_ATTRIBUTE_ENCRYPTED)) ==>
      AttributeFlags(a, m).encrypted == AttributeFlags(b, n).encrypted
    ensures (HasAttribute(a, FILE_ATTRIBUTE_TEMPORARY) <==> HasAttribute(b, FILE_ATTRIBUTE_TEMPORARY)) ==>
      AttributeFlags(a, m).temporary == AttributeFlags(b, n).temporary
    ensures (HasAttribute(a, FILE_ATTRIBUTE_SYSTEM) <==> HasAttribute(b, FILE_ATTRIBUTE_SYSTEM)) ==>
      AttributeFlags(a, m).system == AttributeFlags(b, n).system
    ensures (HasAttribute(a, FILE_ATTRIBUTE_REPARSE_POINT) <==> HasAttribute(b, FILE_ATTRIBUTE_REPARSE_POINT)) ==>
      AttributeFlags(a, m).symlink == AttributeFlags(b, n).symlink
  {
  }

  /** An entry whose only attribute is the hidden bit is not flagged hidden unless its name says so. */
  lemma HiddenBitIsOverwritten()
    ensures !AttributeFlags(FILE_ATTRIBUTE_HIDDEN, "secret.txt").hidden
    ensures AttributeFlags(0, "$Recycle.Bin").hidden
  {
  }

  /** TranslateFileSize: the 64-bit size assembled from its two halves. */
  function TranslateFileSize(high: DWord, low: DWord): (r: SizeT)
    ensures r / 0x1_0000_0000 == high && r % 0x1_0000_0000 == low
  {
    high * 0x1_0000_0000 + low
  }

  /** Every 64-bit size is assembled from exactly one pair of halves. */
  lemma TranslateFileSizeInjective(h1: DWord, l1: DWord, h2: DWord, l2: DWord)
    requires TranslateFileSize(h1, l1) == TranslateFileSize(h2, l2)
    ensures h1 == h2 && l1 == l2
  {
    var r := TranslateFileSize(h1, l1);
    assert h1 == r / 0x1_0000_0000 == h2;
  }

  /** The security descriptor was read and a duplicated token obtained, so the three access checks run. */
  predicate ReachesAccessChecks(q: SecurityQuery) {
    !q.probeSucceeds && q.insufficientBuffer && q.bufferAllocated && q.descriptorRead
    && q.tokenOpened && q.tokenDuplicated
  }

  /**
   * The rights GetPermissions reports. The three checks share one status
   * variable that starts FALSE, so a failing check repeats the previous answer.
   */
  function Permissions(q: SecurityQuery): AccessRights {
    if !ReachesAccessChecks(q) then AccessRights(false, false, false)
    else
      var read := q.readCheck.GetOr(false);
      var write := q.writeCheck.GetOr(read);
      var execution := q.executeCheck.GetOr(write);
      AccessRights(read, write, execution)
  }

  /** GetPermissions: clears the three rights, then follows the chain of calls, giving up at the first failure. */
  method GetPermissions(q: SecurityQuery, asset: Asset) returns (r: Asset)
    ensures r == asset.(accessRights := Permissions(q))
  {
    r := asset.(accessRights := AccessRights(false, false, false));
    if q.probeSucceeds { return; }
    if !q.insufficientBuffer || !q.bufferAllocated { return; }
    if !q.descriptorRead { return; }
    if !q.tokenOpened { return; }
    if !q.tokenDuplicated { return; }
    var result := false;
    if q.readCheck.Some? { result := q.readCheck.value; }
    r := r.(accessRights := r.accessRights.(read := result));
    if q.writeCheck.Some? { result := q.writeCheck.value; }
    r := r.(accessRights := r.accessRights.(write := result));
    if q.executeCheck.Some? { result := q.executeCheck.value; }
    r := r.(accessRights := r.accessRights.(execution := result));
  }

  /**
   * Rights default to denied: any failure before the access checks leaves all
   * three false, and a right is granted only if some check granted it.
   */
  lemma PermissionsDefaultToDenied(q: SecurityQuery)
    ensures !ReachesAccessChecks(q) ==> Permissions(q) == AccessRights(false, false, false)
    ensures Permissions(q).read ==> q.readCheck == Some(true)
    ensures Permissions(q).write ==> q.writeCheck == Some(true) || q.readCheck == Some(true)
    ensures Permissions(q).execution ==>
      q.executeCheck == Some(true) || q.writeCheck == Some(true) || q.readCheck == Some(true)
    ensures ReachesAccessChecks(q) && q.readCheck.Some? && q.writeCheck.Some? && q.executeCheck.Some? ==>
      Permissions(q) == AccessRights(q.readCheck.value, q.writeCheck.value, q.executeCheck.value)
  {
  }

  /** The owner shown for a lookup outcome: "-" unless the lookup succeeded. */
  function OwnerOf(q: OwnerQuery): (s: string)
    ensures |s| < OWNER_SIZE
    ensures s == "-" <==> !q.Resolved? || q.owner == "-"
  {
    if q.Resolved? then q.owner else "-"
  }

  /** The domain shown for a lookup outcome: "-" unless the lookup succeeded. */
  function DomainOf(q: OwnerQuery): (s: string)
    ensures |s| < DOMAIN_SIZE
    ensures s == "-" <==> !q.Resolved? || q.domain == "-"
  {
    if q.Resolved? then q.domain else "-"
  }

  /** GetOwnerAndDomain: writes the "-" placeholders first, then overwrites them only on success. */
  method GetOwnerAndDomain(q: OwnerQuery, asset: Asset) returns (r: Asset, ok: bool)
    ensures ok <==> q.Resolved?
    ensures r == asset.(owner := OwnerOf(q), domain := DomainOf(q))
  {
    r := asset.(owner := "-", domain := "-");
    match q
    case OpenFailed =>
      return r, false;
    case SecurityInfoFailed =>
      return r, false;
    case LookupFailed =>
      ok := false;
    case Resolved(owner, domain) =>
      r := r.(owner := owner, domain := domain);
      ok := true;
  }

  /** The link text GetLinkTarget leaves: the final path when it fits in MAX_PATH, otherwise the previous text. */
  function LinkTarget(host: Host, path: string, previous: string): string {
    if path in host.links && |host.links[path]| < PATH_SIZE then host.links[path] else previous
  }

  /** GetLinkTarget: TRUE iff the link could be opened and its final path fits the buffer. */
  method GetLinkTarget(host: Host, path: string, asset: Asset) returns (r: Asset, ok: bool)
    ensures ok <==> path in host.links && |host.links[path]| < PATH_SIZE
    ensures r == asset.(link := LinkTarget(host, path, asset.link))
    ensures |r.link| < PATH_SIZE || r.link == asset.link
  {
    if path !in host.links {
      return asset, false;
    }
    var target := host.links[path];
    ok := |target| < PATH_SIZE;
    r := if ok then asset.(link := target) else asset;
  }
}
