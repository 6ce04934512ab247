# ls for Windows, modelled in Dafny

This project models the core of a Windows clone of `ls`, a command-line
directory lister written in C. `ls` takes
`-a -A -l -R -r -v -?`, the long options (`--colors`, `--icons`,
`--virterm`, `--smd`, `--group-directories-first`, `--sort <key>`, …)
and any number of paths. It then visits a queue of directories. For each
one it:

- enumerates the entries through `FindFirstFileExA`/`FindNextFileA` into a
  growable asset container;
- drops dot and hidden entries unless `-A`/`-a` ask for them;
- fills in each asset's permissions, owner, domain, date, size, type
  flags and link target;
- queues sub-directories under `-R`;
- sorts the container (`qsort` on the chosen key, optionally reversed);
- prints it in the short or the long (`-l`) format, with colours and
  icons chosen from an extension table.

The modules follow the source files:

| module | source file | form |
|---|---|---|
| `LsTypes` | `types.h` | datatypes for the records; the asset container `directory_t` as the class `Directory` (an array with `size` and `capacity`) |
| `AssetMetaDataTable` | `types.h` | the 147-row `g_AssetMetaData` table as a constant |
| `Win32` | `win32.c` | attribute translation, file size, permissions, owner and link queries |
| `Utils` | `utils.c` | delimiter search, directory-of-path, the path queue, human-readable sizes |
| `Directories` | `directory.c` | timestamps and dates, container growth, directory enumeration |
| `Sorting` | `sort.c` | the comparators, in-place reversal and sorting of the container |
| `Screen` | `screen.c` | metadata lookup, colour choice, long and short listings |
| `Ls`, `LsMain` | `ls.c` | argument parsing, and `main`'s loop over the directory queue |

Everything the program asks Windows is modelled as data:

- The datatype `Win32.Host` holds:
  - the attribute word of each path, and the entries each search pattern
    lists;
  - the outcomes of the security, owner and link queries;
  - the working directory and the current year;
  - the set of allocation sites whose `malloc`/`realloc` fails.
- Console output is a sequence of `Segment`s: text tagged with the colour
  it is written in.

## Model

| member | source | states |
|---|---|---|
| LsTypes.SortOrdinal | source/types.h:42-56 | the enumerator value of a sort key is below 9, and it is 0 exactly for SORT_NONE |
| LsTypes.SortOrdinalInjective | source/types.h:42-56 | distinct sort keys have distinct enumerator values |
| LsTypes.Directory.constructor | source/directory.c:116-126 | a new container has the requested capacity, no assets, and a fresh buffer |
| LsTypes.Directory.Append | source/directory.c:219-221 | storing an asset at index `size` keeps the buffer and the capacity, adds one to the size, and the contents become the old contents followed by that asset |
| LsTypes.ToLowerChar | source/screen.c:184-190 | `tolower` on a character: the result is never an upper-case ASCII letter, and any other character is left as it is |
| LsTypes.ToLower | source/screen.c:184-190 | lowering a name keeps its length, lowers each character in place, and yields a lower-case string |
| LsTypes.ToLowerOfLowercase | source/screen.c:184-198 | lowering a string that is already lower case changes nothing |
| AssetMetaDataTable.KeysAreLowercase | source/types.h:232-407 | every key in g_AssetMetaData is lower case, so a lowered name can match any row |
| AssetMetaDataTable.TableShape | source/types.h:232-407 | the table has 147 rows; ".jar" appears at rows 35 and 128; ".md" is at row 99, before "license.md" (102) and "readme.md" (104) |
| Win32.ValidTestsExclusive | source/win32.c:158-168 | no attribute word passes both IsValidDirectory and IsValidDocument; INVALID_FILE_ATTRIBUTES passes neither; every other word passes exactly one |
| Win32.TranslateAttributes | source/win32.c:140-156 | only the asset's type flags change; they become the flags read from the attribute word and the name |
| Win32.FlagsAgreeWithValidTests | source/win32.c:142-143 | for a valid attribute word, the directory flag holds iff IsValidDirectory does, and the document flag iff IsValidDocument does |
| Win32.FlagsMirrorBits | source/win32.c:142-155 | each type flag depends only on its own attribute bit; the hidden flag depends on the name alone |
| Win32.HiddenBitIsOverwritten | source/win32.c:152-155 | the hidden flag ignores FILE_ATTRIBUTE_HIDDEN: "secret.txt" with that bit set is not flagged; "$Recycle.Bin" without it is |
| Win32.TranslateFileSize | source/win32.c:170-176 | the size's high 32 bits are nFileSizeHigh and its low 32 bits are nFileSizeLow |
| Win32.TranslateFileSizeInjective | source/win32.c:170-176 | different (high, low) pairs give different sizes |
| Win32.GetPermissions | source/win32.c:38-102 | only the access rights change; they become the rights the security query yields |
| Win32.PermissionsDefaultToDenied | source/win32.c:44-101 | rights stay all false unless every setup call succeeds. Read needs a successful read check. A failed AccessCheck leaves the shared `result` as the earlier check set it, so write is granted only by the write or read check, and execute by any of the three. When all three checks complete, the rights are their answers |
| Win32.OwnerOf | source/win32.c:104-123 | the owner fits OWNER_SIZE, and it is "-" exactly when the lookup did not resolve (or resolved to "-") |
| Win32.DomainOf | source/win32.c:104-123 | the domain fits DOMAIN_SIZE, and it is "-" exactly when the lookup did not resolve (or resolved to "-") |
| Win32.GetOwnerAndDomain | source/win32.c:104-123 | returns TRUE exactly when the account lookup resolves; only owner and domain change |
| Win32.GetLinkTarget | source/win32.c:127-136 | returns TRUE exactly when the link opens and its final path fits MAX_PATH; only the link changes, and it either fits PATH_SIZE or is left as it was |
| Utils.LastDelimiter | source/utils.c:18-35 | the index found holds a delimiter and no later character is one; no index means no character is a delimiter (the empty string included) |
| Utils.FindLastDelimiter | source/utils.c:18-35 | the backward scan returns LastDelimiter |
| Utils.StripTrailingSeparator | source/utils.c:127-131 | the path is unchanged, or exactly one trailing '\\' or '/' is removed |
| Utils.DirectoryFromPathShape | source/utils.c:115-134 | a plain path gives itself minus at most one trailing separator. A document or wildcard path gives a prefix that ends at its last delimiter or one character before it. Without a delimiter it gives the working directory minus one trailing separator |
| Utils.DocumentDirectory | source/utils.c:119-131 | the directory of document `dir\name` is `dir` |
| Utils.GetDirectoryFromPath | source/utils.c:115-134 | the buffer written equals DirectoryFromPath |
| Utils.AddDirectoryToList | source/utils.c:95-113 | the options never change. A failed node allocation leaves the queue as it was. Otherwise the path joins the queue at its tail, the earlier entries are untouched, and the first node becomes the whole queue |
| Utils.Decimal | source/directory.c:87-100 | "%d" prints at least one digit, and a single digit exactly for values below 10 |
| Utils.ZeroPad2 | source/directory.c:97 | "%02d" prints digits only, exactly two of them below 100 |
| Utils.DecimalRoundTrip | source/directory.c:87-100 | the digits "%d" prints read back as the value printed |
| Utils.ZeroPad2RoundTrip | source/directory.c:97 | the digits "%02d" prints read back as the value printed |
| Utils.DecimalLength | source/directory.c:87-90 | a value below 10^k prints in at most k digits (one for k = 0) |
| Utils.PadLeft | source/utils.c:157 | right-aligned padding: the width is the larger of the text's and the field's, the text ends the result, and only spaces precede it |
| Utils.UnitsAboveIsLargest | source/utils.c:142-149 | the division loop passes unit k iff k is 0 or the size exceeds 1024^k |
| Utils.UnitBounds | source/utils.c:142-149 | the chosen unit k has size > 1024^k when k > 0, and size <= 1024^(k+1) when k is not the last unit |
| Utils.UnitOfMachineSize | source/utils.c:136-149 | a 64-bit size never goes past the 'E' unit, and it is at most 1024 of its unit |
| Utils.DashOnlyForZero | source/utils.c:142-157 | the size prints as "-" exactly for 0 bytes; any other amount is at least 1; 1024 bytes stay " 1024.00B"; 1025 bytes become kilobytes |
| Utils.AmountAtLeastOne | source/utils.c:142-149 | a non-zero size is shown as an amount of at least 1 in its unit |
| Utils.AmountAtMost1024 | source/utils.c:142-149 | a 64-bit size is shown as an amount of at most 1024 in its unit |
| Utils.DivideAbove1024 | source/utils.c:144-148 | one turn of the division loop keeps `sz = bytes / 1024^k` and `ex = unit k`, where k counts the units passed so far |
| Utils.GetFileSizeAsText | source/utils.c:136-161 | the loop yields HumanSize, so the lemmas above hold for its output |
| Utils.FixedTwoWidth | source/utils.c:157 | "% 8.2lf" prints any amount from 0 to 1024 in exactly 8 characters |
| Utils.SizeTextWidth | source/utils.c:151-157 | the size column is always 9 characters for a 64-bit size |
| Directories.HiddenOrDotAgreesWithFlags | source/directory.c:157-160 | IsHiddenOrDot holds iff the hidden attribute is set or the name is flagged hidden; "." and ".." always count |
| Directories.MonthName | source/directory.c:76-80 | month index 0 has the empty name; every other month has a three-letter name |
| Directories.MonthNameInjective | source/directory.c:76-80 | different months have different names |
| Directories.DateFits | source/directory.c:82-101 | the formatted date always fits DATE_SIZE |
| Directories.FormatDateReadBack | source/directory.c:82-101 | for a calendar date the text is a two-digit day, the month name, then either the year (in another year, after two spaces) or HH:MM (in the current year); each number reads back as its value |
| Directories.YearLayout | source/directory.c:82-101 | in another year the date is the two-digit day, a space, the month name, two spaces and the year |
| Directories.TimeLayout | source/directory.c:82-101 | in the current year the date is 12 characters: the two-digit day, the month name, then two-digit hour and minute around ':' |
| Directories.SelectedDateFollowsSortKey | source/directory.c:53-72 | sorting by access or modification shows those dates; every other key shows the creation date |
| Directories.StoredTimestampLosesLowHalf | source/directory.c:56-66 | as written, two FILETIMEs that differ only in the low DWORD store the same timestamp |
| Directories.FileTimeValueMonotone | source/directory.c:56-66 | the 64-bit timestamp orders FILETIMEs by (high, low), lexicographically |
| Directories.GetTimestaps | source/directory.c:45-102 | the date is the formatted selected date and fits DATE_SIZE; the timestamps are the full 64-bit values; nothing else changes |
| Directories.Grow | source/directory.c:134 | growing a non-empty container always adds room |
| Directories.GrowTruncatesFormula | source/directory.c:134 | the new capacity is `c + c * 0.5 + 0.5` truncated to an integer |
| Directories.GrowthSequence | source/directory.c:116-146 | capacities run 128, 192, 288, …; each growth point grows to the next by Grow; NextCapacity(n) is the first capacity above n |
| Directories.NextCapacity | source/directory.c:129-146 | the capacity reached after n assets exceeds n |
| Directories.ResizeAssetArray | source/directory.c:112-147 | a missing container is created with 128 empty slots. A container with a free slot is returned untouched. A full one grows to Grow(capacity), keeps its assets and zero-fills the new slots. A failed allocation returns NULL and changes nothing |
| Directories.StopIndex | source/directory.c:201-207 | the enumeration stops between the current entry and the last |
| Directories.FillAsset | source/directory.c:219-238 | the asset built has the entry's name, the path `currentPath\name`, and the type flags of its attribute word |
| Directories.AddEntry | source/directory.c:209-243 | the container gains the entry's asset when it passes the filters; the queue gains its path when it is a listed sub-directory under -R |
| Directories.Pass | source/directory.c:203-243 | one turn of the do-while: NULL exactly when a needed allocation fails; otherwise the listing and the queue advance by one entry |
| Directories.AddNext | source/directory.c:209-243 | once the container has room, entry k is added and the queue extended as AddEntry says, and the capacity stays on the growth sequence |
| Directories.Enumerate | source/directory.c:201-247 | the loop gathers the accepted entries up to the stop point and queues their sub-directories; nothing is returned when the first allocation fails |
| Directories.GetDirectoryContent | source/directory.c:171-248 | NULL, with the queue unchanged, when the path is neither a wildcard, a document nor a directory, lists no entry, or the first allocation fails. Otherwise the container holds Scan's assets in enumeration order and the queue gains Scan's sub-directories |
| Directories.AcceptedPassFilters | source/directory.c:209-217 | every accepted entry is one of the entries and passes both visibility filters |
| Directories.ListedAssetsPassFilters | source/directory.c:209-226 | every listed asset has the path `currentPath\name`; it is not "." or ".." under -A, and not hidden unless -a |
| Directories.DiscoveredAreListedDirectories | source/directory.c:240-243 | every queued path belongs to a listed directory asset other than "." and ".." |
| Directories.DiscoveredOnlyWhenRecursive | source/directory.c:240 | without -R nothing is queued |
| Directories.StopIndexWithoutFailures | source/directory.c:201-207 | when no allocation fails the loop runs over every entry |
| Directories.ScanIsPrefixOfFullListing | source/directory.c:201-247 | a listing is a prefix of all accepted entries' assets, and all of them when no allocation fails |
| Sorting.CompareIgnoreCaseAntisymmetric | source/sort.c:20-36 | `_strcmpi(b, a)` is the negation of `_strcmpi(a, b)` |
| Sorting.CompareIgnoreCaseTransitive | source/sort.c:20-36 | `_strcmpi(a, b) <= 0` is transitive |
| Sorting.CompareIgnoreCaseZero | source/sort.c:20-36 | for NUL-free strings `_strcmpi` is 0 exactly when the lowered strings are equal |
| Sorting.ContentTypeRank | source/sort.c:6-18 | directories come before symbolic links, and symbolic links before other files |
| Sorting.CompareIsConsistent | source/sort.c:14-60 | with full-width differences every comparator is antisymmetric in sign, total and transitive |
| Sorting.InOrderMeaning | source/sort.c:14-60 | size and the timestamps sort descending; name, owner and group sort case-insensitively ascending; directories come first; SORT_NONE accepts any order |
| Sorting.AsLongLong | source/sort.c:41 | the cast to `long long` lies in the signed 64-bit range |
| Sorting.AsInt | source/sort.c:41 | the cast to `int` lies in the signed 32-bit range and agrees with its argument modulo 2^32 |
| Sorting.OrderBySizeTruncates | source/sort.c:38-42 | as written, sizes 0 and 2^32 compare equal, and 0x80000001 compares below 0 |
| Sorting.OrderBySizeAsWrittenAgreesWhenClose | source/sort.c:38-42 | when the difference fits an `int`, the written comparator agrees with the full-width one |
| Sorting.SortedPairwise | source/sort.c:72-93 | a container sorted between neighbours is in order for every pair |
| Sorting.SortedMeaning | source/sort.c:72-93 | in a sorted container, for any earlier and later asset, the key's order holds (descending sizes and times, ascending names, …) |
| Sorting.Reversed | source/sort.c:62-70 | position i holds the element from position n-1-i |
| Sorting.ReversedTwice | source/sort.c:62-70 | reversing twice restores the order |
| Sorting.ReversedPermutes | source/sort.c:62-70 | reversal keeps the same assets |
| Sorting.ReversedSortedMeaning | source/sort.c:89-92 | if the reversed container is sorted, the original is in the opposite order pairwise |
| Sorting.ReverseOrder | source/sort.c:62-70 | the live part of the buffer becomes its reversal; the slots past `size` are untouched |
| Sorting.Swap | source/sort.c:66-68 | the two slots exchange their assets and nothing else changes |
| Sorting.SinkDown | source/sort.c:74-86 | one insertion step: the first i+1 assets become sorted, by swaps only within the live part |
| Sorting.SortLive | source/sort.c:74-86 | the live assets are rearranged into sorted order, as the same multiset; the slots past `size` are untouched |
| Sorting.SortDirectoryContent | source/sort.c:72-93 | the same assets afterwards. Under SORT_NONE the order is the original, or its reversal with -r. Under any other key the container is sorted, or reverse-sorted with -r |
| Screen.EndsWithMeansSuffix | source/screen.c:19-28 | StringEndsWith holds exactly when the string is some prefix followed by the suffix |
| Screen.EndsWithTransitive | source/screen.c:19-28 | a suffix of a suffix is a suffix |
| Screen.NameColorPriority | source/screen.c:121-151 | a name is cyan iff it is a link; green iff a directory but not a link; then magenta for compressed, blue for encrypted, dark grey for temporary, red for system; white otherwise |
| Screen.ContentTypeMeaning | source/screen.c:164-173 | 'l' marks links, 'd' other directories, '-' everything else |
| Screen.FirstMatch | source/screen.c:192-198 | the row found is the first whose key the name ends with; no row means no key matches |
| Screen.FirstMatchAtMost | source/screen.c:192-198 | when row k matches, the row found is k or an earlier one |
| Screen.LowerName | source/screen.c:184-190 | the lowered copy of the name |
| Screen.FindRow | source/screen.c:192-198 | the table scan returns FirstMatch |
| Screen.GetAssetMetadata | source/screen.c:182-224 | a name whose lowered form ends with a key gets that row (a row of the table); any other asset gets the fallback for its type |
| Screen.ShadowedBy | source/screen.c:192-198 | a row whose key ends with the key of an earlier row is never the first match |
| Screen.ShadowedRows | source/screen.c:192-198 | rows 102 ("license.md"), 104 ("readme.md") and 128 (".jar") can never be chosen: an earlier row matches first |
| Screen.PadFieldWidth | source/screen.c:271-275 | "%*.*s" with a value no longer than the width gives exactly that width, the value right-aligned after spaces |
| Screen.MaxLength | source/screen.c:238-245 | the column width bounds every value's length and is attained; it is 0 for no values |
| Screen.MeasureColumns | source/screen.c:235-245 | the measuring loop yields ColumnWidths of the contents |
| Screen.PrintLongColumns | source/screen.c:249-279 | writes the type, permission, size, domain, owner and date columns of one asset |
| Screen.PrintLongName | source/screen.c:281-325 | writes the icon, the name (or the path tail under -R) and the link target of one asset |
| Screen.PrintLongEntry | source/screen.c:249-325 | writes the columns followed by the name |
| Screen.PrintLineEnd | source/screen.c:327-330 | a newline after every line but the last |
| Screen.PrintLongLine | source/screen.c:247-331 | one turn of the loop extends LongLines by one asset |
| Screen.PrintLongLines | source/screen.c:247-331 | the loop writes LongLines for every asset |
| Screen.PrintAssetLongFormat | source/screen.c:228-332 | the long listing of the contents, with the widths measured from them |
| Screen.PrintShortEntry | source/screen.c:340-362 | writes one asset in the short format |
| Screen.PrintAssetShortFormat | source/screen.c:334-364 | the short listing of the contents, in order |
| Screen.LongColumnsSameText | source/screen.c:249-279 | --colors changes only the colours of the columns, never their text |
| Screen.LongNameSameText | source/screen.c:281-325 | options that differ only in --colors and --virterm write the same name text |
| Screen.LongEntrySameText | source/screen.c:249-325 | options that differ only in --colors and --virterm write the same line text |
| Screen.LongListingTextIgnoresColors | source/screen.c:228-332 | the long listing's text does not depend on --colors or --virterm |
| Screen.ShortListingTextIgnoresColors | source/screen.c:334-364 | the short listing's text does not depend on --colors or --virterm |
| Screen.LongColumnsWidth | source/screen.c:249-279 | the columns before the date take 4 + 11 + (domain width + 2) + (owner width + 2) characters |
| Screen.LongListingAligned | source/screen.c:235-279 | in a long listing, the date column starts at the same position on every line |
| Screen.RecursiveNameIsName | source/screen.c:297-307 | under -R the tail of a listed asset's path is its name, so the long name is the same as without -R |
| Ls.ShortLetter | source/ls.c:36-45 | 'a' and 'A' set -a, 'A' sets -A, 'l', 'R', 'r', 'v', '?' set theirs; no flag is cleared and the sort key never changes |
| Ls.ParseShortArgument | source/ls.c:32-47 | the loop over the letters yields ShortFlags |
| Ls.ShortFlagsByLetter | source/ls.c:32-47 | after a short option each flag is on iff it was on before or its letter occurs in the argument, whatever the order; the long-only flags and the sort key are unchanged |
| Ls.SortValue | source/ls.c:109-145 | a --sort value is accepted iff its lower-case form is one of the seven key names; it never selects SORT_NONE or directory-first |
| Ls.LongFlag | source/ls.c:59-108 | a long option only turns flags on; only --group-directories-first changes the sort key |
| Ls.ParseLongArgument | source/ls.c:57-149 | every option but --sort consumes one argument. --sort consumes two: it sets the key named, or stops with the invalid-value error, or stops when no value follows |
| Ls.ParseArguments | source/ls.c:162-187 | the loop over argv yields Parse |
| Ls.ParseKeepsFlags | source/ls.c:162-187 | parsing never turns a flag off |
| Ls.ParseThenRest | source/ls.c:168-184 | parsing a command line goes strictly left to right: the rest is parsed from the state its prefix leaves |
| Ls.LastSortWins | source/ls.c:109-139 | a trailing valid `--sort value` sets the key to that value and changes nothing else |
| Ls.AppendedOperandIsQueuedLast | source/ls.c:178-181 | a trailing path joins the end of the queue and changes nothing else |
| Ls.OperandsQueuedInOrder | source/ls.c:168-184 | paths are queued in command-line order |
| LsMain.ListedNamesFit | source/directory.c:225 | names taken from listing entries fit PATH_SIZE |
| LsMain.QueueServedFirst | source/ls.c:237-270 | the paths already queued are listed first, in order, before anything discovered later |
| LsMain.MoreUnlessLast | source/ls.c:254-264 | a directory is headed by its path and followed by "\n\n" exactly when it is not the last one listed |
| LsMain.NonRecursiveListsQueue | source/ls.c:237-270 | without -R exactly the queued paths are visited, in order |
| LsMain.ListHead | source/ls.c:239-270 | one turn for the head of the queue. A path that cannot be listed reports "No such file or directory". An empty listing writes nothing. Otherwise the listing is sorted as the options ask and printed. The queue loses its head and gains the sub-directories found |
| LsMain.ShowContent | source/ls.c:253-265 | the container is sorted as the options ask and written between the optional header and trailer |
| LsMain.PrintListing | source/ls.c:256-265 | the long or the short listing, as -l asks |
| LsMain.ListDirectories | source/ls.c:237-271 | each turn's report matches the schedule of visits, and the output is the turns' text in order |
| LsMain.RunLs | source/ls.c:191-279 | an invalid --sort value prints the error and exits with 1. Otherwise the UTF-8 and virtual-terminal warnings come first and the exit code is 0. --smd, -? and -v stop there. Without them, the queue (or the working directory when empty) is listed turn by turn |

## Left out

- Windows calls are data in `Win32.Host`: `FindFirstFileExA`/`FindNextFileA`, `GetFileAttributesA`, the security calls behind `GetPermissions`, `LookupAccountSidA`, `CreateFileA`/`GetFinalPathNameByHandleA`, `GetCurrentDirectoryA` and `GetSystemTime` (the current year). `FileTimeToSystemTime` is replaced by the optional calendar dates of each `FindData` entry: a missing date is a failed conversion, and `Directories.SelectedDate` then keeps the earlier value as the source does. `SetConsoleOutputCP` and `EnableVirtualTerminal` are booleans passed to `RunLs`. `DisableVirtualTerminal` is left out because it has no visible effect in the model.
- Console output: `SetConsoleTextAttribute` and the VT escape sequences are not produced. Each piece of text is tagged with the colour it would be printed in (`Screen.Segment`).
- `ShowHelp`, `ShowMetaData` and the version banner print fixed text. `RunLs` ends after the warnings for those options, and the fixed text itself is not modelled.
- Freeing memory (`CHECK_DELETE`, `free`) and the debug CRT flags in `main` are left out: Dafny is garbage-collected.
- The directory queue is a linked list in the source (`headDir`/`tailDir`/`currentDir`, with `next` links). The model keeps it as a `seq<string>`; `main` consumes it from the front. The node allocation that can fail is an allocation site (`QueueNode(path)`) in the host's failing set.
- `Sorting.SortDirectoryContent`: `qsort` is modelled by an insertion sort over the live part of the buffer. The contract states what `qsort` guarantees (sorted and the same assets), and nothing about how assets with equal keys end up ordered.
- `Sorting.ReverseOrder` requires at least one asset. With size 0, `directory->size - 1` wraps around and the loop would index past the buffer. `main` never sorts an empty listing.
- `Utils.GetFileSizeAsText`: the `double` arithmetic is modelled with exact reals. `% 8.2lf` is modelled as rounding half up to hundredths.
- `LsMain.ListDirectories`: `main`'s loop is bounded by a `fuel` argument. With `-R` and a cycle of directory links the queue need not empty, so only the first `fuel` turns are modelled.
- `LsMain.RunLs` and `Screen.GetAssetMetadata` require entry names shorter than PATH_SIZE (`NamesFit`): `cFileName` is a MAX_PATH buffer, so the source never sees a longer one.
- `Win32.GetLinkTarget`: `Host.links` only tells whether `CreateFileA` opens the link and what its final path is. A link that opens but whose `GetFinalPathNameByHandleA` call fails cannot be described; the source returns TRUE there (0 < MAX_PATH) and the link keeps its earlier text, which is empty after the asset's `memset`. The result is never used by the enumeration.
- Allocation failures are a set of sites keyed by path (`ContainerGrowth(path, k)`, `QueueNode(path)`). A path visited twice (`ls a a`, or a link cycle under -R) gets the same `malloc`/`realloc` outcome on every visit; independent outcomes per visit are not modelled.
- Buffer truncation by `snprintf`/`strcpy_s` on over-long paths is not modelled; paths are unbounded strings.
- `Ls.ParseLongArgument`: a trailing `--sort` with no value makes the source pass a NULL `argv[argc]` to `_strcmpi`, which is undefined. The model reports `MissingSortValue`: exit code 1 and no output.
- The NULL-pointer guards of `GetDirectoryContent`, `AddDirectoryToList`, `StringEndsWith` and the like are left out: strings in the model are never null.
- The asset metadata table is a parameter of the listing functions. Its contents (`AssetMetaDataTable.AssetMetaData`) are only used by the lemmas about the table.

## Findings

| source | as written | input that shows it | evidently intended | confidence | as-written member | corrected member |
|---|---|---|---|---|---|---|
| source/directory.c:56-66 | `ul.LowPart` is set from `dwHighDateTime`, so each stored timestamp repeats its high half | FILETIMEs (high 7, low 0) and (high 7, low 1) store the same timestamp, so the time sorts cannot order them | `ul.LowPart = ...dwLowDateTime`, giving the full 64-bit FILETIME | high; not executed | Directories.StoredTimestampLosesLowHalf | Directories.FileTimeValueMonotone |
| source/sort.c:38-60 | each comparator returns the 64-bit difference cast to `int`, which keeps only its low 32 bits | sizes 0 and 2^32 compare equal; size 0x80000001 compares below size 0 | compare by the sign of the full difference | high; not executed | Sorting.OrderBySizeTruncates | Sorting.CompareIsConsistent |
