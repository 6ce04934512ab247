/**
 * The extension table g_AssetMetaData of source/types.h: for each key (a file
 * extension with its dot, or a whole lower-case file or directory name) the
 * RGB colour used on virtual terminals and the icon glyph. The rows are kept
 * in source order; they are grouped as the source groups them, and the whole
 * table is the concatenation of the groups.
 */
module AssetMetaDataTable {
  import opened LsTypes

  /** One row of the table (asset_metadata_t). */
  datatype AssetMetadata = AssetMetadata(r: int, g: int, b: int, ext: string, icon: string)

  /** Every key of `t` is free of upper-case letters. */
  predicate AllKeysLowercase(t: seq<AssetMetadata>) {
    forall i :: 0 <= i < |t| ==> IsLowercase(t[i].ext)
  }

  /** System predefined directories. */
  const SystemDirectories: seq<AssetMetadata> := [
      AssetMetadata(230, 57, 70, "windows", "\U{e70f}"),
      AssetMetadata(168, 218, 220, "users", "\U{f74b}"),
      AssetMetadata(168, 218, 220, "program files", "\U{f756}"),
      AssetMetadata(168, 218, 220, "program files (x86)", "\U{f756}")
  ]

  lemma SystemDirectoriesLowercase()
    ensures AllKeysLowercase(SystemDirectories)
  {
  }

  /** User predefined directories. */
  const UserDirectories: seq<AssetMetadata> := [
      AssetMetadata(168, 218, 220, "contacts", "\U{fbc9}"),
      AssetMetadata(168, 218, 220, "desktop", "\U{f108}"),
      AssetMetadata(168, 218, 220, "documents", "\U{f752}"),
      AssetMetadata(168, 218, 220, "downloads", "\U{f498}"),
      AssetMetadata(168, 218, 220, "favorites", "\U{fb9b}"),
      AssetMetadata(168, 218, 220, "links", "\U{f0c1}"),
      AssetMetadata(168, 218, 220, "music", "\U{f883}"),
      AssetMetadata(168, 218, 220, "videos", "\U{fa66}"),
      AssetMetadata(168, 218, 220, "pictures", "\U{f74e}")
  ]

  lemma UserDirectoriesLowercase()
    ensures AllKeysLowercase(UserDirectories)
  {
  }

  /** Version control and editor folders. */
  const ToolFolders: seq<AssetMetadata> := [
      AssetMetadata(243, 114, 44, ".git", "\U{e702}"),
      AssetMetadata(243, 114, 44, ".gitconfig", "\U{e702}"),
      AssetMetadata(243, 114, 44, ".gitignore", "\U{e702}"),
      AssetMetadata(243, 114, 44, ".gitmodules", "\U{e702}"),
      AssetMetadata(243, 114, 44, ".gitattributes", "\U{e702}"),
      AssetMetadata(254, 197, 187, ".config", "\U{e5fc}"),
      AssetMetadata(255, 255, 255, ".vscode", "\U{e70c}"),
      AssetMetadata(255, 255, 255, ".vs", "\U{e70c}"),
      AssetMetadata(255, 255, 255, ".atom", "\U{e764}"),
      AssetMetadata(255, 255, 255, ".idea", "\U{e7b5}")
  ]

  lemma ToolFoldersLowercase()
    ensures AllKeysLowercase(ToolFolders)
  {
  }

  /** Executables and scripts. */
  const Executables: seq<AssetMetadata> := [
      AssetMetadata(229, 107, 111, ".exe", "\U{fb13}"),
      AssetMetadata(181, 101, 118, ".dll", "\U{f1e1}"),
      AssetMetadata(249, 132, 74, ".sys", "\U{f720}"),
      AssetMetadata(229, 107, 111, ".bat", "\U{fb32}"),
      AssetMetadata(229, 107, 111, ".cmd", "\U{fb32}"),
      AssetMetadata(229, 107, 111, ".com", "\U{fb32}"),
      AssetMetadata(229, 107, 111, ".reg", "\U{fb32}")
  ]

  lemma ExecutablesLowercase()
    ensures AllKeysLowercase(Executables)
  {
  }

  /** Compressed archives. */
  const Archives: seq<AssetMetadata> := [
      AssetMetadata(200, 200, 250, ".7z", "\U{f410}"),
      AssetMetadata(200, 200, 250, ".lz", "\U{f410}"),
      AssetMetadata(200, 200, 250, ".gz", "\U{f410}"),
      AssetMetadata(200, 200, 250, ".bz", "\U{f410}"),
      AssetMetadata(200, 200, 250, ".lrz", "\U{f410}"),
      AssetMetadata(200, 200, 250, ".jar", "\U{f410}"),
      AssetMetadata(200, 200, 250, ".zip", "\U{f410}"),
      AssetMetadata(200, 200, 250, ".rar", "\U{f410}"),
      AssetMetadata(200, 200, 250, ".tar", "\U{f410}"),
      AssetMetadata(200, 200, 250, ".apk", "\U{f410}"),
      AssetMetadata(200, 200, 250, ".cab", "\U{f410}"),
      AssetMetadata(200, 200, 250, ".ace", "\U{f410}"),
      AssetMetadata(200, 200, 250, ".arc", "\U{f410}")
  ]

  lemma ArchivesLowercase()
    ensures AllKeysLowercase(Archives)
  {
  }

  /** Disk images. */
  const DiskImages: seq<AssetMetadata> := [
      AssetMetadata(255, 255, 255, ".iso", "\U{e271}"),
      AssetMetadata(255, 255, 255, ".dmg", "\U{e271}")
  ]

  lemma DiskImagesLowercase()
    ensures AllKeysLowercase(DiskImages)
  {
  }

  /** Images. */
  const Images: seq<AssetMetadata> := [
      AssetMetadata(255, 232, 124, ".jpg", "\U{f1c5}"),
      AssetMetadata(255, 232, 124, ".jpeg", "\U{f1c5}"),
      AssetMetadata(255, 232, 124, ".png", "\U{f1c5}"),
      AssetMetadata(255, 232, 124, ".gif", "\U{f1c5}"),
      AssetMetadata(255, 232, 124, ".bmp", "\U{f1c5}"),
      AssetMetadata(255, 232, 124, ".svg", "\U{f1c5}"),
      AssetMetadata(255, 232, 124, ".webp", "\U{f1c5}"),
      AssetMetadata(255, 232, 124, ".tif", "\U{f1c5}"),
      AssetMetadata(255, 232, 124, ".tiff", "\U{f1c5}"),
      AssetMetadata(255, 232, 124, ".raw", "\U{f1c5}"),
      AssetMetadata(255, 232, 124, ".tga", "\U{f1c5}"),
      AssetMetadata(255, 232, 124, ".ps", "\U{f1c5}"),
      AssetMetadata(255, 232, 124, ".pps", "\U{f1c5}"),
      AssetMetadata(255, 232, 124, ".ppsx", "\U{f1c5}")
  ]

  lemma ImagesLowercase()
    ensures AllKeysLowercase(Images)
  {
  }

  /** Videos. */
  const Videos: seq<AssetMetadata> := [
      AssetMetadata(237, 145, 33, ".mp4", "\U{f1c8}"),
      AssetMetadata(237, 145, 33, ".m4v", "\U{f1c8}"),
      AssetMetadata(237, 145, 33, ".mkv", "\U{f1c8}"),
      AssetMetadata(237, 145, 33, ".avi", "\U{f1c8}"),
      AssetMetadata(237, 145, 33, ".flv", "\U{f1c8}"),
      AssetMetadata(237, 145, 33, ".flc", "\U{f1c8}"),
      AssetMetadata(237, 145, 33, ".mov", "\U{f1c8}"),
      AssetMetadata(237, 145, 33, ".wmv", "\U{f1c8}"),
      AssetMetadata(237, 145, 33, ".ogv", "\U{f1c8}"),
      AssetMetadata(237, 145, 33, ".ogm", "\U{f1c8}"),
      AssetMetadata(237, 145, 33, ".ogx", "\U{f1c8}"),
      AssetMetadata(237, 145, 33, ".mpg", "\U{f1c8}"),
      AssetMetadata(237, 145, 33, ".mpeg", "\U{f1c8}"),
      AssetMetadata(237, 145, 33, ".webm", "\U{f1c8}"),
      AssetMetadata(237, 145, 33, ".divx", "\U{f1c8}")
  ]

  lemma VideosLowercase()
    ensures AllKeysLowercase(Videos)
  {
  }

  /** Music. */
  const Music: seq<AssetMetadata> := [
      AssetMetadata(255, 162, 0, ".wav", "\U{f722}"),
      AssetMetadata(255, 162, 0, ".mp3", "\U{f722}"),
      AssetMetadata(255, 162, 0, ".wma", "\U{f722}"),
      AssetMetadata(255, 162, 0, ".ogg", "\U{f722}"),
      AssetMetadata(255, 162, 0, ".oga", "\U{f722}"),
      AssetMetadata(255, 162, 0, ".aac", "\U{f722}"),
      AssetMetadata(255, 162, 0, ".flac", "\U{f722}"),
      AssetMetadata(255, 162, 0, ".midi", "\U{f722}")
  ]

  lemma MusicLowercase()
    ensures AllKeysLowercase(Music)
  {
  }

  /** Documents. */
  const Documents: seq<AssetMetadata> := [
      AssetMetadata(255, 255, 255, ".txt", "\U{f0f6}"),
      AssetMetadata(255, 100, 100, ".pdf", "\U{f1c1}"),
      AssetMetadata(3, 131, 135, ".odt", "\U{f1c2}"),
      AssetMetadata(3, 131, 135, ".doc", "\U{f1c2}"),
      AssetMetadata(3, 131, 135, ".docx", "\U{f1c2}"),
      AssetMetadata(3, 131, 135, ".ods", "\U{f1c2}"),
      AssetMetadata(3, 131, 135, ".xls", "\U{f1c3}"),
      AssetMetadata(3, 131, 135, ".xlsx", "\U{f1c3}"),
      AssetMetadata(3, 131, 135, ".xlsm", "\U{f1c3}"),
      AssetMetadata(3, 131, 135, ".odp", "\U{f1c2}"),
      AssetMetadata(3, 131, 135, ".ppt", "\U{f1c4}"),
      AssetMetadata(3, 131, 135, ".pptx", "\U{f1c4}")
  ]

  lemma DocumentsLowercase()
    ensures AllKeysLowercase(Documents)
  {
  }

  /** Text and configuration formats. */
  const FileFormats: seq<AssetMetadata> := [
      AssetMetadata(144, 221, 240, ".editorconfig", "\U{e615}"),
      AssetMetadata(249, 132, 74, ".cfg", "\U{e615}"),
      AssetMetadata(249, 132, 74, ".ini", "\U{e615}"),
      AssetMetadata(39, 125, 161, ".json", "\U{e60b}"),
      AssetMetadata(249, 132, 74, ".xml", "\U{f72d}"),
      AssetMetadata(239, 217, 206, ".md", "\U{f853}"),
      AssetMetadata(166, 117, 161, ".yml", "\U{e009}"),
      AssetMetadata(166, 117, 161, ".yaml", "\U{e009}"),
      AssetMetadata(255, 182, 0, "license.md", "\U{e60a}"),
      AssetMetadata(255, 182, 0, "license", "\U{e60a}"),
      AssetMetadata(255, 158, 0, "readme.md", "\U{f7fc}"),
      AssetMetadata(255, 158, 0, "readme", "\U{f7fc}"),
      AssetMetadata(92, 109, 112, "jenkinsfile", "\U{e767}"),
      AssetMetadata(0, 180, 216, "dockerfile", "\U{f308}"),
      AssetMetadata(255, 180, 216, "makefile", "\U{f489}")
  ]

  lemma FileFormatsLowercase()
    ensures AllKeysLowercase(FileFormats)
  {
  }

  /** Fonts. */
  const Fonts: seq<AssetMetadata> := [
      AssetMetadata(144, 190, 109, ".ttf", "\U{f031}"),
      AssetMetadata(144, 190, 109, ".otf", "\U{f031}"),
      AssetMetadata(144, 190, 109, ".font", "\U{f031}"),
      AssetMetadata(144, 190, 109, ".woff", "\U{f031}"),
      AssetMetadata(144, 190, 109, ".woff2", "\U{f031}")
  ]

  lemma FontsLowercase()
    ensures AllKeysLowercase(Fonts)
  {
  }

  /** Source code (first half). */
  const CompiledSources: seq<AssetMetadata> := [
      AssetMetadata(87, 117, 144, ".c", "\U{e61e}"),
      AssetMetadata(87, 117, 144, ".h", "\U{e61e}"),
      AssetMetadata(87, 117, 144, ".cpp", "\U{e61d}"),
      AssetMetadata(87, 117, 144, ".hpp", "\U{e61d}"),
      AssetMetadata(255, 155, 84, ".asm", "\U{fb32}"),
      AssetMetadata(212, 106, 106, ".cs", "\U{f81a}"),
      AssetMetadata(212, 106, 106, ".vba", "\U{fb32}"),
      AssetMetadata(180, 89, 122, ".sh", "\U{fb32}"),
      AssetMetadata(180, 89, 122, ".zsh", "\U{fb32}"),
      AssetMetadata(212, 154, 106, ".py", "\U{e73c}"),
      AssetMetadata(255, 255, 255, ".go", "\U{e626}"),
      AssetMetadata(255, 255, 255, ".rs", "\U{e7a8}")
  ]

  lemma CompiledSourcesLowercase()
    ensures AllKeysLowercase(CompiledSources)
  {
  }

  /** Source code (second half). */
  const WebSources: seq<AssetMetadata> := [
      AssetMetadata(102, 153, 153, ".lua", "\U{e620}"),
      AssetMetadata(87, 117, 144, ".php", "\U{e73d}"),
      AssetMetadata(255, 209, 170, ".jar", "\U{e256}"),
      AssetMetadata(255, 209, 170, ".java", "\U{e256}"),
      AssetMetadata(136, 204, 136, ".css", "\U{e74a}"),
      AssetMetadata(136, 204, 136, ".htm", "\U{e60e}"),
      AssetMetadata(136, 204, 136, ".html", "\U{e60e}"),
      AssetMetadata(255, 209, 170, ".coffee", "\U{e751}"),
      AssetMetadata(249, 132, 74, ".swift", "\U{e755}"),
      AssetMetadata(39, 125, 161, ".js", "\U{e74e}"),
      AssetMetadata(39, 125, 161, ".javascript", "\U{e74e}")
  ]

  lemma WebSourcesLowercase()
    ensures AllKeysLowercase(WebSources)
  {
  }

  /** Binary and data formats. */
  const BinaryFormats: seq<AssetMetadata> := [
      AssetMetadata(249, 199, 79, ".bin", "\U{f471}"),
      AssetMetadata(249, 199, 79, ".log", "\U{f18d}"),
      AssetMetadata(249, 199, 79, ".dat", "\U{f1c0}"),
      AssetMetadata(249, 199, 79, ".bak", "\U{f6b9}"),
      AssetMetadata(249, 199, 79, ".tmp", "\U{f1c0}"),
      AssetMetadata(249, 199, 79, ".sql", "\U{f1c0}"),
      AssetMetadata(249, 199, 79, ".tlog", "\U{f18d}"),
      AssetMetadata(249, 199, 79, ".msql", "\U{f1c0}"),
      AssetMetadata(249, 199, 79, ".mysql", "\U{f1c0}"),
      AssetMetadata(249, 199, 79, ".cache", "\U{f1c0}")
  ]

  lemma BinaryFormatsLowercase()
    ensures AllKeysLowercase(BinaryFormats)
  {
  }

  /** The table, in source order. */
  const AssetMetaData: seq<AssetMetadata> :=
    SystemDirectories +
    UserDirectories +
    ToolFolders +
    Executables +
    Archives +
    DiskImages +
    Images +
    Videos +
    Music +
    Documents +
    FileFormats +
    Fonts +
    CompiledSources +
    WebSources +
    BinaryFormats

  lemma AllKeysLowercaseConcat(a: seq<AssetMetadata>, b: seq<AssetMetadata>)
    requires AllKeysLowercase(a) && AllKeysLowercase(b)
    ensures AllKeysLowercase(a + b)
  {
    assert forall i :: 0 <= i < |a + b| ==> (a + b)[i] == if i < |a| then a[i] else b[i - |a|];
  }

  /**
   * Every key is lower-case, so comparing it with a lowered file name is
   * the case-insensitive match the lookup intends.
   */
  lemma KeysAreLowercase()
    ensures AllKeysLowercase(AssetMetaData)
  {
    SystemDirectoriesLowercase();
    UserDirectoriesLowercase();
    ToolFoldersLowercase();
    ExecutablesLowercase();
    ArchivesLowercase();
    DiskImagesLowercase();
    ImagesLowercase();
    VideosLowercase();
    MusicLowercase();
    DocumentsLowercase();
    FileFormatsLowercase();
    FontsLowercase();
    CompiledSourcesLowercase();
    WebSourcesLowercase();
    BinaryFormatsLowercase();
    AllKeysLowercaseConcat(SystemDirectories, UserDirectories);
    AllKeysLowercaseConcat(SystemDirectories + UserDirectories, ToolFolders);
    AllKeysLowercaseConcat(SystemDirectories + UserDirectories + ToolFolders, Executables);
    AllKeysLowercaseConcat(SystemDirectories + UserDirectories + ToolFolders + Executables, Archives);
    AllKeysLowercaseConcat(SystemDirectories + UserDirectories + ToolFolders + Executables + Archives, DiskImages);
    AllKeysLowercaseConcat(SystemDirectories + UserDirectories + ToolFolders + Executables + Archives + DiskImages, Images);
    AllKeysLowercaseConcat(SystemDirectories + UserDirectories + ToolFolders + Executables + Archives + DiskImages + Images, Videos);
    AllKeysLowercaseConcat(SystemDirectories + UserDirectories + ToolFolders + Executables + Archives + DiskImages + Images + Videos, Music);
    AllKeysLowercaseConcat(SystemDirectories + UserDirectories + ToolFolders + Executables + Archives + DiskImages + Images + Videos + Music, Documents);
    AllKeysLowercaseConcat(SystemDirectories + UserDirectories + ToolFolders + Executables + Archives + DiskImages + Images + Videos + Music + Documents, FileFormats);
    AllKeysLowercaseConcat(SystemDirectories + UserDirectories + ToolFolders + Executables + Archives + DiskImages + Images + Videos + Music + Documents + FileFormats, Fonts);
    AllKeysLowercaseConcat(SystemDirectories + UserDirectories + ToolFolders + Executables + Archives + DiskImages + Images + Videos + Music + Documents + FileFormats + Fonts, CompiledSources);
    AllKeysLowercaseConcat(SystemDirectories + UserDirectories + ToolFolders + Executables + Archives + DiskImages + Images + Videos + Music + Documents + FileFormats + Fonts + CompiledSources, WebSources);
    AllKeysLowercaseConcat(SystemDirectories + UserDirectories + ToolFolders + Executables + Archives + DiskImages + Images + Videos + Music + Documents + FileFormats + Fonts + CompiledSources + WebSources, BinaryFormats);
  }

  /** The table has 147 rows; these are the keys that later rows repeat or extend. */
  lemma TableShape()
    ensures |AssetMetaData| == 147
    ensures AssetMetaData[35].ext == ".jar" && AssetMetaData[128].ext == ".jar"
    ensures AssetMetaData[99].ext == ".md"
    ensures AssetMetaData[102].ext == "license.md" && AssetMetaData[104].ext == "readme.md"
  {
  }
}
