/**
 * contextMenuEvent itself: the extension tables it spells out, the menu it
 * builds for the focused view, and what follows from those particular tables.
 */
module ContextMenu {
  import opened Paths
  import opened MenuBlocks

  const DbExtensions: seq<string> :=
    [".sql", "db", "sqlite", "sqlite3", ".SQL", "DB", "SQLITE", "SQLITE3"]
  const UrlExtensions: seq<string> := [".htm", ".html"]
  const ImageExtensions: seq<string> :=
    [".png", "jpg", ".jpeg", ".bmp", "tif", ".tiff", ".pnm", ".svg", ".exif", ".gif"]
  /** The media table of the play pair; ".flv " carries a trailing space, as in the program. */
  const PlayExtensions: seq<string> :=
    [".mp3", ".mp4", "mpg", ".m4a", ".mpeg", "avi", ".mkv", ".webm",
     ".wav", ".ogg", ".flv ", ".vob", ".ogv", ".ts", ".m2v", "m4v", "3gp", ".f4v"]
  /** The media table of "convert to mp3": the play table without ".mp3". */
  const ConvertExtensions: seq<string> :=
    [".mp4", "mpg", ".m4a", ".mpeg", "avi", ".mkv", ".webm",
     ".wav", ".ogg", ".flv ", ".vob", ".ogv", ".ts", ".m2v", "m4v", "3gp", ".f4v"]
  const ZipExtensions: seq<string> := [".zip", ".tar.gz"]

  /** The tables as contextMenuEvent spells them out. */
  const Source: Tables :=
    Tables(DbExtensions, UrlExtensions, ImageExtensions, PlayExtensions, ConvertExtensions, ZipExtensions)

  /**
   * contextMenuEvent: the entries added to the menu, given which view has
   * the focus, the list's current path and whether it and the tree's path
   * are directories.
   */
  method ContextMenuEvent(listHasFocus: bool, listPath: string, listIsDir: bool, treeIsDir: bool)
    returns (menu: seq<Entry>)
    ensures menu == if listHasFocus then ListMenuOf(Source, listPath, listIsDir) else TreeMenuOf(treeIsDir)
  {
    menu := [];
    if listHasFocus {
      menu := AddListMenu(menu, Source, listPath, listIsDir);
    } else {
      menu := AddTreeMenu(menu, treeIsDir);
    }
  }

  /** A path holding both "avi" and ".mkv" passes two entries of the play table. */
  lemma PlayTableMatchesTwice(path: string)
    requires Contains(path, "avi") && Contains(path, ".mkv")
    ensures MatchCount(PlayExtensions, path, true) >= 2
  {
    assert PlayExtensions[5] == "avi" && PlayExtensions[6] == ".mkv";
    MatchCountTwo(PlayExtensions, path, true, 5, 6);
  }

  /**
   * addAction can be called more than once for the play pair: for a path
   * naming two media types it is called twice for each of the pair.
   */
  lemma PlayPairRepeats(path: string, isDir: bool)
    requires Contains(path, "avi") && Contains(path, ".mkv")
    ensures Occurrences(ListMenuOf(Source, path, isDir), PlayInt) >= 2
    ensures Occurrences(ListMenuOf(Source, path, isDir), PlayVLC) >= 2
  {
    PlayTableMatchesTwice(path);
    PlayPairPerMediaExtension(Source, path, isDir, PlayInt);
    PlayPairPerMediaExtension(Source, path, isDir, PlayVLC);
  }

  /**
   * The ".flv " entry of the play and convert tables ends in a space, so a
   * path without spaces never matches it: "video.flv" gets no player from it.
   */
  lemma FlvEntryNeedsSpace(path: string)
    requires ' ' !in path
    ensures !Matches(".flv ", path, true)
  {
    if Contains(path, ".flv ") {
      ContainsChar(path, ".flv ", 4);
    }
    var up := Upper(".flv ");
    assert up[4] == ' ';
    if Contains(path, up) {
      ContainsChar(path, up, 4);
    }
  }

  /** With the program's archive table, the unzip pair comes once for ".zip" and once for ".tar.gz". */
  lemma UnzipPairForArchiveTable(path: string, isDir: bool, a: Action)
    requires a == UnzipHere || a == UnzipTo
    ensures Occurrences(ListMenuOf(Source, path, isDir), a)
         == (if Contains(path, ".zip") then 1 else 0) + (if Contains(path, ".tar.gz") then 1 else 0)
  {
    UnzipPairPerArchiveExtension(Source, path, isDir, a);
    assert ZipExtensions[..1] == [".zip"] && ZipExtensions[1] == ".tar.gz";
    assert [".zip"][..0] == [];
  }
}
