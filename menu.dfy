/**
 * The blocks of the main window's context menu (contextMenuEvent) as the
 * sequence of addAction and addSeparator calls they make, for any extension
 * tables.
 * With the file list focused the menu depends on the selected path through
 * substring and suffix tests; with the folder tree focused it depends only
 * on whether the tree's path is a directory.
 */
module MenuBlocks {
  import opened Paths

  /** The window's actions that can appear in the context menu. */
  datatype Action =
    | FolderNew | FileOpen | OpenText | OpenTextRoot | FolderNewWin | FileRename
    | FileCopy | FileCut | FilePaste | FolderTerm | OpenTerm | MkExec
    | OpenDB | OpenUrl | OpenPy2 | OpenPy3 | OpenImg | File2Trash | FileDel
    | PlayList | PlayInt | PlayVLC | ToMp3 | MakePlaylist | Refresh | Hide
    | FilesZip | UnzipHere | UnzipTo | Help
    | FolderRename | FolderCopy | FolderPaste | FolderDel | FindFiles | FolderZip

  /** One addAction or addSeparator call, in the order the menu receives them. */
  datatype Entry = Item(action: Action) | Separator

  /** The six extension tables the list menu consults. */
  datatype Tables = Tables(
    db: seq<string>, url: seq<string>, image: seq<string>,
    play: seq<string>, convert: seq<string>, zip: seq<string>)

  /** The test one extension loop applies: `ext in path`, and with `alsoUpper` also `ext.upper() in path`. */
  predicate Matches(ext: string, path: string, alsoUpper: bool) {
    Contains(path, ext) || (alsoUpper && Contains(path, Upper(ext)))
  }

  /** `for ext in exts: if <test>: <add entries>` */
  function PerMatch(exts: seq<string>, path: string, alsoUpper: bool, entries: seq<Entry>): seq<Entry>
    decreases |exts|
  {
    if exts == [] then []
    else
      PerMatch(exts[..|exts| - 1], path, alsoUpper, entries)
      + (if Matches(exts[|exts| - 1], path, alsoUpper) then entries else [])
  }

  /** How many extensions of `exts` pass the test. */
  function MatchCount(exts: seq<string>, path: string, alsoUpper: bool): nat
    decreases |exts|
  {
    if exts == [] then 0
    else
      MatchCount(exts[..|exts| - 1], path, alsoUpper)
      + (if Matches(exts[|exts| - 1], path, alsoUpper) then 1 else 0)
  }

  /** The list menu's opening block: new folder, open, edit, rename, copy/cut/paste, terminals. */
  function EditBlock(isDir: bool): seq<Entry> {
    [Item(FolderNew), Item(FileOpen), Item(OpenText), Item(OpenTextRoot), Separator]
    + (if isDir then [Item(FolderNewWin)] else [])
    + [Separator, Item(FileRename), Separator]
    + [Item(FileCopy), Item(FileCut), Item(FilePaste)]
    + [Item(FolderTerm), Item(OpenTerm), Item(MkExec)]
  }

  /** The viewers chosen by the path: database, web page, python, image. */
  function ViewerBlock(t: Tables, path: string): seq<Entry> {
    PerMatch(t.db, path, false, [Item(OpenDB)])
    + PerMatch(t.url, path, false, [Item(OpenUrl)])
    + (if EndsWith(path, ".py") then [Item(OpenPy2), Item(OpenPy3)] else [])
    + PerMatch(t.image, path, true, [Item(OpenImg)])
  }

  /** Trash and delete, then the players chosen by the path. */
  function MediaBlock(t: Tables, path: string): seq<Entry> {
    [Separator, Item(File2Trash), Item(FileDel), Separator]
    + (if Contains(path, ".m3u") then [Item(PlayList)] else [])
    + PerMatch(t.play, path, true, [Separator, Item(PlayInt), Item(PlayVLC), Separator])
    + PerMatch(t.convert, path, true, [Item(ToMp3), Separator])
    + (if Contains(path, ".mp3") then [Item(MakePlaylist)] else [])
  }

  /** Refresh, hidden files, zip, the unzip pair per archive extension, help. */
  function ToolBlock(t: Tables, path: string): seq<Entry> {
    [Item(Refresh), Item(Hide), Item(FilesZip)]
    + PerMatch(t.zip, path, false, [Item(UnzipHere), Item(UnzipTo)])
    + [Separator, Item(Help)]
  }

  /** The menu with the file list focused, for its current path. */
  function ListMenuOf(t: Tables, path: string, isDir: bool): seq<Entry> {
    EditBlock(isDir) + ViewerBlock(t, path) + MediaBlock(t, path) + ToolBlock(t, path)
  }

  /** The menu with the folder tree focused. */
  function TreeMenuOf(isDir: bool): seq<Entry> {
    if isDir then
      [Item(FolderNewWin), Item(FolderNew), Item(FolderRename), Item(FolderCopy), Item(FolderPaste),
       Item(FolderDel), Item(FolderTerm), Item(FindFiles), Item(FolderZip)]
    else []
  }

  /** One extension loop of contextMenuEvent, appending to the menu built so far. */
  method AddPerMatch(menu: seq<Entry>, exts: seq<string>, path: string, alsoUpper: bool, entries: seq<Entry>)
    returns (result: seq<Entry>)
    ensures result == menu + PerMatch(exts, path, alsoUpper, entries)
  {
    result := menu;
    var i := 0;
    while i < |exts|
      invariant 0 <= i <= |exts|
      invariant result == menu + PerMatch(exts[..i], path, alsoUpper, entries)
    {
      assert exts[..i + 1][..i] == exts[..i];
      if Matches(exts[i], path, alsoUpper) {
        result := result + entries;
      }
      i := i + 1;
    }
    assert exts[..|exts|] == exts;
  }

  /** contextMenuEvent, list focus, lines adding new folder to "make executable". */
  method AddEditBlock(menu: seq<Entry>, isDir: bool) returns (result: seq<Entry>)
    ensures result == menu + EditBlock(isDir)
  {
    result := menu + [Item(FolderNew), Item(FileOpen), Item(OpenText), Item(OpenTextRoot), Separator];
    if isDir {
      result := result + [Item(FolderNewWin)];
    }
    result := result + [Separator, Item(FileRename), Separator];
    result := result + [Item(FileCopy), Item(FileCut), Item(FilePaste)];
    result := result + [Item(FolderTerm), Item(OpenTerm), Item(MkExec)];
  }

  /** contextMenuEvent, list focus: the database, web page, python and image viewers. */
  method AddViewerBlock(menu: seq<Entry>, t: Tables, path: string) returns (result: seq<Entry>)
    ensures result == menu + ViewerBlock(t, path)
  {
    result := AddPerMatch(menu, t.db, path, false, [Item(OpenDB)]);
    result := AddPerMatch(result, t.url, path, false, [Item(OpenUrl)]);
    if EndsWith(path, ".py") {
      result := result + [Item(OpenPy2), Item(OpenPy3)];
    }
    result := AddPerMatch(result, t.image, path, true, [Item(OpenImg)]);
  }

  /** contextMenuEvent, list focus: trash and delete, playlist, players, conversion. */
  method AddMediaBlock(menu: seq<Entry>, t: Tables, path: string) returns (result: seq<Entry>)
    ensures result == menu + MediaBlock(t, path)
  {
    result := menu + [Separator, Item(File2Trash), Item(FileDel), Separator];
    if Contains(path, ".m3u") {
      result := result + [Item(PlayList)];
    }
    result := AddPerMatch(result, t.play, path, true, [Separator, Item(PlayInt), Item(PlayVLC), Separator]);
    result := AddPerMatch(result, t.convert, path, true, [Item(ToMp3), Separator]);
    if Contains(path, ".mp3") {
      result := result + [Item(MakePlaylist)];
    }
  }

  /** contextMenuEvent, list focus: refresh, hidden files, zip, unzip, help. */
  method AddToolBlock(menu: seq<Entry>, t: Tables, path: string) returns (result: seq<Entry>)
    ensures result == menu + ToolBlock(t, path)
  {
    result := menu + [Item(Refresh), Item(Hide), Item(FilesZip)];
    result := AddPerMatch(result, t.zip, path, false, [Item(UnzipHere), Item(UnzipTo)]);
    result := result + [Separator, Item(Help)];
  }

  /** contextMenuEvent, list focus: the four blocks in turn. */
  method AddListMenu(menu: seq<Entry>, t: Tables, path: string, isDir: bool) returns (result: seq<Entry>)
    ensures result == menu + ListMenuOf(t, path, isDir)
  {
    result := AddEditBlock(menu, isDir);
    result := AddViewerBlock(result, t, path);
    result := AddMediaBlock(result, t, path);
    result := AddToolBlock(result, t, path);
  }

  /** contextMenuEvent, tree focus: the folder actions, for a directory only. */
  method AddTreeMenu(menu: seq<Entry>, isDir: bool) returns (result: seq<Entry>)
    ensures result == menu + TreeMenuOf(isDir)
  {
    result := menu;
    if isDir {
      result := result + [Item(FolderNewWin), Item(FolderNew), Item(FolderRename), Item(FolderCopy)];
      result := result + [Item(FolderPaste), Item(FolderDel), Item(FolderTerm), Item(FindFiles), Item(FolderZip)];
    }
  }

  /**
   * With the tree focused, a directory gets the nine folder actions and no
   * separator, and anything else an empty menu; the
   * file-list clipboard actions never appear there.
   */
  lemma TreeMenuFolderActions(isDir: bool)
    ensures |TreeMenuOf(isDir)| == if isDir then 9 else 0
    ensures Separator !in TreeMenuOf(isDir)
    ensures isDir ==> Item(FolderCopy) in TreeMenuOf(isDir) && Item(FolderPaste) in TreeMenuOf(isDir)
    ensures Item(FileCopy) !in TreeMenuOf(isDir) && Item(FilePaste) !in TreeMenuOf(isDir)
  {
  }

  /** How many addAction calls the menu received for an action (calls, not displayed entries). */
  function Occurrences(menu: seq<Entry>, a: Action): nat
    decreases |menu|
  {
    if menu == [] then 0
    else (if menu[0] == Item(a) then 1 else 0) + Occurrences(menu[1..], a)
  }

  /** Occurrences in a menu built from two pieces add up. */
  lemma {:induction false} OccurrencesAppend(m1: seq<Entry>, m2: seq<Entry>, a: Action)
    ensures Occurrences(m1 + m2, a) == Occurrences(m1, a) + Occurrences(m2, a)
    decreases |m1|
  {
    if m1 == [] {
      assert m1 + m2 == m2;
    } else {
      assert (m1 + m2)[0] == m1[0];
      assert (m1 + m2)[1..] == m1[1..] + m2;
      OccurrencesAppend(m1[1..], m2, a);
    }
  }

  /** A loop adds its entries once per matching extension. */
  lemma {:induction false} PerMatchOccurrences(exts: seq<string>, path: string, alsoUpper: bool, entries: seq<Entry>, a: Action, k: nat)
    requires k <= 1 && Occurrences(entries, a) == k
    ensures Occurrences(PerMatch(exts, path, alsoUpper, entries), a)
         == if k == 1 then MatchCount(exts, path, alsoUpper) else 0
    decreases |exts|
  {
    if exts != [] {
      var front := exts[..|exts| - 1];
      var added := if Matches(exts[|exts| - 1], path, alsoUpper) then entries else [];
      PerMatchOccurrences(front, path, alsoUpper, entries, a, k);
      OccurrencesAppend(PerMatch(front, path, alsoUpper, entries), added, a);
    }
  }

  /** The edit block's count is the sum over its five pieces. */
  lemma EditBlockPieces(isDir: bool, a: Action)
    ensures Occurrences(EditBlock(isDir), a)
         == Occurrences([Item(FolderNew), Item(FileOpen), Item(OpenText), Item(OpenTextRoot), Separator], a)
          + Occurrences(if isDir then [Item(FolderNewWin)] else [], a)
          + Occurrences([Separator, Item(FileRename), Separator], a)
          + Occurrences([Item(FileCopy), Item(FileCut), Item(FilePaste)], a)
          + Occurrences([Item(FolderTerm), Item(OpenTerm), Item(MkExec)], a)
  {
    var e1 := [Item(FolderNew), Item(FileOpen), Item(OpenText), Item(OpenTextRoot), Separator];
    var e2 := if isDir then [Item(FolderNewWin)] else [];
    var e3 := [Separator, Item(FileRename), Separator];
    var e4 := [Item(FileCopy), Item(FileCut), Item(FilePaste)];
    var e5 := [Item(FolderTerm), Item(OpenTerm), Item(MkExec)];
    OccurrencesAppend(e1, e2, a);
    OccurrencesAppend(e1 + e2, e3, a);
    OccurrencesAppend(e1 + e2 + e3, e4, a);
    OccurrencesAppend(e1 + e2 + e3 + e4, e5, a);
  }

  /** The viewer block's count is the sum over its loops and the python pair. */
  lemma ViewerBlockPieces(t: Tables, path: string, a: Action)
    ensures Occurrences(ViewerBlock(t, path), a)
         == Occurrences(PerMatch(t.db, path, false, [Item(OpenDB)]), a)
          + Occurrences(PerMatch(t.url, path, false, [Item(OpenUrl)]), a)
          + Occurrences(if EndsWith(path, ".py") then [Item(OpenPy2), Item(OpenPy3)] else [], a)
          + Occurrences(PerMatch(t.image, path, true, [Item(OpenImg)]), a)
  {
    var v1 := PerMatch(t.db, path, false, [Item(OpenDB)]);
    var v2 := PerMatch(t.url, path, false, [Item(OpenUrl)]);
    var v3 := if EndsWith(path, ".py") then [Item(OpenPy2), Item(OpenPy3)] else [];
    var v4 := PerMatch(t.image, path, true, [Item(OpenImg)]);
    OccurrencesAppend(v1, v2, a);
    OccurrencesAppend(v1 + v2, v3, a);
    OccurrencesAppend(v1 + v2 + v3, v4, a);
  }

  /** The media block's count is the sum over its five pieces. */
  lemma MediaBlockPieces(t: Tables, path: string, a: Action)
    ensures Occurrences(MediaBlock(t, path), a)
         == Occurrences([Separator, Item(File2Trash), Item(FileDel), Separator], a)
          + Occurrences(if Contains(path, ".m3u") then [Item(PlayList)] else [], a)
          + Occurrences(PerMatch(t.play, path, true, [Separator, Item(PlayInt), Item(PlayVLC), Separator]), a)
          + Occurrences(PerMatch(t.convert, path, true, [Item(ToMp3), Separator]), a)
          + Occurrences(if Contains(path, ".mp3") then [Item(MakePlaylist)] else [], a)
  {
    var m1 := [Separator, Item(File2Trash), Item(FileDel), Separator];
    var m2 := if Contains(path, ".m3u") then [Item(PlayList)] else [];
    var m3 := PerMatch(t.play, path, true, [Separator, Item(PlayInt), Item(PlayVLC), Separator]);
    var m4 := PerMatch(t.convert, path, true, [Item(ToMp3), Separator]);
    var m5 := if Contains(path, ".mp3") then [Item(MakePlaylist)] else [];
    OccurrencesAppend(m1, m2, a);
    OccurrencesAppend(m1 + m2, m3, a);
    OccurrencesAppend(m1 + m2 + m3, m4, a);
    OccurrencesAppend(m1 + m2 + m3 + m4, m5, a);
  }

  /** The tool block's count is the sum over its three pieces. */
  lemma ToolBlockPieces(t: Tables, path: string, a: Action)
    ensures Occurrences(ToolBlock(t, path), a)
         == Occurrences([Item(Refresh), Item(Hide), Item(FilesZip)], a)
          + Occurrences(PerMatch(t.zip, path, false, [Item(UnzipHere), Item(UnzipTo)]), a)
          + Occurrences([Separator, Item(Help)], a)
  {
    var t1 := [Item(Refresh), Item(Hide), Item(FilesZip)];
    var t2 := PerMatch(t.zip, path, false, [Item(UnzipHere), Item(UnzipTo)]);
    var t3 := [Separator, Item(Help)];
    OccurrencesAppend(t1, t2, a);
    OccurrencesAppend(t1 + t2, t3, a);
  }

  /** The list menu's count is the sum over its four blocks. */
  lemma ListMenuBlocks(t: Tables, path: string, isDir: bool, a: Action)
    ensures Occurrences(ListMenuOf(t, path, isDir), a)
         == Occurrences(EditBlock(isDir), a) + Occurrences(ViewerBlock(t, path), a)
          + Occurrences(MediaBlock(t, path), a) + Occurrences(ToolBlock(t, path), a)
  {
    var edit, viewer, media, tool := EditBlock(isDir), ViewerBlock(t, path), MediaBlock(t, path), ToolBlock(t, path);
    OccurrencesAppend(edit, viewer, a);
    OccurrencesAppend(edit + viewer, media, a);
    OccurrencesAppend(edit + viewer + media, tool, a);
  }

  /** An action that is not in the menu occurs zero times. */
  lemma {:induction false} OccurrencesAbsent(menu: seq<Entry>, a: Action)
    requires Item(a) !in menu
    ensures Occurrences(menu, a) == 0
    decreases |menu|
  {
    if menu != [] {
      assert Item(a) !in menu[1..];
      OccurrencesAbsent(menu[1..], a);
    }
  }

  /** A loop adds nothing but its own entries. */
  lemma {:induction false} PerMatchAbsent(exts: seq<string>, path: string, alsoUpper: bool, entries: seq<Entry>, e: Entry)
    requires e !in entries
    ensures e !in PerMatch(exts, path, alsoUpper, entries)
    decreases |exts|
  {
    if exts != [] {
      PerMatchAbsent(exts[..|exts| - 1], path, alsoUpper, entries, e);
    }
  }

  /** The actions the edit block can hold. */
  predicate InEdit(a: Action) {
    a.FolderNew? || a.FileOpen? || a.OpenText? || a.OpenTextRoot? || a.FolderNewWin? || a.FileRename?
    || a.FileCopy? || a.FileCut? || a.FilePaste? || a.FolderTerm? || a.OpenTerm? || a.MkExec?
  }

  /** The actions the viewer block can hold. */
  predicate InViewer(a: Action) {
    a.OpenDB? || a.OpenUrl? || a.OpenPy2? || a.OpenPy3? || a.OpenImg?
  }

  /** The actions the media block can hold. */
  predicate InMedia(a: Action) {
    a.File2Trash? || a.FileDel? || a.PlayList? || a.PlayInt? || a.PlayVLC? || a.ToMp3? || a.MakePlaylist?
  }

  /** The actions the tool block can hold. */
  predicate InTool(a: Action) {
    a.Refresh? || a.Hide? || a.FilesZip? || a.UnzipHere? || a.UnzipTo? || a.Help?
  }

  /** An action outside the edit block is never added by it. */
  lemma EditAbsent(isDir: bool, a: Action)
    requires !InEdit(a)
    ensures Occurrences(EditBlock(isDir), a) == 0
  {
    OccurrencesAbsent(EditBlock(isDir), a);
  }

  /** An action outside the media block is never added by it. */
  lemma MediaAbsent(t: Tables, path: string, a: Action)
    requires !InMedia(a)
    ensures Occurrences(MediaBlock(t, path), a) == 0
  {
    PerMatchAbsent(t.play, path, true, [Separator, Item(PlayInt), Item(PlayVLC), Separator], Item(a));
    PerMatchAbsent(t.convert, path, true, [Item(ToMp3), Separator], Item(a));
    OccurrencesAbsent(MediaBlock(t, path), a);
  }

  /** An action outside the tool block is never added by it. */
  lemma ToolAbsent(t: Tables, path: string, a: Action)
    requires !InTool(a)
    ensures Occurrences(ToolBlock(t, path), a) == 0
  {
    PerMatchAbsent(t.zip, path, false, [Item(UnzipHere), Item(UnzipTo)], Item(a));
    OccurrencesAbsent(ToolBlock(t, path), a);
  }

  /** An action outside the viewer block is never added by it. */
  lemma ViewerAbsent(t: Tables, path: string, a: Action)
    requires !InViewer(a)
    ensures Occurrences(ViewerBlock(t, path), a) == 0
  {
    PerMatchAbsent(t.db, path, false, [Item(OpenDB)], Item(a));
    PerMatchAbsent(t.url, path, false, [Item(OpenUrl)], Item(a));
    PerMatchAbsent(t.image, path, true, [Item(OpenImg)], Item(a));
    OccurrencesAbsent(ViewerBlock(t, path), a);
  }

  /** The three viewer loops add nothing but their own viewer. */
  lemma ViewerLoopsAbsent(t: Tables, path: string, a: Action)
    requires !a.OpenDB? && !a.OpenUrl? && !a.OpenImg?
    ensures Occurrences(PerMatch(t.db, path, false, [Item(OpenDB)]), a) == 0
    ensures Occurrences(PerMatch(t.url, path, false, [Item(OpenUrl)]), a) == 0
    ensures Occurrences(PerMatch(t.image, path, true, [Item(OpenImg)]), a) == 0
  {
    PerMatchAbsent(t.db, path, false, [Item(OpenDB)], Item(a));
    PerMatchAbsent(t.url, path, false, [Item(OpenUrl)], Item(a));
    PerMatchAbsent(t.image, path, true, [Item(OpenImg)], Item(a));
    OccurrencesAbsent(PerMatch(t.db, path, false, [Item(OpenDB)]), a);
    OccurrencesAbsent(PerMatch(t.url, path, false, [Item(OpenUrl)]), a);
    OccurrencesAbsent(PerMatch(t.image, path, true, [Item(OpenImg)]), a);
  }

  /** Within the edit block, "open in new window" is there exactly for a directory. */
  lemma EditNewWindowCount(isDir: bool)
    ensures Occurrences(EditBlock(isDir), FolderNewWin) == if isDir then 1 else 0
  {
    var a := FolderNewWin;
    EditBlockPieces(isDir, a);
    OccurrencesAbsent([Item(FolderNew), Item(FileOpen), Item(OpenText), Item(OpenTextRoot), Separator], a);
    OccurrencesAbsent([Separator, Item(FileRename), Separator], a);
    OccurrencesAbsent([Item(FileCopy), Item(FileCut), Item(FilePaste)], a);
    OccurrencesAbsent([Item(FolderTerm), Item(OpenTerm), Item(MkExec)], a);
    assert Occurrences([Item(FolderNewWin)], a) == 1;
  }

  /** Within the viewer block, the python pair is there exactly for a ".py" path. */
  lemma ViewerPythonCount(t: Tables, path: string, a: Action)
    requires a == OpenPy2 || a == OpenPy3
    ensures Occurrences(ViewerBlock(t, path), a) == if EndsWith(path, ".py") then 1 else 0
  {
    ViewerBlockPieces(t, path, a);
    ViewerLoopsAbsent(t, path, a);
    assert Occurrences([Item(OpenPy2), Item(OpenPy3)], a) == 1;
  }

  /** Within the tool block, the unzip pair comes from the archive loop alone. */
  lemma ToolUnzipCount(t: Tables, path: string, a: Action)
    requires a == UnzipHere || a == UnzipTo
    ensures Occurrences(ToolBlock(t, path), a) == MatchCount(t.zip, path, false)
  {
    ToolBlockPieces(t, path, a);
    OccurrencesAbsent([Item(Refresh), Item(Hide), Item(FilesZip)], a);
    OccurrencesAbsent([Separator, Item(Help)], a);
    assert Occurrences([Item(UnzipHere), Item(UnzipTo)], a) == 1;
    PerMatchOccurrences(t.zip, path, false, [Item(UnzipHere), Item(UnzipTo)], a, 1);
  }

  /** Within the media block, the play pair comes from the play loop alone. */
  lemma MediaPlayCount(t: Tables, path: string, a: Action)
    requires a == PlayInt || a == PlayVLC
    ensures Occurrences(MediaBlock(t, path), a) == MatchCount(t.play, path, true)
  {
    MediaBlockPieces(t, path, a);
    OccurrencesAbsent([Separator, Item(File2Trash), Item(FileDel), Separator], a);
    OccurrencesAbsent(if Contains(path, ".m3u") then [Item(PlayList)] else [], a);
    OccurrencesAbsent(if Contains(path, ".mp3") then [Item(MakePlaylist)] else [], a);
    assert Occurrences([Separator, Item(PlayInt), Item(PlayVLC), Separator], a) == 1;
    PerMatchOccurrences(t.play, path, true, [Separator, Item(PlayInt), Item(PlayVLC), Separator], a, 1);
    PerMatchAbsent(t.convert, path, true, [Item(ToMp3), Separator], Item(a));
    OccurrencesAbsent(PerMatch(t.convert, path, true, [Item(ToMp3), Separator]), a);
  }

  /** addAction is called once for each of the python pair exactly when the path ends with ".py", else never. */
  lemma PythonPairExactlyForPy(t: Tables, path: string, isDir: bool, a: Action)
    requires a == OpenPy2 || a == OpenPy3
    ensures Occurrences(ListMenuOf(t, path, isDir), a) == if EndsWith(path, ".py") then 1 else 0
  {
    ListMenuBlocks(t, path, isDir, a);
    EditAbsent(isDir, a);
    ViewerPythonCount(t, path, a);
    MediaAbsent(t, path, a);
    ToolAbsent(t, path, a);
  }

  /** addAction is called once for "open in new window" exactly for a directory, else never. */
  lemma NewWindowExactlyForDirectory(t: Tables, path: string, isDir: bool)
    ensures Occurrences(ListMenuOf(t, path, isDir), FolderNewWin) == if isDir then 1 else 0
  {
    ListMenuBlocks(t, path, isDir, FolderNewWin);
    EditNewWindowCount(isDir);
    ViewerAbsent(t, path, FolderNewWin);
    MediaAbsent(t, path, FolderNewWin);
    ToolAbsent(t, path, FolderNewWin);
  }

  /** addAction is called for each of the unzip pair once per archive extension found in the path. */
  lemma UnzipPairPerArchiveExtension(t: Tables, path: string, isDir: bool, a: Action)
    requires a == UnzipHere || a == UnzipTo
    ensures Occurrences(ListMenuOf(t, path, isDir), a) == MatchCount(t.zip, path, false)
  {
    ListMenuBlocks(t, path, isDir, a);
    EditAbsent(isDir, a);
    ViewerAbsent(t, path, a);
    MediaAbsent(t, path, a);
    ToolUnzipCount(t, path, a);
  }

  /** addAction is called for each of the play pair once per media extension whose text or upper case is in the path. */
  lemma PlayPairPerMediaExtension(t: Tables, path: string, isDir: bool, a: Action)
    requires a == PlayInt || a == PlayVLC
    ensures Occurrences(ListMenuOf(t, path, isDir), a) == MatchCount(t.play, path, true)
  {
    ListMenuBlocks(t, path, isDir, a);
    EditAbsent(isDir, a);
    ViewerAbsent(t, path, a);
    MediaPlayCount(t, path, a);
    ToolAbsent(t, path, a);
  }

  /** An extension that passes the test makes the count at least one. */
  lemma {:induction false} MatchCountOne(exts: seq<string>, path: string, alsoUpper: bool, i: nat)
    requires i < |exts| && Matches(exts[i], path, alsoUpper)
    ensures MatchCount(exts, path, alsoUpper) >= 1
    decreases |exts|
  {
    if i < |exts| - 1 {
      assert exts[..|exts| - 1][i] == exts[i];
      MatchCountOne(exts[..|exts| - 1], path, alsoUpper, i);
    }
  }

  /** Two different extensions that pass the test make the count at least two. */
  lemma {:induction false} MatchCountTwo(exts: seq<string>, path: string, alsoUpper: bool, i: nat, j: nat)
    requires i < j < |exts|
    requires Matches(exts[i], path, alsoUpper) && Matches(exts[j], path, alsoUpper)
    ensures MatchCount(exts, path, alsoUpper) >= 2
    decreases |exts|
  {
    var front := exts[..|exts| - 1];
    assert front[i] == exts[i];
    if j == |exts| - 1 {
      MatchCountOne(front, path, alsoUpper, i);
    } else {
      assert front[j] == exts[j];
      MatchCountTwo(front, path, alsoUpper, i, j);
    }
  }

  /** The actions the list menu offers whatever the path: the edit actions, trash and delete, the tools. */
  predicate IsFixed(a: Action) {
    match a
    case FolderNew | FileOpen | OpenText | OpenTextRoot | FileRename | FileCopy | FileCut | FilePaste
       | FolderTerm | OpenTerm | MkExec | File2Trash | FileDel | Refresh | Hide | FilesZip | Help => true
    case _ => false
  }

  /** The action an entry contributes to the fixed part of a menu: its own when fixed, none otherwise. */
  function FixedOf(e: Entry): seq<Action> {
    if e.Item? && IsFixed(e.action) then [e.action] else []
  }

  /** The fixed actions of a menu, in menu order. */
  function Offered(menu: seq<Entry>): seq<Action>
    decreases |menu|
  {
    if menu == [] then [] else FixedOf(menu[0]) + Offered(menu[1..])
  }

  /** The fixed actions of the edit block, in the order contextMenuEvent adds them. */
  const EditOffers: seq<Action> :=
    [FolderNew, FileOpen, OpenText, OpenTextRoot, FileRename, FileCopy, FileCut, FilePaste,
     FolderTerm, OpenTerm, MkExec]

  /** The fixed actions of the media block. */
  const MediaOffers: seq<Action> := [File2Trash, FileDel]

  /** The fixed actions of the tool block. */
  const ToolOffers: seq<Action> := [Refresh, Hide, FilesZip, Help]

  /** All fixed actions, in the order contextMenuEvent adds them; the viewer block adds none. */
  const AlwaysOffered: seq<Action> := EditOffers + MediaOffers + ToolOffers

  lemma {:induction false} OfferedConcat(m1: seq<Entry>, m2: seq<Entry>)
    ensures Offered(m1 + m2) == Offered(m1) + Offered(m2)
    decreases |m1|
  {
    if m1 == [] {
      assert m1 + m2 == m2;
    } else {
      assert (m1 + m2)[0] == m1[0];
      assert (m1 + m2)[1..] == m1[1..] + m2;
      OfferedConcat(m1[1..], m2);
    }
  }

  lemma OfferedOfFour(m1: seq<Entry>, m2: seq<Entry>, m3: seq<Entry>, m4: seq<Entry>)
    ensures Offered(m1 + m2 + m3 + m4) == Offered(m1) + Offered(m2) + Offered(m3) + Offered(m4)
  {
    OfferedConcat(m1, m2);
    OfferedConcat(m1 + m2, m3);
    OfferedConcat(m1 + m2 + m3, m4);
  }

  /** A loop whose entries hold no fixed action adds none. */
  lemma {:induction false} OfferedPerMatch(exts: seq<string>, path: string, alsoUpper: bool, entries: seq<Entry>)
    requires Offered(entries) == []
    ensures Offered(PerMatch(exts, path, alsoUpper, entries)) == []
    decreases |exts|
  {
    if exts != [] {
      var front := exts[..|exts| - 1];
      OfferedPerMatch(front, path, alsoUpper, entries);
      OfferedConcat(PerMatch(front, path, alsoUpper, entries),
                    if Matches(exts[|exts| - 1], path, alsoUpper) then entries else []);
    }
  }

  /** None of the viewer loops adds a fixed action. */
  lemma ViewerLoopsOffered(t: Tables, path: string)
    ensures Offered(PerMatch(t.db, path, false, [Item(OpenDB)])) == []
    ensures Offered(PerMatch(t.url, path, false, [Item(OpenUrl)])) == []
    ensures Offered(PerMatch(t.image, path, true, [Item(OpenImg)])) == []
  {
    OfferedPerMatch(t.db, path, false, [Item(OpenDB)]);
    OfferedPerMatch(t.url, path, false, [Item(OpenUrl)]);
    OfferedPerMatch(t.image, path, true, [Item(OpenImg)]);
  }

  /** The player loop adds no fixed action. */
  lemma PlayLoopOffered(t: Tables, path: string)
    ensures Offered(PerMatch(t.play, path, true, [Separator, Item(PlayInt), Item(PlayVLC), Separator])) == []
  {
    OfferedPerMatch(t.play, path, true, [Separator, Item(PlayInt), Item(PlayVLC), Separator]);
  }

  /** The converter loop adds no fixed action. */
  lemma ConvertLoopOffered(t: Tables, path: string)
    ensures Offered(PerMatch(t.convert, path, true, [Item(ToMp3), Separator])) == []
  {
    OfferedPerMatch(t.convert, path, true, [Item(ToMp3), Separator]);
  }

  /** The archive loop adds no fixed action. */
  lemma ZipLoopOffered(t: Tables, path: string)
    ensures Offered(PerMatch(t.zip, path, false, [Item(UnzipHere), Item(UnzipTo)])) == []
  {
    OfferedPerMatch(t.zip, path, false, [Item(UnzipHere), Item(UnzipTo)]);
  }

  // The edit block, one literal piece at a time, so that each proof
  // evaluates the fixed actions of one short piece only.

  lemma EditOpenersOffered(isDir: bool)
    ensures Offered([Item(FolderNew), Item(FileOpen), Item(OpenText), Item(OpenTextRoot), Separator]
                    + (if isDir then [Item(FolderNewWin)] else []))
         == [FolderNew, FileOpen, OpenText, OpenTextRoot]
  {
    var e1 := [Item(FolderNew), Item(FileOpen), Item(OpenText), Item(OpenTextRoot), Separator];
    var e2 := if isDir then [Item(FolderNewWin)] else [];
    OfferedConcat(e1, e2);
  }

  lemma EditRenameOffered(isDir: bool)
    ensures Offered([Item(FolderNew), Item(FileOpen), Item(OpenText), Item(OpenTextRoot), Separator]
                    + (if isDir then [Item(FolderNewWin)] else [])
                    + [Separator, Item(FileRename), Separator])
         == [FolderNew, FileOpen, OpenText, OpenTextRoot, FileRename]
  {
    var e12 := [Item(FolderNew), Item(FileOpen), Item(OpenText), Item(OpenTextRoot), Separator]
               + (if isDir then [Item(FolderNewWin)] else []);
    EditOpenersOffered(isDir);
    OfferedConcat(e12, [Separator, Item(FileRename), Separator]);
  }

  lemma EditClipboardOffered(isDir: bool)
    ensures Offered([Item(FolderNew), Item(FileOpen), Item(OpenText), Item(OpenTextRoot), Separator]
                    + (if isDir then [Item(FolderNewWin)] else [])
                    + [Separator, Item(FileRename), Separator]
                    + [Item(FileCopy), Item(FileCut), Item(FilePaste)])
         == [FolderNew, FileOpen, OpenText, OpenTextRoot, FileRename, FileCopy, FileCut, FilePaste]
  {
    var e123 := [Item(FolderNew), Item(FileOpen), Item(OpenText), Item(OpenTextRoot), Separator]
                + (if isDir then [Item(FolderNewWin)] else [])
                + [Separator, Item(FileRename), Separator];
    EditRenameOffered(isDir);
    OfferedConcat(e123, [Item(FileCopy), Item(FileCut), Item(FilePaste)]);
  }

  lemma EditOffered(isDir: bool)
    ensures Offered(EditBlock(isDir)) == EditOffers
  {
    var e1234 := [Item(FolderNew), Item(FileOpen), Item(OpenText), Item(OpenTextRoot), Separator]
                 + (if isDir then [Item(FolderNewWin)] else [])
                 + [Separator, Item(FileRename), Separator]
                 + [Item(FileCopy), Item(FileCut), Item(FilePaste)];
    EditClipboardOffered(isDir);
    OfferedConcat(e1234, [Item(FolderTerm), Item(OpenTerm), Item(MkExec)]);
  }

  lemma ViewerOffered(t: Tables, path: string)
    ensures Offered(ViewerBlock(t, path)) == []
  {
    var v1 := PerMatch(t.db, path, false, [Item(OpenDB)]);
    var v2 := PerMatch(t.url, path, false, [Item(OpenUrl)]);
    var v3 := if EndsWith(path, ".py") then [Item(OpenPy2), Item(OpenPy3)] else [];
    var v4 := PerMatch(t.image, path, true, [Item(OpenImg)]);
    ViewerLoopsOffered(t, path);
    if EndsWith(path, ".py") {
      assert Offered([Item(OpenPy2), Item(OpenPy3)]) == [];
    }
    OfferedOfFour(v1, v2, v3, v4);
  }

  lemma MediaHeadOffered(path: string)
    ensures Offered([Separator, Item(File2Trash), Item(FileDel), Separator]
                    + (if Contains(path, ".m3u") then [Item(PlayList)] else []))
         == [File2Trash, FileDel]
  {
    OfferedConcat([Separator, Item(File2Trash), Item(FileDel), Separator],
                  if Contains(path, ".m3u") then [Item(PlayList)] else []);
  }

  lemma MediaPlayersOffered(t: Tables, path: string)
    ensures Offered([Separator, Item(File2Trash), Item(FileDel), Separator]
                    + (if Contains(path, ".m3u") then [Item(PlayList)] else [])
                    + PerMatch(t.play, path, true, [Separator, Item(PlayInt), Item(PlayVLC), Separator]))
         == [File2Trash, FileDel]
  {
    var m12 := [Separator, Item(File2Trash), Item(FileDel), Separator]
               + (if Contains(path, ".m3u") then [Item(PlayList)] else []);
    MediaHeadOffered(path);
    PlayLoopOffered(t, path);
    OfferedConcat(m12, PerMatch(t.play, path, true, [Separator, Item(PlayInt), Item(PlayVLC), Separator]));
  }

  lemma MediaOffered(t: Tables, path: string)
    ensures Offered(MediaBlock(t, path)) == MediaOffers
  {
    var m123 := [Separator, Item(File2Trash), Item(FileDel), Separator]
                + (if Contains(path, ".m3u") then [Item(PlayList)] else [])
                + PerMatch(t.play, path, true, [Separator, Item(PlayInt), Item(PlayVLC), Separator]);
    var m4 := PerMatch(t.convert, path, true, [Item(ToMp3), Separator]);
    var m5 := if Contains(path, ".mp3") then [Item(MakePlaylist)] else [];
    MediaPlayersOffered(t, path);
    ConvertLoopOffered(t, path);
    if Contains(path, ".mp3") {
      assert Offered([Item(MakePlaylist)]) == [];
    }
    OfferedConcat(m123, m4);
    OfferedConcat(m123 + m4, m5);
  }

  lemma ToolHeadOffered(t: Tables, path: string)
    ensures Offered([Item(Refresh), Item(Hide), Item(FilesZip)]
                    + PerMatch(t.zip, path, false, [Item(UnzipHere), Item(UnzipTo)]))
         == [Refresh, Hide, FilesZip]
  {
    ZipLoopOffered(t, path);
    OfferedConcat([Item(Refresh), Item(Hide), Item(FilesZip)],
                  PerMatch(t.zip, path, false, [Item(UnzipHere), Item(UnzipTo)]));
  }

  lemma ToolOffered(t: Tables, path: string)
    ensures Offered(ToolBlock(t, path)) == ToolOffers
  {
    var t12 := [Item(Refresh), Item(Hide), Item(FilesZip)]
               + PerMatch(t.zip, path, false, [Item(UnzipHere), Item(UnzipTo)]);
    ToolHeadOffered(t, path);
    OfferedConcat(t12, [Separator, Item(Help)]);
  }

  /** Whatever the path and its kind, the list menu offers every fixed action once, always in the same order. */
  lemma FixedActionsInOrder(t: Tables, path: string, isDir: bool)
    ensures Offered(ListMenuOf(t, path, isDir)) == AlwaysOffered
  {
    var edit, viewer, media, tool := EditBlock(isDir), ViewerBlock(t, path), MediaBlock(t, path), ToolBlock(t, path);
    EditOffered(isDir);
    ViewerOffered(t, path);
    MediaOffered(t, path);
    ToolOffered(t, path);
    OfferedOfFour(edit, viewer, media, tool);
    assert EditOffers + [] == EditOffers;
  }
}
