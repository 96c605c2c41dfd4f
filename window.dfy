/**
 * The main window's own bookkeeping (myWindow): the hidden-files flag and
 * its setting, the copy/cut/paste state, and the rename, convert and
 * playlist commands. The filesystem, the clipboard owner and external
 * programs are not modelled; what the window asks of them is recorded as a
 * log of effects, and what they answer (the selection, the dialog, the
 * folder listing, how a tree copy ended) comes in as parameters.
 */
module FileManager {
  import opened Paths
  import opened Names

  /** An operation the window asks of the filesystem or the process table. */
  datatype Effect =
    | QFileCopy(source: string, destination: string)        // QFile.copy
    | QFileRemove(path: string)                              // QFile.remove
    | QFileRename(source: string, destination: string)      // QFile.rename
    | QDirRename(source: string, destination: string)       // QDir.rename
    | CopyTree(source: string, destination: string)         // shutil.copytree
    | CopySingle(source: string, destination: string)       // shutil.copy
    | StartDetached(program: string, arguments: seq<string>) // QProcess.startDetached
    | FileTruncated(path: string)                            // QFile.open with Truncate: created or emptied
    | WriteText(path: string, text: string)                 // a file truncated and written
    | ErrorPrinted(errno: int)                               // an error written to stderr
    | TypeErrorRaised                                        // a call with the wrong arguments

  /** How `shutil.copytree` ended: it copied the tree, or raised OSError with this errno. */
  datatype TreeCopyOutcome = TreeCopied | CopyFailed(errno: int)

  /**
   * How makePlaylist's two raising calls end: both succeed, `os.listdir`
   * raises, or the listing is read and `open(path, 'w')` raises.
   */
  datatype PlaylistOutcome = PlaylistWritten | ListingFailed | WriteFailed

  /** errno.ENOTDIR on Linux: the source is not a directory. */
  const ENOTDIR: int := 20

  /** The settings key of the hidden-files flag. */
  const HiddenKey: string := "hiddenEnabled"

  /** QSettings stores a Python bool as the text "true" or "false". */
  function SettingText(b: bool): string {
    if b then "true" else "false"
  }

  /** readSettings: a stored "false" sets the flag, any other stored value clears it, no key keeps it. */
  function ReadHidden(stored: map<string, string>, flag: bool): bool {
    if HiddenKey in stored then stored[HiddenKey] == "false" else flag
  }

  /** The flag after start-up: readSettings from the initial false, then one enableHidden. */
  function StartupHidden(stored: map<string, string>): bool {
    !ReadHidden(stored, false)
  }

  /**
   * Hidden files are shown at start-up unless the stored value is exactly
   * "false"; a missing key shows them as well.
   */
  lemma StartupHiddenRule(stored: map<string, string>)
    ensures StartupHidden(stored) <==> !(HiddenKey in stored && stored[HiddenKey] == "false")
    ensures HiddenKey !in stored ==> StartupHidden(stored)
  {
  }

  /** What writeSettings stores is what the next start-up shows. */
  lemma HiddenSettingRoundTrip(stored: map<string, string>, b: bool)
    ensures StartupHidden(stored[HiddenKey := SettingText(b)]) == b
  {
    assert "true" != "false";
  }

  /** copyFile's list: `dir + "/" + name` per selected name, in selection order. */
  function CopiedPaths(dir: string, names: seq<string>): (paths: seq<string>)
    ensures |paths| == |names|
    ensures forall i :: 0 <= i < |names| ==> paths[i] == dir + "/" + names[i]
    decreases |names|
  {
    if names == [] then []
    else CopiedPaths(dir, names[..|names| - 1]) + [dir + "/" + names[|names| - 1]]
  }

  /** The clipboard text, split at its newlines, gives back the copied paths. */
  lemma ClipboardLines(dir: string, names: seq<string>)
    requires names != []
    requires '\n' !in dir
    requires forall i :: 0 <= i < |names| ==> '\n' !in names[i]
    ensures Split(Join(CopiedPaths(dir, names), "\n"), '\n') == CopiedPaths(dir, names)
  {
    var paths := CopiedPaths(dir, names);
    forall i | 0 <= i < |paths| ensures '\n' !in paths[i] {
      assert paths[i] == dir + ['/'] + names[i];
    }
    assert "\n" == ['\n'];
    SplitJoin(paths, '\n');
  }

  /** A copied `dir/name` is pasted into the tree's folder under the same name. */
  lemma CopiedPathsPasteBack(dir: string, names: seq<string>, treeFolder: string)
    requires forall i :: 0 <= i < |names| ==> '/' !in names[i]
    ensures forall i :: 0 <= i < |names| ==>
              PasteDestination(treeFolder, CopiedPaths(dir, names)[i]) == treeFolder + "/" + names[i]
  {
    forall i | 0 <= i < |names|
      ensures PasteDestination(treeFolder, CopiedPaths(dir, names)[i]) == treeFolder + "/" + names[i]
    {
      PasteDestinationOfEntry(treeFolder, dir, names[i]);
    }
  }

  /** pasteFile for one entry: copy it into the tree's folder, then remove it when cutting. */
  function PasteOne(target: string, treeFolder: string, cut: bool): seq<Effect> {
    [QFileCopy(target, PasteDestination(treeFolder, target))] + (if cut then [QFileRemove(target)] else [])
  }

  /** pasteFile's file branch: the entries of the copy list in order. */
  function FilePasteEffects(targets: seq<string>, treeFolder: string, cut: bool): seq<Effect>
    decreases |targets|
  {
    if targets == [] then []
    else FilePasteEffects(targets[..|targets| - 1], treeFolder, cut)
         + PasteOne(targets[|targets| - 1], treeFolder, cut)
  }

  /** Pasting one more entry of the list appends that entry's operations. */
  lemma FilePasteStep(log: seq<Effect>, targets: seq<string>, i: nat, treeFolder: string, cut: bool)
    requires i < |targets|
    ensures log + FilePasteEffects(targets[..i], treeFolder, cut) + PasteOne(targets[i], treeFolder, cut)
         == log + FilePasteEffects(targets[..i + 1], treeFolder, cut)
  {
    var done := targets[..i + 1];
    assert done[..i] == targets[..i];
  }

  /** Without cut, pasting copies every entry once, in order, and removes nothing. */
  lemma {:induction false} FilePasteWithoutCut(targets: seq<string>, treeFolder: string)
    ensures var r := FilePasteEffects(targets, treeFolder, false);
            && |r| == |targets|
            && (forall i :: 0 <= i < |targets| ==>
                  r[i] == QFileCopy(targets[i], PasteDestination(treeFolder, targets[i])))
            && forall e :: e in r ==> !e.QFileRemove?
    decreases |targets|
  {
    if targets != [] {
      FilePasteWithoutCut(targets[..|targets| - 1], treeFolder);
    }
  }

  /** With cut, every entry is copied and then, right after, removed. */
  lemma {:induction false} FilePasteWithCut(targets: seq<string>, treeFolder: string)
    ensures var r := FilePasteEffects(targets, treeFolder, true);
            && |r| == 2 * |targets|
            && forall i :: 0 <= i < |targets| ==>
                 && r[2 * i] == QFileCopy(targets[i], PasteDestination(treeFolder, targets[i]))
                 && r[2 * i + 1] == QFileRemove(targets[i])
    decreases |targets|
  {
    if targets != [] {
      FilePasteWithCut(targets[..|targets| - 1], treeFolder);
    }
  }

  /**
   * The folder branch: copytree into `treeFolder/name`; when the source is
   * not a directory, a single-file copy to the same destination; any other
   * error is reported, through the infobox call or on stderr.
   */
  function FolderPasteEffects(source: string, treeFolder: string, outcome: TreeCopyOutcome, viaInfobox: bool): seq<Effect> {
    var destination := PasteDestination(treeFolder, source);
    [CopyTree(source, destination)]
    + match outcome
      case TreeCopied => []
      case CopyFailed(errno) =>
        if errno == ENOTDIR then [CopySingle(source, destination)]
        else if viaInfobox then [TypeErrorRaised]
        else [ErrorPrinted(errno)]
  }

  /**
   * The fallback copy happens exactly on ENOTDIR; on any other error nothing
   * further is copied and the error is the last effect.
   */
  lemma FolderPasteOutcomes(source: string, treeFolder: string, outcome: TreeCopyOutcome, viaInfobox: bool)
    ensures var r := FolderPasteEffects(source, treeFolder, outcome, viaInfobox);
            var destination := PasteDestination(treeFolder, source);
            && r[0] == CopyTree(source, destination)
            && (CopySingle(source, destination) in r <==> outcome == CopyFailed(ENOTDIR))
            && (outcome.TreeCopied? <==> |r| == 1)
            && (outcome.CopyFailed? && outcome.errno != ENOTDIR ==>
                  |r| == 2 && r[1] == (if viaInfobox then TypeErrorRaised else ErrorPrinted(outcome.errno)))
  {
  }

  /** pasteFile: the file branch when the copy list is non-empty, the folder branch otherwise. */
  function PasteEffects(copyList: seq<string>, folderCopied: string, treeFolder: string, cut: bool,
                        outcome: TreeCopyOutcome): seq<Effect>
  {
    if |copyList| > 0 then FilePasteEffects(copyList, treeFolder, cut)
    else FolderPasteEffects(folderCopied, treeFolder, outcome, false)
  }

  /** Which view has the keyboard focus when rename is asked for. */
  datatype Focus = ListFocus | TreeFocus | ElsewhereFocus

  /** A view's current item: its absoluteFilePath() and its parent's path(). */
  datatype Located = Located(path: string, parent: string)

  /** What QInputDialog.getText returns: the text and whether it was accepted. */
  datatype Answer = Answer(text: string, ok: bool)

  /** renameFolder: the tree's item is renamed when the dialog is accepted. */
  function FolderRenameEffects(treeItem: Located, answer: Answer): seq<Effect> {
    if answer.ok then [QDirRename(treeItem.path, RenameTarget(treeItem.parent, answer.text))] else []
  }

  /** renameFile: the list's item when the list has focus and a selection, else the tree's item. */
  function RenameEffects(focus: Focus, listHasSelection: bool, listItem: Located, treeItem: Located,
                         answer: Answer): seq<Effect>
  {
    match focus
    case ListFocus =>
      if listHasSelection && answer.ok
      then [QFileRename(listItem.path, RenameTarget(listItem.parent, answer.text))]
      else []
    case TreeFocus => FolderRenameEffects(treeItem, answer)
    case ElsewhereFocus => []
  }

  /**
   * At most one rename is asked for, exactly when the dialog was accepted
   * for a focused view with an item; it keeps the item in its parent folder
   * under the new name.
   */
  lemma RenameOnlyWhenAccepted(focus: Focus, listHasSelection: bool, listItem: Located, treeItem: Located,
                               answer: Answer)
    ensures var r := RenameEffects(focus, listHasSelection, listItem, treeItem, answer);
            var item := if focus == ListFocus then listItem else treeItem;
            && |r| <= 1
            && (r != [] <==> answer.ok && ((focus == ListFocus && listHasSelection) || focus == TreeFocus))
            && (r != [] ==> r[0].source == item.path && r[0].destination == item.parent + "/" + answer.text)
            && (r != [] && '/' !in answer.text ==> FileName(r[0].destination) == answer.text)
  {
    if answer.ok && focus != ElsewhereFocus && '/' !in answer.text {
      var item := if focus == ListFocus then listItem else treeItem;
      RenameStaysInFolder(item.parent, answer.text);
    }
  }

  /** makeMP3: ffmpeg is started on the current file with its mp3 target. */
  function ConvertEffects(hasSelection: bool, path: string): seq<Effect> {
    if hasSelection then [StartDetached("ffmpeg", ["-i", path, Mp3Target(path)])] else []
  }

  /** A convert request names the file and a target that ends in ".mp3" whenever the file's suffix is found. */
  lemma ConvertTargetsMp3(path: string, dir: string, stem: string, ext: string)
    requires path == dir + "/" + stem + "." + ext
    requires '/' !in stem && '/' !in ext && '.' !in ext
    requires !Contains(path[..|path| - 1], "." + ext)
    ensures ConvertEffects(true, path) == [StartDetached("ffmpeg", ["-i", path, dir + "/" + stem + ".mp3"])]
    ensures ConvertEffects(false, path) == []
  {
    Mp3TargetOfMediaFile(path, dir, stem, ext);
  }

  /** The main window's state that the model keeps. */
  class Window {
    /** Whether hidden files are listed. */
    var hiddenEnabled: bool
    /** The checked state of the "show hidden Files" action. */
    var hideChecked: bool
    /** Whether the file and folder models' filters include QDir.Hidden. */
    var hiddenListed: bool
    /** The QSettings store, as text by key. */
    var settings: map<string, string>
    var cut: bool
    var folderCopied: string
    var copyList: seq<string>
    /** The folder the tree shows, set whenever the tree's selection changes. */
    var currentPath: string
    /** The system clipboard's text. */
    var clipboard: string
    /** What the window has asked of the filesystem and other programs, oldest first. */
    var effects: seq<Effect>

    /** The action's check mark and the views' filters agree with the flag. */
    predicate Valid()
      reads this
    {
      hideChecked == hiddenEnabled && hiddenListed == hiddenEnabled
    }

    /**
     * Start-up: the fields' initial values, the tree moved to the Documents
     * folder (which sets currentPath), then readSettings and enableHidden.
     */
    constructor (documentsPath: string, stored: map<string, string>, clipboardText: string)
      ensures Valid()
      ensures hiddenEnabled == StartupHidden(stored)
      ensures settings == stored
      ensures !cut && folderCopied == "" && copyList == []
      ensures currentPath == documentsPath && clipboard == clipboardText && effects == []
    {
      hiddenEnabled := false;
      hideChecked := false;
      hiddenListed := false;
      settings := stored;
      cut := false;
      folderCopied := "";
      copyList := [];
      currentPath := documentsPath;
      clipboard := clipboardText;
      effects := [];
      new;
      ReadSettings();
      EnableHidden();
    }

    /** closeEvent: the settings are written. */
    method CloseEvent()
      modifies this`settings
      ensures settings == old(settings)[HiddenKey := SettingText(hiddenEnabled)]
    {
      WriteSettings();
    }

    /** readSettings, the hidden-files part. */
    method ReadSettings()
      modifies this`hiddenEnabled
      ensures hiddenEnabled == ReadHidden(settings, old(hiddenEnabled))
    {
      if HiddenKey in settings {
        if settings[HiddenKey] == "false" {
          hiddenEnabled := true;
        } else {
          hiddenEnabled := false;
        }
      }
    }

    /** writeSettings, the hidden-files part. */
    method WriteSettings()
      modifies this`settings
      ensures settings == old(settings)[HiddenKey := SettingText(hiddenEnabled)]
    {
      settings := settings[HiddenKey := SettingText(hiddenEnabled)];
    }

    /** enableHidden: flips the flag, with the filters and the check mark following it. */
    method EnableHidden()
      modifies this`hiddenEnabled, this`hideChecked, this`hiddenListed
      ensures hiddenEnabled == !old(hiddenEnabled)
      ensures Valid()
    {
      if hiddenEnabled == false {
        hiddenListed := true;
        hiddenEnabled := true;
        hideChecked := true;
      } else {
        hiddenListed := false;
        hiddenEnabled := false;
        hideChecked := false;
      }
    }

    /** on_selectionChanged: the tree's current folder becomes currentPath. */
    method OnSelectionChanged(treePath: string)
      modifies this`currentPath
      ensures currentPath == treePath
    {
      currentPath := treePath;
    }

    /**
     * copyFile: the list restarts empty and gets one entry per selected row;
     * the clipboard is set after each entry, so an empty selection leaves it
     * as it was.
     */
    method CopyFile(selected: seq<string>)
      modifies this`copyList, this`clipboard
      ensures copyList == CopiedPaths(currentPath, selected)
      ensures clipboard == if selected == [] then old(clipboard) else Join(copyList, "\n")
    {
      copyList := [];
      var i := 0;
      while i < |selected|
        invariant 0 <= i <= |selected|
        invariant copyList == CopiedPaths(currentPath, selected[..i])
        invariant clipboard == if i == 0 then old(clipboard) else Join(copyList, "\n")
      {
        var path := currentPath + "/" + selected[i];
        assert selected[..i + 1][..i] == selected[..i];
        copyList := copyList + [path];
        clipboard := Join(copyList, "\n");
        i := i + 1;
      }
      assert selected[..i] == selected;
    }

    /** cutFile: marks the next pastes as moves, then copies the selection. */
    method CutFile(selected: seq<string>)
      modifies this`cut, this`copyList, this`clipboard
      ensures cut
      ensures copyList == CopiedPaths(currentPath, selected)
      ensures clipboard == if selected == [] then old(clipboard) else Join(copyList, "\n")
    {
      cut := true;
      CopyFile(selected);
    }

    /** copyFolder: records the tree's folder and empties the copy list. */
    method CopyFolder(treePath: string)
      modifies this`folderCopied, this`copyList
      ensures folderCopied == treePath && copyList == []
    {
      folderCopied := treePath;
      copyList := [];
    }

    /** Copies folderCopied into the tree's folder, reporting an error one of two ways. */
    method PasteCopiedFolder(treeFolder: string, outcome: TreeCopyOutcome, viaInfobox: bool)
      modifies this`effects
      ensures effects == old(effects) + FolderPasteEffects(folderCopied, treeFolder, outcome, viaInfobox)
    {
      var source := folderCopied;
      var destination := PasteDestination(treeFolder, source);
      var handled: seq<Effect> := [];
      match outcome {
        case TreeCopied =>
        case CopyFailed(errno) =>
          if errno == ENOTDIR {
            handled := [CopySingle(source, destination)];
          } else if viaInfobox {
            handled := [TypeErrorRaised];
          } else {
            handled := [ErrorPrinted(errno)];
          }
      }
      effects := effects + ([CopyTree(source, destination)] + handled);
    }

    /** pasteFolder: its error report calls infobox with one argument too many. */
    method PasteFolder(treeFolder: string, outcome: TreeCopyOutcome)
      modifies this`effects
      ensures effects == old(effects) + FolderPasteEffects(folderCopied, treeFolder, outcome, true)
    {
      PasteCopiedFolder(treeFolder, outcome, true);
    }

    /** pasteFile for one entry of the copy list. */
    method PasteEntry(target: string, treeFolder: string)
      modifies this`effects
      ensures effects == old(effects) + PasteOne(target, treeFolder, cut)
    {
      var destination := PasteDestination(treeFolder, target);
      effects := effects + [QFileCopy(target, destination)];
      if cut {
        effects := effects + [QFileRemove(target)];
      }
    }

    /** pasteFile's file branch: every entry of the copy list, in order. */
    method PasteCopyList(treeFolder: string)
      modifies this`effects
      ensures effects == old(effects) + FilePasteEffects(copyList, treeFolder, cut)
    {
      var i := 0;
      while i < |copyList|
        invariant 0 <= i <= |copyList|
        invariant effects == old(effects) + FilePasteEffects(copyList[..i], treeFolder, cut)
      {
        FilePasteStep(old(effects), copyList, i, treeFolder, cut);
        PasteEntry(copyList[i], treeFolder);
        i := i + 1;
      }
      assert copyList[..i] == copyList;
    }

    /**
     * pasteFile: with a copy list, each entry is copied and, when cutting,
     * removed; `cut` itself is left as it is. Without one, the recorded
     * folder is pasted and an error goes to stderr.
     */
    method PasteFile(treeFolder: string, outcome: TreeCopyOutcome)
      modifies this`effects
      ensures effects == old(effects) + PasteEffects(copyList, folderCopied, treeFolder, cut, outcome)
    {
      if |copyList| > 0 {
        PasteCopyList(treeFolder);
      } else {
        PasteCopiedFolder(treeFolder, outcome, false);
      }
    }

    /** renameFolder: the tree's item, when the dialog is accepted. */
    method RenameFolder(treeItem: Located, answer: Answer)
      modifies this`effects
      ensures effects == old(effects) + FolderRenameEffects(treeItem, answer)
    {
      if answer.ok {
        var newPath := treeItem.parent + "/" + answer.text;
        effects := effects + [QDirRename(treeItem.path, newPath)];
      }
    }

    /** renameFile: the list's selected item, or renameFolder when the tree has focus. */
    method RenameFile(focus: Focus, listHasSelection: bool, listItem: Located, treeItem: Located, answer: Answer)
      modifies this`effects
      ensures effects == old(effects) + RenameEffects(focus, listHasSelection, listItem, treeItem, answer)
    {
      if focus == ListFocus {
        if listHasSelection {
          if answer.ok {
            var newPath := listItem.parent + "/" + answer.text;
            effects := effects + [QFileRename(listItem.path, newPath)];
          }
        }
      } else if focus == TreeFocus {
        RenameFolder(treeItem, answer);
      }
    }

    /** makeMP3: ffmpeg converts the list's current file to its mp3 target. */
    method MakeMP3(hasSelection: bool, path: string)
      modifies this`effects
      ensures effects == old(effects) + ConvertEffects(hasSelection, path)
    {
      if hasSelection {
        var ext := Suffix(path);
        var newPath := ReplaceAll(path, "." + ext, ".mp3");
        effects := effects + [StartDetached("ffmpeg", ["-i", path, newPath])];
      }
    }

    /** makePlaylist's scan of currentPath: the mp3 files, each as `currentPath/name`, in listing order. */
    method CollectMp3Paths(listing: seq<DirEntry>) returns (mp3List: seq<string>)
      ensures mp3List == Mp3Paths(currentPath, listing)
    {
      mp3List := [];
      var i := 0;
      while i < |listing|
        invariant 0 <= i <= |listing|
        invariant mp3List == Mp3Paths(currentPath, listing[..i])
      {
        Mp3PathsAppend(currentPath, listing[..i], listing[i]);
        assert listing[..i + 1] == listing[..i] + [listing[i]];
        if listing[i].isFile && Contains(listing[i].name, ".mp3") {
          mp3List := mp3List + [currentPath + "/" + listing[i].name];
        }
        i := i + 1;
      }
      assert listing[..i] == listing;
    }

    /**
     * makePlaylist: the playlist named after the tree's folder is first
     * opened with truncation, which creates it in currentPath; then the mp3
     * files of currentPath, gathered in listing order, are sorted
     * case-insensitively and written one per line to it. `listing` is what
     * `os.listdir` answers after the open, so it holds the playlist itself.
     * When `os.listdir` or `open(path, 'w')` raises, the slot ends there and
     * nothing is written.
     */
    method MakePlaylist(hasSelection: bool, folderName: string, listing: seq<DirEntry>, outcome: PlaylistOutcome)
      modifies this`effects
      ensures effects == old(effects)
                + (if !hasSelection then []
                   else if outcome == PlaylistWritten
                   then [FileTruncated(PlaylistPath(currentPath, folderName)),
                         WriteText(PlaylistPath(currentPath, folderName), PlaylistText(currentPath, listing))]
                   else [FileTruncated(PlaylistPath(currentPath, folderName))])
    {
      if hasSelection {
        var path := currentPath + "/" + folderName + ".m3u";
        effects := effects + [FileTruncated(path)];
        if outcome != ListingFailed {
          var mp3List := CollectMp3Paths(listing);
          var sorted := SortByLower(mp3List);
          if outcome == PlaylistWritten {
            effects := effects + [WriteText(path, Join(sorted, "\n"))];
          }
        }
      }
    }
  }

  /** Toggling "show hidden Files" twice gives back the flag it started with. */
  method ToggleHiddenTwice(w: Window)
    modifies w
    ensures w.hiddenEnabled == old(w.hiddenEnabled) && w.Valid()
  {
    w.EnableHidden();
    w.EnableHidden();
  }

  /** The flag a window closes with is the flag the next window starts with. */
  method RestartKeepsHiddenFlag(w: Window, documentsPath: string, clipboardText: string) returns (next: Window)
    modifies w
    ensures fresh(next)
    ensures next.hiddenEnabled == old(w.hiddenEnabled) && next.Valid()
  {
    w.CloseEvent();
    HiddenSettingRoundTrip(old(w.settings), w.hiddenEnabled);
    next := new Window(documentsPath, w.settings, clipboardText);
  }

  /**
   * `cut` is never cleared: after a cut, a later plain copy and paste is
   * still a move, each pasted source removed right after its copy.
   */
  method CutStaysSticky(w: Window, cutNames: seq<string>, copyNames: seq<string>, treeFolder: string,
                        outcome: TreeCopyOutcome)
    requires copyNames != []
    modifies w
    ensures w.cut
    ensures w.effects == old(w.effects) + FilePasteEffects(CopiedPaths(w.currentPath, copyNames), treeFolder, true)
  {
    w.CutFile(cutNames);
    w.CopyFile(copyNames);
    w.PasteFile(treeFolder, outcome);
  }

  /** After copyFolder, the next pasteFile takes the folder branch. */
  method CopyFolderThenPaste(w: Window, treePath: string, treeFolder: string, outcome: TreeCopyOutcome)
    modifies w
    ensures w.effects == old(w.effects) + FolderPasteEffects(treePath, treeFolder, outcome, false)
  {
    w.CopyFolder(treePath);
    w.PasteFile(treeFolder, outcome);
  }
}
