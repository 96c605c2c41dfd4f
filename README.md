# QFileManager main-window bookkeeping, in Dafny

QFileManager is a two-pane PyQt5 file manager. It has a folder tree on the
left and a file list on the right. Its main window, `myWindow` in
`QFileManager.py`, keeps a little state of its own behind the widgets, and
this project models that state and proves what it guarantees:

- **Copy, cut and paste.** `copyFile` fills the copy list with
  `currentPath/name` for each selected row and puts the list on the
  clipboard. `cutFile` also sets `cut`. `copyFolder` records a folder and
  empties the copy list. `pasteFile` copies each listed file into the
  tree's folder, and removes it as well when `cut` is set. With an empty
  list it copies the recorded folder instead, falling back to a
  single-file copy when the source is not a directory. `pasteFolder` does
  the same for the folder only.
- **The hidden-files flag.** `enableHidden` flips the flag and makes the
  views' filters and the "show hidden Files" check mark follow it.
  `writeSettings` stores the flag. At start-up, `readSettings` inverts the
  stored text and the constructor's `enableHidden` call inverts it back.
- **Path-string rules.** These cover:
  - which actions `contextMenuEvent` puts in the context menu for a path;
  - the ffmpeg target of `makeMP3`;
  - the file and the contents of the playlist `makePlaylist` writes;
  - the targets of `renameFile` and `renameFolder`;
  - the paste destinations.

Files:

- `paths.dfy` (module `Paths`): the Python and Qt string rules the window
  relies on. These are `in`, `endswith`, `replace`, `join`, `split`,
  `upper`/`lower` and string order, and the `fileName()`/`suffix()` of
  `QFileInfo`.
- `names.dfy` (module `Names`): the names and texts the window builds.
  These are the mp3 target, the playlist path and text, and the paste and
  rename destinations.
- `menu.dfy` (module `MenuBlocks`): the context menu block by block, for
  any extension tables. It has a method that builds each block with the
  loops `contextMenuEvent` runs, and the counting and ordering facts about the
  result.
- `context_menu.dfy` (module `ContextMenu`): `contextMenuEvent` itself,
  with the extension tables as `QFileManager.py` spells them out, and the facts
  that depend on those particular tables.
- `window.dfy` (module `FileManager`): class `Window` with the fields and
  methods of `myWindow`. What the window asks of the filesystem and of
  other programs is appended to a log field, `effects`. Anything the
  outside world answers is a parameter:
  - the selected names;
  - the dialog's text and whether it was accepted;
  - the folder listing;
  - how `shutil.copytree` ended.

The program runs on Linux, so `errno.ENOTDIR` is 20. QSettings stores a
Python bool as the text `"true"` or `"false"`, and that text is what
`readSettings` later compares with `"false"`.

## Definitions

These functions carry no contract of their own; each defines what a part of
`myWindow` computes, and the rows below state what holds of it.

- `Paths.ReplaceAll`: `str.replace`, as `makeMP3` uses it (QFileManager.py:660).
- `Paths.FileName`: `QFileInfo.fileName()` (QFileManager.py:669, 997, 1014).
- `Paths.Suffix`: `QFileInfo.suffix()` (QFileManager.py:659).
- `Paths.Upper`, `Paths.Lower`: `str.upper()` in the media loops and
  `str.lower` as the sort key (QFileManager.py:871, 681).
- `Names.Mp3Target`: the ffmpeg output path of `makeMP3` (QFileManager.py:655-660).
- `Names.PlaylistText`: the text `makePlaylist` writes (QFileManager.py:674-684).
- `Names.PasteDestination`: the destination of one pasted entry or folder
  (QFileManager.py:997, 1014, 1023-1024).
- `Names.RenameTarget`: `basepath + "/" + newName` (QFileManager.py:956, 971).
- `MenuBlocks.ListMenuOf`: the menu with the file list focused (QFileManager.py:835-905).
- `MenuBlocks.TreeMenuOf`: the menu with the folder tree focused (QFileManager.py:906-921).
- `FileManager.ReadHidden`: the flag `readSettings` derives from the store
  (QFileManager.py:321-325).
- `FileManager.StartupHidden`: the flag after the constructor's
  `readSettings` and `enableHidden` calls (QFileManager.py:299-300).
- `FileManager.FilePasteEffects`: the operations of `pasteFile`'s copy-list
  branch (QFileManager.py:1009-1019).
- `FileManager.FolderPasteEffects`: the operations of `pasteFolder` and of
  `pasteFile`'s folder branch (QFileManager.py:994-1006, 1020-1032).
- `FileManager.RenameEffects`, `FileManager.FolderRenameEffects`: the
  rename `renameFile` and `renameFolder` ask for (QFileManager.py:946-974).
- `FileManager.ConvertEffects`: the ffmpeg process `makeMP3` starts
  (QFileManager.py:655-664).

## Model

| member | source | states |
|---|---|---|
| Paths.AfterLast | QFileManager.py:1014 | the text after the last separator contains no separator, ends the string, and follows a separator unless it is the whole string |
| Paths.FileNameOfJoin | QFileManager.py:1014 | `QFileInfo(dir + "/" + name).fileName()` is `name` when `name` has no '/' |
| Paths.SuffixOfJoin | QFileManager.py:659 | the suffix of `dir/stem.ext` is `ext` when `stem` and `ext` hold no '/' and `ext` holds no '.' |
| Paths.ReplaceAbsent | QFileManager.py:660 | `str.replace` leaves a string without the pattern unchanged |
| Paths.ReplaceIdentity | QFileManager.py:660 | replacing a pattern by itself changes nothing |
| Paths.ReplaceFirstOccurrence | QFileManager.py:660 | the scan copies the text before the first occurrence, replaces it, and goes on after it |
| Paths.ReplaceOnlyAtEndOf | QFileManager.py:660 | a pattern that occurs only at the end of the string is the one replaced |
| Paths.Split | QFileManager.py:984 | splitting at a character gives a non-empty list of separator-free pieces whose join is the original text |
| Paths.SplitJoin | QFileManager.py:984 | splitting the `'\n'.join` of newline-free entries gives the entries back |
| Paths.LexLeqTotal | QFileManager.py:681 | Python's string order compares any two strings |
| Names.Mp3TargetOfMediaFile | QFileManager.py:655-660 | for `dir/stem.ext` with no other ".ext", the target is `dir/stem.mp3` |
| Names.Mp3TargetRenamesFolderToo | QFileManager.py:655-660 | in `folder.ext/stem.ext` every ".ext" is replaced, so the target lies in `folder.mp3/`, a different folder |
| Names.Mp3TargetWithoutSuffix | QFileManager.py:658-660 | a file name without '.' has the empty suffix, so the pattern is "." and a '.' in the folder part becomes ".mp3": `/m/x.d/f` targets `/m/x.mp3d/f` |
| Names.Mp3TargetOfMp3File | QFileManager.py:655-660 | converting a file whose suffix is already "mp3" targets the input file itself |
| Names.Mp3TargetWithoutDot | QFileManager.py:655-660 | a path with no '.' is its own target |
| Names.PlaylistPathName | QFileManager.py:668-671 | the playlist lies in `currentPath/` and is named after the tree's folder plus ".m3u" |
| Names.Mp3Paths | QFileManager.py:674-679 | the kept paths are exactly `dir/name` for the listed regular files whose name contains ".mp3"; there are none exactly when no entry qualifies |
| Names.Mp3PathsAppend | QFileManager.py:676-679 | scanning one more entry appends its path exactly when it is an mp3 file |
| Names.InsertByLower | QFileManager.py:681 | inserting into a list sorted by lower-cased text keeps it sorted and adds exactly that element |
| Names.SortByLower | QFileManager.py:681 | `sort(key=str.lower)` gives a list sorted by lower-cased text with the same elements |
| Names.PlaylistWithoutMp3 | QFileManager.py:674-684 | a folder without mp3 files gets an empty playlist |
| Names.PlaylistListsItself | QFileManager.py:671-679 | when the listing holds the playlist file, which the open before the scan creates, the playlist names its own path exactly when its file name contains ".mp3" |
| Names.PlaylistLines | QFileManager.py:674-684 | read back line by line, the playlist holds exactly the folder's mp3 files as `dir/name`, each as often as listed, sorted case-insensitively |
| Names.PasteDestinationOfEntry | QFileManager.py:1014 | an entry `dir/name` is pasted as `treeFolder/name` |
| Names.RenameStaysInFolder | QFileManager.py:956-958 | a rename target stays in the item's parent folder and carries the new name |
| MenuBlocks.AddPerMatch | QFileManager.py:855-857 | an extension loop appends its entries once per extension that passes the test, in table order |
| MenuBlocks.AddEditBlock | QFileManager.py:836-852 | the opening block: new folder, open, edit, "new window" for a directory only, rename, copy/cut/paste, terminals, make executable |
| MenuBlocks.AddViewerBlock | QFileManager.py:853-872 | the database, web and image loops, with the python pair between them for a ".py" path |
| MenuBlocks.AddMediaBlock | QFileManager.py:873-894 | trash and delete, playlist player for ".m3u", the player loop, the converter loop, playlist maker for ".mp3" |
| MenuBlocks.AddToolBlock | QFileManager.py:895-904 | refresh, hidden files, zip, the archive loop, help |
| MenuBlocks.AddListMenu | QFileManager.py:835-905 | the list-focus menu is the four blocks in order |
| MenuBlocks.AddTreeMenu | QFileManager.py:911-920 | the tree-focus menu holds the folder actions for a directory only |
| MenuBlocks.TreeMenuFolderActions | QFileManager.py:906-921 | with the tree focused, a directory gets nine folder actions and no separator, anything else nothing; the file clipboard actions are never there |
| MenuBlocks.OccurrencesAppend | QFileManager.py:835-905 | occurrences of an action in a menu built from two parts add up |
| MenuBlocks.PerMatchOccurrences | QFileManager.py:855-857 | a loop adding an action once per match holds it once per matching extension |
| MenuBlocks.PythonPairExactlyForPy | QFileManager.py:864-866 | addAction is called once for each of "run in python 2/3" if the path ends with ".py" and never otherwise |
| MenuBlocks.NewWindowExactlyForDirectory | QFileManager.py:841-842 | addAction is called once for "open in new window" for a directory and never otherwise |
| MenuBlocks.UnzipPairPerArchiveExtension | QFileManager.py:898-902 | addAction is called for each of the unzip pair once per archive extension found in the path |
| MenuBlocks.PlayPairPerMediaExtension | QFileManager.py:879-886 | addAction is called for each of the play pair once per media extension found in the path as written or upper-cased |
| MenuBlocks.MatchCountOne | QFileManager.py:881-882 | one matching extension makes the match count at least one |
| MenuBlocks.MatchCountTwo | QFileManager.py:881-882 | two matching extensions make the match count at least two |
| MenuBlocks.FixedActionsInOrder | QFileManager.py:835-905 | whatever the path and its kind, addAction is called for the seventeen path-independent actions, each once, always in the same order |
| ContextMenu.ContextMenuEvent | QFileManager.py:831-921 | the menu is the list menu for the list's path when the list has focus, else the tree menu |
| ContextMenu.PlayTableMatchesTwice | QFileManager.py:879-882 | a path holding "avi" and ".mkv" matches two entries of the player table |
| ContextMenu.PlayPairRepeats | QFileManager.py:879-886 | for such a path addAction is called at least twice for each of the play pair |
| ContextMenu.FlvEntryNeedsSpace | QFileManager.py:879-880 | no path without a space matches ".flv " (with its trailing space as the tables spell it), upper-cased or not |
| ContextMenu.UnzipPairForArchiveTable | QFileManager.py:898-902 | addAction is called for each of the unzip pair once for ".zip" in the path plus once for ".tar.gz" |
| FileManager.StartupHiddenRule | QFileManager.py:321-325 | after start-up hidden files are shown unless the stored value is exactly "false"; a missing key shows them |
| FileManager.HiddenSettingRoundTrip | QFileManager.py:327-330 | the flag written by writeSettings is the flag the next start-up shows |
| FileManager.CopiedPaths | QFileManager.py:976-985 | one entry `currentPath/name` per selected name, in selection order |
| FileManager.ClipboardLines | QFileManager.py:984 | split at its newlines, the clipboard text gives back the copied paths |
| FileManager.CopiedPathsPasteBack | QFileManager.py:1014 | a file copied from `currentPath/name` is pasted as `treeFolder/name` |
| FileManager.FilePasteWithoutCut | QFileManager.py:1012-1019 | without cut, each entry is copied once, in order, to its destination, and nothing is removed |
| FileManager.FilePasteWithCut | QFileManager.py:1012-1019 | with cut, each entry is copied to its destination and removed right after |
| FileManager.FolderPasteOutcomes | QFileManager.py:1020-1032 | the folder goes to `treeFolder/name`; the single-file copy happens exactly on ENOTDIR; another error is reported, and nothing more is copied |
| FileManager.RenameOnlyWhenAccepted | QFileManager.py:946-974 | at most one rename, exactly when the dialog is accepted for a focused list with a selection or for the tree; it moves that item to `parent/newName` |
| FileManager.ConvertTargetsMp3 | QFileManager.py:655-664 | with a selection ffmpeg is started with `-i path dir/stem.mp3`; without one nothing is started |
| FileManager.Window.constructor | QFileManager.py:297-301 | start-up: empty copy state, cut off, currentPath the Documents folder, the flag as the stored setting dictates, check mark and filters agreeing |
| FileManager.Window.CloseEvent | QFileManager.py:303-305 | closing stores the flag as "true" or "false" |
| FileManager.Window.ReadSettings | QFileManager.py:321-325 | a stored "false" sets the flag, any other value clears it, no key leaves it |
| FileManager.Window.WriteSettings | QFileManager.py:327-330 | the flag's text is stored under "hiddenEnabled", other keys untouched |
| FileManager.Window.EnableHidden | QFileManager.py:480-492 | the flag flips and the check mark and filters follow it; nothing else changes |
| FileManager.Window.OnSelectionChanged | QFileManager.py:709-716 | currentPath becomes the tree's folder |
| FileManager.Window.CopyFile | QFileManager.py:976-985 | the copy list becomes one entry per selected row; the clipboard is their newline join, or left as it was for an empty selection |
| FileManager.Window.CutFile | QFileManager.py:1034-1036 | cut is set and the selection copied |
| FileManager.Window.CopyFolder | QFileManager.py:987-992 | the folder is recorded and the copy list emptied |
| FileManager.Window.PasteCopiedFolder | QFileManager.py:1021-1032 | the recorded folder is copied as FolderPasteOutcomes describes |
| FileManager.Window.PasteFolder | QFileManager.py:994-1006 | the folder paste, its error report ending in a TypeError |
| FileManager.Window.PasteEntry | QFileManager.py:1013-1019 | one entry copied, and removed when cut is set |
| FileManager.Window.PasteCopyList | QFileManager.py:1012-1019 | every entry of the copy list pasted in order, cut unchanged |
| FileManager.Window.PasteFile | QFileManager.py:1008-1032 | the file branch for a non-empty copy list, the folder branch otherwise |
| FileManager.Window.RenameFolder | QFileManager.py:962-974 | the tree's item is renamed to `parent/newName` when accepted |
| FileManager.Window.RenameFile | QFileManager.py:946-960 | the list's selected item, or the tree's item when the tree has focus, renamed when accepted |
| FileManager.Window.MakeMP3 | QFileManager.py:655-664 | with a selection, ffmpeg is started on the file and its mp3 target |
| FileManager.Window.CollectMp3Paths | QFileManager.py:676-679 | the scan of currentPath gives the listed regular files whose name contains ".mp3", each as `currentPath/name`, in listing order |
| FileManager.Window.MakePlaylist | QFileManager.py:666-685 | with a selection, the playlist file is first created or emptied; it then receives the sorted mp3 paths of currentPath, one per line, unless `os.listdir` or `open` raises, in which case nothing is written |
| FileManager.ToggleHiddenTwice | QFileManager.py:480-492 | two toggles restore the flag, with check mark and filters agreeing |
| FileManager.RestartKeepsHiddenFlag | QFileManager.py:297-330 | closing and starting again keeps the flag |
| FileManager.CutStaysSticky | QFileManager.py:1016-1019 | after a cut, a later plain copy and paste still removes every source |
| FileManager.CopyFolderThenPaste | QFileManager.py:987-1032 | after copyFolder, pasteFile takes the folder branch for that folder |

## Left out

- Widget construction, menus, toolbars, dialogs, status-bar messages and
  the stderr trace of `dprint` are not modelled. The one exception is the
  error that `pasteFile` prints, which is logged as an effect.
- Window position and size settings are not modelled; only the
  "hiddenEnabled" key of the settings store is.
- The filesystem and external programs are not modelled. `QFile.copy`,
  `QFile.remove`, `QFile.rename`, `QDir.rename`, `shutil.copytree`,
  `shutil.copy`, the playlist's truncating open and its write, and `startDetached("ffmpeg", …)` are
  recorded as requested operations. Their results (the booleans the Qt
  calls return, files created) are not.
- `os.listdir` and `os.path.isfile` are inputs: the listing, in the order
  the system returns it, with a flag per entry.
- The `os.path.isdir` probes in the context menu are inputs too.
- The clipboard is a field of the window, not the system clipboard.
- The outcome of `shutil.copytree` is an input.
  - `shutil.Error` carries no errno; it falls into the "any other errno"
    case.
  - An exception raised by the fallback `shutil.copy` is not modelled.
- Whether makePlaylist's `os.listdir` (QFileManager.py:676) and
  `open(path, 'w')` (QFileManager.py:683) raise is an input too. A failed
  `QFile.open` at QFileManager.py:672-673 is silent and is still recorded
  as the truncation request. The exception that ends the slot is not
  recorded.
- FileManager.Window.PasteFolder: its error branch calls the one-argument
  `infobox` (QFileManager.py:826) with two arguments, so it raises a
  TypeError. This is recorded as an effect. What PyQt does with an
  exception that escapes a slot is not modelled.
- QMenu's collapsing of repeated separators on display is not modelled.
  The model records every `addAction`/`addSeparator` call as made.
- What the menu displays is not modelled, only the calls that build it. Qt
  keeps one copy of each QAction in a widget: adding an action it already
  holds moves that action to the end instead of showing it twice. So
  `MenuBlocks.Occurrences` counts addAction calls, not displayed entries.
  For example, "/w/index.html" matches both ".htm" and ".html" and gets two
  calls for "preview Page" but one entry; a path matching two media
  extensions shows the play pair once, after the last match's separators.
- Paths.Upper and Paths.Lower map only the ASCII letters. Python's full
  Unicode case mapping is not modelled.
- Names.SortByLower states "sorted by lower-cased text" and "same
  elements". It does not state the stability of Python's sort, because the
  order among names that differ only in case is not used by any property
  here.
- Paths.ReplaceAll requires a non-empty pattern. The window only calls it
  with `"." + suffix`, which is never empty; Python's behaviour for an
  empty pattern is not modelled.
- The other uses of `copyList` are not part of this model: zipping files, opening files, deleting and trashing
  (QFileManager.py:594-628, 718-725, 1051-1079) call `copyFile` and then
  act on the list. So are the fields `isInEditMode`, `copyPath` and
  `copyListNew`, which none of the modelled methods read.
- `getFolderSize` (directory I/O), `checkIsApplication` (a shell call),
  the helper windows, Tako.py and TakoColumn.py (widget wiring only) are
  not part of this model.
