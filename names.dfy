/**
 * The names the main window builds: the ffmpeg target of "convert to mp3",
 * the playlist file and its contents, and the destinations of paste and
 * rename.
 */
module Names {
  import opened Paths

  /** makeMP3: the ffmpeg output path, every "." + suffix of the file replaced by ".mp3". */
  function Mp3Target(path: string): string {
    ReplaceAll(path, "." + Suffix(path), ".mp3")
  }

  /** Replacing ".ext" in `dir/stem.ext` whose only ".ext" is the final one. */
  lemma ReplaceFinalExtension(path: string, front: string, ext: string)
    requires path == front + "." + ext
    requires !Contains(path[..|path| - 1], "." + ext)
    ensures ReplaceAll(path, "." + ext, ".mp3") == front + ".mp3"
  {
    var pat := "." + ext;
    assert path == front + pat;
    ReplaceOnlyAtEndOf(path, pat, ".mp3");
    assert path[..|path| - |pat|] == front;
  }

  /**
   * For `dir/stem.ext` whose ".ext" occurs nowhere but at its end, the
   * target is `dir/stem.mp3`.
   */
  lemma Mp3TargetOfMediaFile(path: string, dir: string, stem: string, ext: string)
    requires path == dir + "/" + stem + "." + ext
    requires '/' !in stem && '/' !in ext && '.' !in ext
    requires !Contains(path[..|path| - 1], "." + ext)
    ensures Mp3Target(path) == dir + "/" + stem + ".mp3"
  {
    SuffixOfJoin(dir, stem, ext);
    ReplaceFinalExtension(path, dir + "/" + stem, ext);
  }

  /** Replacing `pat` in `folder + pat + "/" + stem + pat` where `pat` occurs only those two times. */
  lemma ReplaceBothExtensions(folder: string, stem: string, pat: string)
    requires pat != []
    requires !Contains(folder + pat[..|pat| - 1], pat)
    requires !Contains("/" + stem + pat[..|pat| - 1], pat)
    ensures ReplaceAll(folder + pat + ("/" + stem + pat), pat, ".mp3") == folder + ".mp3" + ("/" + stem + ".mp3")
  {
    ReplaceFirstOccurrence(folder, pat, ".mp3", "/" + stem + pat);
    ReplaceOnlyAtEnd("/" + stem, pat, ".mp3");
  }

  /** `folder.ext/stem.ext` and `folder.mp3/stem.mp3` regrouped around their extensions. */
  lemma FolderFileShape(folder: string, stem: string, ext: string)
    ensures folder + "." + ext + "/" + stem + "." + ext == folder + ("." + ext) + ("/" + stem + ("." + ext))
    ensures folder + ".mp3" + ("/" + stem + ".mp3") == folder + ".mp3" + "/" + stem + ".mp3"
  {
  }

  /**
   * The suffix is replaced wherever it occurs: in `folder.ext/stem.ext` the
   * folder's ".ext" becomes ".mp3" too, so ffmpeg is asked to write into a
   * folder `folder.mp3`.
   */
  lemma Mp3TargetRenamesFolderToo(folder: string, stem: string, ext: string)
    requires '/' !in stem && '/' !in ext && '.' !in ext
    requires !Contains(folder + ("." + ext)[..|ext|], "." + ext)
    requires !Contains("/" + stem + ("." + ext)[..|ext|], "." + ext)
    ensures Mp3Target(folder + "." + ext + "/" + stem + "." + ext) == folder + ".mp3" + "/" + stem + ".mp3"
  {
    var pat := "." + ext;
    SuffixOfJoin(folder + "." + ext, stem, ext);
    FolderFileShape(folder, stem, ext);
    ReplaceBothExtensions(folder, stem, pat);
  }

  /** Converting a file whose suffix is already "mp3" targets the file itself. */
  lemma Mp3TargetOfMp3File(path: string)
    requires Suffix(path) == "mp3"
    ensures Mp3Target(path) == path
  {
    assert "." + Suffix(path) == ".mp3";
    ReplaceIdentity(path, ".mp3");
  }

  /** A path without any '.' is its own target: ffmpeg is asked to overwrite its input. */
  lemma Mp3TargetWithoutDot(path: string)
    requires '.' !in path
    ensures Mp3Target(path) == path
  {
    var pat := "." + Suffix(path);
    if Contains(path, pat) {
      ContainsChar(path, pat, 0);
    }
    ReplaceAbsent(path, pat, ".mp3");
  }

  /** A string without '.' has no occurrence of ".". */
  lemma NoDot(s: string)
    requires '.' !in s
    ensures !Contains(s, ".")
  {
    if Contains(s, ".") {
      ContainsChar(s, ".", 0);
    }
  }

  /** A pattern occurring once, right after `front`, is replaced there alone. */
  lemma ReplaceSingle(front: string, pat: string, rep: string, rest: string)
    requires pat != []
    requires !Contains(front + pat[..|pat| - 1], pat) && !Contains(rest, pat)
    ensures ReplaceAll(front + pat + rest, pat, rep) == front + rep + rest
  {
    ReplaceFirstOccurrence(front, pat, rep, rest);
    ReplaceAbsent(rest, pat, rep);
  }

  /** `mid/name` has no '.' when neither part has one. */
  lemma NoDotInJoin(mid: string, name: string)
    requires '.' !in mid && '.' !in name
    ensures '.' !in mid + "/" + name
  {
    var rest := mid + "/" + name;
    forall i | 0 <= i < |rest| ensures rest[i] != '.' {
      if i < |mid| { assert rest[i] == mid[i]; }
      else if i > |mid| { assert rest[i] == name[i - |mid| - 1]; }
    }
  }

  /**
   * A file name without '.' has the empty suffix, so the pattern is "." alone
   * and a '.' of the folder part becomes ".mp3": `/m/x.d/f` is converted to
   * `/m/x.mp3d/f`.
   */
  lemma Mp3TargetWithoutSuffix(front: string, mid: string, name: string)
    requires '.' !in front && '.' !in mid && '.' !in name && '/' !in name
    ensures Mp3Target(front + "." + mid + "/" + name) == front + ".mp3" + mid + "/" + name
  {
    var path := front + "." + mid + "/" + name;
    FileNameOfJoin(front + "." + mid, name);
    assert "." + Suffix(path) == ".";
    NoDot(front);
    assert front + "."[..0] == front;
    NoDotInJoin(mid, name);
    NoDot(mid + "/" + name);
    ReplaceSingle(front, ".", ".mp3", mid + "/" + name);
    assert path == front + "." + (mid + "/" + name);
  }

  /** makePlaylist: the playlist file `currentPath/folderName.m3u`. */
  function PlaylistPath(currentPath: string, folderName: string): string {
    currentPath + "/" + folderName + ".m3u"
  }

  /** The playlist lands in the current folder, named after the tree's folder. */
  lemma PlaylistPathName(currentPath: string, folderName: string)
    requires '/' !in folderName
    ensures FileName(PlaylistPath(currentPath, folderName)) == folderName + ".m3u"
    ensures StartsWith(PlaylistPath(currentPath, folderName), currentPath + "/")
  {
    var name := folderName + ".m3u";
    assert '/' !in name by {
      forall i | 0 <= i < |name| ensures name[i] != '/' {
        if i < |folderName| { assert name[i] == folderName[i]; }
      }
    }
    assert PlaylistPath(currentPath, folderName) == currentPath + "/" + name;
    FileNameOfJoin(currentPath, name);
  }

  /** One entry of `os.listdir`, with what `os.path.isfile` answers for it. */
  datatype DirEntry = DirEntry(name: string, isFile: bool)

  /** The entries makePlaylist keeps: regular files whose name contains ".mp3". */
  predicate IsMp3Entry(e: DirEntry) {
    e.isFile && Contains(e.name, ".mp3")
  }

  /** The listing filtered to mp3 files, each prefixed with `dir + "/"`, in listing order. */
  function Mp3Paths(dir: string, listing: seq<DirEntry>): (paths: seq<string>)
    ensures |paths| <= |listing|
    ensures paths == [] <==> forall e :: e in listing ==> !IsMp3Entry(e)
    ensures forall p :: p in paths <==>
              exists e :: e in listing && IsMp3Entry(e) && p == dir + "/" + e.name
    decreases |listing|
  {
    if listing == [] then []
    else
      var rest := Mp3Paths(dir, listing[1..]);
      assert forall e :: e in listing <==> e == listing[0] || e in listing[1..];
      (if IsMp3Entry(listing[0]) then [dir + "/" + listing[0].name] else []) + rest
  }

  /** Scanning one more entry appends its path exactly when it is an mp3 file. */
  lemma {:induction false} Mp3PathsAppend(dir: string, listing: seq<DirEntry>, e: DirEntry)
    ensures Mp3Paths(dir, listing + [e])
         == Mp3Paths(dir, listing) + (if IsMp3Entry(e) then [dir + "/" + e.name] else [])
    decreases |listing|
  {
    if listing == [] {
      assert ([] + [e])[1..] == [];
    } else {
      var s := listing + [e];
      assert s[0] == listing[0];
      assert s[1..] == listing[1..] + [e];
      Mp3PathsAppend(dir, listing[1..], e);
    }
  }

  /** The key order of `sort(key=str.lower)`. */
  predicate LowerLeq(a: string, b: string) {
    LexLeq(Lower(a), Lower(b))
  }

  predicate SortedByLower(xs: seq<string>) {
    forall i :: 0 < i < |xs| ==> LowerLeq(xs[i - 1], xs[i])
  }

  /** One step of a stable insertion sort: `x` goes before the first element not below it. */
  function InsertByLower(x: string, ys: seq<string>): (r: seq<string>)
    requires SortedByLower(ys)
    ensures SortedByLower(r)
    ensures multiset(r) == multiset(ys) + multiset{x}
    ensures r[0] == x || (ys != [] && r[0] == ys[0])
    decreases |ys|
  {
    if ys == [] || LowerLeq(x, ys[0]) then [x] + ys
    else
      LexLeqTotal(Lower(x), Lower(ys[0]));
      var tail := InsertByLower(x, ys[1..]);
      assert ys == [ys[0]] + ys[1..];
      [ys[0]] + tail
  }

  /** `mp3List.sort(key=str.lower)`: ordered by lower-cased name, same elements. */
  function SortByLower(xs: seq<string>): (ys: seq<string>)
    ensures SortedByLower(ys)
    ensures multiset(ys) == multiset(xs)
    decreases |xs|
  {
    if xs == [] then []
    else
      assert xs == [xs[0]] + xs[1..];
      InsertByLower(xs[0], SortByLower(xs[1..]))
  }

  /** The text makePlaylist writes: the sorted mp3 paths, one per line. */
  function PlaylistText(dir: string, listing: seq<DirEntry>): string {
    Join(SortByLower(Mp3Paths(dir, listing)), "\n")
  }

  /** A folder without mp3 files gets an empty playlist. */
  lemma PlaylistWithoutMp3(dir: string, listing: seq<DirEntry>)
    requires forall e :: e in listing ==> !IsMp3Entry(e)
    ensures PlaylistText(dir, listing) == ""
  {
    var paths := Mp3Paths(dir, listing);
    assert multiset(SortByLower(paths)) == multiset{};
  }

  /** No mp3 path holds a newline when neither the folder nor any name does. */
  lemma Mp3PathsWithoutNewline(dir: string, listing: seq<DirEntry>)
    requires '\n' !in dir
    requires forall e :: e in listing ==> '\n' !in e.name
    ensures forall p :: p in Mp3Paths(dir, listing) ==> '\n' !in p
  {
    forall p | p in Mp3Paths(dir, listing) ensures '\n' !in p {
      var e :| e in listing && IsMp3Entry(e) && p == dir + "/" + e.name;
      assert p == dir + ['/'] + e.name;
    }
  }

  /** Two lists with the same elements counted with multiplicity have the same members. */
  lemma SameMembers(xs: seq<string>, ys: seq<string>)
    requires multiset(xs) == multiset(ys)
    ensures forall p :: p in xs <==> p in ys
  {
    forall p ensures p in xs <==> p in ys {
      assert p in xs <==> p in multiset(xs);
      assert p in ys <==> p in multiset(ys);
    }
  }

  /**
   * Read back line by line, the playlist holds exactly the mp3 files of the
   * folder, each as `dir/name`, in case-insensitive order.
   */
  lemma PlaylistLines(dir: string, listing: seq<DirEntry>)
    requires exists e :: e in listing && IsMp3Entry(e)
    requires '\n' !in dir
    requires forall e :: e in listing ==> '\n' !in e.name
    ensures var lines := Split(PlaylistText(dir, listing), '\n');
            && SortedByLower(lines)
            && multiset(lines) == multiset(Mp3Paths(dir, listing))
            && forall p :: p in lines <==>
                 exists e :: e in listing && IsMp3Entry(e) && p == dir + "/" + e.name
  {
    var paths := Mp3Paths(dir, listing);
    var sorted := SortByLower(paths);
    SameMembers(sorted, paths);
    assert paths != [];
    assert paths[0] in sorted;
    Mp3PathsWithoutNewline(dir, listing);
    assert forall i :: 0 <= i < |sorted| ==> '\n' !in sorted[i] by {
      forall i | 0 <= i < |sorted| ensures '\n' !in sorted[i] {
        assert sorted[i] in paths;
      }
    }
    assert "\n" == ['\n'];
    SplitJoin(sorted, '\n');
  }

  /**
   * The playlist file exists when the folder is listed, so it is listed too:
   * the playlist names its own path exactly when its name contains ".mp3",
   * as it does for a folder named `best.mp3`.
   */
  lemma PlaylistListsItself(dir: string, folderName: string, listing: seq<DirEntry>)
    requires DirEntry(folderName + ".m3u", true) in listing
    requires '\n' !in dir
    requires forall e :: e in listing ==> '\n' !in e.name
    ensures PlaylistPath(dir, folderName) in Split(PlaylistText(dir, listing), '\n')
        <==> Contains(folderName + ".m3u", ".mp3")
  {
    var own := DirEntry(folderName + ".m3u", true);
    var p := PlaylistPath(dir, folderName);
    assert p == dir + "/" + own.name;
    if exists e :: e in listing && IsMp3Entry(e) {
      PlaylistLines(dir, listing);
      if p in Split(PlaylistText(dir, listing), '\n') {
        var e :| e in listing && IsMp3Entry(e) && p == dir + "/" + e.name;
        assert e.name == p[|dir| + 1..] == own.name;
      }
    } else {
      PlaylistWithoutMp3(dir, listing);
      assert Split("", '\n') == [""];
    }
  }

  /** pasteFile: the destination of one entry, the tree's folder + "/" + its file name. */
  function PasteDestination(treeFolder: string, target: string): string {
    treeFolder + "/" + FileName(target)
  }

  /** An entry `dir/name` recorded by copyFile is pasted as `treeFolder/name`. */
  lemma PasteDestinationOfEntry(treeFolder: string, dir: string, name: string)
    requires '/' !in name
    ensures PasteDestination(treeFolder, dir + "/" + name) == treeFolder + "/" + name
  {
    FileNameOfJoin(dir, name);
  }

  /** renameFile / renameFolder: the new path, parent path + "/" + the new name. */
  function RenameTarget(basePath: string, newName: string): string {
    basePath + "/" + newName
  }

  /** A rename keeps the item in its parent folder and gives it the new name. */
  lemma RenameStaysInFolder(basePath: string, newName: string)
    requires '/' !in newName
    ensures FileName(RenameTarget(basePath, newName)) == newName
    ensures StartsWith(RenameTarget(basePath, newName), basePath + "/")
  {
    FileNameOfJoin(basePath, newName);
  }
}
