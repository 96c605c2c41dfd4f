/**
 * The string rules the file manager relies on: Python's `in`, `str.endswith`,
 * `str.replace`, `str.join`, `str.split`, `str.upper`/`str.lower` and string
 * ordering, and the name parts Qt's QFileInfo gives of a path
 * (`fileName()`, `suffix()`).
 */
module Paths {

  /** `prefix` is an initial segment of `s`. */
  predicate StartsWith(s: string, prefix: string) {
    |prefix| <= |s| && s[..|prefix|] == prefix
  }

  /** Python's `s.endswith(suffix)`. */
  predicate EndsWith(s: string, suffix: string) {
    |suffix| <= |s| && s[|s| - |suffix|..] == suffix
  }

  /** Python's `sub in s`: `sub` occurs in `s` at some position. */
  predicate Contains(s: string, sub: string)
    decreases |s|
  {
    StartsWith(s, sub) || (s != [] && Contains(s[1..], sub))
  }

  /** An occurrence at position `i` makes `sub in s` true. */
  lemma {:induction false} ContainsAt(s: string, sub: string, i: nat)
    requires i + |sub| <= |s| && s[i..i + |sub|] == sub
    ensures Contains(s, sub)
    decreases i
  {
    if i == 0 {
      assert StartsWith(s, sub);
    } else {
      assert s[1..][i - 1..i - 1 + |sub|] == s[i..i + |sub|];
      ContainsAt(s[1..], sub, i - 1);
    }
  }

  /** Every character of an occurring `sub` is a character of `s`. */
  lemma {:induction false} ContainsChar(s: string, sub: string, k: nat)
    requires k < |sub| && Contains(s, sub)
    ensures sub[k] in s
    decreases |s|
  {
    if StartsWith(s, sub) {
      assert s[k] == sub[k];
    } else {
      ContainsChar(s[1..], sub, k);
    }
  }

  /** The part of `s` after its last `c`; all of `s` when `c` does not occur. */
  function AfterLast(s: string, c: char): (t: string)
    ensures c !in t
    ensures EndsWith(s, t)
    ensures |t| < |s| ==> s[|s| - |t| - 1] == c
  {
    if s == [] then []
    else if s[|s| - 1] == c then []
    else AfterLast(s[..|s| - 1], c) + [s[|s| - 1]]
  }

  /** Whatever precedes the last `c`, what follows it is `AfterLast`. */
  lemma {:induction false} AfterLastOf(front: string, c: char, t: string)
    requires c !in t
    ensures AfterLast(front + [c] + t, c) == t
    decreases |t|
  {
    var s := front + [c] + t;
    if t != [] {
      assert s[..|s| - 1] == front + [c] + t[..|t| - 1];
      AfterLastOf(front, c, t[..|t| - 1]);
      assert t[..|t| - 1] + [t[|t| - 1]] == t;
    }
  }

  /** QFileInfo.fileName(): the last component of a path, after its last '/'. */
  function FileName(path: string): string {
    AfterLast(path, '/')
  }

  /**
   * QFileInfo.suffix(): what follows the last '.' of the file name, or the
   * empty string when the file name has no '.'.
   */
  function Suffix(path: string): string {
    var name := FileName(path);
    if '.' in name then AfterLast(name, '.') else ""
  }

  /** The file name of `dir + "/" + name` is `name` when `name` has no '/'. */
  lemma FileNameOfJoin(dir: string, name: string)
    requires '/' !in name
    ensures FileName(dir + "/" + name) == name
  {
    assert dir + "/" + name == dir + ['/'] + name;
    AfterLastOf(dir, '/', name);
  }

  /** The suffix of `dir/stem.ext` is `ext` when neither part holds '/' and `ext` has no '.'. */
  lemma SuffixOfJoin(dir: string, stem: string, ext: string)
    requires '/' !in stem && '/' !in ext && '.' !in ext
    ensures Suffix(dir + "/" + stem + "." + ext) == ext
  {
    var name := stem + "." + ext;
    assert '/' !in name by {
      forall i | 0 <= i < |name| ensures name[i] != '/' {
        if i < |stem| { assert name[i] == stem[i]; }
        else if i > |stem| { assert name[i] == ext[i - |stem| - 1]; }
      }
    }
    assert dir + "/" + stem + "." + ext == dir + "/" + name;
    FileNameOfJoin(dir, name);
    assert name[|stem|] == '.';
    assert name == stem + ['.'] + ext;
    AfterLastOf(stem, '.', ext);
  }

  /**
   * Python's `s.replace(pat, rep)`: scanning left to right, every occurrence
   * of `pat` that does not overlap an earlier replaced one becomes `rep`.
   */
  function ReplaceAll(s: string, pat: string, rep: string): string
    requires pat != []
    decreases |s|
  {
    if |s| < |pat| then s
    else if StartsWith(s, pat) then rep + ReplaceAll(s[|pat|..], pat, rep)
    else [s[0]] + ReplaceAll(s[1..], pat, rep)
  }

  /** A string without an occurrence of the pattern is left as it is. */
  lemma {:induction false} ReplaceAbsent(s: string, pat: string, rep: string)
    requires pat != [] && !Contains(s, pat)
    ensures ReplaceAll(s, pat, rep) == s
    decreases |s|
  {
    if |s| >= |pat| {
      ReplaceAbsent(s[1..], pat, rep);
      assert [s[0]] + s[1..] == s;
    }
  }

  /** Replacing a pattern by itself changes nothing. */
  lemma {:induction false} ReplaceIdentity(s: string, pat: string)
    requires pat != []
    ensures ReplaceAll(s, pat, pat) == s
    decreases |s|
  {
    if |s| >= |pat| {
      if StartsWith(s, pat) {
        ReplaceIdentity(s[|pat|..], pat);
        assert pat + s[|pat|..] == s;
      } else {
        ReplaceIdentity(s[1..], pat);
        assert [s[0]] + s[1..] == s;
      }
    }
  }

  /**
   * When the pattern first occurs in `stem + pat + rest` right after `stem`,
   * the scan copies `stem`, replaces that occurrence and goes on with `rest`.
   */
  lemma {:induction false} ReplaceFirstOccurrence(stem: string, pat: string, rep: string, rest: string)
    requires pat != []
    requires !Contains(stem + pat[..|pat| - 1], pat)
    ensures ReplaceAll(stem + pat + rest, pat, rep) == stem + rep + ReplaceAll(rest, pat, rep)
    decreases |stem|
  {
    var s := stem + pat + rest;
    if stem == [] {
      assert s[..|pat|] == pat;
      assert s[|pat|..] == rest;
    } else {
      var head := stem + pat[..|pat| - 1];
      assert head[1..] == stem[1..] + pat[..|pat| - 1];
      assert !Contains(head[1..], pat);
      assert s[1..] == stem[1..] + pat + rest;
      ReplaceFirstOccurrence(stem[1..], pat, rep, rest);
      assert [stem[0]] + (stem[1..] + rep + ReplaceAll(rest, pat, rep))
          == stem + rep + ReplaceAll(rest, pat, rep);
    }
  }

  /**
   * When the pattern occurs in `stem + pat` only at its end, replacing all
   * occurrences replaces exactly that final one.
   */
  lemma ReplaceOnlyAtEnd(stem: string, pat: string, rep: string)
    requires pat != []
    requires !Contains(stem + pat[..|pat| - 1], pat)
    ensures ReplaceAll(stem + pat, pat, rep) == stem + rep
  {
    ReplaceFirstOccurrence(stem, pat, rep, []);
    assert stem + pat + [] == stem + pat;
  }

  /** The same, for a string given whole: its final `pat` is the only occurrence. */
  lemma ReplaceOnlyAtEndOf(s: string, pat: string, rep: string)
    requires pat != [] && EndsWith(s, pat)
    requires !Contains(s[..|s| - 1], pat)
    ensures ReplaceAll(s, pat, rep) == s[..|s| - |pat|] + rep
  {
    var stem := s[..|s| - |pat|];
    assert s == stem + pat;
    assert s[..|s| - 1] == stem + pat[..|pat| - 1];
    ReplaceOnlyAtEnd(stem, pat, rep);
  }

  /** Python's `sep.join(parts)`. */
  function Join(parts: seq<string>, sep: string): string
    decreases |parts|
  {
    if parts == [] then ""
    else if |parts| == 1 then parts[0]
    else parts[0] + sep + Join(parts[1..], sep)
  }

  /**
   * Python's `s.split(c)` for a one-character separator: the pieces between
   * the separators, never an empty list, and joining them gives `s` back.
   */
  function Split(s: string, c: char): (parts: seq<string>)
    ensures parts != []
    ensures forall i :: 0 <= i < |parts| ==> c !in parts[i]
    ensures Join(parts, [c]) == s
    decreases |s|
  {
    if s == [] then [[]]
    else
      var rest := Split(s[1..], c);
      if s[0] == c then
        assert ([[]] + rest)[1..] == rest;
        [[]] + rest
      else
        var parts := [[s[0]] + rest[0]] + rest[1..];
        assert parts[1..] == rest[1..];
        assert Join(parts, [c]) == s by {
          if |rest| > 1 {
            assert Join(rest, [c]) == rest[0] + [c] + Join(rest[1..], [c]);
          }
          assert [s[0]] + s[1..] == s;
        }
        parts
  }

  /** A string without the separator splits into itself alone. */
  lemma {:induction false} SplitWithoutSeparator(s: string, c: char)
    requires c !in s
    ensures Split(s, c) == [s]
    decreases |s|
  {
    if s != [] {
      SplitWithoutSeparator(s[1..], c);
      assert [s[0]] + s[1..] == s;
    }
  }

  /** A separator-free head splits off as the first piece. */
  lemma {:induction false} SplitAfterHead(head: string, c: char, tail: string)
    requires c !in head
    ensures Split(head + [c] + tail, c) == [head] + Split(tail, c)
    decreases |head|
  {
    var s := head + [c] + tail;
    if head == [] {
      assert s[0] == c && s[1..] == tail;
    } else {
      assert s[1..] == head[1..] + [c] + tail;
      SplitAfterHead(head[1..], c, tail);
      assert [head[0]] + head[1..] == head;
    }
  }

  /** Splitting a join of separator-free, non-empty list of parts gives the parts back. */
  lemma {:induction false} SplitJoin(parts: seq<string>, c: char)
    requires parts != []
    requires forall i :: 0 <= i < |parts| ==> c !in parts[i]
    ensures Split(Join(parts, [c]), c) == parts
    decreases |parts|
  {
    if |parts| == 1 {
      SplitWithoutSeparator(parts[0], c);
    } else {
      SplitJoin(parts[1..], c);
      SplitAfterHead(parts[0], c, Join(parts[1..], [c]));
      assert [parts[0]] + parts[1..] == parts;
    }
  }

  /** Python's `str.upper()` on the ASCII letters. */
  function UpperChar(ch: char): char {
    if 'a' <= ch <= 'z' then (ch as int - 32) as char else ch
  }

  /** Python's `str.lower()` on the ASCII letters. */
  function LowerChar(ch: char): char {
    if 'A' <= ch <= 'Z' then (ch as int + 32) as char else ch
  }

  /** Python's `s.upper()`, character by character. */
  function Upper(s: string): string {
    seq(|s|, i requires 0 <= i < |s| => UpperChar(s[i]))
  }

  /** Python's `s.lower()`, character by character. */
  function Lower(s: string): string {
    seq(|s|, i requires 0 <= i < |s| => LowerChar(s[i]))
  }

  /** Python's `a <= b` on strings: code point by code point, a proper prefix first. */
  predicate LexLeq(a: string, b: string)
    decreases |a|
  {
    a == [] || (b != [] && (a[0] < b[0] || (a[0] == b[0] && LexLeq(a[1..], b[1..]))))
  }

  /** String order is total. */
  lemma {:induction false} LexLeqTotal(a: string, b: string)
    ensures LexLeq(a, b) || LexLeq(b, a)
    decreases |a|
  {
    if a != [] && b != [] && a[0] == b[0] {
      LexLeqTotal(a[1..], b[1..]);
    }
  }
}
