/** Path strings as the uploader sees them: `str(item)` of a `pathlib.Path`
    on a POSIX system, the base name that `os.path.basename` extracts, and
    Python's substring test `pattern in path`. */
module Paths {

  /** The string of `Path(dir) / name`, where `dir` is already the string
      of a `Path` (so it is normalised: "." for the current directory, a
      trailing '/' only for the filesystem root). */
  function JoinPath(dir: string, name: string): (r: string)
    ensures |r| >= |name| && r[|r| - |name|..] == name
    ensures dir != "" && dir != "." ==> |dir| <= |r| && r[..|dir|] == dir
  {
    if dir == "" || dir == "." then name
    else if dir[|dir| - 1] == '/' then dir + name
    else dir + "/" + name
  }

  /** `os.path.basename`: everything after the last '/'. */
  function Basename(p: string): (r: string)
    ensures |r| <= |p| && r == p[|p| - |r|..]
    ensures '/' !in r
    ensures |r| < |p| ==> p[|p| - |r| - 1] == '/'
  {
    if p == [] then []
    else if p[|p| - 1] == '/' then []
    else Basename(p[..|p| - 1]) + [p[|p| - 1]]
  }

  /** Python's `p in s` on strings: `p` occurs in `s` at some offset. */
  predicate IsSubstring(p: string, s: string)
    decreases |s|
  {
    p <= s || (|s| > 0 && IsSubstring(p, s[1..]))
  }

  /** The base name of a name placed after a separator is that name. */
  lemma {:induction false} BasenameAfterSeparator(pre: string, name: string)
    requires name != [] && '/' !in name
    requires pre == [] || pre[|pre| - 1] == '/'
    ensures Basename(pre + name) == name
    decreases |name|
  {
    var p := pre + name;
    var init := name[..|name| - 1];
    var last := name[|name| - 1];
    assert last != '/';
    assert p[|p| - 1] == last;
    assert p[..|p| - 1] == pre + init;
    assert Basename(p) == Basename(pre + init) + [last];
    if init == [] {
      assert pre + init == pre;
      assert Basename(pre) == [];
    } else {
      BasenameAfterSeparator(pre, init);
    }
    assert name == init + [last];
  }

  /** The base name of a joined path is the entry's own name, which is what
      `upload_file` sends as the file name. */
  lemma BasenameOfJoin(dir: string, name: string)
    requires name != [] && '/' !in name
    ensures Basename(JoinPath(dir, name)) == name
  {
    if dir == "" || dir == "." {
      BasenameAfterSeparator([], name);
      assert [] + name == name;
    } else if dir[|dir| - 1] == '/' {
      BasenameAfterSeparator(dir, name);
    } else {
      BasenameAfterSeparator(dir + "/", name);
      assert dir + "/" + name == (dir + "/") + name;
    }
  }

  /** A substring of `s` is a substring of every extension of `s`. */
  lemma {:induction false} SubstringOfLonger(p: string, s: string, t: string)
    requires IsSubstring(p, s)
    ensures IsSubstring(p, s + t)
    decreases |s|
  {
    if p <= s {
      assert (s + t)[..|p|] == s[..|p|];
    } else {
      SubstringOfLonger(p, s[1..], t);
      assert (s + t)[1..] == s[1..] + t;
    }
  }

  /** A substring of `t` is a substring of every string that ends in `t`. */
  lemma {:induction false} SubstringOfSuffix(p: string, s: string, t: string)
    requires IsSubstring(p, t)
    ensures IsSubstring(p, s + t)
    decreases |s|
  {
    if s == [] {
      assert s + t == t;
    } else {
      SubstringOfSuffix(p, s[1..], t);
      assert (s + t)[1..] == s[1..] + t;
    }
  }

  /** A pattern holding a character that `s` lacks does not occur in `s`. */
  lemma {:induction false} NotSubstringForMissingChar(p: string, s: string, c: char)
    requires c in p && c !in s
    ensures !IsSubstring(p, s)
    decreases |s|
  {
    if |s| > 0 {
      NotSubstringForMissingChar(p, s[1..], c);
    }
  }
}
