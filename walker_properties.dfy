/** What the walk of `upload_directory` promises about the calls it makes:
    skipped entries are as if absent, small files are uploaded, a folder that
    could not be created hides its contents, every parent id was handed out
    by the service earlier in the walk, every upload is followed by exactly
    one pause, and a clean tree on a cooperative service is mirrored whole. */
module WalkerProperties {
  import opened Paths
  import opened Api
  import opened Walker

  // ---------------------------------------------------------------------
  // Composition of walks

  /** Walking `a + b` is walking `a`, then walking `b` after those calls. */
  lemma {:induction false} WalkSplit(w: World, h: seq<Event>, dir: string, a: seq<Entry>, b: seq<Entry>,
                                     parent: Option<FolderId>, patterns: seq<string>)
    ensures var first := Walk(w, h, dir, a, parent, patterns);
            Walk(w, h, dir, a + b, parent, patterns) == first + Walk(w, h + first, dir, b, parent, patterns)
    decreases a
  {
    if a == [] {
      assert a + b == b;
      assert h + [] == h;
    } else {
      assert (a + b)[0] == a[0] && (a + b)[1..] == a[1..] + b;
      var v := Visit(w, h, dir, a[0], parent, patterns);
      var r := Walk(w, h + v, dir, a[1..], parent, patterns);
      WalkSplit(w, h + v, dir, a[1..], b, parent, patterns);
      var x := Walk(w, (h + v) + r, dir, b, parent, patterns);
      AppendAssoc(h, v, r, x);
    }
  }

  /** The walk around entry `i`: the calls for the entries before it, those
      for entry `i` itself, then those for the entries after it. */
  lemma WalkAround(w: World, h: seq<Event>, dir: string, es: seq<Entry>, i: nat,
                   parent: Option<FolderId>, patterns: seq<string>)
    requires i < |es|
    ensures var before := Walk(w, h, dir, es[..i], parent, patterns);
            var visit := Visit(w, h + before, dir, es[i], parent, patterns);
            Walk(w, h, dir, es, parent, patterns)
            == before + (visit + Walk(w, (h + before) + visit, dir, es[i + 1..], parent, patterns))
  {
    assert es == es[..i] + es[i..];
    WalkSplit(w, h, dir, es[..i], es[i..], parent, patterns);
    assert es[i..][0] == es[i] && es[i..][1..] == es[i + 1..];
  }

  // ---------------------------------------------------------------------
  // Exclusion and the size limit

  /** An entry whose path contains an exclusion pattern, or a file over the
      size limit, contributes nothing, not even through its descendants: the
      walk is the walk of the listing without it, so its siblings are
      processed exactly as if it were not there. */
  lemma SkippedEntryIsAbsent(w: World, h: seq<Event>, dir: string, es: seq<Entry>, i: nat,
                             parent: Option<FolderId>, patterns: seq<string>)
    requires i < |es| && Skips(dir, es[i], patterns)
    ensures Walk(w, h, dir, es, parent, patterns)
            == Walk(w, h, dir, es[..i] + es[i + 1..], parent, patterns)
  {
    WalkAround(w, h, dir, es, i, parent, patterns);
    var before := Walk(w, h, dir, es[..i], parent, patterns);
    assert Visit(w, h + before, dir, es[i], parent, patterns) == [];
    var rest := Walk(w, h + before, dir, es[i + 1..], parent, patterns);
    assert (h + before) + [] == h + before;
    assert [] + rest == rest;
    WalkSplit(w, h, dir, es[..i], es[i + 1..], parent, patterns);
  }

  /** A file (or special entry) that is not excluded and not over the limit
      is uploaded under the directory's parent, and the upload is followed
      by a pause. Together with `SkippedEntryIsAbsent` this is the whole
      policy: with `MaxUploadSize` = 104857600, a file of exactly that size
      is uploaded and a file one byte larger is not. */
  lemma SmallEntryIsUploaded(w: World, h: seq<Event>, dir: string, es: seq<Entry>, i: nat,
                             parent: Option<FolderId>, patterns: seq<string>)
    requires i < |es| && !es[i].Dir? && !Skips(dir, es[i], patterns)
    ensures var r := Walk(w, h, dir, es, parent, patterns);
            exists k :: 0 <= k < |r| - 1 && r[k].Upload? && r[k].path == JoinPath(dir, es[i].name)
                        && r[k].parent == parent && r[k + 1] == Delay
  {
    WalkAround(w, h, dir, es, i, parent, patterns);
    var before := Walk(w, h, dir, es[..i], parent, patterns);
    var visit := Visit(w, h + before, dir, es[i], parent, patterns);
    var rest := Walk(w, (h + before) + visit, dir, es[i + 1..], parent, patterns);
    VisitUploads(w, h + before, dir, es[i], parent, patterns);
    UploadInMiddle(before, visit, rest, JoinPath(dir, es[i].name), parent);
  }

  /** An upload and its pause, placed anywhere in a trace, are found there. */
  lemma UploadInMiddle(before: seq<Event>, visit: seq<Event>, rest: seq<Event>, path: string, parent: Option<FolderId>)
    requires |visit| == 2 && UploadOf(visit[0], path, parent) && visit[1] == Delay
    ensures var r := before + (visit + rest);
            exists k :: 0 <= k < |r| - 1 && r[k].Upload? && r[k].path == path
                        && r[k].parent == parent && r[k + 1] == Delay
  {
    var r := before + (visit + rest);
    var k := |before|;
    assert r[k] == visit[0] && r[k + 1] == visit[1];
  }

  /** No pattern occurs in any of the paths. */
  ghost predicate NoneExcluded(paths: seq<string>, patterns: seq<string>)
  {
    forall k :: 0 <= k < |paths| ==> !Excluded(paths[k], patterns)
  }

  /** Every upload in a walk is of a path that no pattern occurs in. */
  lemma {:induction false} VisitUploadsNotExcluded(w: World, h: seq<Event>, dir: string, e: Entry,
                                                   parent: Option<FolderId>, patterns: seq<string>)
    ensures NoneExcluded(UploadPaths(Visit(w, h, dir, e, parent, patterns)), patterns)
    decreases e
  {
    if Skips(dir, e, patterns) {
      VisitSkipped(w, h, dir, e, parent, patterns);
    } else if e.Dir? {
      var outcome := FolderIdFromReply(w.folderReply(h, e.name, parent));
      var created := CreateFolder(e.name, parent, outcome);
      var id := GrantedId(outcome);
      NoneExcludedCreate(created, patterns);
      if id.Some? {
        VisitCreates(w, h, dir, e, parent, patterns, id.value);
        var inner := Walk(w, h + [created], JoinPath(dir, e.name), e.children, id, patterns);
        WalkUploadsNotExcluded(w, h + [created], JoinPath(dir, e.name), e.children, id, patterns);
        NoneExcludedConcat([created], inner, patterns);
      } else {
        VisitRefused(w, h, dir, e, parent, patterns);
      }
    } else {
      VisitUploads(w, h, dir, e, parent, patterns);
      NoneExcludedUpload(Visit(w, h, dir, e, parent, patterns), JoinPath(dir, e.name), parent, patterns);
    }
  }

  /** A folder creation uploads nothing. */
  lemma NoneExcludedCreate(c: Event, patterns: seq<string>)
    requires c.CreateFolder?
    ensures NoneExcluded(UploadPaths([c]), patterns)
  {
    assert [c][1..] == [];
  }

  /** An upload of a path no pattern occurs in, and its pause. */
  lemma NoneExcludedUpload(t: seq<Event>, path: string, parent: Option<FolderId>, patterns: seq<string>)
    requires |t| == 2 && UploadOf(t[0], path, parent) && t[1] == Delay && !Excluded(path, patterns)
    ensures NoneExcluded(UploadPaths(t), patterns)
  {
    UploadPathsOfUpload(t, path, parent);
  }

  lemma NoneExcludedConcat(a: seq<Event>, b: seq<Event>, patterns: seq<string>)
    requires NoneExcluded(UploadPaths(a), patterns) && NoneExcluded(UploadPaths(b), patterns)
    ensures NoneExcluded(UploadPaths(a + b), patterns)
  {
    CallsConcat(a, b);
    var x, y := UploadPaths(a), UploadPaths(b);
    forall k | 0 <= k < |x + y| ensures !Excluded((x + y)[k], patterns) {
      if k < |x| { assert (x + y)[k] == x[k]; } else { assert (x + y)[k] == y[k - |x|]; }
    }
  }

  lemma {:induction false} WalkUploadsNotExcluded(w: World, h: seq<Event>, dir: string, es: seq<Entry>,
                                                  parent: Option<FolderId>, patterns: seq<string>)
    ensures NoneExcluded(UploadPaths(Walk(w, h, dir, es, parent, patterns)), patterns)
    decreases es
  {
    if es != [] {
      var v := Visit(w, h, dir, es[0], parent, patterns);
      var rest := Walk(w, h + v, dir, es[1..], parent, patterns);
      WalkCons(w, h, dir, es, parent, patterns);
      VisitUploadsNotExcluded(w, h, dir, es[0], parent, patterns);
      WalkUploadsNotExcluded(w, h + v, dir, es[1..], parent, patterns);
      NoneExcludedConcat(v, rest, patterns);
    }
  }

  /** When the directory's own path contains a pattern, as the working
      directory may, every entry's path does too, and nothing at all is
      created or uploaded. */
  lemma {:induction false} ExcludedDirectoryYieldsNothing(w: World, h: seq<Event>, dir: string, es: seq<Entry>,
                                                          parent: Option<FolderId>, patterns: seq<string>)
    requires dir != "" && dir != "." && Excluded(dir, patterns)
    ensures Walk(w, h, dir, es, parent, patterns) == []
    decreases es
  {
    if es != [] {
      var path := JoinPath(dir, es[0].name);
      var i :| 0 <= i < |patterns| && IsSubstring(patterns[i], dir);
      assert path == dir + path[|dir|..];
      SubstringOfLonger(patterns[i], dir, path[|dir|..]);
      assert Skips(dir, es[0], patterns);
      assert h + [] == h;
      ExcludedDirectoryYieldsNothing(w, h, dir, es[1..], parent, patterns);
    }
  }

  /** A file named `secrets.env` is skipped by the default patterns, whatever
      its size and wherever it is. */
  lemma SecretsEnvIsSkipped(dir: string, size: nat)
    ensures Skips(dir, File("secrets.env", size), DefaultExcludes)
  {
    var path := JoinPath(dir, "secrets.env");
    var pre := path[..|path| - |"secrets.env"|];
    assert path == pre + "secrets" + ".env";
    assert IsSubstring(".env", ".env");
    SubstringOfSuffix(".env", pre + "secrets", ".env");
    assert DefaultExcludes[3] == ".env";
  }

  // ---------------------------------------------------------------------
  // Failed folder creation

  /** When creating the folder for entry `i` does not give a usable id (the
      call raised, or it returned `None` or a falsy id), nothing is called
      for anything inside that directory: the walk is the same as if the
      directory were empty, and the entries after it are still processed. */
  lemma FailedFolderHidesContents(w: World, h: seq<Event>, dir: string, es: seq<Entry>, i: nat,
                                  parent: Option<FolderId>, patterns: seq<string>)
    requires i < |es| && es[i].Dir?
    requires var before := Walk(w, h, dir, es[..i], parent, patterns);
             GrantedId(FolderIdFromReply(w.folderReply(h + before, es[i].name, parent))).None?
    ensures Walk(w, h, dir, es, parent, patterns)
            == Walk(w, h, dir, es[i := Dir(es[i].name, [])], parent, patterns)
  {
    var es' := es[i := Dir(es[i].name, [])];
    assert es'[..i] == es[..i] && es'[i + 1..] == es[i + 1..];
    WalkAround(w, h, dir, es, i, parent, patterns);
    WalkAround(w, h, dir, es', i, parent, patterns);
    var before := Walk(w, h, dir, es[..i], parent, patterns);
    VisitOfFailedDir(w, h + before, dir, es[i], parent, patterns);
  }

  /** A directory whose folder is not created is visited as an empty one. */
  lemma VisitOfFailedDir(w: World, h: seq<Event>, dir: string, e: Entry, parent: Option<FolderId>, patterns: seq<string>)
    requires e.Dir? && GrantedId(FolderIdFromReply(w.folderReply(h, e.name, parent))).None?
    ensures Visit(w, h, dir, e, parent, patterns) == Visit(w, h, dir, Dir(e.name, []), parent, patterns)
  {
    if !Skips(dir, e, patterns) {
      VisitRefused(w, h, dir, e, parent, patterns);
      VisitRefused(w, h, dir, Dir(e.name, []), parent, patterns);
    }
  }

  // ---------------------------------------------------------------------
  // Delays

  /** Each upload is immediately followed by a pause, and each pause
      immediately follows an upload (so none follows a folder creation). */
  ghost predicate DelaysFollowUploads(t: seq<Event>)
  {
    && (forall k :: 0 <= k < |t| && t[k].Upload? ==> k + 1 < |t| && t[k + 1] == Delay)
    && (forall k :: 0 <= k < |t| && t[k].Delay? ==> 0 < k && t[k - 1].Upload?)
  }

  lemma DelaysFollowUploadsConcat(a: seq<Event>, b: seq<Event>)
    requires DelaysFollowUploads(a) && DelaysFollowUploads(b)
    ensures DelaysFollowUploads(a + b)
  {
    var t := a + b;
    forall k | 0 <= k < |t|
      ensures t[k].Upload? ==> k + 1 < |t| && t[k + 1] == Delay
      ensures t[k].Delay? ==> 0 < k && t[k - 1].Upload?
    {
      if k < |a| {
        assert t[k] == a[k];
        if a[k].Upload? {
          assert t[k + 1] == a[k + 1];
        }
        if 0 < k {
          assert t[k - 1] == a[k - 1];
        }
      } else {
        var m := k - |a|;
        assert t[k] == b[m];
        if b[m].Upload? {
          assert t[k + 1] == b[m + 1];
        }
        if b[m].Delay? {
          assert 0 < m && t[k - 1] == b[m - 1];
        }
      }
    }
  }

  /** A folder creation on its own: no pause, and made under its own parent. */
  lemma CreateAlone(c: Event)
    requires c.CreateFolder?
    ensures DelaysFollowUploads([c]) && ParentsKnown(c.parent, [c])
  {
  }

  /** An upload and its pause. */
  lemma UploadThenDelay(t: seq<Event>)
    requires |t| == 2 && t[0].Upload? && t[1] == Delay
    ensures DelaysFollowUploads(t)
  {
  }

  /** The pause comes after every upload, whatever its result. */
  lemma {:induction false} VisitDelays(w: World, h: seq<Event>, dir: string, e: Entry,
                                       parent: Option<FolderId>, patterns: seq<string>)
    ensures DelaysFollowUploads(Visit(w, h, dir, e, parent, patterns))
    decreases e
  {
    if Skips(dir, e, patterns) {
      VisitSkipped(w, h, dir, e, parent, patterns);
    } else if e.Dir? {
      var outcome := FolderIdFromReply(w.folderReply(h, e.name, parent));
      var created := CreateFolder(e.name, parent, outcome);
      var id := GrantedId(outcome);
      CreateAlone(created);
      if id.Some? {
        VisitCreates(w, h, dir, e, parent, patterns, id.value);
        var inner := Walk(w, h + [created], JoinPath(dir, e.name), e.children, id, patterns);
        WalkDelays(w, h + [created], JoinPath(dir, e.name), e.children, id, patterns);
        DelaysFollowUploadsConcat([created], inner);
      } else {
        VisitRefused(w, h, dir, e, parent, patterns);
      }
    } else {
      VisitUploads(w, h, dir, e, parent, patterns);
      UploadThenDelay(Visit(w, h, dir, e, parent, patterns));
    }
  }

  lemma {:induction false} WalkDelays(w: World, h: seq<Event>, dir: string, es: seq<Entry>,
                                      parent: Option<FolderId>, patterns: seq<string>)
    ensures DelaysFollowUploads(Walk(w, h, dir, es, parent, patterns))
    decreases es
  {
    if es != [] {
      var v := Visit(w, h, dir, es[0], parent, patterns);
      WalkCons(w, h, dir, es, parent, patterns);
      VisitDelays(w, h, dir, es[0], parent, patterns);
      WalkDelays(w, h + v, dir, es[1..], parent, patterns);
      DelaysFollowUploadsConcat(v, Walk(w, h + v, dir, es[1..], parent, patterns));
    }
  }

  // ---------------------------------------------------------------------
  // Parent ids

  /** The id a call handed out: that of a folder creation whose result
      passed `if folder_id:`. */
  function Issued(e: Event): (r: Option<FolderId>)
    ensures r.Some? ==> e.CreateFolder? && Truthy(r.value)
  {
    if e.CreateFolder? then GrantedId(e.outcome) else None
  }

  /** Every call in `t` is made under `root` or under an id that an earlier
      call in `t` handed out. */
  ghost predicate ParentsKnown(root: Option<FolderId>, t: seq<Event>)
  {
    forall k :: 0 <= k < |t| && !t[k].Delay? ==>
      t[k].parent == root || (t[k].parent.Some? && exists j :: 0 <= j < k && Issued(t[j]) == t[k].parent)
  }

  lemma ParentsKnownConcat(root: Option<FolderId>, a: seq<Event>, b: seq<Event>)
    requires ParentsKnown(root, a) && ParentsKnown(root, b)
    ensures ParentsKnown(root, a + b)
  {
    var t := a + b;
    forall k | 0 <= k < |t| && !t[k].Delay? && t[k].parent != root
      ensures t[k].parent.Some? && exists j :: 0 <= j < k && Issued(t[j]) == t[k].parent
    {
      if k < |a| {
        assert t[k] == a[k];
        var j :| 0 <= j < k && Issued(a[j]) == a[k].parent;
        assert t[j] == a[j];
      } else {
        assert t[k] == b[k - |a|];
        var j :| 0 <= j < k - |a| && Issued(b[j]) == b[k - |a|].parent;
        assert t[j + |a|] == b[j];
      }
    }
  }

  /** A folder creation under `root` that handed out `id`, followed by calls
      made under `id`: all of it is under `root` or a known id. */
  lemma ParentsKnownNested(root: Option<FolderId>, c: Event, id: FolderId, b: seq<Event>)
    requires c.CreateFolder? && c.parent == root && Issued(c) == Some(id)
    requires ParentsKnown(Some(id), b)
    ensures ParentsKnown(root, [c] + b)
  {
    var t := [c] + b;
    forall k | 0 < k < |t| && !t[k].Delay? && t[k].parent != root
      ensures t[k].parent.Some? && exists j :: 0 <= j < k && Issued(t[j]) == t[k].parent
    {
      assert t[k] == b[k - 1];
      if b[k - 1].parent == Some(id) {
        assert Issued(t[0]) == t[k].parent;
      } else {
        var j :| 0 <= j < k - 1 && Issued(b[j]) == b[k - 1].parent;
        assert t[j + 1] == b[j];
      }
    }
  }

  /** Parent ids are threaded through the recursion: every call of a walk
      started under `parent` uses `parent` or an id handed out earlier in it. */
  lemma {:induction false} VisitParents(w: World, h: seq<Event>, dir: string, e: Entry,
                                        parent: Option<FolderId>, patterns: seq<string>)
    ensures ParentsKnown(parent, Visit(w, h, dir, e, parent, patterns))
    decreases e
  {
    if Skips(dir, e, patterns) {
      VisitSkipped(w, h, dir, e, parent, patterns);
    } else if e.Dir? {
      var outcome := FolderIdFromReply(w.folderReply(h, e.name, parent));
      var created := CreateFolder(e.name, parent, outcome);
      var id := GrantedId(outcome);
      if id.Some? {
        VisitCreates(w, h, dir, e, parent, patterns, id.value);
        var inner := Walk(w, h + [created], JoinPath(dir, e.name), e.children, id, patterns);
        WalkParents(w, h + [created], JoinPath(dir, e.name), e.children, id, patterns);
        ParentsKnownNested(parent, created, id.value, inner);
      } else {
        VisitRefused(w, h, dir, e, parent, patterns);
      }
    } else {
      VisitUploads(w, h, dir, e, parent, patterns);
    }
  }

  lemma {:induction false} WalkParents(w: World, h: seq<Event>, dir: string, es: seq<Entry>,
                                       parent: Option<FolderId>, patterns: seq<string>)
    ensures ParentsKnown(parent, Walk(w, h, dir, es, parent, patterns))
    decreases es
  {
    if es != [] {
      var v := Visit(w, h, dir, es[0], parent, patterns);
      WalkCons(w, h, dir, es, parent, patterns);
      VisitParents(w, h, dir, es[0], parent, patterns);
      WalkParents(w, h + v, dir, es[1..], parent, patterns);
      ParentsKnownConcat(parent, v, Walk(w, h + v, dir, es[1..], parent, patterns));
    }
  }

  // ---------------------------------------------------------------------
  // A clean tree on a service that creates every folder

  /** The service gives a usable id for every folder creation. */
  ghost predicate AlwaysGrants(w: World)
  {
    forall h, name, parent :: GrantedId(FolderIdFromReply(w.folderReply(h, name, parent))).Some?
  }

  /** No entry of the tree is excluded or over the size limit. */
  predicate CleanEntry(dir: string, e: Entry, patterns: seq<string>)
    decreases e
  {
    !Skips(dir, e, patterns) && (e.Dir? ==> Clean(JoinPath(dir, e.name), e.children, patterns))
  }

  predicate Clean(dir: string, es: seq<Entry>, patterns: seq<string>)
    decreases es
  {
    es == [] || (CleanEntry(dir, es[0], patterns) && Clean(dir, es[1..], patterns))
  }

  /** The paths of the non-directory entries of the tree, depth first in
      listing order. */
  function EntryFilePaths(dir: string, e: Entry): seq<string>
    decreases e
  {
    match e
    case Dir(name, children) => FilePaths(JoinPath(dir, name), children)
    case _ => [JoinPath(dir, e.name)]
  }

  function FilePaths(dir: string, es: seq<Entry>): seq<string>
    decreases es
  {
    if es == [] then [] else EntryFilePaths(dir, es[0]) + FilePaths(dir, es[1..])
  }

  /** The names of the directories of the tree, depth first in listing order. */
  function EntryDirNames(e: Entry): seq<string>
    decreases e
  {
    match e
    case Dir(name, children) => [name] + DirNames(children)
    case _ => []
  }

  function DirNames(es: seq<Entry>): seq<string>
    decreases es
  {
    if es == [] then [] else EntryDirNames(es[0]) + DirNames(es[1..])
  }

  /** The paths of the upload calls of a trace, in order. */
  function UploadPaths(t: seq<Event>): (r: seq<string>)
    ensures |r| <= |t|
  {
    if t == [] then [] else (if t[0].Upload? then [t[0].path] else []) + UploadPaths(t[1..])
  }

  /** The names of the folder creation calls of a trace, in order. */
  function FolderNames(t: seq<Event>): (r: seq<string>)
    ensures |r| <= |t|
  {
    if t == [] then [] else (if t[0].CreateFolder? then [t[0].name] else []) + FolderNames(t[1..])
  }

  /** The trace of one upload and its pause names that one path. */
  lemma UploadPathsOfUpload(t: seq<Event>, path: string, parent: Option<FolderId>)
    requires |t| == 2 && UploadOf(t[0], path, parent) && t[1] == Delay
    ensures UploadPaths(t) == [path] && FolderNames(t) == []
  {
    assert t[1..][1..] == [];
  }

  /** A folder creation followed by other calls adds its name and no upload. */
  lemma CallsAfterCreate(c: Event, b: seq<Event>)
    requires c.CreateFolder?
    ensures UploadPaths([c] + b) == UploadPaths(b) && FolderNames([c] + b) == [c.name] + FolderNames(b)
  {
    assert ([c] + b)[1..] == b;
  }

  lemma CallsConcat(a: seq<Event>, b: seq<Event>)
    ensures UploadPaths(a + b) == UploadPaths(a) + UploadPaths(b)
    ensures FolderNames(a + b) == FolderNames(a) + FolderNames(b)
  {
    UploadPathsConcat(a, b);
    FolderNamesConcat(a, b);
  }

  lemma {:induction false} UploadPathsConcat(a: seq<Event>, b: seq<Event>)
    ensures UploadPaths(a + b) == UploadPaths(a) + UploadPaths(b)
    decreases a
  {
    if a == [] {
      assert a + b == b;
    } else {
      assert (a + b)[0] == a[0] && (a + b)[1..] == a[1..] + b;
      var x := if a[0].Upload? then [a[0].path] else [];
      UploadPathsConcat(a[1..], b);
      AppendAssoc(x, UploadPaths(a[1..]), UploadPaths(b), []);
    }
  }

  lemma {:induction false} FolderNamesConcat(a: seq<Event>, b: seq<Event>)
    ensures FolderNames(a + b) == FolderNames(a) + FolderNames(b)
    decreases a
  {
    if a == [] {
      assert a + b == b;
    } else {
      assert (a + b)[0] == a[0] && (a + b)[1..] == a[1..] + b;
      var x := if a[0].CreateFolder? then [a[0].name] else [];
      FolderNamesConcat(a[1..], b);
      AppendAssoc(x, FolderNames(a[1..]), FolderNames(b), []);
    }
  }

  /** With nothing excluded or oversized and every folder created, each
      directory gets exactly one folder creation and each other entry
      exactly one upload, in listing order; so the numbers of calls are the
      numbers of directories and of files. */
  lemma {:induction false} VisitComplete(w: World, h: seq<Event>, dir: string, e: Entry,
                                         parent: Option<FolderId>, patterns: seq<string>)
    requires AlwaysGrants(w) && CleanEntry(dir, e, patterns)
    ensures var r := Visit(w, h, dir, e, parent, patterns);
            UploadPaths(r) == EntryFilePaths(dir, e) && FolderNames(r) == EntryDirNames(e)
    decreases e
  {
    if e.Dir? {
      var outcome := FolderIdFromReply(w.folderReply(h, e.name, parent));
      var created := CreateFolder(e.name, parent, outcome);
      var id := GrantedId(outcome);
      assert id.Some?;
      VisitCreates(w, h, dir, e, parent, patterns, id.value);
      var inner := Walk(w, h + [created], JoinPath(dir, e.name), e.children, id, patterns);
      WalkComplete(w, h + [created], JoinPath(dir, e.name), e.children, id, patterns);
      CallsAfterCreate(created, inner);
    } else {
      VisitUploads(w, h, dir, e, parent, patterns);
      UploadPathsOfUpload(Visit(w, h, dir, e, parent, patterns), JoinPath(dir, e.name), parent);
    }
  }

  lemma {:induction false} WalkComplete(w: World, h: seq<Event>, dir: string, es: seq<Entry>,
                                        parent: Option<FolderId>, patterns: seq<string>)
    requires AlwaysGrants(w) && Clean(dir, es, patterns)
    ensures var r := Walk(w, h, dir, es, parent, patterns);
            UploadPaths(r) == FilePaths(dir, es) && FolderNames(r) == DirNames(es)
            && |UploadPaths(r)| == |FilePaths(dir, es)| && |FolderNames(r)| == |DirNames(es)|
    decreases es
  {
    if es != [] {
      var v := Visit(w, h, dir, es[0], parent, patterns);
      VisitComplete(w, h, dir, es[0], parent, patterns);
      WalkComplete(w, h + v, dir, es[1..], parent, patterns);
      CallsConcat(v, Walk(w, h + v, dir, es[1..], parent, patterns));
    }
  }

  // ---------------------------------------------------------------------
  // A worked scenario

  /** A path free of the letters `g`, `_`, `D`, `e`, `v` and `n` holds none of
      the default patterns. */
  lemma DefaultsMiss(path: string)
    requires 'g' !in path && '_' !in path && 'D' !in path && 'e' !in path && 'v' !in path && 'n' !in path
    ensures !Excluded(path, DefaultExcludes)
  {
    NotSubstringForMissingChar(".git", path, 'g');
    NotSubstringForMissingChar("__pycache__", path, '_');
    NotSubstringForMissingChar(".DS_Store", path, 'D');
    NotSubstringForMissingChar(".env", path, 'e');
    NotSubstringForMissingChar("venv", path, 'v');
    NotSubstringForMissingChar("node_modules", path, 'n');
  }

  /** `/r` holds `a` and a directory `s` holding `b`, the default patterns
      are used (as `main` does) and the service creates every folder with
      id "F1". Then `a` is uploaded under the root, `s` is created under the
      root and `b` is uploaded under "F1", each upload followed by a pause. */
  lemma SubfolderScenario(w: World, h: seq<Event>)
    requires forall h', name, parent :: w.folderReply(h', name, parent) == Reply(200, Parsed(FolderObject(Some(StrId("F1")))))
    ensures var r := Walk(w, h, "/r", [File("a", 10), Dir("s", [File("b", 10)])], None, DefaultExcludes);
            && |r| == 5
            && UploadOf(r[0], "/r/a", None) && r[1] == Delay
            && r[2] == CreateFolder("s", None, Returned(Some(StrId("F1"))))
            && UploadOf(r[3], "/r/s/b", Some(StrId("F1"))) && r[4] == Delay
  {
    DefaultsMiss("/r/a");
    DefaultsMiss("/r/s");
    DefaultsMiss("/r/s/b");
    ScenarioUnder(w, h, DefaultExcludes);
  }

  // Scaffolding for the scenario: its paths, its replies and where its
  // events land in the trace.

  /** The scenario under any patterns that none of its paths holds. */
  lemma ScenarioUnder(w: World, h: seq<Event>, patterns: seq<string>)
    requires forall h', name, parent :: w.folderReply(h', name, parent) == Reply(200, Parsed(FolderObject(Some(StrId("F1")))))
    requires !Excluded("/r/a", patterns) && !Excluded("/r/s", patterns) && !Excluded("/r/s/b", patterns)
    ensures var r := Walk(w, h, "/r", [File("a", 10), Dir("s", [File("b", 10)])], None, patterns);
            && |r| == 5
            && UploadOf(r[0], "/r/a", None) && r[1] == Delay
            && r[2] == CreateFolder("s", None, Returned(Some(StrId("F1"))))
            && UploadOf(r[3], "/r/s/b", Some(StrId("F1"))) && r[4] == Delay
  {
    var a, sub := File("a", 10), Dir("s", [File("b", 10)]);
    var v1 := Visit(w, h, "/r", a, None, patterns);
    var v2 := Visit(w, h + v1, "/r", sub, None, patterns);
    WalkOfTwo(w, h, "/r", a, sub, None, patterns);
    ScenarioPathA();
    VisitUploads(w, h, "/r", a, None, patterns);
    ScenarioSubfolder(w, h + v1, patterns);
    TwoThenThree(v1, v2);
  }

  /** The walk of a two-entry listing. */
  lemma WalkOfTwo(w: World, h: seq<Event>, dir: string, x: Entry, y: Entry, parent: Option<FolderId>, patterns: seq<string>)
    ensures var v := Visit(w, h, dir, x, parent, patterns);
            Walk(w, h, dir, [x, y], parent, patterns) == v + Visit(w, h + v, dir, y, parent, patterns)
  {
    var v := Visit(w, h, dir, x, parent, patterns);
    assert [x, y][1..] == [y];
    WalkOne(w, h + v, dir, y, parent, patterns);
  }

  /** Where the events of a two-event trace followed by a three-event trace land. */
  lemma TwoThenThree(x: seq<Event>, y: seq<Event>)
    requires |x| == 2 && |y| == 3
    ensures var r := x + y;
            |r| == 5 && r[0] == x[0] && r[1] == x[1] && r[2] == y[0] && r[3] == y[1] && r[4] == y[2]
  {
  }

  /** The subdirectory `s` of the scenario: created with id "F1", then `b`
      uploaded under it and the pause. */
  lemma ScenarioSubfolder(w: World, h: seq<Event>, patterns: seq<string>)
    requires forall h', name, parent :: w.folderReply(h', name, parent) == Reply(200, Parsed(FolderObject(Some(StrId("F1")))))
    requires !Excluded("/r/s", patterns) && !Excluded("/r/s/b", patterns)
    ensures var v := Visit(w, h, "/r", Dir("s", [File("b", 10)]), None, patterns);
            && |v| == 3
            && v[0] == CreateFolder("s", None, Returned(Some(StrId("F1"))))
            && UploadOf(v[1], "/r/s/b", Some(StrId("F1"))) && v[2] == Delay
  {
    var b, sub := File("b", 10), Dir("s", [File("b", 10)]);
    var reply := w.folderReply(h, "s", None);
    GrantsF1(reply);
    var created := [CreateFolder("s", None, FolderIdFromReply(reply))];
    var vb := Visit(w, h + created, "/r/s", b, Some(StrId("F1")), patterns);
    ScenarioPathS();
    VisitCreates(w, h, "/r", sub, None, patterns, StrId("F1"));
    WalkOne(w, h + created, "/r/s", b, Some(StrId("F1")), patterns);
    ScenarioInnerFile(w, h + created, patterns);
    OneThenTwo(created, vb);
  }

  /** The reply the scenario's service gives to every folder creation. */
  lemma GrantsF1(reply: FolderReply)
    requires reply == Reply(200, Parsed(FolderObject(Some(StrId("F1")))))
    ensures FolderIdFromReply(reply) == Returned(Some(StrId("F1")))
    ensures GrantedId(FolderIdFromReply(reply)) == Some(StrId("F1"))
  {
  }

  /** The file `b` inside `s`, uploaded under "F1". */
  lemma ScenarioInnerFile(w: World, h: seq<Event>, patterns: seq<string>)
    requires !Excluded("/r/s/b", patterns)
    ensures var vb := Visit(w, h, "/r/s", File("b", 10), Some(StrId("F1")), patterns);
            |vb| == 2 && UploadOf(vb[0], "/r/s/b", Some(StrId("F1"))) && vb[1] == Delay
  {
    ScenarioPathB();
    VisitUploads(w, h, "/r/s", File("b", 10), Some(StrId("F1")), patterns);
  }

  /** Where the events of a one-event trace followed by a two-event trace land. */
  lemma OneThenTwo(x: seq<Event>, y: seq<Event>)
    requires |x| == 1 && |y| == 2
    ensures var r := x + y;
            |r| == 3 && r[0] == x[0] && r[1] == y[0] && r[2] == y[1]
  {
  }

  /** The paths of the scenario's entries. */
  lemma ScenarioPathA()
    ensures JoinPath("/r", "a") == "/r/a"
  {
  }

  lemma ScenarioPathS()
    ensures JoinPath("/r", "s") == "/r/s"
  {
  }

  lemma ScenarioPathB()
    ensures JoinPath("/r/s", "b") == "/r/s/b"
  {
  }
}
