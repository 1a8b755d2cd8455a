/** The recursive uploader `upload_directory`: it walks a local directory in
    the order its entries are listed, skips entries whose path contains an
    exclusion pattern and files over 100 MiB, creates a remote folder for each
    subdirectory and descends into it only when the folder was created, and
    uploads every other entry followed by a fixed pause.

    The walk is observed through the trace of calls it makes. The remote
    service is a `World`: for each call it is asked, given every call made
    before it in the run, what it replies. */
module Walker {
  import opened Paths
  import opened Api

  /** The size limit: a file strictly larger than 100 MiB is skipped. */
  const MaxUploadSize: nat := 100 * 1024 * 1024

  /** The patterns used when the caller passes none. */
  const DefaultExcludes: seq<string> := [".git", "__pycache__", ".DS_Store", ".env", "venv", "node_modules"]

  /** A local directory entry, as `iterdir` lists it. */
  datatype Entry =
    | File(name: string, size: nat)             // a regular file (or a link to one) with its `st_size`
    | Dir(name: string, children: seq<Entry>)   // a directory with its entries in listing order
    | Special(name: string)                     // neither: a dangling link, a socket, a pipe

  /** One observable step of a run: a call to the service (with what the
      uploader made of its reply) or the pause after an upload. */
  datatype Event =
    | CreateFolder(name: string, parent: Option<FolderId>, outcome: CreateOutcome)
    | Upload(path: string, parent: Option<FolderId>, ok: bool)
    | Delay

  /** The service and the MIME lookup: `folderReply(h, name, parent)` and
      `uploadReply(h, form)` are the replies to a call made after the calls
      in `h`; `guessType` is `mimetypes.guess_type`. */
  datatype World = World(
    folderReply: (seq<Event>, string, Option<FolderId>) -> FolderReply,
    uploadReply: (seq<Event>, UploadForm) -> UploadReply,
    guessType: string -> Option<string>)

  /** `if exclude_patterns is None:` pick the default list. */
  function ResolvePatterns(patterns: Option<seq<string>>): (r: seq<string>)
    ensures patterns.None? ==> r == DefaultExcludes
    ensures patterns.Some? ==> r == patterns.value
  {
    match patterns
    case None => DefaultExcludes
    case Some(p) => p
  }

  /** Some pattern occurs anywhere in the path string. */
  predicate Excluded(path: string, patterns: seq<string>)
  {
    exists i :: 0 <= i < |patterns| && IsSubstring(patterns[i], path)
  }

  /** The two `continue`s of the loop: an excluded path, or an oversized file. */
  predicate Skips(dir: string, e: Entry, patterns: seq<string>)
  {
    Excluded(JoinPath(dir, e.name), patterns) || (e.File? && e.size > MaxUploadSize)
  }

  /** The calls made for one entry `e` of directory `dir`, after the calls in `h`. */
  function Visit(w: World, h: seq<Event>, dir: string, e: Entry, parent: Option<FolderId>, patterns: seq<string>): seq<Event>
    decreases e
  {
    if Skips(dir, e, patterns) then []
    else match e
      case Dir(name, children) =>
        var outcome := FolderIdFromReply(w.folderReply(h, name, parent));
        var created := [CreateFolder(name, parent, outcome)];
        var id := GrantedId(outcome);
        if id.Some? then created + Walk(w, h + created, JoinPath(dir, name), children, id, patterns)
        else created
      case _ =>
        var path := JoinPath(dir, e.name);
        var ok := UploadOk(w.uploadReply(h, UploadRequest(path, parent, w.guessType)));
        [Upload(path, parent, ok), Delay]
  }

  /** The calls made for the entries `es` of directory `dir`, in order, after
      the calls in `h`. */
  function Walk(w: World, h: seq<Event>, dir: string, es: seq<Entry>, parent: Option<FolderId>, patterns: seq<string>): seq<Event>
    decreases es
  {
    if es == [] then []
    else
      var first := Visit(w, h, dir, es[0], parent, patterns);
      first + Walk(w, h + first, dir, es[1..], parent, patterns)
  }

  /** An upload call of `path` into `parent`, whatever its result. */
  predicate UploadOf(e: Event, path: string, parent: Option<FolderId>)
  {
    e.Upload? && e.path == path && e.parent == parent
  }

  /** The calls for an entry that is skipped: none. */
  lemma VisitSkipped(w: World, h: seq<Event>, dir: string, e: Entry, parent: Option<FolderId>, patterns: seq<string>)
    requires Skips(dir, e, patterns)
    ensures Visit(w, h, dir, e, parent, patterns) == []
  {
  }

  /** The calls for a file that is not skipped: its upload, then a pause. */
  lemma VisitUploads(w: World, h: seq<Event>, dir: string, e: Entry, parent: Option<FolderId>, patterns: seq<string>)
    requires !e.Dir? && !Skips(dir, e, patterns)
    ensures var v := Visit(w, h, dir, e, parent, patterns);
            |v| == 2 && UploadOf(v[0], JoinPath(dir, e.name), parent) && v[1] == Delay
  {
  }

  /** The calls for a directory that is not skipped and whose folder is not
      created (the call raised, or gave no id or a falsy one): the creation alone. */
  lemma VisitRefused(w: World, h: seq<Event>, dir: string, e: Entry, parent: Option<FolderId>, patterns: seq<string>)
    requires e.Dir? && !Skips(dir, e, patterns)
    requires GrantedId(FolderIdFromReply(w.folderReply(h, e.name, parent))).None?
    ensures Visit(w, h, dir, e, parent, patterns)
            == [CreateFolder(e.name, parent, FolderIdFromReply(w.folderReply(h, e.name, parent)))]
  {
  }

  /** The calls for a directory that is not skipped and whose folder is
      created with `id`: the creation, then the walk of its entries under `id`. */
  lemma VisitCreates(w: World, h: seq<Event>, dir: string, e: Entry, parent: Option<FolderId>, patterns: seq<string>, id: FolderId)
    requires e.Dir? && !Skips(dir, e, patterns)
    requires GrantedId(FolderIdFromReply(w.folderReply(h, e.name, parent))) == Some(id)
    ensures var created := [CreateFolder(e.name, parent, FolderIdFromReply(w.folderReply(h, e.name, parent)))];
            Visit(w, h, dir, e, parent, patterns)
            == created + Walk(w, h + created, JoinPath(dir, e.name), e.children, Some(id), patterns)
  {
  }

  /** The walk of a single entry is the visit of that entry. */
  lemma WalkOne(w: World, h: seq<Event>, dir: string, e: Entry, parent: Option<FolderId>, patterns: seq<string>)
    ensures Walk(w, h, dir, [e], parent, patterns) == Visit(w, h, dir, e, parent, patterns)
  {
    var v := Visit(w, h, dir, e, parent, patterns);
    assert [e][1..] == [];
    assert Walk(w, h + v, dir, [], parent, patterns) == [];
    assert v + [] == v;
  }

  /** The calls for a non-empty listing: those for its first entry, then
      the walk of the rest. */
  lemma WalkCons(w: World, h: seq<Event>, dir: string, es: seq<Entry>, parent: Option<FolderId>, patterns: seq<string>)
    requires es != []
    ensures var v := Visit(w, h, dir, es[0], parent, patterns);
            Walk(w, h, dir, es, parent, patterns) == v + Walk(w, h + v, dir, es[1..], parent, patterns)
  {
  }

  /** `upload_directory(dir, parent, token, patterns)`, entered after the
      calls in `h`: returns the calls it makes. */
  method UploadDirectory(w: World, h: seq<Event>, dir: string, entries: seq<Entry>,
                         parentId: Option<FolderId>, excludePatterns: Option<seq<string>>)
    returns (events: seq<Event>)
    ensures events == Walk(w, h, dir, entries, parentId, ResolvePatterns(excludePatterns))
    decreases entries
  {
    var patterns := ResolvePatterns(excludePatterns);
    events := [];
    assert h + events == h && entries[0..] == entries;
    for i := 0 to |entries|
      invariant events + Walk(w, h + events, dir, entries[i..], parentId, patterns)
                == Walk(w, h, dir, entries, parentId, patterns)
    {
      var item := entries[i];
      ghost var before := events;
      ghost var visit := Visit(w, h + before, dir, item, parentId, patterns);
      var path := JoinPath(dir, item.name);
      if Excluded(path, patterns) || (item.File? && item.size > MaxUploadSize) {
        // `continue`: nothing is called for this entry
      } else if item.Dir? {
        var outcome := FolderIdFromReply(w.folderReply(h + events, item.name, parentId));
        var created := [CreateFolder(item.name, parentId, outcome)];
        events := events + created;
        var folderId := GrantedId(outcome);
        if folderId.Some? {
          var sub := UploadDirectory(w, h + events, path, item.children, folderId, Some(patterns));
          AppendAssoc(h, before, created, sub);
          events := events + sub;
        }
      } else {
        var ok := UploadOk(w.uploadReply(h + events, UploadRequest(path, parentId, w.guessType)));
        events := events + [Upload(path, parentId, ok), Delay];
      }
      assert events == before + visit;
      WalkStep(w, h, dir, entries, i, parentId, patterns, before);
    }
    assert entries[|entries|..] == [];
  }

  /** One turn of the loop in `UploadDirectory`: the calls already made, then
      those for entry `i`, then the walk of the entries after it. */
  lemma WalkStep(w: World, h: seq<Event>, dir: string, es: seq<Entry>, i: nat,
                 parent: Option<FolderId>, patterns: seq<string>, done: seq<Event>)
    requires i < |es|
    ensures var visit := Visit(w, h + done, dir, es[i], parent, patterns);
            (done + visit) + Walk(w, h + (done + visit), dir, es[i + 1..], parent, patterns)
            == done + Walk(w, h + done, dir, es[i..], parent, patterns)
  {
    assert es[i..][0] == es[i] && es[i..][1..] == es[i + 1..];
    var visit := Visit(w, h + done, dir, es[i], parent, patterns);
    var rest := Walk(w, (h + done) + visit, dir, es[i + 1..], parent, patterns);
    AppendAssoc(h, done, visit, rest);
  }

  /** Regrouping concatenations, stated once so that proofs about `Walk` need
      not rediscover it. */
  lemma AppendAssoc<T>(a: seq<T>, b: seq<T>, c: seq<T>, d: seq<T>)
    ensures a + (b + c) == (a + b) + c
    ensures (b + c) + d == b + (c + d)
  {
  }
}
