/** The entry point `main`: it reads the API token, stops when the token is
    blank, asks whether to upload to the root or into a new folder, creates
    that folder when asked, and then uploads the current directory.

    The three answers typed at the prompts, the current directory and its
    tree are parameters; the service is the same `World` the walk uses. */
module Cli {
  import opened Paths
  import opened Api
  import opened Walker
  import opened WalkerProperties

  // ---------------------------------------------------------------------
  // `str.strip` and `str.lower`

  /** Python's `str.isspace` for one character: the ASCII blanks and
      separators, and the Unicode spaces and line and paragraph separators. */
  predicate IsSpace(c: char)
  {
    var n := c as int;
    n == 32 || 9 <= n <= 13 || 28 <= n <= 31 || n == 0x85 || n == 0xA0 || n == 0x1680
    || 0x2000 <= n <= 0x200A || n == 0x2028 || n == 0x2029 || n == 0x202F || n == 0x205F || n == 0x3000
  }

  /** `s` without its leading white space. */
  function TrimLeft(s: string): (r: string)
    ensures |r| <= |s| && r == s[|s| - |r|..]
    ensures forall i :: 0 <= i < |s| - |r| ==> IsSpace(s[i])
    ensures r == [] || !IsSpace(r[0])
  {
    if s != [] && IsSpace(s[0]) then TrimLeft(s[1..]) else s
  }

  /** `s` without its trailing white space. */
  function TrimRight(s: string): (r: string)
    ensures |r| <= |s| && r == s[..|r|]
    ensures forall i :: |r| <= i < |s| ==> IsSpace(s[i])
    ensures r == [] || !IsSpace(r[|r| - 1])
  {
    if s != [] && IsSpace(s[|s| - 1]) then TrimRight(s[..|s| - 1]) else s
  }

  /** `s.strip()`: the slice of `s` left once the white space at both ends is removed. */
  function Strip(s: string): (r: string)
    ensures |r| <= |s|
    ensures exists i, j :: 0 <= i <= j <= |s| && r == s[i..j]
                           && (forall k :: 0 <= k < i ==> IsSpace(s[k]))
                           && (forall k :: j <= k < |s| ==> IsSpace(s[k]))
    ensures r == [] || (!IsSpace(r[0]) && !IsSpace(r[|r| - 1]))
  {
    var t := TrimLeft(s);
    SliceBetweenSpaces(s, t, TrimRight(t));
    TrimRight(t)
  }

  /** A prefix `r` of a suffix `t` of `s`, with only white space cut off on
      either side, is a slice of `s` between white space only. */
  lemma SliceBetweenSpaces(s: string, t: string, r: string)
    requires |t| <= |s| && t == s[|s| - |t|..] && forall k :: 0 <= k < |s| - |t| ==> IsSpace(s[k])
    requires |r| <= |t| && r == t[..|r|] && forall k :: |r| <= k < |t| ==> IsSpace(t[k])
    ensures exists i, j :: 0 <= i <= j <= |s| && r == s[i..j]
                           && (forall k :: 0 <= k < i ==> IsSpace(s[k]))
                           && (forall k :: j <= k < |s| ==> IsSpace(s[k]))
  {
    var i := |s| - |t|;
    var j := i + |r|;
    assert r == s[i..j];
    forall k | j <= k < |s|
      ensures IsSpace(s[k])
    {
      assert s[k] == t[k - i];
    }
  }

  /** A stripped answer is empty exactly when it held nothing but white space. */
  lemma StripEmptyIffBlank(s: string)
    ensures Strip(s) == [] <==> forall i :: 0 <= i < |s| ==> IsSpace(s[i])
  {
    var t := TrimLeft(s);
    if t != [] {
      assert !IsSpace(t[0]);
      assert TrimRight(t) != [];
    }
  }

  /** `str.lower` on one character; letters outside ASCII are left as they are. */
  function LowerChar(c: char): (r: char)
    ensures 'A' <= c <= 'Z' ==> 'a' <= r <= 'z' && r as int - c as int == 'a' as int - 'A' as int
    ensures !('A' <= c <= 'Z') ==> r == c
  {
    if 'A' <= c <= 'Z' then (c as int - 'A' as int + 'a' as int) as char else c
  }

  /** `s.lower()`. */
  function Lower(s: string): (r: string)
    ensures |r| == |s|
    ensures forall i :: 0 <= i < |s| ==> r[i] == LowerChar(s[i])
  {
    if s == [] then [] else [LowerChar(s[0])] + Lower(s[1..])
  }

  /** `choice.lower() == 'f'` holds for the answers "f" and "F" and no other. */
  lemma ChoosesFolderIff(choice: string)
    ensures Lower(choice) == "f" <==> choice == "f" || choice == "F"
  {
    if |choice| == 1 {
      var c := choice[0];
      assert Lower(choice) == [LowerChar(c)];
      assert choice == [c];
      if LowerChar(c) == 'f' {
        assert c == 'f' || c == 'F';
      }
    }
  }

  // ---------------------------------------------------------------------
  // `main`

  /** How a run ends: refused for a blank token, stopped by an exception
      from the parent folder's creation, or through the upload; with the
      calls made up to that point. */
  datatype RunResult =
    | NoToken
    | Crashed(calls: seq<Event>)
    | Completed(calls: seq<Event>)

  /** `main`, given the token, the root-or-folder answer and the folder name
      typed at the prompts, and the current directory `cwd` holding `tree`.
      The parent folder's creation is outside the walk's `try`, so an
      exception there ends the run; a missing or falsy id falls back to the
      root. */
  function Run(w: World, token: string, choice: string, folderName: string, cwd: string, tree: seq<Entry>): (r: RunResult)
    ensures r.NoToken? <==> Strip(token) == []
    ensures r.Crashed? ==> |r.calls| == 1 && r.calls[0].CreateFolder? && r.calls[0].outcome.Raised?
  {
    if Strip(token) == [] then NoToken
    else if Lower(choice) == "f" then
      var outcome := FolderIdFromReply(w.folderReply([], folderName, None));
      var created := [CreateFolder(folderName, None, outcome)];
      if outcome.Raised? then Crashed(created)
      else Completed(created + Walk(w, created, cwd, tree, GrantedId(outcome), ResolvePatterns(None)))
    else Completed(Walk(w, [], cwd, tree, None, ResolvePatterns(None)))
  }

  /** `main` step by step, with the walk done by `UploadDirectory`. */
  method RunSteps(w: World, token: string, choice: string, folderName: string, cwd: string, tree: seq<Entry>)
    returns (r: RunResult)
    ensures r == Run(w, token, choice, folderName, cwd, tree)
  {
    var apiToken := Strip(token);
    if apiToken == [] {
      return NoToken;
    }
    var calls: seq<Event> := [];
    var parentId: Option<FolderId> := None;
    if Lower(choice) == "f" {
      var outcome := FolderIdFromReply(w.folderReply([], folderName, None));
      calls := [CreateFolder(folderName, None, outcome)];
      if outcome.Raised? {
        return Crashed(calls);
      }
      parentId := GrantedId(outcome);
    }
    var walked := UploadDirectory(w, calls, cwd, tree, parentId, None);
    return Completed(calls + walked);
  }

  /** The run is refused, before any call, exactly when the token is blank. */
  lemma RunRefusesBlankToken(w: World, token: string, choice: string, folderName: string, cwd: string, tree: seq<Entry>)
    ensures Run(w, token, choice, folderName, cwd, tree).NoToken?
            <==> forall i :: 0 <= i < |token| ==> IsSpace(token[i])
  {
    StripEmptyIffBlank(token);
  }

  /** Where the walk starts: under the root unless the answer is "f" or "F";
      then a folder is created under the root first, and the walk starts
      under it only when its creation gave a usable id, and under the root
      otherwise. */
  lemma RunStart(w: World, token: string, choice: string, folderName: string, cwd: string, tree: seq<Entry>)
    requires Strip(token) != []
    ensures choice != "f" && choice != "F" ==>
              Run(w, token, choice, folderName, cwd, tree) == Completed(Walk(w, [], cwd, tree, None, DefaultExcludes))
    ensures choice == "f" || choice == "F" ==>
              var outcome := FolderIdFromReply(w.folderReply([], folderName, None));
              var created := [CreateFolder(folderName, None, outcome)];
              && (outcome.Raised? ==> Run(w, token, choice, folderName, cwd, tree) == Crashed(created))
              && (outcome.Returned? && outcome.id.Some? && Truthy(outcome.id.value) ==>
                    Run(w, token, choice, folderName, cwd, tree)
                    == Completed(created + Walk(w, created, cwd, tree, outcome.id, DefaultExcludes)))
              && (outcome.Returned? && (outcome.id.None? || !Truthy(outcome.id.value)) ==>
                    Run(w, token, choice, folderName, cwd, tree)
                    == Completed(created + Walk(w, created, cwd, tree, None, DefaultExcludes)))
  {
    ChoosesFolderIff(choice);
  }

  /** The calls of a run that gets past the token check, case by case. */
  lemma RunCalls(w: World, token: string, choice: string, folderName: string, cwd: string, tree: seq<Entry>)
    requires Strip(token) != []
    ensures var calls := Run(w, token, choice, folderName, cwd, tree).calls;
            var outcome := FolderIdFromReply(w.folderReply([], folderName, None));
            var c := CreateFolder(folderName, None, outcome);
            && (Lower(choice) != "f" ==> calls == Walk(w, [], cwd, tree, None, DefaultExcludes))
            && (Lower(choice) == "f" && outcome.Raised? ==> calls == [c])
            && (Lower(choice) == "f" && outcome.Returned? ==>
                  calls == [c] + Walk(w, [c], cwd, tree, GrantedId(outcome), DefaultExcludes))
  {
  }

  /** Every call of a run is made under the root or under an id an earlier
      call of the same run handed out. */
  lemma RunParentsKnown(w: World, token: string, choice: string, folderName: string, cwd: string, tree: seq<Entry>)
    requires !Run(w, token, choice, folderName, cwd, tree).NoToken?
    ensures ParentsKnown(None, Run(w, token, choice, folderName, cwd, tree).calls)
  {
    RunCalls(w, token, choice, folderName, cwd, tree);
    if Lower(choice) == "f" {
      var outcome := FolderIdFromReply(w.folderReply([], folderName, None));
      var c := CreateFolder(folderName, None, outcome);
      CreateAlone(c);
      if outcome.Returned? {
        var id := GrantedId(outcome);
        var walked := Walk(w, [c], cwd, tree, id, DefaultExcludes);
        WalkParents(w, [c], cwd, tree, id, DefaultExcludes);
        if id.Some? {
          ParentsKnownNested(None, c, id.value, walked);
        } else {
          ParentsKnownConcat(None, [c], walked);
        }
      }
    } else {
      WalkParents(w, [], cwd, tree, None, DefaultExcludes);
    }
  }

  /** In every run each upload is followed by one pause, and a pause by nothing else. */
  lemma RunDelays(w: World, token: string, choice: string, folderName: string, cwd: string, tree: seq<Entry>)
    requires !Run(w, token, choice, folderName, cwd, tree).NoToken?
    ensures DelaysFollowUploads(Run(w, token, choice, folderName, cwd, tree).calls)
  {
    RunCalls(w, token, choice, folderName, cwd, tree);
    if Lower(choice) == "f" {
      var outcome := FolderIdFromReply(w.folderReply([], folderName, None));
      var c := CreateFolder(folderName, None, outcome);
      CreateAlone(c);
      if outcome.Returned? {
        var walked := Walk(w, [c], cwd, tree, GrantedId(outcome), DefaultExcludes);
        WalkDelays(w, [c], cwd, tree, GrantedId(outcome), DefaultExcludes);
        DelaysFollowUploadsConcat([c], walked);
      }
    } else {
      WalkDelays(w, [], cwd, tree, None, DefaultExcludes);
    }
  }

  // ---------------------------------------------------------------------
  // The fallback to the root, as written

  /** `main` as written: after a failed parent folder creation it announces
      the root but keeps whatever `create_folder` returned, so a falsy id
      (0 or "") becomes the parent of the whole upload. It differs from
      `Run` only in that case. */
  function RunAsWritten(w: World, token: string, choice: string, folderName: string, cwd: string, tree: seq<Entry>): (r: RunResult)
    ensures var outcome := FolderIdFromReply(w.folderReply([], folderName, None));
            r != Run(w, token, choice, folderName, cwd, tree) ==>
              Lower(choice) == "f" && outcome.Returned? && outcome.id.Some? && !Truthy(outcome.id.value)
  {
    if Strip(token) == [] then NoToken
    else if Lower(choice) == "f" then
      var outcome := FolderIdFromReply(w.folderReply([], folderName, None));
      var created := [CreateFolder(folderName, None, outcome)];
      if outcome.Raised? then Crashed(created)
      else Completed(created + Walk(w, created, cwd, tree, outcome.id, ResolvePatterns(None)))
    else Completed(Walk(w, [], cwd, tree, None, ResolvePatterns(None)))
  }

  /** A service that answers the parent folder's creation with id 0, and a
      directory `cwd` holding one file `f` that is not skipped: as written,
      `f` is then uploaded under id 0, which is neither the root nor an id
      the run was handed (which `RunParentsKnown` rules out for `Run`). */
  lemma FalsyIdKeptAsWritten(w: World, token: string, choice: string, folderName: string, cwd: string, f: Entry)
    requires Strip(token) != [] && Lower(choice) == "f"
    requires w.folderReply([], folderName, None) == Reply(200, Parsed(FolderObject(Some(IntId(0)))))
    requires !f.Dir? && !Skips(cwd, f, DefaultExcludes)
    ensures var r := RunAsWritten(w, token, choice, folderName, cwd, [f]);
            && r.Completed? && |r.calls| == 3 && UploadOf(r.calls[1], JoinPath(cwd, f.name), Some(IntId(0)))
            && !ParentsKnown(None, r.calls)
  {
    ZeroIdReply(w.folderReply([], folderName, None));
    var outcome := FolderIdFromReply(w.folderReply([], folderName, None));
    var c := CreateFolder(folderName, None, outcome);
    var walked := Walk(w, [c], cwd, [f], Some(IntId(0)), DefaultExcludes);
    WalkOne(w, [c], cwd, f, Some(IntId(0)), DefaultExcludes);
    VisitUploads(w, [c], cwd, f, Some(IntId(0)), DefaultExcludes);
    AsWrittenCalls(w, token, choice, folderName, cwd, [f]);
    UnknownParentAt([c] + walked, JoinPath(cwd, f.name), IntId(0));
  }

  /** A 200 reply carrying folder id 0: `create_folder` returns 0, which
      `if not parent_id:` treats as a failure. */
  lemma ZeroIdReply(reply: FolderReply)
    requires reply == Reply(200, Parsed(FolderObject(Some(IntId(0)))))
    ensures FolderIdFromReply(reply) == Returned(Some(IntId(0)))
    ensures GrantedId(FolderIdFromReply(reply)) == None
  {
  }

  /** The calls of the run as written when the answer is "f" and the folder
      creation returns. */
  lemma AsWrittenCalls(w: World, token: string, choice: string, folderName: string, cwd: string, tree: seq<Entry>)
    requires Strip(token) != [] && Lower(choice) == "f"
    requires FolderIdFromReply(w.folderReply([], folderName, None)).Returned?
    ensures var outcome := FolderIdFromReply(w.folderReply([], folderName, None));
            var c := CreateFolder(folderName, None, outcome);
            RunAsWritten(w, token, choice, folderName, cwd, tree)
            == Completed([c] + Walk(w, [c], cwd, tree, outcome.id, DefaultExcludes))
  {
  }

  /** A creation that handed out nothing, then an upload under an id: that
      id is neither the root nor known. */
  lemma UnknownParentAt(t: seq<Event>, path: string, id: FolderId)
    requires |t| == 3 && t[0].CreateFolder? && Issued(t[0]).None?
    requires UploadOf(t[1], path, Some(id))
    ensures !ParentsKnown(None, t)
  {
    assert forall j :: 0 <= j < 1 ==> Issued(t[j]) != t[1].parent;
  }

  /** The same service and directory with `Run`: the upload falls back to the root. */
  lemma FalsyIdFallsBackToRoot(w: World, token: string, choice: string, folderName: string, cwd: string, f: Entry)
    requires Strip(token) != [] && Lower(choice) == "f"
    requires w.folderReply([], folderName, None) == Reply(200, Parsed(FolderObject(Some(IntId(0)))))
    requires !f.Dir? && !Skips(cwd, f, DefaultExcludes)
    ensures var r := Run(w, token, choice, folderName, cwd, [f]);
            r.Completed? && |r.calls| == 3 && UploadOf(r.calls[1], JoinPath(cwd, f.name), None)
  {
    ZeroIdReply(w.folderReply([], folderName, None));
    var outcome := FolderIdFromReply(w.folderReply([], folderName, None));
    var c := CreateFolder(folderName, None, outcome);
    var walked := Walk(w, [c], cwd, [f], None, DefaultExcludes);
    WalkOne(w, [c], cwd, f, None, DefaultExcludes);
    VisitUploads(w, [c], cwd, f, None, DefaultExcludes);
    ChosenFolderCalls(w, token, choice, folderName, cwd, [f]);
    assert ([c] + walked)[1] == walked[0];
  }

  /** The calls of `Run` when the answer is "f" and the folder creation returns. */
  lemma ChosenFolderCalls(w: World, token: string, choice: string, folderName: string, cwd: string, tree: seq<Entry>)
    requires Strip(token) != [] && Lower(choice) == "f"
    requires FolderIdFromReply(w.folderReply([], folderName, None)).Returned?
    ensures var outcome := FolderIdFromReply(w.folderReply([], folderName, None));
            var c := CreateFolder(folderName, None, outcome);
            Run(w, token, choice, folderName, cwd, tree)
            == Completed([c] + Walk(w, [c], cwd, tree, GrantedId(outcome), DefaultExcludes))
  {
  }
}
