# FolderFort directory uploader, modelled in Dafny

This project models `upload_directory.py`, the command-line tool that copies
the current directory into a FolderFort account.

- `main` asks for an API token and stops when the token is blank.
- It then asks whether to upload to the root or into a new folder. For a new folder, it creates that folder first.
- `upload_directory` then walks the local tree. It skips paths that contain an exclusion pattern and files over 100 MiB.
- For each subdirectory it creates a remote folder and descends into it only when the service handed back a usable id.
- Every other entry is uploaded, and each upload is followed by a pause.

The model observes a run through the trace of calls it makes (`Walker.Event`):

- `CreateFolder(name, parent, outcome)`
- `Upload(path, parent, ok)`
- `Delay`

The remote service is an oracle, `Walker.World`. For each call it gives the reply, as a function of every call made before it in the run. Any service that keeps state is therefore covered, whether it fails, returns odd ids or succeeds.

Modules:

- `Paths` (`paths.dfy`): the path string `str(item)` of a `pathlib` path on a POSIX system, `os.path.basename`, and Python's substring test `pattern in path`.
- `Api` (`api.dfy`): what `create_folder` and `upload_file` decide.
  - `create_folder`: from the reply's status and body, it returns an id, `None`, or raises.
  - `upload_file`: it builds a request (file name, MIME type with the octet-stream fallback, parent), and succeeds exactly on status 201.
  - Python truthiness of an id.
- `Walker` (`walker.dfy`): `upload_directory` twice.
  - `Visit` and `Walk` are the specification: the trace as a recursive function.
  - `UploadDirectory` is the loop of the source, a method proved equal to `Walk`.
- `WalkerProperties` (`walker_properties.dfy`): what the walk promises.
  - exclusion, the size limit, failed folder creation, parent ids, pauses;
  - the complete mirroring of a clean tree;
  - a worked example with a subdirectory.
- `Cli` (`cli.dfy`): `str.strip`, `str.lower` and `main`, with the properties of a whole run.
  - `RunAsWritten` is `main` as written.
  - `Run` (a function) and `RunSteps` (a method proved equal to it) are `main` with the fallback to the root corrected, as described under "## Findings": they differ from `RunAsWritten` only when the parent folder's creation returns a falsy id.

Exceptions from `create_folder`:

- The parent folder's creation in `main` (line 114) is outside any `try`, so an exception there ends the run (`Cli.RunResult.Crashed`).
- Inside the walk, the per-entry `try` catches the same exception. The model treats it as a folder that was not created (`Api.CreateOutcome.Raised`, then no descent).

## Model

| member | source | states |
|---|---|---|
| Paths.IsSubstring | upload_directory.py:72 | Python's `pattern in str(item)`: the pattern occurs in the path at some offset |
| Paths.Basename | upload_directory.py:46 | `os.path.basename`: the '/'-free suffix of the path after its last '/' |
| Paths.JoinPath | upload_directory.py:70-72 | the path string of an entry ends with the entry's name and begins with the directory's path string (unless that is "" or ".") |
| Paths.BasenameOfJoin | upload_directory.py:46 | the base name of an entry's path string is the entry's own name |
| Paths.SubstringOfLonger | upload_directory.py:72 | a pattern occurring in a path occurs in every longer path that begins with it |
| Paths.SubstringOfSuffix | upload_directory.py:72 | a pattern occurring in a name occurs in every path that ends with that name |
| Paths.NotSubstringForMissingChar | upload_directory.py:72 | a pattern holding a character the path lacks does not occur in it |
| Api.Truthy | upload_directory.py:85 | Python truthiness of an id, as `if folder_id:` (line 85) and `if not parent_id:` (line 115) test it: `0` and `""` are falsy |
| Api.FolderIdFromReply | upload_directory.py:26-32 | a non-200 reply gives `None`; a 200 reply gives `folder.id`, or `None` when `folder` or `id` is missing; it raises exactly when the request fails, the body is not a JSON object, or `folder` is not an object; an id is returned only from a 200 reply carrying it |
| Api.GrantedId | upload_directory.py:84-85 | an id to descend under exists exactly when the call returned an id that is truthy (not 0, not "") |
| Api.UploadOk | upload_directory.py:49-59 | the upload reports success exactly for a reply with status 201; an exception or any other status reports failure |
| Api.UploadRequest | upload_directory.py:40-47 | the request carries the parent id, the guessed MIME type or `application/octet-stream` when none is guessed, and a file name that is a '/'-free suffix of the path |
| Api.UploadNamesEntry | upload_directory.py:46 | the file name sent for an entry is the entry's own name |
| Walker.MaxUploadSize | upload_directory.py:76 | the size limit, 100 * 1024 * 1024 bytes |
| Walker.DefaultExcludes | upload_directory.py:64 | the six default patterns, in the source's order |
| Walker.Excluded | upload_directory.py:72 | some pattern of the list occurs in the path string |
| Walker.Skips | upload_directory.py:72-78 | the two `continue`s: an excluded path string, or a regular file strictly larger than the limit |
| Walker.Visit | upload_directory.py:72-93 | the calls one loop turn makes for one entry, after the calls in `h`: none when skipped; for a directory the folder creation, then the walk of its entries under the id when the id is truthy; for any other entry one upload under the current parent, then the pause. Its contract is stated by `VisitSkipped`, `VisitUploads`, `VisitRefused` and `VisitCreates` |
| Walker.Walk | upload_directory.py:61-95 | the calls of `upload_directory` over a listing, entry by entry in listing order, each after the calls for the entries before it. Its contract is stated by `WalkOne`, `WalkCons` and the `WalkerProperties` lemmas, and `UploadDirectory` is proved equal to it |
| Walker.ResolvePatterns | upload_directory.py:63-64 | no patterns given means the six default patterns; given patterns are used as they are |
| Walker.VisitSkipped | upload_directory.py:72-78 | an excluded entry or an oversized file makes no call |
| Walker.VisitUploads | upload_directory.py:89-93 | a non-directory entry that is not skipped makes one upload of its path under the current parent, then one pause |
| Walker.VisitRefused | upload_directory.py:81-85 | a directory whose folder gets no usable id makes only the folder creation |
| Walker.VisitCreates | upload_directory.py:81-88 | a directory whose folder gets id `id` makes the creation, then the walk of its entries under `id` |
| Walker.WalkOne | upload_directory.py:70 | walking a one-entry listing is visiting that entry |
| Walker.WalkCons | upload_directory.py:70 | the entries are handled in listing order, each after the calls for those before it |
| Walker.UploadDirectory | upload_directory.py:61-95 | the loop (with its recursion) makes exactly the calls of the specification `Walk`, for any service and any tree |
| WalkerProperties.WalkSplit | upload_directory.py:70 | walking two listings one after the other is walking their concatenation |
| WalkerProperties.WalkAround | upload_directory.py:70 | the calls of a walk are those before entry `i`, those for entry `i`, then those after it |
| WalkerProperties.SkippedEntryIsAbsent | upload_directory.py:72-78 | an excluded entry or an oversized file, with all its descendants, makes no call, and the walk equals the walk of the listing without it |
| WalkerProperties.SmallEntryIsUploaded | upload_directory.py:76-93 | a non-directory entry that is not excluded and not over 104857600 bytes is uploaded under the current parent, and a pause follows the upload |
| WalkerProperties.UploadInMiddle | upload_directory.py:91-93 | an upload and its pause inside a longer trace are found in it at adjacent positions |
| WalkerProperties.VisitUploadsNotExcluded | upload_directory.py:72-73 | no path uploaded for an entry contains an exclusion pattern |
| WalkerProperties.WalkUploadsNotExcluded | upload_directory.py:72-73 | no uploaded path of a walk contains an exclusion pattern, at any depth |
| WalkerProperties.ExcludedDirectoryYieldsNothing | upload_directory.py:67-73 | when the starting directory's own path contains a pattern, the walk makes no call at all |
| WalkerProperties.SecretsEnvIsSkipped | upload_directory.py:63-73 | a file named `secrets.env` is skipped by the default patterns, whatever its size and directory |
| WalkerProperties.DefaultsMiss | upload_directory.py:63-73 | a path without the characters g, _, D, e, v, n is never excluded by the default patterns |
| WalkerProperties.FailedFolderHidesContents | upload_directory.py:84-88 | when a directory's folder gets no usable id, nothing inside it is called, and the walk equals the walk with that directory emptied, so later siblings are processed unchanged |
| WalkerProperties.VisitOfFailedDir | upload_directory.py:84-88 | a directory whose folder gets no usable id is visited as if it were empty |
| WalkerProperties.UploadThenDelay | upload_directory.py:91-93 | an upload followed by a pause keeps the pause rule |
| WalkerProperties.DelaysFollowUploadsConcat | upload_directory.py:70 | the pause rule is kept when traces are put one after the other |
| WalkerProperties.CreateAlone | upload_directory.py:84 | a folder creation is not followed by a pause and is made under its own parent |
| WalkerProperties.VisitDelays | upload_directory.py:89-93 | in the calls for one entry, each upload is immediately followed by a pause, and each pause comes immediately after an upload |
| WalkerProperties.WalkDelays | upload_directory.py:73-93 | in every walk, each upload is immediately followed by exactly one pause whatever its result, and no pause follows a creation or a skipped entry |
| WalkerProperties.Issued | upload_directory.py:84-85 | an id is handed out only by a folder creation, and only a truthy one |
| WalkerProperties.ParentsKnownConcat | upload_directory.py:70 | calls made under known parents stay so when traces are put one after the other |
| WalkerProperties.ParentsKnownNested | upload_directory.py:84-88 | a creation that handed out `id`, followed by calls made under `id` or ids handed out after it, is all under known parents |
| WalkerProperties.VisitParents | upload_directory.py:84-91 | every call for an entry is made under the current parent or an id an earlier call for that entry handed out |
| WalkerProperties.WalkParents | upload_directory.py:84-91 | every call of a walk is made under the starting parent or an id that an earlier successful creation of the same walk handed out |
| WalkerProperties.UploadPathsOfUpload | upload_directory.py:91-93 | an upload and its pause upload one path and create no folder |
| WalkerProperties.CallsAfterCreate | upload_directory.py:84 | a creation adds its name to the created folders and nothing to the uploads |
| WalkerProperties.CallsConcat | upload_directory.py:70 | the uploaded paths and created names of two traces put together are those of the first, then those of the second |
| WalkerProperties.NoneExcludedCreate | upload_directory.py:84 | a folder creation uploads no path |
| WalkerProperties.NoneExcludedUpload | upload_directory.py:72-93 | an upload of a path with no pattern in it, and its pause, upload no excluded path |
| WalkerProperties.NoneExcludedConcat | upload_directory.py:70 | traces that upload no excluded path put together upload none either |
| WalkerProperties.VisitComplete | upload_directory.py:81-91 | for a clean entry on a service that grants every folder, the uploads are its file paths and the creations its directory names, depth first |
| WalkerProperties.WalkComplete | upload_directory.py:70-91 | for a clean tree on a service that grants every folder, each file is uploaded exactly once and each subdirectory created exactly once, in depth-first listing order, so the numbers of calls are the numbers of files and of subdirectories |
| WalkerProperties.SubfolderScenario | upload_directory.py:61-95 | with the default patterns, as `main` uses them, a file and a subdirectory holding a file, with folder creation answered by id "F1": an upload of `/r/a`, a pause, the creation of `s` under the root, an upload of `/r/s/b` under "F1", a pause |
| WalkerProperties.ScenarioUnder | upload_directory.py:61-95 | the same five calls under any pattern list that none of the three paths holds |
| Cli.IsSpace | upload_directory.py:15 | the characters `str.strip` removes: those for which Python's `str.isspace` holds |
| Cli.TrimLeft | upload_directory.py:15 | leading white space removed: the result is a suffix, what was removed is all white space, and the result does not begin with white space |
| Cli.TrimRight | upload_directory.py:15 | trailing white space removed: the result is a prefix, what was removed is all white space, and the result does not end with white space |
| Cli.Strip | upload_directory.py:15 | the stripped token is the slice of the typed token left after cutting off white space only, at both ends, and it neither begins nor ends with white space |
| Cli.StripEmptyIffBlank | upload_directory.py:15 | the stripped token is empty exactly when the typed token is all white space |
| Cli.LowerChar | upload_directory.py:109 | upper-case ASCII letters become the matching lower-case letters; every other character is unchanged |
| Cli.Lower | upload_directory.py:109 | the lowered answer has the same length, character by character lowered |
| Cli.ChoosesFolderIff | upload_directory.py:109-112 | the folder branch is taken exactly for the answers "f" and "F" |
| Cli.Run | upload_directory.py:97-119 | `main` with the fallback to the root corrected (a falsy id gives the root); a run is refused exactly when the stripped token is empty; a run that crashes made only the parent folder creation, which raised |
| Cli.RunSteps | upload_directory.py:97-119 | `main` with the corrected fallback, step by step, with the walk done by `UploadDirectory`, makes exactly the calls of `Run` |
| Cli.RunRefusesBlankToken | upload_directory.py:99-102 | the run is refused, before any call, exactly when the typed token is all white space |
| Cli.RunStart | upload_directory.py:109-119 | the walk of the current directory with the default patterns starts under the root unless the answer is "f" or "F"; then a folder is first created under the root, and the walk starts under its id when that id is truthy, under the root when the id is missing or falsy, and not at all when the creation raised |
| Cli.RunCalls | upload_directory.py:109-119 | the calls of a run with a token, for each answer and each outcome of the parent folder's creation |
| Cli.RunParentsKnown | upload_directory.py:111-119 | every call of a run is made under the root or under an id an earlier call of the run handed out |
| Cli.RunDelays | upload_directory.py:119 | in every run, each upload is followed by exactly one pause, and no pause follows anything else |
| Cli.RunAsWritten | upload_directory.py:97-119 | `main` as written; it differs from `Run` only when the answer is "f" and the folder creation returned a falsy id |
| Cli.ZeroIdReply | upload_directory.py:27-32 | a 200 reply carrying id 0 makes `create_folder` return 0, which is not a usable id |
| Cli.AsWrittenCalls | upload_directory.py:114-119 | as written, after a returned creation the walk starts under whatever id was returned |
| Cli.UnknownParentAt | upload_directory.py:114-119 | a three-call trace that opens with a creation that handed out nothing, then an upload under some id, breaks the parent rule |
| Cli.FalsyIdKeptAsWritten | upload_directory.py:114-119 | as written, with a parent folder created as id 0 and one uploadable file, the file is uploaded under id 0, which is neither the root nor a handed-out id |
| Cli.ChosenFolderCalls | upload_directory.py:114-119 | after a returned creation, `Run` walks under the granted id, or under the root when there is none |
| Cli.FalsyIdFallsBackToRoot | upload_directory.py:114-119 | with the same service and file, `Run` uploads the file under the root, as the message at line 116 announces |

## Left out

- HTTP, JSON decoding, the base URL and the bearer token in the headers: the service is the `World` oracle, and the reply to each call is one of its values. The token's content only matters for being blank.
- JSON ids other than integers and strings, such as floats, booleans or lists: an id is `IntId` or `StrId`. Other JSON values under `folder` are either "not an object" (`.get` raises) or an object.
- `mimetypes.guess_type`: the `World.guessType` parameter. Only its `None`-or-type result and the octet-stream fallback are modelled.
- Reading the file contents: an upload is its path, its form and its result.
- The filesystem: the tree is given with sizes and listing order. Errors of `iterdir` and `stat` and symbolic-link cycles are not modelled. The listing order is taken as given, and no property depends on the order of siblings beyond following it.
- Exceptions in the walk other than those of `create_folder`: `upload_file` catches its own, and any other per-entry exception would only end the current entry.
- Windows paths: `JoinPath` is the POSIX rule for `pathlib`.
- `time.sleep(0.5)`: only the `Delay` marker in the trace; the duration is not modelled.
- All printed messages, including the MiB figure with two decimals.
- The prompts: the token, the answer and the folder name are parameters, and so is the current directory.
- Cli.LowerChar: lowers ASCII letters only, not the other Unicode letters `str.lower` handles. The answer is only compared with "f", and no character outside ASCII lowers to "f", so the outcome of that comparison is the same.

## Findings

| source | as written | input that shows it | evidently intended | confidence | as-written member | corrected member |
|---|---|---|---|---|---|---|
| upload_directory.py:114-119 | after `if not parent_id:` reports "Uploading to root instead", `parent_id` keeps the falsy id that `create_folder` returned, and the whole upload is made under it | answer "f", and the folder creation gets a 200 reply whose body is `{"folder": {"id": 0}}` (or id `""`); the current directory holds one small file | fall back to the root, parent `None`, as the message says | not executed; low, since the service may never hand out a falsy id | Cli.FalsyIdKeptAsWritten | Cli.FalsyIdFallsBackToRoot |
