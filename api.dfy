/** The two remote calls of the uploader, `create_folder` and `upload_file`,
    reduced to what they decide: which request they send and what they make
    of the reply. The HTTP exchange itself is the reply value, supplied from
    outside (see `Walker.World`). */
module Api {
  import opened Paths

  datatype Option<+T> = None | Some(value: T)

  /** A folder identifier as the service's JSON may carry it. */
  datatype FolderId = IntId(n: int) | StrId(s: string)

  /** Python truthiness of an identifier: `0` and `""` are falsy. */
  predicate Truthy(id: FolderId)
  {
    match id
    case IntId(n) => n != 0
    case StrId(s) => s != ""
  }

  /** What the `folder` key of a decoded reply object holds. */
  datatype FolderField =
    | NoFolderKey                        // the key is absent: `.get("folder", {})` gives `{}`
    | FolderNotObject                    // null, a list, a string or a number: `.get` raises
    | FolderObject(id: Option<FolderId>) // an object; `None` when "id" is absent or null

  /** The body of a reply to `POST /folders`. */
  datatype FolderBody =
    | Unparsable                         // not JSON, or JSON that is not an object: decoding or `.get` raises
    | Parsed(folder: FolderField)

  /** What `requests.post` gives back for `POST /folders`. */
  datatype FolderReply =
    | ConnectionFailed                   // `requests.post` raised
    | Reply(status: int, body: FolderBody)

  /** The result of one `create_folder` call: an exception, or the value it returns. */
  datatype CreateOutcome = Raised | Returned(id: Option<FolderId>)

  /** `create_folder`: a reply other than 200 yields `None`; a 200 reply yields
      `folder.id`, or `None` when either key is missing; a reply that cannot
      be read raises. */
  function FolderIdFromReply(reply: FolderReply): (r: CreateOutcome)
    ensures r.Returned? && r.id.Some? ==>
              reply.Reply? && reply.status == 200 && reply.body == Parsed(FolderObject(r.id))
    ensures reply.Reply? && reply.status != 200 ==> r == Returned(None)
    ensures reply.Reply? && reply.status == 200 && reply.body.Parsed? && reply.body.folder.FolderObject? ==>
              r == Returned(reply.body.folder.id)
    ensures reply.Reply? && reply.status == 200 && reply.body == Parsed(NoFolderKey) ==> r == Returned(None)
    ensures r.Raised? <==>
              reply.ConnectionFailed? ||
              (reply.status == 200 && (reply.body.Unparsable? || reply.body.folder.FolderNotObject?))
  {
    match reply
    case ConnectionFailed => Raised
    case Reply(status, body) =>
      if status != 200 then Returned(None)
      else match body
        case Unparsable => Raised
        case Parsed(NoFolderKey) => Returned(None)
        case Parsed(FolderNotObject) => Raised
        case Parsed(FolderObject(id)) => Returned(id)
  }

  /** The test `if folder_id:` applied to what `create_folder` produced: the
      identifier to recurse under, or `None` when the call raised or returned
      a missing or falsy identifier. */
  function GrantedId(o: CreateOutcome): (r: Option<FolderId>)
    ensures r.Some? <==> o.Returned? && o.id.Some? && Truthy(o.id.value)
    ensures r.Some? ==> r == o.id && Truthy(r.value)
  {
    match o
    case Returned(Some(id)) => if Truthy(id) then Some(id) else None
    case _ => None
  }

  /** What `requests.post` gives back for `POST /uploads`, or the exception
      raised on the way (the local file cannot be opened or read, or the
      request fails). */
  datatype UploadReply = UploadFailed | UploadStatus(code: int)

  /** `upload_file`'s result: true exactly for a 201 reply. */
  function UploadOk(reply: UploadReply): (ok: bool)
    ensures ok <==> reply == UploadStatus(201)
  {
    reply.UploadStatus? && reply.code == 201
  }

  const OctetStream: string := "application/octet-stream"

  /** The multipart request `upload_file` builds: the `file` part's file name
      and content type, and the `parentId` form field. */
  datatype UploadForm = UploadForm(fileName: string, contentType: string, parentId: Option<FolderId>)

  /** The request for the file at `path`: the base name of the path, the MIME
      type `guessType` finds for it or the generic binary type, and the parent. */
  function UploadRequest(path: string, parent: Option<FolderId>, guessType: string -> Option<string>): (f: UploadForm)
    ensures f.parentId == parent
    ensures guessType(path).None? ==> f.contentType == OctetStream
    ensures guessType(path).Some? ==> f.contentType == guessType(path).value
    ensures '/' !in f.fileName && |f.fileName| <= |path| && f.fileName == path[|path| - |f.fileName|..]
  {
    var mime := match guessType(path) case Some(t) => t case None => OctetStream;
    UploadForm(Basename(path), mime, parent)
  }

  /** The file name sent for an entry is the entry's own name. */
  lemma UploadNamesEntry(dir: string, name: string, parent: Option<FolderId>, guessType: string -> Option<string>)
    requires name != [] && '/' !in name
    ensures UploadRequest(JoinPath(dir, name), parent, guessType).fileName == name
  {
    BasenameOfJoin(dir, name);
  }
}
