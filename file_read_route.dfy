/** `POST /api/files/read` up to the file read: the required-path check, the
    directory-traversal guard, and the envelope around the read's outcome. */
module FileReadRoute {
  import opened Basics
  import opened Types

  /** What reading a workspace file (its text, then its size) produced. */
  datatype FileRead = FileRead(content: string, size: nat)

  /** The reader: relative path in, file or error message out. */
  type Reader = string -> Result<FileRead, string>

  /** The traversal guard passes: no `..` anywhere and no leading `/`. */
  predicate Admissible(path: string) {
    !Includes(path, "..") && !StartsWith(path, "/")
  }

  /** The handler. `body` is the outcome of `request.json()`. */
  function Post(body: Result<ReadFileRequest, string>, read: Reader): (reply: HttpReply<ReadFileResponse>)
    ensures body.Err? ==> reply == HttpReply(500, Failed(body.error))
    ensures body.Ok? && (body.value.path.None? || body.value.path == Some("")) ==>
      reply == HttpReply(400, Failed("File path is required"))
    ensures body.Ok? && body.value.path.Some? && body.value.path.value != "" && !Admissible(body.value.path.value) ==>
      reply == HttpReply(400, Failed("Invalid file path"))
    ensures reply.status == 200 ==>
      && body.Ok? && body.value.path.Some?
      && Admissible(body.value.path.value)
      && read(body.value.path.value).Ok?
      && reply.body == Succeeded(
        ReadFileResponse(read(body.value.path.value).value.content, body.value.path.value,
                         read(body.value.path.value).value.size),
        "File read successfully")
    ensures reply.status in {200, 400, 404, 500}
  {
    match body
    case Err(e) => HttpReply(500, Failed(e))
    case Ok(request) =>
      if request.path.None? || request.path.value == "" then
        HttpReply(400, Failed("File path is required"))
      else
        var path := request.path.value;
        if Includes(path, "..") || StartsWith(path, "/") then
          HttpReply(400, Failed("Invalid file path"))
        else
          match read(path)
          case Ok(file) => HttpReply(200, Succeeded(ReadFileResponse(file.content, path, file.size), "File read successfully"))
          case Err(e) => HttpReply(404, Failed(e))
  }

  /** The file system is consulted only for paths that pass both checks:
      for any other request the reply is the same whatever the reader does. */
  lemma GuardPrecedesRead(body: Result<ReadFileRequest, string>, read1: Reader, read2: Reader)
    requires !(body.Ok? && body.value.path.Some? && body.value.path.value != "" && Admissible(body.value.path.value))
    ensures Post(body, read1) == Post(body, read2)
  {
  }

  /** `..` is refused wherever it occurs, not only as a whole path segment. */
  lemma DotDotAnywhereRefused(path: string, i: nat, read: Reader)
    requires i + 1 < |path| && path[i] == '.' && path[i + 1] == '.'
    ensures Post(Ok(ReadFileRequest(Some(path))), read) == HttpReply(400, Failed("Invalid file path"))
  {
    IncludesDotDot(path);
  }

  /** A leading `/` is refused. */
  lemma AbsolutePathRefused(path: string, read: Reader)
    requires |path| > 0 && path[0] == '/'
    ensures Post(Ok(ReadFileRequest(Some(path))), read) == HttpReply(400, Failed("Invalid file path"))
  {
    assert StartsWith(path, "/") by { assert path[..1] == [path[0]]; }
  }

  /** An admissible path reaches the reader: success echoes the request
      path, failure is a 404 with the reader's message. */
  lemma AdmissiblePathIsRead(path: string, read: Reader)
    requires path != "" && Admissible(path)
    ensures read(path).Ok? ==> Post(Ok(ReadFileRequest(Some(path))), read).status == 200
    ensures read(path).Ok? ==> Post(Ok(ReadFileRequest(Some(path))), read).body.data.value.path == path
    ensures read(path).Err? ==> Post(Ok(ReadFileRequest(Some(path))), read) == HttpReply(404, Failed(read(path).error))
  {
  }
}
