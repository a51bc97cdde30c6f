/**
 * The download step sequence that `downloadRecording` (src/recording.ts) and
 * `createDownLoadSingle` (src/downloadSingle.ts) both run inside one
 * try/catch: parse the URL, create the directory, GET the URL, check the
 * status, read the content length, open the file, check for a body, pipe
 * the body into the file. Every I/O step is an input outcome; the model
 * returns what was attempted (the effect trace) and how the sequence ended.
 */
module Transfer {
  import opened Wrappers
  import Paths
  import Decimal

  /** A download request: `{ url, directory }`. */
  datatype DownloadOptions = DownloadOptions(url: string, directory: string)

  /** A thrown value: an `Error` instance with its message, or something else. */
  datatype Thrown = ErrorValue(message: string) | OtherValue

  /** The outcome of a step that yields nothing: it returned, or it threw. */
  datatype Attempt = Succeeded | Threw(thrown: Thrown)

  /**
   * What the HTTP response exposes to the downloaders. `contentLength` is
   * the parsed `content-length` header, `None` when the header is absent or
   * empty (the `|| "0"` default).
   */
  datatype Response = Response(
    ok: bool,
    status: int,
    statusText: string,
    contentLength: Option<nat>,
    hasBody: bool)

  /** `new URL(url)`: the pathname, or the thrown parse error. */
  datatype UrlParse = Parsed(pathname: string) | ParseFailed(thrown: Thrown)

  /** `client.get(url)`: a response, or the thrown error. */
  datatype GetOutcome = Responded(response: Response) | GetFailed(thrown: Thrown)

  /** How each I/O step of one download turns out. */
  datatype Env = Env(parse: UrlParse, mkdir: Attempt, get: GetOutcome, pipeline: Attempt)

  /** The I/O actions a download issues, in the order it issues them. */
  datatype Effect =
    | MakeDirectory(directory: string)  // mkdir(directory, { recursive: true })
    | Request(url: string)              // client.get(url)
    | CreateFile(path: string)          // createWriteStream(filePath)
    | WriteBody(path: string)           // pipeline(response.body, writeStream)

  datatype Outcome = Completed(filePath: string, size: nat) | Failed(thrown: Thrown)

  datatype Trace = Trace(effects: seq<Effect>, outcome: Outcome)

  /** `join(directory, basename(pathname))`. */
  function FilePath(directory: string, pathname: string): string {
    Paths.Join(directory, Paths.Basename(pathname))
  }

  /** The message of the error thrown for a response that is not ok. */
  function StatusMessage(response: Response): string {
    "HTTP " + Decimal.IntToString(response.status) + ": " + response.statusText
  }

  const NullBodyMessage: string := "Response body is null"

  /** The recorded size: the content length, or 0 when it is not given. */
  function Size(response: Response): nat {
    response.contentLength.GetOr(0)
  }

  /** The whole effect sequence of a download that reaches the pipeline. */
  function AllEffects(options: DownloadOptions, filePath: string): seq<Effect> {
    [MakeDirectory(options.directory), Request(options.url), CreateFile(filePath), WriteBody(filePath)]
  }

  /** Every step returns and neither check throws. */
  predicate Succeeds(env: Env) {
    && env.parse.Parsed?
    && env.mkdir.Succeeded?
    && env.get.Responded?
    && env.get.response.ok
    && env.get.response.hasBody
    && env.pipeline.Succeeded?
  }

  /** One run of the step sequence; the first step that throws ends it. */
  function Run(options: DownloadOptions, env: Env): (t: Trace)
    ensures t.outcome.Completed? <==> Succeeds(env)
    ensures env.parse.ParseFailed? ==> t.effects == []
    ensures env.parse.Parsed? ==>
      var full := AllEffects(options, FilePath(options.directory, env.parse.pathname));
      t.effects != [] && t.effects <= full
    ensures Succeeds(env) ==>
      && t.effects == AllEffects(options, FilePath(options.directory, env.parse.pathname))
      && t.outcome == Completed(FilePath(options.directory, env.parse.pathname), Size(env.get.response))
  {
    match env.parse
    case ParseFailed(e) => Trace([], Failed(e))
    case Parsed(pathname) =>
      var filePath := FilePath(options.directory, pathname);
      var mkdir := MakeDirectory(options.directory);
      var request := Request(options.url);
      if env.mkdir.Threw? then Trace([mkdir], Failed(env.mkdir.thrown))
      else
        match env.get
        case GetFailed(e) => Trace([mkdir, request], Failed(e))
        case Responded(response) =>
          if !response.ok then
            Trace([mkdir, request], Failed(ErrorValue(StatusMessage(response))))
          else if !response.hasBody then
            Trace([mkdir, request, CreateFile(filePath)], Failed(ErrorValue(NullBodyMessage)))
          else if env.pipeline.Threw? then
            Trace([mkdir, request, CreateFile(filePath), WriteBody(filePath)], Failed(env.pipeline.thrown))
          else
            Trace([mkdir, request, CreateFile(filePath), WriteBody(filePath)], Completed(filePath, Size(response)))
  }

  /** A URL that does not parse fails with the parse error before any directory or request. */
  lemma ParseFailureTouchesNothing(options: DownloadOptions, env: Env)
    requires env.parse.ParseFailed?
    ensures Run(options, env) == Trace([], Failed(env.parse.thrown))
  {
  }

  /** A response that is not ok fails with "HTTP <status>: <statusText>" and writes no file. */
  lemma NotOkFails(options: DownloadOptions, env: Env)
    requires env.parse.Parsed? && env.mkdir.Succeeded?
    requires env.get.Responded? && !env.get.response.ok
    ensures Run(options, env).outcome == Failed(ErrorValue(StatusMessage(env.get.response)))
    ensures Run(options, env).effects == [MakeDirectory(options.directory), Request(options.url)]
  {
  }

  /**
   * A response without a body fails with "Response body is null"; the file
   * has already been opened at that point, so an empty file is left behind.
   */
  lemma NullBodyFails(options: DownloadOptions, env: Env)
    requires env.parse.Parsed? && env.mkdir.Succeeded?
    requires env.get.Responded? && env.get.response.ok && !env.get.response.hasBody
    ensures Run(options, env).outcome == Failed(ErrorValue(NullBodyMessage))
    ensures CreateFile(FilePath(options.directory, env.parse.pathname)) in Run(options, env).effects
    ensures WriteBody(FilePath(options.directory, env.parse.pathname)) !in Run(options, env).effects
  {
    var filePath := FilePath(options.directory, env.parse.pathname);
    var effects := [MakeDirectory(options.directory), Request(options.url), CreateFile(filePath)];
    assert Run(options, env) == Trace(effects, Failed(ErrorValue(NullBodyMessage)));
    assert effects[2] == CreateFile(filePath);
  }

  /** The directory is created before the request is made, and a file only after a response arrives. */
  lemma DirectoryBeforeRequest(options: DownloadOptions, env: Env)
    ensures Request(options.url) in Run(options, env).effects ==>
      Run(options, env).effects[0] == MakeDirectory(options.directory)
    ensures forall path :: CreateFile(path) in Run(options, env).effects ==>
      env.get.Responded? && env.get.response.ok
  {
    var t := Run(options, env);
    if env.parse.Parsed? {
      var full := AllEffects(options, FilePath(options.directory, env.parse.pathname));
      assert t.effects[0] == full[0];
    }
  }

  /**
   * The file a successful download writes lies in its directory and is
   * named after the last segment of the URL's pathname.
   */
  lemma CompletedFileName(options: DownloadOptions, env: Env)
    requires Succeeds(env) && Paths.Basename(env.parse.pathname) != ""
    ensures Paths.Basename(Run(options, env).outcome.filePath) == Paths.Basename(env.parse.pathname)
  {
    Paths.BasenameHasNoSlash(env.parse.pathname);
    Paths.BasenameOfJoin(options.directory, Paths.Basename(env.parse.pathname));
  }
}
