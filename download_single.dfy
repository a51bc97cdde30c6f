/**
 * `createDownLoadSingle`'s `executeDownload` (src/downloadSingle.ts): the
 * download step sequence shaped into the `DownloadSingleResult` tagged union
 * of src/types.ts.
 */
module DownloadSingle {
  import opened Wrappers
  import Transfer

  /** `{ isError: false, url, size }` or `{ isError: true, url, error }`. */
  datatype DownloadSingleResult =
    | Downloaded(url: string, size: nat)
    | DownloadFailed(url: string, error: Transfer.Thrown)
  {
    /** The `isError` discriminant. */
    predicate IsError() {
      DownloadFailed?
    }
  }

  /** One download: whatever the step sequence throws becomes the error. */
  function ExecuteDownload(options: Transfer.DownloadOptions, env: Transfer.Env): (r: DownloadSingleResult)
    ensures r.url == options.url
    ensures !r.IsError() <==> Transfer.Succeeds(env)
    ensures !r.IsError() ==> r.size == Transfer.Size(env.get.response)
  {
    match Transfer.Run(options, env).outcome
    case Completed(_, size) => Downloaded(options.url, size)
    case Failed(e) => DownloadFailed(options.url, e)
  }

  /** A URL that fails to parse gives the parse error, before any directory or request. */
  lemma ParseFailureIsError(options: Transfer.DownloadOptions, env: Transfer.Env)
    requires env.parse.ParseFailed?
    ensures ExecuteDownload(options, env) == DownloadFailed(options.url, env.parse.thrown)
    ensures Transfer.Run(options, env).effects == []
  {
  }

  /** Whichever step throws, the result is an error carrying the URL and what was thrown. */
  lemma StepFailureIsError(options: Transfer.DownloadOptions, env: Transfer.Env)
    requires !Transfer.Succeeds(env)
    ensures ExecuteDownload(options, env) == DownloadFailed(options.url, Transfer.Run(options, env).outcome.thrown)
    ensures env.mkdir.Threw? && env.parse.Parsed? ==> ExecuteDownload(options, env).error == env.mkdir.thrown
    ensures env.parse.Parsed? && env.mkdir.Succeeded? && env.get.GetFailed? ==>
      ExecuteDownload(options, env).error == env.get.thrown
    ensures env.parse.Parsed? && env.mkdir.Succeeded? && env.get.Responded? &&
            env.get.response.ok && env.get.response.hasBody ==>
      ExecuteDownload(options, env).error == env.pipeline.thrown
  {
  }

  /** A response that is not ok gives the error "HTTP <status>: <statusText>". */
  lemma NotOkIsError(options: Transfer.DownloadOptions, env: Transfer.Env)
    requires env.parse.Parsed? && env.mkdir.Succeeded?
    requires env.get.Responded? && !env.get.response.ok
    ensures ExecuteDownload(options, env) ==
      DownloadFailed(options.url, Transfer.ErrorValue(Transfer.StatusMessage(env.get.response)))
  {
  }

  /** A response without a body gives the error "Response body is null". */
  lemma NullBodyIsError(options: Transfer.DownloadOptions, env: Transfer.Env)
    requires env.parse.Parsed? && env.mkdir.Succeeded?
    requires env.get.Responded? && env.get.response.ok && !env.get.response.hasBody
    ensures ExecuteDownload(options, env) ==
      DownloadFailed(options.url, Transfer.ErrorValue(Transfer.NullBodyMessage))
  {
  }

  /** On success the size is the content length, or 0 when the header is absent or empty. */
  lemma SuccessSize(options: Transfer.DownloadOptions, env: Transfer.Env)
    requires Transfer.Succeeds(env)
    ensures ExecuteDownload(options, env) == Downloaded(options.url,
      match env.get.response.contentLength case Some(n) => n case None => 0)
  {
  }
}
