/**
 * The task body of `downloadRecording` (src/recording.ts): the download step
 * sequence shaped into a flat `DownloadResult` record with a file path, a
 * size, a success flag and an optional error message.
 */
module Recording {
  import opened Wrappers
  import Transfer
  import DownloadSingle

  /** `{ url, filePath, size, success, error? }`. */
  datatype DownloadResult = DownloadResult(
    url: string,
    filePath: string,
    size: nat,
    success: bool,
    error: Option<string>)

  const UnknownErrorMessage: string := "Unknown error"

  /** `error instanceof Error ? error.message : "Unknown error"`. */
  function ErrorMessage(thrown: Transfer.Thrown): string {
    match thrown
    case ErrorValue(message) => message
    case OtherValue => UnknownErrorMessage
  }

  /** The failure record every caught error becomes. */
  function FailureRecord(url: string, message: string): DownloadResult {
    DownloadResult(url, "", 0, false, Some(message))
  }

  /** One download task: success with the file path and size, or the failure record. */
  function DownloadRecording(options: Transfer.DownloadOptions, env: Transfer.Env): (r: DownloadResult)
    ensures r.url == options.url
    ensures r.success <==> Transfer.Succeeds(env)
    ensures r.success ==>
      && r.filePath == Transfer.FilePath(options.directory, env.parse.pathname)
      && r.size == Transfer.Size(env.get.response)
      && r.error == None
    ensures !r.success ==> r.filePath == "" && r.size == 0 && r.error.Some?
  {
    match Transfer.Run(options, env).outcome
    case Completed(filePath, size) => DownloadResult(options.url, filePath, size, true, None)
    case Failed(e) => FailureRecord(options.url, ErrorMessage(e))
  }

  /** A response that is not ok is recorded with the message "HTTP <status>: <statusText>". */
  lemma NotOkMessage(options: Transfer.DownloadOptions, env: Transfer.Env)
    requires env.parse.Parsed? && env.mkdir.Succeeded?
    requires env.get.Responded? && !env.get.response.ok
    ensures DownloadRecording(options, env).error == Some(Transfer.StatusMessage(env.get.response))
  {
  }

  /** A response without a body is recorded with the message "Response body is null". */
  lemma NullBodyMessage(options: Transfer.DownloadOptions, env: Transfer.Env)
    requires env.parse.Parsed? && env.mkdir.Succeeded?
    requires env.get.Responded? && env.get.response.ok && !env.get.response.hasBody
    ensures DownloadRecording(options, env).error == Some(Transfer.NullBodyMessage)
  {
  }

  /** A thrown value that is not an `Error` is recorded as "Unknown error". */
  lemma NonErrorMessage(options: Transfer.DownloadOptions, env: Transfer.Env)
    requires Transfer.Run(options, env).outcome == Transfer.Failed(Transfer.OtherValue)
    ensures DownloadRecording(options, env) == FailureRecord(options.url, UnknownErrorMessage)
  {
  }

  /**
   * The two downloaders agree: the record succeeds exactly when the tagged
   * result is not an error, with the same URL and size.
   */
  lemma AgreesWithDownloadSingle(options: Transfer.DownloadOptions, env: Transfer.Env)
    ensures DownloadRecording(options, env).success == !DownloadSingle.ExecuteDownload(options, env).IsError()
    ensures DownloadRecording(options, env).url == DownloadSingle.ExecuteDownload(options, env).url
    ensures DownloadRecording(options, env).success ==>
      DownloadRecording(options, env).size == DownloadSingle.ExecuteDownload(options, env).size
    ensures !DownloadRecording(options, env).success ==>
      DownloadRecording(options, env).error == Some(ErrorMessage(DownloadSingle.ExecuteDownload(options, env).error))
  {
  }
}
