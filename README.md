# download-recordings: the download bookkeeping, in Dafny

This project models the bookkeeping of the `download-recordings` command-line
tool, which pages through a call-history API and downloads every referenced
recording file. Three pieces are modelled, with every I/O step (page fetch,
`mkdir`, HTTP GET, file stream, pipeline) replaced by an outcome given as input:

- **The orchestrator** (`src/execute.ts`), as the class `Execute.Execution`.
  It fetches page 1 and stops if that fails. Otherwise it downloads page 1's
  records, then fetches the pages `_.range(1, last_page ?? 0).slice(1)` and
  downloads theirs. Every download result is folded into the mutable
  `progress` map keyed by page number. `ExecuteDownload` (the loop over a
  page's results) and `ExecutePages` (the loop over the later pages) are
  methods with loops. They and `Execute` are proved equal to pure functions
  (`AfterPage`, `AfterPages`, `Run`). Ghost logs record the pages asked for
  and the download requests issued (`FetchedPages`, `RunRequests`). The
  lemmas state what the ledger and the logs then hold.
- **The batch summary** (`src/downloadRecordings.ts`), as pure functions.
  It keeps the defined results in URL order and computes success and
  failure counts, the total size of the successes and the two URL lists.
  It also has the catch-branch fallback that marks every URL failed.
- **A single download** (`src/recording.ts`, `src/downloadSingle.ts`). Both
  files run the same try/catch step sequence. It is modelled once
  (`Transfer.Run`), with the trace of I/O actions it issues. It is then
  shaped into each file's result type (`Recording.DownloadRecording`,
  `DownloadSingle.ExecuteDownload`).

Modules: `Wrappers` (Option), `Paths` (`basename`, `join`), `Decimal`
(`${n}` for integers and its inverse), `Transfer`, `DownloadSingle`,
`Recording`, `DownloadRecordings`, `Execute`.

Behaviour of the code worth knowing, all of it followed by the model:

- The later pages are `2..L-1`, where `L` is `last_page ?? 0`, for `L >= 0`, because lodash
  `range` excludes its end. When `L >= 2`, page `L` is never fetched, and a
  run makes `max(L-1, 1)` fetches (`Execute.FetchedPagesExact`).
- A failed fetch of a later page writes `{isSuccess: false, urls: []}` under
  `firstPage.options.page`, which is page 1, and creates no entry for the
  failed page (`Execute.LaterFetchFailureMarksFirstPage`,
  `Execute.RunFirstPageEntry`). `Execute.SecondPageFailureRun` works this
  through for a failing page 2 between two good pages.
- A fetched page with no records gets no entry, because the `forEach` body
  never runs (`Execute.EmptyPageAddsNothing`, `Execute.RunLaterPageEntry`).
- For a negative `last_page`, lodash `range` counts down, so pages
  `0, -1, ...` would be fetched (`Execute.Range`).
- `createWriteStream` runs before the null-body check. A response without
  a body therefore leaves an empty file behind (`Transfer.NullBodyFails`).

## Model

| member | source | states |
|---|---|---|
| `Paths.LastSegmentIsLongestSuffix` | src/recording.ts:29 | the last segment has no '/', is a suffix, and is the whole string or follows a '/' |
| `Paths.StripTrailingSlashesIsPrefix` | src/recording.ts:29 | stripping leaves a prefix not ending in '/', and only '/'s were removed |
| `Paths.Basename` | src/recording.ts:29 | `basename` of a pathname; its contract is carried by `Paths.BasenameHasNoSlash`, `Paths.LastSegmentIsLongestSuffix` and `Paths.StripTrailingSlashesIsPrefix` |
| `Paths.Join` | src/recording.ts:30 | `join(dir, name)` of two segments; its contract is carried by `Paths.BasenameOfJoin` |
| `Paths.BasenameHasNoSlash` | src/recording.ts:29 | `basename` never yields a '/' |
| `Paths.BasenameOfJoin` | src/recording.ts:29-30 | `basename(join(dir, name)) == name` for a one-segment name |
| `Decimal.NatToString` | src/execute.ts:70 | the rendering is non-empty decimal digits without a leading zero |
| `Decimal.IntToString` | src/execute.ts:70 | `${i}` is non-empty and contains no '/' |
| `Decimal.ParseNatToString` | src/recording.ts:37 | reading the digits of `n` back gives `n` |
| `Decimal.IntToStringInjective` | src/execute.ts:70 | different integers render as different strings |
| `Transfer.StatusMessage` | src/recording.ts:37 | the not-ok error message; its contract is carried by `Transfer.NotOkFails` and `Recording.NotOkMessage` |
| `Transfer.Size` | src/recording.ts:40-42 | the size recorded on success; its contract is carried by `DownloadSingle.SuccessSize` and `Recording.DownloadRecording` |
| `Transfer.FilePath` | src/recording.ts:29-30 | `join(directory, basename(pathname))`, the file a download writes; its contract is carried by `Transfer.Run` and `Transfer.CompletedFileName` |
| `Transfer.Run` | src/recording.ts:28-67 | the steps complete exactly when every step succeeds, and then the file path is `join(dir, basename(pathname))`, the size is the content length or 0, and the actions are mkdir, GET, open file, pipe; otherwise the actions are a non-empty prefix of that order, or none when the URL does not parse |
| `Transfer.ParseFailureTouchesNothing` | src/recording.ts:29-32 | an unparsable URL fails with the parse error and no directory or request |
| `Transfer.NotOkFails` | src/recording.ts:36-38 | a response that is not ok fails with `HTTP <status>: <statusText>` after only mkdir and GET |
| `Transfer.NullBodyFails` | src/recording.ts:44-46 | a missing body fails with `Response body is null`, with the file already created and nothing piped |
| `Transfer.DirectoryBeforeRequest` | src/recording.ts:32-44 | a request is always preceded by the mkdir, and a file is only created after an ok response |
| `Transfer.CompletedFileName` | src/recording.ts:29-30 | a completed download's file is named by the last segment of the URL's pathname |
| `DownloadSingle.ExecuteDownload` | src/downloadSingle.ts:13-47 | the result always carries the input URL, is not an error exactly when every step succeeds, and then has the content-length size |
| `DownloadSingle.ParseFailureIsError` | src/downloadSingle.ts:15-19 | an unparsable URL gives `{isError: true, url, error}` before any mkdir or request |
| `DownloadSingle.StepFailureIsError` | src/downloadSingle.ts:40-46 | whichever step throws (mkdir, GET, pipeline) the result is an error with the URL and the thrown value |
| `DownloadSingle.NotOkIsError` | src/downloadSingle.ts:21-23 | a response that is not ok gives the error `HTTP <status>: <statusText>` |
| `DownloadSingle.NullBodyIsError` | src/downloadSingle.ts:31 | a missing body gives the error `Response body is null` |
| `DownloadSingle.SuccessSize` | src/downloadSingle.ts:25-39 | success is `{isError: false, url, size}` with size the content length, or 0 when absent |
| `Recording.ErrorMessage` | src/recording.ts:57-58 | the message of a caught value; its contract is carried by `Recording.NonErrorMessage` and `Recording.NotOkMessage` |
| `Recording.DownloadRecording` | src/recording.ts:27-68 | the record carries the input URL; it succeeds exactly when every step succeeds, with path `join(dir, basename(pathname))`, the content-length size and no error; otherwise path "", size 0 and an error message |
| `Recording.NotOkMessage` | src/recording.ts:36-38 | a response that is not ok is recorded with `HTTP <status>: <statusText>` |
| `Recording.NullBodyMessage` | src/recording.ts:46 | a missing body is recorded with `Response body is null` |
| `Recording.NonErrorMessage` | src/recording.ts:57-58 | a thrown non-`Error` value is recorded as `Unknown error` |
| `Recording.AgreesWithDownloadSingle` | src/recording.ts:50-66 | the two downloaders agree on success, URL, size and error message |
| `DownloadRecordings.Present` | src/downloadRecordings.ts:52-54 | the kept results are exactly the defined ones |
| `DownloadRecordings.Successes` | src/downloadRecordings.ts:57-59 | the successes are exactly the results with `success` set |
| `DownloadRecordings.Failures` | src/downloadRecordings.ts:60 | the failures are exactly the results without `success` |
| `DownloadRecordings.Urls` | src/downloadRecordings.ts:66-72 | the URL list has one URL per result, position by position |
| `DownloadRecordings.Summarize` | src/downloadRecordings.ts:56-83 | the try branch's figures; its contract is carried by `DownloadRecordings.SummarizeIsConsistent`, `DownloadRecordings.CountsAddUp`, `DownloadRecordings.UrlsPartition` and `DownloadRecordings.TotalSizeOfSuccessesOnly` |
| `DownloadRecordings.Fallback` | src/downloadRecordings.ts:84-107 | the catch branch; its contract is carried by `DownloadRecordings.RejectionFailsEveryUrl` and `DownloadRecordings.FallbackIsSummaryOfFailures` |
| `DownloadRecordings.DownloadRecordings` | src/downloadRecordings.ts:37-109 | the whole batch download; its contract is carried by `DownloadRecordings.DownloadRecordingsIsConsistent`, `DownloadRecordings.RejectionFailsEveryUrl`, `DownloadRecordings.AllSettledKeepsUrlOrder` and `DownloadRecordings.TotalSizeWithoutRejection` |
| `DownloadRecordings.FailedResults` | src/downloadRecordings.ts:90-96 | the catch branch makes one failure record per input URL, in order |
| `DownloadRecordings.FirstRejection` | src/downloadRecordings.ts:49 | there is a rejection reason exactly when some task rejected, and it is that task's reason |
| `DownloadRecordings.SuccessesConcat` | src/downloadRecordings.ts:66-68 | filtering successes keeps result order |
| `DownloadRecordings.FailuresConcat` | src/downloadRecordings.ts:70-72 | filtering failures keeps result order |
| `DownloadRecordings.UrlsConcat` | src/downloadRecordings.ts:66-72 | mapping to URLs keeps order |
| `DownloadRecordings.SumSizesConcat` | src/downloadRecordings.ts:61-63 | the size sum adds up over concatenation |
| `DownloadRecordings.SumSizes` | src/downloadRecordings.ts:61-63 | the `reduce` that adds up the successes' sizes; its contract is carried by `DownloadRecordings.SumSizesConcat` and `DownloadRecordings.TotalSizeOfSuccessesOnly` |
| `DownloadRecordings.PresentPreservesOrder` | src/downloadRecordings.ts:52-54 | dropping `undefined` keeps order |
| `DownloadRecordings.PresentOfAllDefined` | src/downloadRecordings.ts:44-54 | with no `undefined`, the results are the task results position by position |
| `DownloadRecordings.CountsAddUp` | src/downloadRecordings.ts:57-60 | `successful + failed == results.length` |
| `DownloadRecordings.UrlsPartition` | src/downloadRecordings.ts:66-72 | the successful and failed URL lists together are, as a multiset, the result URLs |
| `DownloadRecordings.SummarizeIsConsistent` | src/downloadRecordings.ts:56-83 | counts equal the lengths of the URL lists, add up to the result count, and the lists partition the URLs |
| `DownloadRecordings.TotalSizeOfSuccessesOnly` | src/downloadRecordings.ts:61-63 | a success adds its size to `totalSize` and a failure adds nothing |
| `DownloadRecordings.FailuresAddNoSize` | src/downloadRecordings.ts:61-63 | when failures have size 0 the total equals the sum over all results |
| `DownloadRecordings.FallbackIsSummaryOfFailures` | src/downloadRecordings.ts:84-107 | the catch branch reports exactly what summarising its all-failed records would |
| `DownloadRecordings.DownloadRecordingsIsConsistent` | src/downloadRecordings.ts:42-107 | on both branches the counts and URL lists are consistent |
| `DownloadRecordings.RejectionFailsEveryUrl` | src/downloadRecordings.ts:84-107 | on a rejection every URL fails with path "", size 0 and the first rejection's message; `successful == 0`, `failed == urls.length`, `totalSize == 0`, `failedUrls == urls` |
| `DownloadRecordings.AllSettledKeepsUrlOrder` | src/downloadRecordings.ts:44-54 | with every task run, there is one result per URL in URL order |
| `DownloadRecordings.Settled` | src/downloadRecordings.ts:44-49 | each URL's settled task, in URL order; its contract is carried by `DownloadRecordings.AllSettledKeepsUrlOrder` and `DownloadRecordings.TotalSizeWithoutRejection` |
| `DownloadRecordings.TotalSizeWithoutRejection` | src/downloadRecordings.ts:61-63 | without a rejection, `totalSize` is the sum of all result sizes, because failures carry size 0 |
| `Execute.Range` | src/execute.ts:114 | lodash `range(start, end)` lists `start, start±1, ...` up to `end` exclusive, counting down when `start > end` |
| `Execute.PagesAfterFirst` | src/execute.ts:114-115 | `_.range(1, L).slice(1)`; its contract is carried by `Execute.PagesAfterFirstExact` and `Execute.PagesAfterFirstShape` |
| `Execute.PagesAfterFirstExact` | src/execute.ts:113-116 | for `L >= 0` the later pages are exactly `2..L-1` in order, none when `L <= 2` |
| `Execute.PagesAfterFirstShape` | src/execute.ts:113-116 | the later pages are distinct and never include page 1 or page `L` |
| `Execute.LastPage` | src/execute.ts:114 | `last_page ?? 0`; its contract is carried by `Execute.FetchedPagesExact` and `Execute.PagesAfterFirstExact` |
| `Execute.RequestsFollowRecords` | src/execute.ts:68-72 | a page has one request and one result per record; every download for page `p` targets `join(output, p)`, asks for the record at the same position and returns its URL |
| `Execute.RequestsExact` | src/execute.ts:67-72 | a page's download requests are exactly its records, each into `join(output, page)` |
| `Execute.RequestsOfExact` | src/execute.ts:67-72 | the requests of a list of pages are exactly those of one of the pages |
| `Execute.RunRequestsExact` | src/execute.ts:67-124 | a run downloads exactly the records of the pages it fetched, each into `join(output, page)` of the page that listed it |
| `Execute.PageDirectoriesDiffer` | src/execute.ts:70 | different pages download into different directories |
| `Execute.PageDirectory` | src/execute.ts:70 | `join(output, page)`; its contract is carried by `Execute.RequestsFollowRecords` and `Execute.PageDirectoriesDiffer` |
| `Execute.Requests` | src/execute.ts:67-72 | a page's download requests; its contract is carried by `Execute.RequestsFollowRecords` and `Execute.RequestsExact` |
| `Execute.Results` | src/execute.ts:67-74 | a page's settled downloads; its contract is carried by `Execute.RequestsFollowRecords` and `Execute.Execution.ExecuteDownload` |
| `Execute.Record` | src/execute.ts:76-105 | one `forEach` step on a page's entry; its contract is carried by `Execute.FoldEntryValue`, `Execute.NewEntryFailsIffAnError` and `Execute.FailedEntryStaysFailed` |
| `Execute.Fold` | src/execute.ts:75-106 | the whole `forEach` over a page's results; its contract is carried by `Execute.FoldOtherPages` and `Execute.FoldThisPage` |
| `Execute.FoldOtherPages` | src/execute.ts:75-106 | folding page `p`'s results leaves every other key unchanged |
| `Execute.FoldThisPage` | src/execute.ts:75-106 | page `p`'s new entry is the entry-wise fold of its old one |
| `Execute.FoldEntryValue` | src/execute.ts:76-105 | the fold appends one `{url, isSuccess}` line per result in order, and `isSuccess` stays true only if no result is an error; no results leave the entry unchanged |
| `Execute.NewEntryFailsIffAnError` | src/execute.ts:77-104 | from no entry, `isSuccess` ends false exactly when some result is an error |
| `Execute.FailedEntryStaysFailed` | src/execute.ts:96-105 | a success never sets `isSuccess` back to true |
| `Execute.AfterPage` | src/execute.ts:58-107 | `executeDownload(pageData)`; its contract is carried by `Execute.LaterFetchFailureMarksFirstPage`, `Execute.EmptyPageAddsNothing`, `Execute.AfterPageOtherKeys` and `Execute.Execution.ExecuteDownload` |
| `Execute.AfterPages` | src/execute.ts:113-124 | the later pages processed in order; its contract is carried by `Execute.AfterPagesUntouched`, `Execute.AfterPagesProcessedKey`, `Execute.AfterPagesFirstKey` and `Execute.Execution.ExecutePages` |
| `Execute.Run` | src/execute.ts:40-124 | the final `progress` of a run; its contract is carried by `Execute.FirstPageFailureHalts`, `Execute.RunLaterPageEntry`, `Execute.RunFirstPageEntry` and `Execute.Execution.Execute` |
| `Execute.RunRequests` | src/execute.ts:67-124 | every download request of a run, in order; its contract is carried by `Execute.RunRequestsExact` and `Execute.Execution.Execute` |
| `Execute.LaterFetchFailureMarksFirstPage` | src/execute.ts:60-66 | a failed later fetch writes `{isSuccess: false, urls: []}` under page 1 and nothing under its own page |
| `Execute.EmptyPageAddsNothing` | src/execute.ts:67-75 | a fetched page with no records changes nothing |
| `Execute.AfterPageOtherKeys` | src/execute.ts:58-107 | processing a page changes only its own key and, on a failed fetch, page 1's |
| `Execute.AfterPagesUntouched` | src/execute.ts:113-124 | keys that are neither page 1 nor a processed page keep their entries |
| `Execute.AfterPagesProcessedKey` | src/execute.ts:113-124 | a processed page's entry depends only on its own fetch and downloads |
| `Execute.AfterPagesFirstKey` | src/execute.ts:58-66 | page 1's entry becomes failed and empty if any later fetch failed, and is untouched otherwise |
| `Execute.FirstPageFailureHalts` | src/execute.ts:42-56 | if page 1's fetch fails the ledger is exactly `{1: {isSuccess: false, urls: []}}` and no other page is fetched |
| `Execute.FetchedPagesExact` | src/execute.ts:113-124 | after a good page 1 the fetched pages are `1, 2, ..., L-1`, `max(L-1, 1)` of them, never `L` when `L >= 2` |
| `Execute.LaterPages` | src/execute.ts:113-121 | the pages fetched after page 1; its contract is carried by `Execute.FetchedPagesExact`, `Execute.FirstPageFailureHalts` and `Execute.RunLaterPageEntry` |
| `Execute.FetchedPages` | src/execute.ts:43-121 | every page a run fetches, page 1 first (src/execute.ts:43-47), then the later pages (src/execute.ts:113-121); its contract is carried by `Execute.FetchedPagesExact`, `Execute.FirstPageFailureHalts` and `Execute.Execution.Execute` |
| `Execute.RunLaterPageEntry` | src/execute.ts:113-124 | a later page has a final entry exactly when it was scheduled, fetched and has records; the entry lists its records in order and is false exactly when a download failed |
| `Execute.RunFirstPageEntry` | src/execute.ts:58-109 | page 1's final entry is failed and empty if a later fetch failed, otherwise absent without records, otherwise its records in order, false exactly when a download failed |
| `Execute.RunLaterPageEntryNone` | src/execute.ts:113-124 | when no later page is fetched, page 1 is the only key the ledger can hold |
| `Execute.OneRecordRun` | src/execute.ts:42-124 | a single page with `last_page: 1` and one good record `https://x/y/r1.wav` is the only fetch, the ledger is `{1: {isSuccess: true, urls: [{url, isSuccess: true}]}}` and the file is `<output>/1/r1.wav` |
| `Execute.SecondPageFailureRun` | src/execute.ts:58-124 | with `last_page: 4`, a failed page-2 fetch and a good page 3, pages 1, 2, 3 are fetched; page 1 ends failed and empty, page 2 has no entry, and page 3 holds its downloads |
| `Execute.Execution.constructor` | src/execute.ts:40 | the ledger and both logs start empty |
| `Execute.Execution.ExecuteDownload` | src/execute.ts:58-107 | the new ledger is `AfterPage` of the old one, and the download requests issued are the page's requests |
| `Execute.Execution.ExecutePage` | src/execute.ts:116-123 | one later page: it is asked for, the ledger becomes `AfterPage` of the old one, and its requests are appended to the download log |
| `Execute.Execution.ExecutePages` | src/execute.ts:113-124 | the ledger after the page loop is `AfterPages` of the old one, the pages are asked for in order, and the download log stays the requests of the pages asked for |
| `Execute.Execution.Execute` | src/execute.ts:21-127 | a run starts a fresh ledger; the final ledger is `Run` of the outcomes, the pages asked for are `FetchedPages` and the downloads issued are `RunRequests` |

## Left out

- HTTP client construction, the page fetcher's request body, bearer token and 50 s timeout (src/client.ts, src/downloadPageData.ts, src/download.ts): each page fetch is an input outcome, fetched data or a thrown error.
- The CLI (src/index.ts, dist/index.js): argument parsing, help and version text, the date check on JavaScript `Date`, dry run, logging and `process.exit`. The CLI does not call `execute`.
- `p-queue` concurrency caps and `Promise.all` interleaving. The later pages are processed one after another in range order. Each page's ledger update runs without interleaving after its own `Promise.all`, so the order in which pages finish does not change any entry except page 1's failure mark, which is the same whichever page sets it.
- Streams, `mkdir`, file creation and partial files: these appear only as step outcomes and as the effect trace of `Transfer.Run`.
- `new URL` parsing: the pathname, or the thrown parse error, is an input. `parseInt` of the content-length header is an input `Option<nat>`, where `None` stands for an absent or empty header. A header that is not a number (NaN in JavaScript) is not modelled. Neither is a negative or partly numeric header: `parseInt("-5")` is -5, which `Option<nat>` cannot hold, and `parseInt("12abc")` is 12.
- `Paths.Join`: the normalisation done by `path.join` (collapsing "//", resolving "." and "..") is not modelled.
- `Decimal.IntToString`: JavaScript's exponent notation for numbers of 1e21 and more is not modelled.
- The outcome oracles are functions of the request, so two identical requests in one run are given the same outcome.
- `DownloadRecordings.FirstRejection`: `Promise.all` rejects with whichever task rejects first in time. The model takes the first rejection in URL order; this affects only the error message in the fallback records.
- The progress messages `execute` logs (src/execute.ts:42, 50, 59, 111) are not modelled.
- The `progress` map is only logged by `execute`. The model exposes it as the `progress` field of `Execute.Execution`.
- By default `ky` throws on a status that is not 2xx before the downloaders' own `!response.ok` check. The GET outcome is an input here, so both the thrown error and the explicit check are modelled.
