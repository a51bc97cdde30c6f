/**
 * The batch downloader returned by `downloadRecordings`
 * (src/downloadRecordings.ts): one task per URL, the non-`undefined`
 * results kept in URL order, counts, the total size of the successes and
 * the two URL lists; if awaiting the tasks throws, every URL is reported
 * failed instead.
 */
module DownloadRecordings {
  import opened Wrappers
  import Transfer
  import Recording

  type DownloadResult = Recording.DownloadResult

  /**
   * How the queue settles one URL's task: it ran with these step outcomes,
   * it resolved with no value (the queue's `void`), or it rejected.
   */
  datatype TaskOutcome = Ran(env: Transfer.Env) | Void | Rejected(reason: Transfer.Thrown)

  datatype UrlSummary = UrlSummary(successfulUrls: seq<string>, failedUrls: seq<string>)

  datatype DownloadRecordingsResult = DownloadRecordingsResult(
    results: seq<DownloadResult>,
    successful: nat,
    failed: nat,
    totalSize: nat,
    summary: UrlSummary)

  /** `results.filter(result => result !== undefined)`. */
  function Present(raw: seq<Option<DownloadResult>>): (r: seq<DownloadResult>)
    ensures |r| <= |raw|
    ensures forall x :: x in r <==> Some(x) in raw
  {
    if raw == [] then []
    else (if raw[0].Some? then [raw[0].value] else []) + Present(raw[1..])
  }

  /** `results.filter(result => result.success)`. */
  function Successes(rs: seq<DownloadResult>): (r: seq<DownloadResult>)
    ensures |r| <= |rs|
    ensures forall x :: x in r <==> x in rs && x.success
  {
    if rs == [] then []
    else (if rs[0].success then [rs[0]] else []) + Successes(rs[1..])
  }

  /** `results.filter(result => !result.success)`. */
  function Failures(rs: seq<DownloadResult>): (r: seq<DownloadResult>)
    ensures |r| <= |rs|
    ensures forall x :: x in r <==> x in rs && !x.success
  {
    if rs == [] then []
    else (if rs[0].success then [] else [rs[0]]) + Failures(rs[1..])
  }

  /** `results.map(result => result.url)`. */
  function Urls(rs: seq<DownloadResult>): (r: seq<string>)
    ensures |r| == |rs| && forall i :: 0 <= i < |rs| ==> r[i] == rs[i].url
  {
    if rs == [] then [] else [rs[0].url] + Urls(rs[1..])
  }

  /** `results.reduce((sum, result) => sum + result.size, 0)`. */
  function SumSizes(rs: seq<DownloadResult>): nat {
    if rs == [] then 0 else rs[0].size + SumSizes(rs[1..])
  }

  /** The statistics and summary computed from the kept results. */
  function Summarize(rs: seq<DownloadResult>): DownloadRecordingsResult {
    DownloadRecordingsResult(
      rs,
      |Successes(rs)|,
      |Failures(rs)|,
      SumSizes(Successes(rs)),
      UrlSummary(Urls(Successes(rs)), Urls(Failures(rs))))
  }

  /** The failed record the catch branch makes for one URL. */
  function FailedResults(urls: seq<string>, message: string): (r: seq<DownloadResult>)
    ensures |r| == |urls|
    ensures forall i :: 0 <= i < |urls| ==> r[i] == Recording.FailureRecord(urls[i], message)
  {
    if urls == [] then [] else [Recording.FailureRecord(urls[0], message)] + FailedResults(urls[1..], message)
  }

  /** The catch branch: every URL failed with the caught error's message. */
  function Fallback(urls: seq<string>, message: string): DownloadRecordingsResult {
    DownloadRecordingsResult(FailedResults(urls, message), 0, |urls|, 0, UrlSummary([], urls))
  }

  /** The reason `Promise.all` rejects with, taken as the first rejection in URL order. */
  function FirstRejection(outcomes: seq<TaskOutcome>): (r: Option<Transfer.Thrown>)
    ensures r.None? <==> forall i :: 0 <= i < |outcomes| ==> !outcomes[i].Rejected?
    ensures r.Some? ==> exists i :: 0 <= i < |outcomes| && outcomes[i] == Rejected(r.value)
  {
    if outcomes == [] then None
    else if outcomes[0].Rejected? then Some(outcomes[0].reason)
    else
      var r := FirstRejection(outcomes[1..]);
      assert r.Some? ==> outcomes[1..][0] == outcomes[1];
      r
  }

  /** What one settled task contributes: its record, or `undefined`. */
  function Settle(options: Transfer.DownloadOptions, outcome: TaskOutcome): Option<DownloadResult> {
    match outcome
    case Ran(env) => Some(Recording.DownloadRecording(options, env))
    case Void => None
    case Rejected(_) => None
  }

  /** The options of the task for `url`. */
  function Task(url: string, directory: string): Transfer.DownloadOptions {
    Transfer.DownloadOptions(url, directory)
  }

  /** The settlement of each URL's task, in URL order. */
  function Outcomes(urls: seq<string>, directory: string, tasks: Transfer.DownloadOptions -> TaskOutcome): seq<TaskOutcome> {
    seq(|urls|, i requires 0 <= i < |urls| => tasks(Task(urls[i], directory)))
  }

  /** `await Promise.all(downloadPromises)` when nothing rejects. */
  function Settled(urls: seq<string>, directory: string, tasks: Transfer.DownloadOptions -> TaskOutcome): seq<Option<DownloadResult>> {
    seq(|urls|, i requires 0 <= i < |urls| => Settle(Task(urls[i], directory), tasks(Task(urls[i], directory))))
  }

  /** `downloadRecordings(client)(queue)({ urls, directory })`. */
  function DownloadRecordings(urls: seq<string>, directory: string, tasks: Transfer.DownloadOptions -> TaskOutcome): DownloadRecordingsResult {
    match FirstRejection(Outcomes(urls, directory, tasks))
    case Some(reason) => Fallback(urls, Recording.ErrorMessage(reason))
    case None => Summarize(Present(Settled(urls, directory, tasks)))
  }

  // ------------------------------------------------------------------
  // Properties
  // ------------------------------------------------------------------

  /** The figures of a result agree with its lists. */
  ghost predicate Consistent(r: DownloadRecordingsResult) {
    && r.successful + r.failed == |r.results|
    && r.successful == |r.summary.successfulUrls|
    && r.failed == |r.summary.failedUrls|
    && multiset(r.summary.successfulUrls) + multiset(r.summary.failedUrls) == multiset(Urls(r.results))
  }

  /** Filtering distributes over concatenation, so order is kept. */
  lemma {:induction false} SuccessesConcat(a: seq<DownloadResult>, b: seq<DownloadResult>)
    ensures Successes(a + b) == Successes(a) + Successes(b)
  {
    if a == [] {
      assert a + b == b;
    } else {
      assert (a + b)[0] == a[0] && (a + b)[1..] == a[1..] + b;
      SuccessesConcat(a[1..], b);
      var h := if a[0].success then [a[0]] else [];
      assert Successes(a + b) == h + (Successes(a[1..]) + Successes(b));
      assert h + (Successes(a[1..]) + Successes(b)) == (h + Successes(a[1..])) + Successes(b);
    }
  }

  lemma {:induction false} FailuresConcat(a: seq<DownloadResult>, b: seq<DownloadResult>)
    ensures Failures(a + b) == Failures(a) + Failures(b)
  {
    if a == [] {
      assert a + b == b;
    } else {
      assert (a + b)[0] == a[0] && (a + b)[1..] == a[1..] + b;
      FailuresConcat(a[1..], b);
      var h := if a[0].success then [] else [a[0]];
      assert Failures(a + b) == h + (Failures(a[1..]) + Failures(b));
      assert h + (Failures(a[1..]) + Failures(b)) == (h + Failures(a[1..])) + Failures(b);
    }
  }

  lemma UrlsConcat(a: seq<DownloadResult>, b: seq<DownloadResult>)
    ensures Urls(a + b) == Urls(a) + Urls(b)
  {
  }

  lemma {:induction false} SumSizesConcat(a: seq<DownloadResult>, b: seq<DownloadResult>)
    ensures SumSizes(a + b) == SumSizes(a) + SumSizes(b)
  {
    if a == [] {
      assert a + b == b;
    } else {
      assert (a + b)[0] == a[0] && (a + b)[1..] == a[1..] + b;
      SumSizesConcat(a[1..], b);
    }
  }

  /** `undefined` removal distributes over concatenation, so order is kept. */
  lemma {:induction false} PresentPreservesOrder(a: seq<Option<DownloadResult>>, b: seq<Option<DownloadResult>>)
    ensures Present(a + b) == Present(a) + Present(b)
  {
    if a == [] {
      assert a + b == b;
    } else {
      assert (a + b)[0] == a[0];
      assert (a + b)[1..] == a[1..] + b;
      PresentPreservesOrder(a[1..], b);
      var h := if a[0].Some? then [a[0].value] else [];
      assert Present(a + b) == h + (Present(a[1..]) + Present(b));
      assert Present(a) == h + Present(a[1..]);
      assert h + (Present(a[1..]) + Present(b)) == (h + Present(a[1..])) + Present(b);
    }
  }

  /** When no task resolves to `undefined`, the kept results are exactly the task results, in URL order. */
  lemma {:induction false} PresentOfAllDefined(raw: seq<Option<DownloadResult>>)
    requires forall i :: 0 <= i < |raw| ==> raw[i].Some?
    ensures |Present(raw)| == |raw|
    ensures forall i :: 0 <= i < |raw| ==> Present(raw)[i] == raw[i].value
  {
    if raw != [] {
      PresentOfAllDefined(raw[1..]);
    }
  }

  /** Every result is a success or a failure, never both. */
  lemma {:induction false} CountsAddUp(rs: seq<DownloadResult>)
    ensures |Successes(rs)| + |Failures(rs)| == |rs|
  {
    if rs != [] {
      CountsAddUp(rs[1..]);
    }
  }

  /** The successful and failed URL lists together are the result URLs. */
  lemma {:induction false} UrlsPartition(rs: seq<DownloadResult>)
    ensures multiset(Urls(Successes(rs))) + multiset(Urls(Failures(rs))) == multiset(Urls(rs))
  {
    if rs != [] {
      var t := rs[1..];
      UrlsPartition(t);
      var h := if rs[0].success then [rs[0]] else [];
      var g := if rs[0].success then [] else [rs[0]];
      UrlsConcat(h, Successes(t));
      UrlsConcat(g, Failures(t));
      var us, uf := Urls(Successes(t)), Urls(Failures(t));
      assert Urls(Successes(rs)) == Urls(h) + us;
      assert Urls(Failures(rs)) == Urls(g) + uf;
      assert Urls(rs) == [rs[0].url] + Urls(t);
      assert multiset(Urls(h)) + multiset(Urls(g)) == multiset([rs[0].url]);
    }
  }



  /** A summary's figures are consistent with its lists. */
  lemma SummarizeIsConsistent(rs: seq<DownloadResult>)
    ensures Consistent(Summarize(rs))
  {
    CountsAddUp(rs);
    UrlsPartition(rs);
  }

  /**
   * The total size counts successes only: a success adds its size and a
   * failure adds nothing, whatever size it carries.
   */
  lemma TotalSizeOfSuccessesOnly(rs: seq<DownloadResult>, x: DownloadResult)
    ensures Summarize(rs + [x]).totalSize == Summarize(rs).totalSize + (if x.success then x.size else 0)
  {
    SuccessesConcat(rs, [x]);
    SumSizesConcat(Successes(rs), Successes([x]));
    assert Successes([x]) == (if x.success then [x] else []) + Successes([]);
  }

  /** When every failure has size 0, summing over the successes equals summing over all results. */
  lemma {:induction false} FailuresAddNoSize(rs: seq<DownloadResult>)
    requires forall i :: 0 <= i < |rs| && !rs[i].success ==> rs[i].size == 0
    ensures Summarize(rs).totalSize == SumSizes(rs)
  {
    if rs != [] {
      FailuresAddNoSize(rs[1..]);
      var h := if rs[0].success then [rs[0]] else [];
      assert Successes(rs) == h + Successes(rs[1..]);
      SumSizesConcat(h, Successes(rs[1..]));
      assert SumSizes(h) == (if rs[0].success then rs[0].size else 0);
    }
  }

  /** The catch branch reports exactly what summarising its all-failed records would. */
  lemma {:induction false} FallbackIsSummaryOfFailures(urls: seq<string>, message: string)
    ensures Fallback(urls, message) == Summarize(FailedResults(urls, message))
  {
    if urls != [] {
      FallbackIsSummaryOfFailures(urls[1..], message);
      var rs := FailedResults(urls, message);
      assert rs[1..] == FailedResults(urls[1..], message);
      assert Urls(rs) == [urls[0]] + Urls(rs[1..]);
      assert urls == [urls[0]] + urls[1..];
    }
  }

  /** Every result of the batch, on either branch, has figures consistent with its lists. */
  lemma DownloadRecordingsIsConsistent(urls: seq<string>, directory: string, tasks: Transfer.DownloadOptions -> TaskOutcome)
    ensures Consistent(DownloadRecordings(urls, directory, tasks))
  {
    match FirstRejection(Outcomes(urls, directory, tasks))
    case Some(reason) =>
      FallbackIsSummaryOfFailures(urls, Recording.ErrorMessage(reason));
      SummarizeIsConsistent(FailedResults(urls, Recording.ErrorMessage(reason)));
    case None =>
      SummarizeIsConsistent(Present(Settled(urls, directory, tasks)));
  }

  /**
   * When a task rejects, every URL is reported failed with an empty path,
   * size 0 and the rejection's message, and the URL lists are `[]` and `urls`.
   */
  lemma RejectionFailsEveryUrl(urls: seq<string>, directory: string, tasks: Transfer.DownloadOptions -> TaskOutcome, k: nat)
    requires k < |urls| && tasks(Task(urls[k], directory)).Rejected?
    ensures FirstRejection(Outcomes(urls, directory, tasks)).Some?
    ensures var r := DownloadRecordings(urls, directory, tasks);
      && |r.results| == |urls|
      && (forall i :: 0 <= i < |urls| ==>
            && r.results[i].url == urls[i]
            && r.results[i].filePath == "" && r.results[i].size == 0
            && !r.results[i].success
            && r.results[i].error == Some(Recording.ErrorMessage(FirstRejection(Outcomes(urls, directory, tasks)).value)))
      && r.successful == 0 && r.failed == |urls| && r.totalSize == 0
      && r.summary.successfulUrls == [] && r.summary.failedUrls == urls
  {
    assert Outcomes(urls, directory, tasks)[k].Rejected?;
  }

  /**
   * When no task rejects or resolves to `undefined`, there is one result
   * per URL, in URL order, each the record of that URL's download.
   */
  lemma AllSettledKeepsUrlOrder(urls: seq<string>, directory: string, tasks: Transfer.DownloadOptions -> TaskOutcome)
    requires forall i :: 0 <= i < |urls| ==> tasks(Task(urls[i], directory)).Ran?
    ensures var r := DownloadRecordings(urls, directory, tasks);
      && |r.results| == |urls|
      && (forall i :: 0 <= i < |urls| ==>
            r.results[i] == Recording.DownloadRecording(Task(urls[i], directory), tasks(Task(urls[i], directory)).env))
      && Urls(r.results) == urls
  {
    var outcomes := Outcomes(urls, directory, tasks);
    assert forall i :: 0 <= i < |outcomes| ==> !outcomes[i].Rejected?;
    PresentOfAllDefined(Settled(urls, directory, tasks));
  }

  /** Without a rejection, the results are the downloaded records, so the total size is the sum over all of them. */
  lemma TotalSizeWithoutRejection(urls: seq<string>, directory: string, tasks: Transfer.DownloadOptions -> TaskOutcome)
    requires FirstRejection(Outcomes(urls, directory, tasks)).None?
    ensures var r := DownloadRecordings(urls, directory, tasks);
      r.totalSize == SumSizes(r.results)
  {
    var raw := Settled(urls, directory, tasks);
    var rs := Present(raw);
    forall i | 0 <= i < |rs| && !rs[i].success
      ensures rs[i].size == 0
    {
      assert rs[i] in rs;
      assert Some(rs[i]) in raw;
      var j :| 0 <= j < |raw| && raw[j] == Some(rs[i]);
      var options := Task(urls[j], directory);
      assert raw[j] == Settle(options, tasks(options));
    }
    FailuresAddNoSize(rs);
  }
}
