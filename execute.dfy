/**
 * The orchestrator of src/execute.ts: fetch page 1, stop if that fails,
 * otherwise download its records, then fetch the later pages the lodash
 * range yields and download theirs, folding every download result into a
 * progress ledger keyed by page number. Page fetches and downloads are
 * input outcomes; the later pages are processed one after another, in the
 * order the range lists them.
 */
module Execute {
  import opened Wrappers
  import Paths
  import Decimal
  import Transfer
  import DownloadSingle

  type DownloadSingleResult = DownloadSingle.DownloadSingleResult

  /** One URL's line in the ledger: `{ url, isSuccess }`. */
  datatype UrlProgress = UrlProgress(url: string, isSuccess: bool)

  /** One page's ledger entry: `{ isSuccess, urls }`. */
  datatype PageProgress = PageProgress(isSuccess: bool, urls: seq<UrlProgress>)

  /** The `Progress` record, keyed by page number. */
  type Progress = map<int, PageProgress>

  /** `data.cdr_data` of a page: `last_page` (possibly missing) and the record file URLs. */
  datatype PageData = PageData(lastPage: Option<int>, recordFiles: seq<string>)

  /** How fetching one page turned out. */
  datatype PageResponse = Fetched(data: PageData) | FetchFailed(error: Transfer.Thrown)

  /** `FetchPageDataResult`: the requested page (`options.page`) and its response. */
  datatype FetchPageDataResult = FetchPageDataResult(page: int, response: PageResponse) {
    /** The `isError` discriminant. */
    predicate IsError() {
      response.FetchFailed?
    }
  }

  /** `firstPage.options.page`. */
  const FirstPage: int := 1

  /** The entry written when a fetch fails: `{ isSuccess: false, urls: [] }`. */
  const FailedPage: PageProgress := PageProgress(false, [])

  /** The default for a page with no entry yet: `{ isSuccess: true, urls: [] }`. */
  const NewPage: PageProgress := PageProgress(true, [])

  function Lookup(progress: Progress, page: int): Option<PageProgress> {
    if page in progress then Some(progress[page]) else None
  }

  // ------------------------------------------------------------------
  // The page schedule
  // ------------------------------------------------------------------

  /**
   * lodash `_.range(start, end)` with the default step: counting up to
   * `end` (exclusive) when `start < end`, counting down to it otherwise.
   */
  function Range(start: int, end: int): (r: seq<int>)
    ensures |r| == if start <= end then end - start else start - end
    ensures forall i :: 0 <= i < |r| ==> r[i] == if start <= end then start + i else start - i
    decreases if start <= end then end - start else start - end
  {
    if start == end then []
    else if start < end then [start] + Range(start + 1, end)
    else [start] + Range(start - 1, end)
  }

  /** `_.range(1, lastPage).slice(1)`: the pages fetched after page 1. */
  function PagesAfterFirst(lastPage: int): seq<int> {
    var r := Range(1, lastPage);
    if r == [] then [] else r[1..]
  }

  /** `last_page ?? 0`. */
  function LastPage(data: PageData): int {
    data.lastPage.GetOr(0)
  }

  predicate Distinct(pages: seq<int>) {
    forall i, j :: 0 <= i < j < |pages| ==> pages[i] != pages[j]
  }

  /**
   * For a last page `L >= 0` the later pages are exactly `2, 3, ..., L - 1`:
   * none when `L <= 2`, and never `L` itself.
   */
  lemma PagesAfterFirstExact(lastPage: int)
    requires lastPage >= 0
    ensures |PagesAfterFirst(lastPage)| == if lastPage <= 2 then 0 else lastPage - 2
    ensures forall i :: 0 <= i < |PagesAfterFirst(lastPage)| ==> PagesAfterFirst(lastPage)[i] == i + 2
    ensures forall p :: p in PagesAfterFirst(lastPage) <==> 2 <= p < lastPage
  {
    var pages := PagesAfterFirst(lastPage);
    forall p | 2 <= p < lastPage
      ensures p in pages
    {
      assert pages[p - 2] == p;
    }
  }

  /**
   * For any last page, negative ones included, the later pages are
   * distinct, never page 1, and never the last page itself.
   */
  lemma PagesAfterFirstShape(lastPage: int)
    ensures Distinct(PagesAfterFirst(lastPage))
    ensures FirstPage !in PagesAfterFirst(lastPage)
    ensures lastPage !in PagesAfterFirst(lastPage)
  {
  }

  // ------------------------------------------------------------------
  // Downloads of one page
  // ------------------------------------------------------------------

  /** `path.join(options.output, `${page}`)`. */
  function PageDirectory(output: string, page: int): string {
    Paths.Join(output, Decimal.IntToString(page))
  }

  /** The record file URLs of a fetched page; none for a failed fetch. */
  function Records(pageData: FetchPageDataResult): seq<string> {
    if pageData.response.Fetched? then pageData.response.data.recordFiles else []
  }

  /** The download requests for a page: one per record, all into the page's directory. */
  function Requests(output: string, pageData: FetchPageDataResult): seq<Transfer.DownloadOptions> {
    var records := Records(pageData);
    seq(|records|, i requires 0 <= i < |records| =>
      Transfer.DownloadOptions(records[i], PageDirectory(output, pageData.page)))
  }

  /** `await Promise.all(records.map(c => downloadSingle(...)))`. */
  function Results(output: string, pageData: FetchPageDataResult,
                   download: Transfer.DownloadOptions -> Transfer.Env): seq<DownloadSingleResult> {
    var requests := Requests(output, pageData);
    seq(|requests|, i requires 0 <= i < |requests| =>
      DownloadSingle.ExecuteDownload(requests[i], download(requests[i])))
  }

  /**
   * Every download for page `p` goes into `join(output, p)` and asks for
   * the page's record at the same position; its result carries that URL.
   */
  lemma RequestsFollowRecords(output: string, pageData: FetchPageDataResult,
                              download: Transfer.DownloadOptions -> Transfer.Env)
    ensures |Requests(output, pageData)| == |Records(pageData)|
    ensures |Results(output, pageData, download)| == |Records(pageData)|
    ensures forall i :: 0 <= i < |Records(pageData)| ==>
      && Requests(output, pageData)[i].directory == PageDirectory(output, pageData.page)
      && Requests(output, pageData)[i].url == Records(pageData)[i]
      && Results(output, pageData, download)[i].url == Records(pageData)[i]
  {
  }

  /** Different pages download into different directories. */
  lemma PageDirectoriesDiffer(output: string, p: int, q: int)
    requires p != q
    ensures PageDirectory(output, p) != PageDirectory(output, q)
  {
    Decimal.IntToStringInjective(p, q);
    Paths.BasenameOfJoin(output, Decimal.IntToString(p));
    Paths.BasenameOfJoin(output, Decimal.IntToString(q));
  }

  // ------------------------------------------------------------------
  // The progress fold
  // ------------------------------------------------------------------

  /** One pass of the `results.forEach` body: append the URL, clear `isSuccess` on an error. */
  function Record(current: Option<PageProgress>, res: DownloadSingleResult): PageProgress {
    var c := current.GetOr(NewPage);
    if res.IsError() then PageProgress(false, c.urls + [UrlProgress(res.url, false)])
    else c.(urls := c.urls + [UrlProgress(res.url, true)])
  }

  /** The ledger after the `forEach` has visited `results` in order, for page `page`. */
  function Fold(progress: Progress, page: int, results: seq<DownloadSingleResult>): Progress {
    if results == [] then progress
    else
      var before := Fold(progress, page, results[..|results| - 1]);
      before[page := Record(Lookup(before, page), results[|results| - 1])]
  }

  /** Folding one more result records it on top of the fold so far. */
  lemma FoldSnoc(progress: Progress, page: int, results: seq<DownloadSingleResult>, res: DownloadSingleResult)
    ensures Fold(progress, page, results + [res]) ==
      var before := Fold(progress, page, results);
      before[page := Record(Lookup(before, page), res)]
  {
    assert (results + [res])[..|results|] == results;
  }

  /** The same fold seen from one entry. */
  function FoldEntry(current: Option<PageProgress>, results: seq<DownloadSingleResult>): Option<PageProgress> {
    if results == [] then current
    else Some(Record(FoldEntry(current, results[..|results| - 1]), results[|results| - 1]))
  }

  /** The URL lines a page's results add, in result order. */
  function UrlLines(results: seq<DownloadSingleResult>): seq<UrlProgress> {
    seq(|results|, i requires 0 <= i < |results| => UrlProgress(results[i].url, !results[i].IsError()))
  }

  predicate NoErrors(results: seq<DownloadSingleResult>) {
    forall i :: 0 <= i < |results| ==> !results[i].IsError()
  }

  /** Folding a page's results touches only that page's key. */
  lemma {:induction false} FoldOtherPages(progress: Progress, page: int, results: seq<DownloadSingleResult>, k: int)
    requires k != page
    ensures Lookup(Fold(progress, page, results), k) == Lookup(progress, k)
  {
    if results != [] {
      FoldOtherPages(progress, page, results[..|results| - 1], k);
    }
  }

  /** The page's own entry after the fold is the entry-wise fold of its old entry. */
  lemma {:induction false} FoldThisPage(progress: Progress, page: int, results: seq<DownloadSingleResult>)
    ensures Lookup(Fold(progress, page, results), page) == FoldEntry(Lookup(progress, page), results)
  {
    if results != [] {
      FoldThisPage(progress, page, results[..|results| - 1]);
    }
  }

  /**
   * Folding results into an entry appends one line per result, in order,
   * and leaves `isSuccess` true only if it was true and no result is an
   * error; with no results the entry is unchanged (so no entry appears).
   */
  lemma {:induction false} FoldEntryValue(current: Option<PageProgress>, results: seq<DownloadSingleResult>)
    ensures results == [] ==> FoldEntry(current, results) == current
    ensures results != [] ==>
      var c := current.GetOr(NewPage);
      FoldEntry(current, results) == Some(PageProgress(c.isSuccess && NoErrors(results), c.urls + UrlLines(results)))
  {
    if results != [] {
      var init := results[..|results| - 1];
      var last := results[|results| - 1];
      var c := current.GetOr(NewPage);
      FoldEntryValue(current, init);
      assert UrlLines(results) == UrlLines(init) + [UrlProgress(last.url, !last.IsError())];
      if init == [] {
        assert c.urls + UrlLines(results) == c.urls + [UrlProgress(last.url, !last.IsError())];
      } else {
        assert NoErrors(results) == (NoErrors(init) && !last.IsError());
        assert c.urls + UrlLines(results) == (c.urls + UrlLines(init)) + [UrlProgress(last.url, !last.IsError())];
      }
    }
  }

  /** Starting from no entry, a page's entry is false exactly when one of its downloads failed. */
  lemma NewEntryFailsIffAnError(results: seq<DownloadSingleResult>)
    requires results != []
    ensures FoldEntry(None, results).Some?
    ensures FoldEntry(None, results).value.isSuccess <==> NoErrors(results)
    ensures FoldEntry(None, results).value.urls == UrlLines(results)
  {
    FoldEntryValue(None, results);
  }

  /** A success never sets a cleared entry back to true. */
  lemma FailedEntryStaysFailed(entry: PageProgress, results: seq<DownloadSingleResult>)
    requires !entry.isSuccess
    ensures !FoldEntry(Some(entry), results).value.isSuccess
  {
    FoldEntryValue(Some(entry), results);
  }

  // ------------------------------------------------------------------
  // The whole run
  // ------------------------------------------------------------------

  /**
   * `executeDownload(pageData)`: a failed fetch overwrites the first page's
   * entry; a fetched page folds its download results into its own entry.
   */
  function AfterPage(progress: Progress, output: string, pageData: FetchPageDataResult,
                     download: Transfer.DownloadOptions -> Transfer.Env): Progress {
    if pageData.IsError() then progress[FirstPage := FailedPage]
    else Fold(progress, pageData.page, Results(output, pageData, download))
  }

  /** The ledger after the later pages `pages` have been processed in order. */
  function AfterPages(progress: Progress, output: string, pages: seq<int>,
                      fetch: int -> PageResponse, download: Transfer.DownloadOptions -> Transfer.Env): Progress {
    if pages == [] then progress
    else
      var page := pages[|pages| - 1];
      AfterPage(AfterPages(progress, output, pages[..|pages| - 1], fetch, download), output,
                FetchPageDataResult(page, fetch(page)), download)
  }

  /** Processing one more page applies `AfterPage` to the ledger so far. */
  lemma AfterPagesSnoc(progress: Progress, output: string, pages: seq<int>, page: int,
                       fetch: int -> PageResponse, download: Transfer.DownloadOptions -> Transfer.Env)
    ensures AfterPages(progress, output, pages + [page], fetch, download) ==
      AfterPage(AfterPages(progress, output, pages, fetch, download), output, FetchPageDataResult(page, fetch(page)), download)
  {
    assert (pages + [page])[..|pages|] == pages;
  }

  function FirstPageData(fetch: int -> PageResponse): FetchPageDataResult {
    FetchPageDataResult(FirstPage, fetch(FirstPage))
  }

  /** The pages fetched after page 1, given how page 1's fetch turned out. */
  function LaterPages(fetch: int -> PageResponse): seq<int> {
    var first := FirstPageData(fetch);
    if first.IsError() then [] else PagesAfterFirst(LastPage(first.response.data))
  }

  /** Every page `execute` asks for, in order. */
  function FetchedPages(fetch: int -> PageResponse): seq<int> {
    [FirstPage] + LaterPages(fetch)
  }

  /** The final ledger of `execute`. */
  function Run(output: string, fetch: int -> PageResponse,
               download: Transfer.DownloadOptions -> Transfer.Env): Progress {
    var first := FirstPageData(fetch);
    if first.IsError() then map[first.page := FailedPage]
    else AfterPages(AfterPage(map[], output, first, download), output, LaterPages(fetch), fetch, download)
  }

  /** The download requests of the pages `pages`, in the order they are processed. */
  function RequestsOf(output: string, pages: seq<int>, fetch: int -> PageResponse): seq<Transfer.DownloadOptions> {
    if pages == [] then []
    else
      var page := pages[|pages| - 1];
      RequestsOf(output, pages[..|pages| - 1], fetch) + Requests(output, FetchPageDataResult(page, fetch(page)))
  }

  lemma TakeSnoc<T>(s: seq<T>, i: nat)
    requires i < |s|
    ensures s[..i + 1] == s[..i] + [s[i]]
  {
  }

  lemma AppendAssoc<T>(a: seq<T>, b: seq<T>, c: seq<T>)
    ensures (a + b) + c == a + (b + c)
  {
  }

  /** Processing one more page appends that page's requests. */
  lemma RequestsOfSnoc(output: string, pages: seq<int>, page: int, fetch: int -> PageResponse)
    ensures RequestsOf(output, pages + [page], fetch) ==
      RequestsOf(output, pages, fetch) + Requests(output, FetchPageDataResult(page, fetch(page)))
  {
    assert (pages + [page])[..|pages|] == pages;
  }

  /** Every download request `execute` issues, in order: none when page 1's fetch fails. */
  function RunRequests(output: string, fetch: int -> PageResponse): seq<Transfer.DownloadOptions> {
    RequestsOf(output, FetchedPages(fetch), fetch)
  }

  /** After a good page 1, a run is page 1's processing followed by the later pages'. */
  lemma RunAfterGoodFirstPage(output: string, fetch: int -> PageResponse,
                              download: Transfer.DownloadOptions -> Transfer.Env)
    requires !FirstPageData(fetch).IsError()
    ensures var first := FirstPageData(fetch);
      var pages := PagesAfterFirst(LastPage(first.response.data));
      && Run(output, fetch, download) == AfterPages(AfterPage(map[], output, first, download), output, pages, fetch, download)
      && FetchedPages(fetch) == [FirstPage] + pages
  {
  }

  /** A page's requests are exactly its records, each into the page's directory. */
  lemma RequestsExact(output: string, pageData: FetchPageDataResult)
    ensures forall d: Transfer.DownloadOptions :: d in Requests(output, pageData) <==>
      d.directory == PageDirectory(output, pageData.page) && d.url in Records(pageData)
  {
    var records := Records(pageData);
    var requests := Requests(output, pageData);
    forall d: Transfer.DownloadOptions | d.directory == PageDirectory(output, pageData.page) && d.url in records
      ensures d in requests
    {
      var i :| 0 <= i < |records| && records[i] == d.url;
      assert requests[i] == d;
    }
  }

  /** The requests of `pages` are exactly the requests of one of those pages. */
  lemma {:induction false} RequestsOfExact(output: string, pages: seq<int>, fetch: int -> PageResponse)
    ensures forall d: Transfer.DownloadOptions :: d in RequestsOf(output, pages, fetch) <==>
      exists p :: p in pages && d in Requests(output, FetchPageDataResult(p, fetch(p)))
  {
    if pages != [] {
      var init := pages[..|pages| - 1];
      var last := pages[|pages| - 1];
      RequestsOfExact(output, init, fetch);
      assert pages == init + [last];
      forall d: Transfer.DownloadOptions
        ensures d in RequestsOf(output, pages, fetch) <==>
          exists p :: p in pages && d in Requests(output, FetchPageDataResult(p, fetch(p)))
      {
        if d in Requests(output, FetchPageDataResult(last, fetch(last))) {
          assert last in pages;
        }
        if exists p :: p in pages && d in Requests(output, FetchPageDataResult(p, fetch(p))) {
          var p :| p in pages && d in Requests(output, FetchPageDataResult(p, fetch(p)));
          if p != last {
            assert p in init;
          }
        }
      }
    }
  }

  /**
   * A run downloads exactly the records of the pages it fetched, each into
   * `join(output, page)` of the page that listed it.
   */
  lemma RunRequestsExact(output: string, fetch: int -> PageResponse)
    ensures forall d: Transfer.DownloadOptions :: d in RunRequests(output, fetch) <==>
      exists p :: p in FetchedPages(fetch) &&
        d.directory == PageDirectory(output, p) && d.url in Records(FetchPageDataResult(p, fetch(p)))
  {
    var pages := FetchedPages(fetch);
    RequestsOfExact(output, pages, fetch);
    forall p | p in pages
      ensures forall d: Transfer.DownloadOptions :: d in Requests(output, FetchPageDataResult(p, fetch(p))) <==>
        d.directory == PageDirectory(output, p) && d.url in Records(FetchPageDataResult(p, fetch(p)))
    {
      RequestsExact(output, FetchPageDataResult(p, fetch(p)));
    }
  }

  /** A failed fetch for a later page overwrites page 1's entry and creates none for itself. */
  lemma LaterFetchFailureMarksFirstPage(progress: Progress, output: string, pageData: FetchPageDataResult,
                                        download: Transfer.DownloadOptions -> Transfer.Env)
    requires pageData.IsError() && pageData.page != FirstPage
    ensures AfterPage(progress, output, pageData, download)[FirstPage] == FailedPage
    ensures Lookup(AfterPage(progress, output, pageData, download), pageData.page) == Lookup(progress, pageData.page)
  {
  }

  /** A fetched page with no records adds no entry. */
  lemma EmptyPageAddsNothing(progress: Progress, output: string, pageData: FetchPageDataResult,
                             download: Transfer.DownloadOptions -> Transfer.Env)
    requires !pageData.IsError() && pageData.response.data.recordFiles == []
    ensures AfterPage(progress, output, pageData, download) == progress
  {
  }

  /** Processing a page changes no key except its own and, on a failed fetch, page 1's. */
  lemma AfterPageOtherKeys(progress: Progress, output: string, pageData: FetchPageDataResult,
                           download: Transfer.DownloadOptions -> Transfer.Env, k: int)
    requires k != FirstPage && k != pageData.page
    ensures Lookup(AfterPage(progress, output, pageData, download), k) == Lookup(progress, k)
  {
    if !pageData.IsError() {
      FoldOtherPages(progress, pageData.page, Results(output, pageData, download), k);
    }
  }

  /** An entry for a key that is neither page 1 nor a processed page is left as it was. */
  lemma {:induction false} AfterPagesUntouched(progress: Progress, output: string, pages: seq<int>,
                                               fetch: int -> PageResponse,
                                               download: Transfer.DownloadOptions -> Transfer.Env, k: int)
    requires k != FirstPage && k !in pages
    ensures Lookup(AfterPages(progress, output, pages, fetch, download), k) == Lookup(progress, k)
  {
    if pages != [] {
      var page := pages[|pages| - 1];
      assert pages == pages[..|pages| - 1] + [page];
      AfterPagesUntouched(progress, output, pages[..|pages| - 1], fetch, download, k);
      AfterPageOtherKeys(AfterPages(progress, output, pages[..|pages| - 1], fetch, download), output,
                         FetchPageDataResult(page, fetch(page)), download, k);
    }
  }

  /** What processing page `k` alone leaves in its entry, starting from `current`. */
  function PageEntry(current: Option<PageProgress>, output: string, k: int,
                     fetch: int -> PageResponse, download: Transfer.DownloadOptions -> Transfer.Env): Option<PageProgress> {
    var pageData := FetchPageDataResult(k, fetch(k));
    if pageData.IsError() then current else FoldEntry(current, Results(output, pageData, download))
  }

  /** Page `k`'s entry depends only on its own fetch and downloads, when it is processed once. */
  lemma {:induction false} AfterPagesProcessedKey(progress: Progress, output: string, pages: seq<int>,
                                                  fetch: int -> PageResponse,
                                                  download: Transfer.DownloadOptions -> Transfer.Env, k: int)
    requires k != FirstPage && k in pages && Distinct(pages)
    ensures Lookup(AfterPages(progress, output, pages, fetch, download), k) ==
            PageEntry(Lookup(progress, k), output, k, fetch, download)
  {
    var init := pages[..|pages| - 1];
    var page := pages[|pages| - 1];
    var before := AfterPages(progress, output, init, fetch, download);
    var pageData := FetchPageDataResult(page, fetch(page));
    assert pages == init + [page];
    if page == k {
      assert k !in init;
      AfterPagesUntouched(progress, output, init, fetch, download, k);
      if !pageData.IsError() {
        FoldThisPage(before, k, Results(output, pageData, download));
      }
    } else {
      assert k in init;
      AfterPagesProcessedKey(progress, output, init, fetch, download, k);
      AfterPageOtherKeys(before, output, pageData, download, k);
    }
  }

  /** Whether some later page's fetch failed. */
  predicate SomeFetchFailed(pages: seq<int>, fetch: int -> PageResponse) {
    exists i :: 0 <= i < |pages| && fetch(pages[i]).FetchFailed?
  }

  /** Page 1's entry ends failed-and-empty if any later fetch failed, and is otherwise untouched. */
  lemma {:induction false} AfterPagesFirstKey(progress: Progress, output: string, pages: seq<int>,
                                              fetch: int -> PageResponse,
                                              download: Transfer.DownloadOptions -> Transfer.Env)
    requires FirstPage !in pages
    ensures Lookup(AfterPages(progress, output, pages, fetch, download), FirstPage) ==
            if SomeFetchFailed(pages, fetch) then Some(FailedPage) else Lookup(progress, FirstPage)
  {
    if pages != [] {
      var init := pages[..|pages| - 1];
      var page := pages[|pages| - 1];
      var before := AfterPages(progress, output, init, fetch, download);
      var pageData := FetchPageDataResult(page, fetch(page));
      assert pages == init + [page];
      AfterPagesFirstKey(progress, output, init, fetch, download);
      if !pageData.IsError() {
        FoldOtherPages(before, page, Results(output, pageData, download), FirstPage);
        if SomeFetchFailed(pages, fetch) {
          var i :| 0 <= i < |pages| && fetch(pages[i]).FetchFailed?;
          assert i < |init| && init[i] == pages[i];
        }
      } else {
        assert fetch(pages[|pages| - 1]).FetchFailed?;
      }
      if SomeFetchFailed(init, fetch) {
        var i :| 0 <= i < |init| && fetch(init[i]).FetchFailed?;
        assert pages[i] == init[i];
      }
    }
  }

  /** If fetching page 1 fails, the ledger is exactly `{1: {isSuccess: false, urls: []}}` and nothing else is fetched. */
  lemma FirstPageFailureHalts(output: string, fetch: int -> PageResponse,
                              download: Transfer.DownloadOptions -> Transfer.Env)
    requires fetch(FirstPage).FetchFailed?
    ensures Run(output, fetch, download) == map[FirstPage := FailedPage]
    ensures FetchedPages(fetch) == [FirstPage]
  {
  }

  /**
   * With page 1 fetched and `L = last_page ?? 0 >= 0`, the pages fetched are
   * 1 and then 2, ..., L - 1 in order: `max(L - 1, 1)` fetches, never page L
   * when `L >= 2`.
   */
  lemma FetchedPagesExact(fetch: int -> PageResponse)
    requires fetch(FirstPage).Fetched? && LastPage(fetch(FirstPage).data) >= 0
    ensures var lastPage := LastPage(fetch(FirstPage).data);
      && |FetchedPages(fetch)| == (if lastPage <= 2 then 1 else lastPage - 1)
      && (forall i :: 0 <= i < |FetchedPages(fetch)| ==> FetchedPages(fetch)[i] == i + 1)
      && (lastPage >= 2 ==> lastPage !in FetchedPages(fetch))
  {
    var lastPage := LastPage(fetch(FirstPage).data);
    PagesAfterFirstExact(lastPage);
    PagesAfterFirstShape(lastPage);
  }

  /**
   * The final entry of a page other than 1: present only if page 1 and that
   * page were fetched, the page is scheduled and it has records; then it
   * lists one line per record in record order and is true exactly when all
   * its downloads succeeded.
   */
  lemma RunLaterPageEntry(output: string, fetch: int -> PageResponse,
                          download: Transfer.DownloadOptions -> Transfer.Env, k: int)
    requires k != FirstPage
    ensures var pageData := FetchPageDataResult(k, fetch(k));
      var results := Results(output, pageData, download);
      && (k in Run(output, fetch, download) <==>
            k in LaterPages(fetch) && !pageData.IsError() && Records(pageData) != [])
      && (k in Run(output, fetch, download) ==>
            && Run(output, fetch, download)[k].urls == UrlLines(results)
            && (Run(output, fetch, download)[k].isSuccess <==> NoErrors(results)))
  {
    var first := FirstPageData(fetch);
    if !first.IsError() {
      var start := AfterPage(map[], output, first, download);
      var pages := LaterPages(fetch);
      PagesAfterFirstShape(LastPage(first.response.data));
      FoldOtherPages(map[], FirstPage, Results(output, first, download), k);
      assert Lookup(start, k) == None;
      if k in pages {
        AfterPagesProcessedKey(start, output, pages, fetch, download, k);
        var pageData := FetchPageDataResult(k, fetch(k));
        if !pageData.IsError() && Records(pageData) != [] {
          NewEntryFailsIffAnError(Results(output, pageData, download));
        }
      } else {
        AfterPagesUntouched(start, output, pages, fetch, download, k);
      }
    }
  }

  /**
   * The final entry of page 1 after a successful first fetch: failed and
   * empty if any later page's fetch failed; otherwise present exactly when
   * page 1 has records, listing them in order and true exactly when none
   * of their downloads failed.
   */
  lemma RunFirstPageEntry(output: string, fetch: int -> PageResponse,
                          download: Transfer.DownloadOptions -> Transfer.Env)
    requires fetch(FirstPage).Fetched?
    ensures var results := Results(output, FirstPageData(fetch), download);
      Lookup(Run(output, fetch, download), FirstPage) ==
        if SomeFetchFailed(LaterPages(fetch), fetch) then Some(FailedPage)
        else if results == [] then None
        else Some(PageProgress(NoErrors(results), UrlLines(results)))
  {
    var first := FirstPageData(fetch);
    var results := Results(output, first, download);
    PagesAfterFirstShape(LastPage(first.response.data));
    var start := AfterPage(map[], output, first, download);
    assert LaterPages(fetch) == PagesAfterFirst(LastPage(first.response.data));
    assert Run(output, fetch, download) == AfterPages(start, output, LaterPages(fetch), fetch, download);
    AfterPagesFirstKey(start, output, LaterPages(fetch), fetch, download);
    FoldThisPage(map[], FirstPage, results);
    assert Lookup(start, FirstPage) == FoldEntry(None, results);
    FoldEntryValue(None, results);
    if results != [] {
      assert [] + UrlLines(results) == UrlLines(results);
    }
  }

  /**
   * A run over one page holding one record: page 1 is the only page fetched,
   * its one download succeeds, the ledger is `{1: {isSuccess: true, urls:
   * [{url, isSuccess: true}]}}`, and the file is `<output>/1/r1.wav`.
   */
  lemma OneRecordRun(output: string, fetch: int -> PageResponse,
                     download: Transfer.DownloadOptions -> Transfer.Env)
    requires fetch(FirstPage) == Fetched(PageData(Some(1), ["https://x/y/r1.wav"]))
    requires var env := download(Transfer.DownloadOptions("https://x/y/r1.wav", PageDirectory(output, FirstPage)));
      Transfer.Succeeds(env) && env.parse == Transfer.Parsed("/y/r1.wav")
    ensures FetchedPages(fetch) == [FirstPage]
    ensures Run(output, fetch, download) ==
      map[FirstPage := PageProgress(true, [UrlProgress("https://x/y/r1.wav", true)])]
    ensures output != "" ==>
      var options := Transfer.DownloadOptions("https://x/y/r1.wav", PageDirectory(output, FirstPage));
      Transfer.Run(options, download(options)).outcome.filePath == output + "/1/r1.wav"
  {
    var url := "https://x/y/r1.wav";
    var options := Transfer.DownloadOptions(url, PageDirectory(output, FirstPage));
    assert Decimal.IntToString(1) == "1";
    assert LaterPages(fetch) == [];
    var results := Results(output, FirstPageData(fetch), download);
    assert results == [DownloadSingle.ExecuteDownload(options, download(options))];
    RunFirstPageEntry(output, fetch, download);
    RunLaterPageEntryNone(output, fetch, download);
    var run := Run(output, fetch, download);
    assert run.Keys == {FirstPage};
    assert run[FirstPage] == PageProgress(true, [UrlProgress(url, true)]);
    if output != "" {
      assert "/y" + "/" + "r1.wav" == "/y/r1.wav";
      Paths.LastSegmentAfterSlash("/y", "r1.wav");
      Paths.StripNoTrailingSlash("/y/r1.wav");
      assert Paths.Basename("/y/r1.wav") == "r1.wav";
    }
  }

  /** Nothing but page 1 gets an entry when no later page is fetched. */
  lemma RunLaterPageEntryNone(output: string, fetch: int -> PageResponse,
                              download: Transfer.DownloadOptions -> Transfer.Env)
    requires LaterPages(fetch) == []
    ensures Run(output, fetch, download).Keys <= {FirstPage}
  {
    forall k | k in Run(output, fetch, download)
      ensures k == FirstPage
    {
      if k != FirstPage {
        RunLaterPageEntry(output, fetch, download, k);
      }
    }
  }

  /**
   * Page 1 says the last page is 4, so pages 2 and 3 are fetched; page 2's
   * fetch fails and page 3 has records. The ledger then marks page 1 failed
   * and empty, has no entry for page 2, and holds page 3's downloads.
   */
  lemma SecondPageFailureRun(output: string, fetch: int -> PageResponse,
                             download: Transfer.DownloadOptions -> Transfer.Env)
    requires fetch(FirstPage).Fetched? && fetch(FirstPage).data.lastPage == Some(4)
    requires fetch(2).FetchFailed?
    requires fetch(3).Fetched? && fetch(3).data.recordFiles != []
    ensures FetchedPages(fetch) == [1, 2, 3]
    ensures Lookup(Run(output, fetch, download), FirstPage) == Some(FailedPage)
    ensures 2 !in Run(output, fetch, download)
    ensures 3 in Run(output, fetch, download)
    ensures Run(output, fetch, download)[3].urls ==
      UrlLines(Results(output, FetchPageDataResult(3, fetch(3)), download))
  {
    PagesAfterFirstExact(4);
    assert LaterPages(fetch) == [2, 3];
    assert SomeFetchFailed(LaterPages(fetch), fetch) by {
      assert LaterPages(fetch)[0] == 2;
    }
    RunFirstPageEntry(output, fetch, download);
    RunLaterPageEntry(output, fetch, download, 2);
    RunLaterPageEntry(output, fetch, download, 3);
  }

  // ------------------------------------------------------------------
  // The imperative orchestrator
  // ------------------------------------------------------------------

  /** One call of `execute`: the ledger it mutates, and logs of what it asked for. */
  class Execution {
    /** `options.output`. */
    const output: string
    /** The `progress` record. */
    var progress: Progress
    /** The pages requested from the page fetcher, in order. */
    ghost var fetched: seq<int>
    /** The download requests issued, in order. */
    ghost var downloads: seq<Transfer.DownloadOptions>

    constructor (output: string)
      ensures this.output == output
      ensures progress == map[] && fetched == [] && downloads == []
    {
      this.output := output;
      progress := map[];
      fetched := [];
      downloads := [];
    }

    /** `executeDownload(pageData)`. */
    method ExecuteDownload(pageData: FetchPageDataResult, download: Transfer.DownloadOptions -> Transfer.Env)
      modifies this
      ensures progress == AfterPage(old(progress), output, pageData, download)
      ensures fetched == old(fetched)
      ensures downloads == old(downloads) + Requests(output, pageData)
    {
      if pageData.IsError() {
        progress := progress[FirstPage := FailedPage];
        return;
      }
      var requests := Requests(output, pageData);
      var results := seq(|requests|, i requires 0 <= i < |requests| =>
        DownloadSingle.ExecuteDownload(requests[i], download(requests[i])));
      downloads := downloads + requests;
      var page := pageData.page;
      var i := 0;
      while i < |results|
        invariant 0 <= i <= |results|
        invariant progress == Fold(old(progress), page, results[..i])
        invariant fetched == old(fetched) && downloads == old(downloads) + requests
      {
        var res := results[i];
        TakeSnoc(results, i);
        FoldSnoc(old(progress), page, results[..i], res);
        var current := if page in progress then progress[page] else NewPage;
        if res.IsError() {
          progress := progress[page := PageProgress(false, current.urls + [UrlProgress(res.url, false)])];
        } else {
          progress := progress[page := current.(urls := current.urls + [UrlProgress(res.url, true)])];
        }
        i := i + 1;
      }
      assert results[..i] == results;
    }

    /** The callback for one later page: fetch it, then `executeDownload` it. */
    method ExecutePage(page: int, fetch: int -> PageResponse, download: Transfer.DownloadOptions -> Transfer.Env)
      modifies this
      ensures progress == AfterPage(old(progress), output, FetchPageDataResult(page, fetch(page)), download)
      ensures fetched == old(fetched) + [page]
      ensures downloads == old(downloads) + Requests(output, FetchPageDataResult(page, fetch(page)))
    {
      fetched := fetched + [page];
      var pageData := FetchPageDataResult(page, fetch(page));
      ExecuteDownload(pageData, download);
    }

    /**
     * The later pages of `execute`, each fetched and processed in turn. The
     * download log stays the requests of the fetched pages.
     */
    method ExecutePages(pages: seq<int>, fetch: int -> PageResponse, download: Transfer.DownloadOptions -> Transfer.Env)
      requires downloads == RequestsOf(output, fetched, fetch)
      modifies this
      ensures progress == AfterPages(old(progress), output, pages, fetch, download)
      ensures fetched == old(fetched) + pages
      ensures downloads == RequestsOf(output, fetched, fetch)
    {
      ghost var progress0, fetched0 := progress, fetched;
      var i := 0;
      while i < |pages|
        invariant 0 <= i <= |pages|
        invariant progress == AfterPages(progress0, output, pages[..i], fetch, download)
        invariant fetched == fetched0 + pages[..i]
        invariant downloads == RequestsOf(output, fetched, fetch)
      {
        var page := pages[i];
        ghost var done, logged := pages[..i], fetched;
        TakeSnoc(pages, i);
        AfterPagesSnoc(progress0, output, done, page, fetch, download);
        RequestsOfSnoc(output, logged, page, fetch);
        AppendAssoc(fetched0, done, [page]);
        ExecutePage(page, fetch, download);
        i := i + 1;
      }
      assert pages[..i] == pages;
    }

    /**
     * `execute(options)`, with page fetches and downloads as input outcomes.
     * Each run starts its ledger afresh, and so do the logs of what it asks for.
     */
    method Execute(fetch: int -> PageResponse, download: Transfer.DownloadOptions -> Transfer.Env)
      modifies this
      ensures progress == Run(output, fetch, download)
      ensures fetched == FetchedPages(fetch)
      ensures downloads == RunRequests(output, fetch)
    {
      progress := map[];
      fetched := [FirstPage];
      downloads := [];
      var firstPage := FetchPageDataResult(FirstPage, fetch(FirstPage));
      RequestsOfSnoc(output, [], FirstPage, fetch);
      assert [] + [FirstPage] == fetched;
      if firstPage.IsError() {
        progress := progress[firstPage.page := FailedPage];
        return;
      }
      RunAfterGoodFirstPage(output, fetch, download);
      ExecuteDownload(firstPage, download);
      var pages := PagesAfterFirst(LastPage(firstPage.response.data));
      ExecutePages(pages, fetch, download);
    }
  }
}
