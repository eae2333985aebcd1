/**
 * The batch download worker of src/music_downloader/ui/workers.py, run
 * sequentially: the URLs are handed one by one to a `YouTubeDownloader`,
 * the cancel flag is read before each URL, and the collected results are
 * summarised. A `cancel()` issued from the interface thread is an input:
 * `cancelRequests(k)` says that it has been called by the time URL `k` is
 * checked.
 */
module Workers {
  import opened Wrappers
  import opened Outcomes
  import opened Ledger
  import opened Library
  import opened YouTube

  /** The `download_complete` dictionary. */
  datatype Summary = Summary(downloaded: nat, skipped: nat, errors: nat, total: nat)

  /** How `run` ends: the cancel status, `download_complete(summary)`, or `download_error(message)`. */
  datatype RunOutcome = Cancelled | Completed(summary: Summary) | Failed(message: string)

  /** Neither a truthy `skipped` nor a truthy `error`. */
  predicate IsDownloaded(d: Descriptor) {
    !SkippedFlag(d) && !ErrorFlag(d)
  }

  function CountDownloaded(rs: seq<Descriptor>): nat {
    if rs == [] then 0 else CountDownloaded(rs[..|rs| - 1]) + (if IsDownloaded(rs[|rs| - 1]) then 1 else 0)
  }

  function CountSkipped(rs: seq<Descriptor>): nat {
    if rs == [] then 0 else CountSkipped(rs[..|rs| - 1]) + (if SkippedFlag(rs[|rs| - 1]) then 1 else 0)
  }

  function CountErrors(rs: seq<Descriptor>): nat {
    if rs == [] then 0 else CountErrors(rs[..|rs| - 1]) + (if ErrorFlag(rs[|rs| - 1]) then 1 else 0)
  }

  /** `_calculate_summary`. */
  function CalculateSummary(rs: seq<Descriptor>): Summary {
    Summary(CountDownloaded(rs), CountSkipped(rs), CountErrors(rs), |rs|)
  }

  /** No result is both skipped and failed. */
  predicate Unambiguous(rs: seq<Descriptor>) {
    forall i :: 0 <= i < |rs| ==> !(SkippedFlag(rs[i]) && ErrorFlag(rs[i]))
  }

  /**
   * Every result lands in exactly one of the three counts unless it is
   * both skipped and failed: then the counts add up to the total. In any
   * case no count exceeds the total and a result is counted as downloaded
   * exactly when it is counted in neither other bucket.
   */
  lemma {:induction false} SummaryPartition(rs: seq<Descriptor>)
    ensures CountDownloaded(rs) <= |rs| && CountSkipped(rs) <= |rs| && CountErrors(rs) <= |rs|
    ensures CountDownloaded(rs) + CountSkipped(rs) <= |rs| && CountDownloaded(rs) + CountErrors(rs) <= |rs|
    ensures CountDownloaded(rs) + CountSkipped(rs) + CountErrors(rs) >= |rs|
    ensures Unambiguous(rs) ==> CountDownloaded(rs) + CountSkipped(rs) + CountErrors(rs) == |rs|
  {
    if rs != [] {
      var init := rs[..|rs| - 1];
      SummaryPartition(init);
      assert Unambiguous(rs) ==> Unambiguous(init) by {
        if Unambiguous(rs) {
          forall i | 0 <= i < |init| ensures !(SkippedFlag(init[i]) && ErrorFlag(init[i])) {
            assert init[i] == rs[i];
          }
        }
      }
    }
  }

  /**
   * A result with both flags is counted twice, once as skipped and once as
   * an error, so the counts then exceed the total.
   */
  lemma {:induction false} DoubleCounted(rs: seq<Descriptor>, i: nat)
    requires i < |rs| && SkippedFlag(rs[i]) && ErrorFlag(rs[i])
    ensures CountDownloaded(rs) + CountSkipped(rs) + CountErrors(rs) > |rs|
  {
    var n := |rs| - 1;
    SummaryPartition(rs[..n]);
    if i < n {
      assert rs[..n][i] == rs[i];
      DoubleCounted(rs[..n], i);
    }
  }

  /** The summary of a concatenation is the sum of the summaries: results appended later are counted in full. */
  lemma {:induction false} SummaryAppend(a: seq<Descriptor>, b: seq<Descriptor>)
    ensures CalculateSummary(a + b) ==
      Summary(CountDownloaded(a) + CountDownloaded(b), CountSkipped(a) + CountSkipped(b),
              CountErrors(a) + CountErrors(b), |a| + |b|)
    decreases |b|
  {
    if b == [] {
      assert a + b == a;
    } else {
      var n := |b| - 1;
      assert (a + b)[..|a + b| - 1] == a + b[..n];
      SummaryAppend(a, b[..n]);
    }
  }

  /** An `error` that is the empty string is falsy: such a result counts as downloaded, not as an error. */
  lemma EmptyErrorCountsAsDownloaded(rs: seq<Descriptor>, d: Descriptor)
    requires d.error == Some("") && !SkippedFlag(d)
    ensures CalculateSummary(rs + [d]).downloaded == CalculateSummary(rs).downloaded + 1
    ensures CalculateSummary(rs + [d]).errors == CalculateSummary(rs).errors
  {
    assert (rs + [d])[..|rs|] == rs;
  }

  /** Well-formed results from the downloader never carry both flags. */
  lemma ReportedUnambiguous(rs: seq<Descriptor>)
    requires forall d :: d in rs ==> Reported(d)
    ensures Unambiguous(rs)
  {
    forall i | 0 <= i < |rs| ensures !(SkippedFlag(rs[i]) && ErrorFlag(rs[i])) {
      assert rs[i] in rs;
    }
  }

  /** The `{"error": str(e), "url": url}` entry of a URL whose download raised `YouTubeDownloadError`. */
  function UrlFailure(message: string, url: string): Descriptor {
    Descriptor(None, None, None, None, None, Some(message), Some(url))
  }

  const UnexpectedPrefix: string := "Error inesperado: "

  /** Where the loop stands after some URLs: still collecting results, or ended with an outcome. */
  datatype Progress = Going(results: seq<Descriptor>) | Stopped(outcome: RunOutcome)

  /** The settings a worker passes to every download. */
  datatype Request = Request(root: string, outputDir: Option<string>, playlistName: Option<string>)

  /**
   * The downloader as the worker sees it: given the store, a URL and the
   * clock, what `download` returns or raises, and the store it leaves.
   */
  type Download = (Store, string, nat -> string) -> (Result<seq<Descriptor>, Error>, Store)

  /** A downloader whose returned results are all well formed. */
  ghost predicate Reports(download: Download) {
    forall st, url, clock :: download(st, url, clock).0.Ok? ==>
      forall d :: d in download(st, url, clock).0.value ==> Reported(d)
  }

  /** `YouTubeDownloader.download` with the worker's settings. */
  function YouTubeDownload(req: Request, env: YtDlp, saveFault: Option<SaveFault>): Download
  {
    (st: Store, url: string, clock: nat -> string) =>
      DownloadSpec(req.root, env, saveFault, st, url, req.outputDir, req.playlistName, clock)
  }

  /**
   * `download` answers every call as `YouTubeDownloader.download` with the
   * worker's settings. The equation is used only where a `DownloadSpec`
   * term is already present, so the loop's proof does not unfold it.
   */
  ghost predicate Drives(download: Download, req: Request, env: YtDlp, saveFault: Option<SaveFault>) {
    forall st, url, clock {:trigger DownloadSpec(req.root, env, saveFault, st, url, req.outputDir, req.playlistName, clock)} ::
      download(st, url, clock) == DownloadSpec(req.root, env, saveFault, st, url, req.outputDir, req.playlistName, clock)
  }

  /**
   * Argument passing only: the worker's YouTube download hands each URL to
   * `download` with the worker's own `output_dir` and `playlist_name`.
   */
  lemma YouTubeDownloadDrives(req: Request, env: YtDlp, saveFault: Option<SaveFault>)
    ensures Drives(YouTubeDownload(req, env, saveFault), req, env, saveFault)
  {
  }

  /** Every result the YouTube downloader returns is well formed. */
  lemma YouTubeDownloadReports(req: Request, env: YtDlp, saveFault: Option<SaveFault>)
    ensures Reports(YouTubeDownload(req, env, saveFault))
  {
  }

  /**
   * Everything one `run` reads besides the store: the downloader, the
   * URLs, the cancel flag at the start, whether `cancel()` has been called
   * by the time URL `k` is checked, and the clock during URL `k`.
   */
  datatype Batch = Batch(download: Download, urls: seq<string>,
                         cancelledAtStart: bool, cancelRequests: nat -> bool, clocks: nat -> (nat -> string))

  /**
   * One URL, at position `k`: the cancel flag is read first; a
   * `YouTubeDownloadError` is recorded and the loop goes on; any other
   * exception ends the run.
   */
  function UrlStep(b: Batch, s: Store, results: seq<Descriptor>, k: nat): (Progress, Store)
    requires k < |b.urls|
  {
    if b.cancelledAtStart || b.cancelRequests(k) then (Stopped(Cancelled), s)
    else
      var url := b.urls[k];
      var (r, s1) := b.download(s, url, b.clocks(k));
      match r
      case Ok(found) => (Going(results + found), s1)
      case Err(e) =>
        if e.YouTubeDownloadError? then (Going(results + [UrlFailure(e.message, url)]), s1)
        else (Stopped(Failed(UnexpectedPrefix + e.message)), s1)
  }

  /** The loop over the first `n` URLs, in order. */
  function RunPrefix(b: Batch, s: Store, n: nat): (Progress, Store)
    requires n <= |b.urls|
  {
    if n == 0 then (Going([]), s)
    else
      var (p, s1) := RunPrefix(b, s, n - 1);
      if p.Stopped? then (p, s1)
      else UrlStep(b, s1, p.results, n - 1)
  }

  /** `run`: the outcome of the loop, with the summary of every collected result when it completes. */
  function RunSpec(b: Batch, s: Store): (RunOutcome, Store)
  {
    var (p, s1) := RunPrefix(b, s, |b.urls|);
    match p
    case Going(results) => (Completed(CalculateSummary(results)), s1)
    case Stopped(outcome) => (outcome, s1)
  }

  /** Every result the loop collects is well formed: an item, a contained failure, or a URL failure. */
  lemma {:induction false} CollectedAreReported(b: Batch, s: Store, n: nat)
    requires n <= |b.urls| && Reports(b.download)
    ensures var p := RunPrefix(b, s, n).0;
      (p.Going? ==> forall d :: d in p.results ==> Reported(d)) && (p.Stopped? ==> !p.outcome.Completed?)
  {
    if n > 0 {
      CollectedAreReported(b, s, n - 1);
    }
  }

  /** A run that completes reports counts that add up to the number of results. */
  lemma CompletedSummaryAddsUp(b: Batch, s: Store)
    requires Reports(b.download)
    ensures var o := RunSpec(b, s).0;
      o.Completed? ==> o.summary.downloaded + o.summary.skipped + o.summary.errors == o.summary.total
  {
    var p := RunPrefix(b, s, |b.urls|).0;
    CollectedAreReported(b, s, |b.urls|);
    if p.Going? {
      ReportedUnambiguous(p.results);
      SummaryPartition(p.results);
      assert RunSpec(b, s).0 == Completed(CalculateSummary(p.results));
    }
  }

  /**
   * A flag set before the run starts stops it at the first URL, before any
   * download, with nothing changed; with no URL at all the run completes
   * with an empty summary.
   */
  lemma CancelledBeforeStart(b: Batch, s: Store)
    requires b.cancelledAtStart
    ensures b.urls != [] ==> RunSpec(b, s) == (Cancelled, s)
    ensures b.urls == [] ==> RunSpec(b, s) == (Completed(Summary(0, 0, 0, 0)), s)
  {
    if b.urls != [] {
      CancelStops(b, s, 0);
    }
  }

  /** A run that has stopped after the first `j` URLs ends there, whatever the URLs after them. */
  lemma {:induction false} StoppedPersists(b: Batch, s: Store, j: nat, n: nat)
    requires j <= n <= |b.urls| && RunPrefix(b, s, j).0.Stopped?
    ensures RunPrefix(b, s, n) == RunPrefix(b, s, j)
    decreases n
  {
    if j < n {
      StoppedPersists(b, s, j, n - 1);
    }
  }

  /** A loop still going after `k` URLs takes its next state from URL `k`. */
  lemma RunPrefixNext(b: Batch, s: Store, k: nat, results: seq<Descriptor>, s1: Store, p: Progress, s2: Store)
    requires k < |b.urls| && RunPrefix(b, s, k) == (Going(results), s1) && UrlStep(b, s1, results, k) == (p, s2)
    ensures RunPrefix(b, s, k + 1) == (p, s2)
  {
  }

  /** The run ends as the loop stands once it has stopped or passed every URL. */
  lemma EndsAt(b: Batch, s: Store, k: nat)
    requires k <= |b.urls| && (k == |b.urls| || RunPrefix(b, s, k).0.Stopped?)
    ensures var (p, s1) := RunPrefix(b, s, k);
      RunSpec(b, s) == (if p.Going? then Completed(CalculateSummary(p.results)) else p.outcome, s1)
  {
    if k < |b.urls| {
      StoppedPersists(b, s, k, |b.urls|);
    }
  }

  /**
   * Once the flag is seen at URL `j`, the run has stopped, and when it was
   * still going it ends as cancelled with the store the earlier URLs left.
   */
  lemma CancelStops(b: Batch, s: Store, j: nat)
    requires j < |b.urls| && (b.cancelledAtStart || b.cancelRequests(j))
    ensures RunPrefix(b, s, |b.urls|).0.Stopped?
    ensures var p := RunPrefix(b, s, j);
      p.0.Going? ==> RunPrefix(b, s, |b.urls|) == (Stopped(Cancelled), p.1)
  {
    StoppedPersists(b, s, j + 1, |b.urls|);
  }

  /**
   * A URL whose download raises `YouTubeDownloadError(m)` while the loop is
   * going and not cancelled adds exactly `{"error": m, "url": url}` to the
   * results and the loop goes on with the store the download left.
   */
  lemma UrlFailureContinues(b: Batch, s: Store, k: nat, m: string)
    requires k < |b.urls| && !(b.cancelledAtStart || b.cancelRequests(k))
    requires RunPrefix(b, s, k).0.Going?
    requires b.download(RunPrefix(b, s, k).1, b.urls[k], b.clocks(k)).0 == Err(YouTubeDownloadError(m))
    ensures var (p, s1) := RunPrefix(b, s, k);
      RunPrefix(b, s, k + 1) ==
        (Going(p.results + [UrlFailure(m, b.urls[k])]), b.download(s1, b.urls[k], b.clocks(k)).1)
  {
  }

  /** A URL whose download returns adds what it returned, in order, and the loop goes on. */
  lemma UrlSuccessContinues(b: Batch, s: Store, k: nat, found: seq<Descriptor>)
    requires k < |b.urls| && !(b.cancelledAtStart || b.cancelRequests(k))
    requires RunPrefix(b, s, k).0.Going?
    requires b.download(RunPrefix(b, s, k).1, b.urls[k], b.clocks(k)).0 == Ok(found)
    ensures var (p, s1) := RunPrefix(b, s, k);
      RunPrefix(b, s, k + 1) == (Going(p.results + found), b.download(s1, b.urls[k], b.clocks(k)).1)
  {
  }

  /**
   * Any other exception at a URL the loop reaches ends the whole run with
   * `download_error("Error inesperado: " + str(e))`: no summary is
   * emitted and the remaining URLs are not downloaded.
   */
  lemma UnexpectedErrorFails(b: Batch, s: Store, k: nat, e: Error)
    requires k < |b.urls| && !(b.cancelledAtStart || b.cancelRequests(k))
    requires RunPrefix(b, s, k).0.Going?
    requires b.download(RunPrefix(b, s, k).1, b.urls[k], b.clocks(k)).0 == Err(e) && !e.YouTubeDownloadError?
    ensures RunSpec(b, s) ==
      (Failed(UnexpectedPrefix + e.message), b.download(RunPrefix(b, s, k).1, b.urls[k], b.clocks(k)).1)
  {
    assert RunPrefix(b, s, k + 1).0.Stopped?;
    EndsAt(b, s, k + 1);
  }

  /**
   * Three URLs, never cancelled, the middle one failing with
   * `YouTubeDownloadError(m)`: the run completes, and the summary counts
   * both other URLs' results plus the one failure entry, which is an error
   * exactly when `m` is not empty.
   */
  lemma PartialFailureCompletes(b: Batch, s: Store, r0: seq<Descriptor>, s1: Store, m: string, s2: Store,
                                r2: seq<Descriptor>, s3: Store)
    requires |b.urls| == 3 && !b.cancelledAtStart && forall k :: !b.cancelRequests(k)
    requires b.download(s, b.urls[0], b.clocks(0)) == (Ok(r0), s1)
    requires b.download(s1, b.urls[1], b.clocks(1)) == (Err(YouTubeDownloadError(m)), s2)
    requires b.download(s2, b.urls[2], b.clocks(2)) == (Ok(r2), s3)
    ensures RunSpec(b, s) == (Completed(CalculateSummary(r0 + [UrlFailure(m, b.urls[1])] + r2)), s3)
    ensures var sum := RunSpec(b, s).0.summary;
      && sum.total == |r0| + 1 + |r2|
      && sum.errors == CountErrors(r0) + CountErrors(r2) + (if m != "" then 1 else 0)
      && sum.skipped == CountSkipped(r0) + CountSkipped(r2)
  {
    UrlSuccessContinues(b, s, 0, r0);
    UrlFailureContinues(b, s, 1, m);
    assert [] + r0 == r0;
    UrlSuccessContinues(b, s, 2, r2);
    EndsAt(b, s, 3);
    var failure := [UrlFailure(m, b.urls[1])];
    SummaryAppend(r0, failure);
    SummaryAppend(r0 + failure, r2);
    assert CountErrors(failure) == (if m != "" then 1 else 0) by {
      assert failure[..0] == [];
    }
    assert CountSkipped(failure) == 0 by {
      assert failure[..0] == [];
    }
  }

  /** `DownloadWorker`: a batch of URLs for one music directory and ledger. */
  class DownloadWorker {
    const urls: seq<string>
    const req: Request
    const cache: DownloadCache
    const disk: Disk
    const env: YtDlp
    var isCancelled: bool

    constructor (urls: seq<string>, req: Request, cache: DownloadCache, disk: Disk, env: YtDlp)
      ensures this.urls == urls && this.req == req && this.cache == cache && this.disk == disk && this.env == env
      ensures !isCancelled
    {
      this.urls := urls;
      this.req := req;
      this.cache := cache;
      this.disk := disk;
      this.env := env;
      isCancelled := false;
    }

    ghost function StoreNow(): Store
      reads cache, disk
    {
      Store(disk.tree, cache.songs, cache.persisted)
    }

    /** `cancel`: sets the flag and nothing else; a download in progress runs to its end. */
    method Cancel()
      modifies this`isCancelled
      ensures isCancelled
    {
      isCancelled := true;
    }

    /** The run this worker performs, given when `cancel()` is called and the clocks. */
    function BatchOf(cancelledAtStart: bool, cancelRequests: nat -> bool, clocks: nat -> (nat -> string)): Batch
    {
      Batch(YouTubeDownload(req, env, cache.saveFault), urls, cancelledAtStart, cancelRequests, clocks)
    }

    /** One URL after the flag check: the download and the handling of what it raises. */
    method Visit(downloader: YouTubeDownloader, b: Batch, k: nat, results: seq<Descriptor>) returns (p: Progress)
      requires Drives(b.download, req, env, cache.saveFault) && b.urls == urls && k < |urls|
      requires !(b.cancelledAtStart || b.cancelRequests(k))
      requires downloader.root == req.root && downloader.cache == cache && downloader.disk == disk && downloader.env == env
      modifies cache`songs, cache`persisted, disk`tree
      ensures (p, StoreNow()) == UrlStep(b, old(StoreNow()), results, k)
    {
      var r := downloader.Download(urls[k], req.outputDir, req.playlistName, b.clocks(k));
      match r
      case Ok(found) =>
        p := Going(results + found);
      case Err(e) =>
        if e.YouTubeDownloadError? {
          p := Going(results + [UrlFailure(e.message, urls[k])]);
        } else {
          p := Stopped(Failed(UnexpectedPrefix + e.message));
        }
    }

    /** One pass of the loop at URL `k`: the flag check, then the URL. */
    method Turn(downloader: YouTubeDownloader, b: Batch, k: nat, results: seq<Descriptor>) returns (p: Progress)
      requires Drives(b.download, req, env, cache.saveFault) && b.urls == urls && k < |urls|
      requires isCancelled == b.cancelledAtStart
      requires downloader.root == req.root && downloader.cache == cache && downloader.disk == disk && downloader.env == env
      modifies this`isCancelled, cache`songs, cache`persisted, disk`tree
      ensures (p, StoreNow()) == UrlStep(b, old(StoreNow()), results, k)
      ensures isCancelled == (b.cancelledAtStart || b.cancelRequests(k))
      ensures isCancelled == (p.Stopped? && p.outcome.Cancelled?)
    {
      if b.cancelRequests(k) {
        Cancel();
      }
      if isCancelled {
        return Stopped(Cancelled);
      }
      p := Visit(downloader, b, k, results);
    }

    /** The loop of `run`: it passes URLs until one stops it or none is left. */
    method Loop(downloader: YouTubeDownloader, b: Batch) returns (progress: Progress, k: nat)
      requires Drives(b.download, req, env, cache.saveFault) && b.urls == urls
      requires isCancelled == b.cancelledAtStart
      requires downloader.root == req.root && downloader.cache == cache && downloader.disk == disk && downloader.env == env
      modifies this`isCancelled, cache`songs, cache`persisted, disk`tree
      ensures k <= |urls| && (k == |urls| || progress.Stopped?)
      ensures (progress, StoreNow()) == RunPrefix(b, old(StoreNow()), k)
      ensures isCancelled == (b.cancelledAtStart || (progress.Stopped? && progress.outcome.Cancelled?))
    {
      ghost var start := StoreNow();
      progress := Going([]);
      k := 0;
      while k < |urls| && progress.Going?
        invariant 0 <= k <= |urls|
        invariant progress.Going? ==> isCancelled == b.cancelledAtStart
        invariant progress.Stopped? ==> isCancelled == (b.cancelledAtStart || progress.outcome.Cancelled?)
        invariant (progress, StoreNow()) == RunPrefix(b, start, k)
      {
        ghost var before := StoreNow();
        var results := progress.results;
        progress := Turn(downloader, b, k, results);
        RunPrefixNext(b, start, k, results, before, progress, StoreNow());
        k := k + 1;
      }
    }

    /**
     * `run`: the URLs in order, the flag read before each one, and the
     * summary once all are done.
     */
    method Run(cancelRequests: nat -> bool, clocks: nat -> (nat -> string)) returns (outcome: RunOutcome)
      modifies this`isCancelled, cache`songs, cache`persisted, disk`tree
      ensures (outcome, StoreNow()) == RunSpec(BatchOf(old(isCancelled), cancelRequests, clocks), old(StoreNow()))
      ensures isCancelled == (old(isCancelled) || outcome.Cancelled?)
    {
      var downloader := new YouTubeDownloader(req.root, cache, disk, env);
      var b := BatchOf(isCancelled, cancelRequests, clocks);
      YouTubeDownloadDrives(req, env, cache.saveFault);
      var progress, k := Loop(downloader, b);
      EndsAt(b, old(StoreNow()), k);
      match progress
      case Going(results) =>
        outcome := Completed(CalculateSummary(results));
      case Stopped(o) =>
        outcome := o;
    }
  }
}
