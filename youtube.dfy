/**
 * The YouTube downloader of src/music_downloader/youtube.py. yt-dlp is an
 * oracle (`YtDlp`): what it reports for a URL, whether fetching a URL to a
 * template succeeds, and whether the tag writer can tag a path. The music
 * directory is the `MusicTree` value of `Library`; a successful fetch puts
 * one file into it. The whole state a download touches is a `Store`: the
 * tree, and the ledger's in-memory and persisted maps.
 */
module YouTube {
  import opened Wrappers
  import opened Outcomes
  import opened Utils
  import opened Ledger
  import opened Library

  /** The keys `extract_info` reports for one video; `None` is a missing key. */
  datatype VideoInfo = VideoInfo(id: Option<string>, title: Option<string>, uploader: Option<string>, channel: Option<string>)

  /** The keys of one flat playlist entry. */
  datatype Entry = Entry(url: Option<string>, webpageUrl: Option<string>, id: Option<string>, title: Option<string>)

  /** The keys of a flat playlist; an entry yt-dlp could not list is `None`. */
  datatype PlaylistInfo = PlaylistInfo(title: Option<string>, entries: Option<seq<Option<Entry>>>)

  /**
   * yt-dlp and the tag writer as the download sees them. An `Err` carries
   * `str(e)` of the exception raised.
   */
  datatype YtDlp = YtDlp(
    probe: string -> Result<VideoInfo, string>,
    probePlaylist: string -> Result<PlaylistInfo, string>,
    fetch: (string, string) -> Result<(), string>,
    tagWrites: string -> bool)

  /** Everything a download reads or changes. */
  datatype Store = Store(tree: MusicTree, songs: map<string, Record>, persisted: Option<map<string, Record>>)

  /** `info.get('id', '')`. */
  function VideoIdOf(info: VideoInfo): string {
    info.id.GetOr("")
  }

  /** `info.get('title', 'Unknown')`. */
  function TitleOf(info: VideoInfo): string {
    info.title.GetOr("Unknown")
  }

  /** `info.get('uploader', info.get('channel', 'Unknown'))`. */
  function ArtistOf(info: VideoInfo): string {
    info.uploader.GetOr(info.channel.GetOr("Unknown"))
  }

  /** `str(output_dir / f"{safe_title}.mp3")`, where yt-dlp's audio extraction leaves the file. */
  function TargetPath(loc: string, info: VideoInfo): string {
    Join(loc, SanitizeFilename(TitleOf(info)) + ".mp3")
  }

  /** The output template handed to yt-dlp. */
  function Template(loc: string, info: VideoInfo): string {
    Join(loc, SanitizeFilename(TitleOf(info)) + ".%(ext)s")
  }

  const ProbeFailurePrefix: string := "No se pudo obtener información: "
  const WatchPrefix: string := "https://www.youtube.com/watch?v="

  /** The ledger record a fresh download adds. */
  function Registered(info: VideoInfo, loc: string, playlistName: Option<string>, now: string): Record {
    Record(TitleOf(info), ArtistOf(info), "youtube", TargetPath(loc, info), playlistName, now)
  }

  /**
   * `_download_single`. The skip decision reads the music tree only; a
   * fresh download writes the file, tags it when the tag writer succeeds,
   * then registers it in the ledger, whose save may raise.
   */
  function DownloadSingleSpec(root: string, env: YtDlp, saveFault: Option<SaveFault>, s: Store,
                              url: string, outputDir: Option<string>, playlistName: Option<string>,
                              now: string): (res: (Result<Descriptor, Error>, Store))
    ensures res.0.Ok? ==> Reported(res.0.value)
  {
    match env.probe(url)
    case Err(e) => (Err(YouTubeDownloadError(ProbeFailurePrefix + e)), s)
    case Ok(info) =>
      var vid := VideoIdOf(info);
      if IsSongDownloaded(root, s.tree, vid) then
        var existing := FindSongByVideoId(root, s.tree, vid);
        var path := if existing.Some? then Some(existing.value.meta.path) else None;
        (Ok(ItemDescriptor(vid, Some(TitleOf(info)), Some(ArtistOf(info)), true, path)), s)
      else
        var loc := outputDir.GetOr(SinglesDir(root));
        match env.fetch(url, Template(loc, info))
        case Err(e) => (Err(YouTubeDownloadError("Error descargando " + url + ": " + e)), s)
        case Ok(_) =>
          var path := TargetPath(loc, info);
          var file := Mp3File(SanitizeFilename(TitleOf(info)), if env.tagWrites(path) then Some(vid) else None);
          var songs := s.songs[vid := Registered(info, loc, playlistName, now)];
          match saveFault
          case None =>
            (Ok(ItemDescriptor(vid, Some(TitleOf(info)), Some(ArtistOf(info)), false, Some(path))),
             Store(WithFile(s.tree, ScopeOf(root, loc), file), songs, Some(songs)))
          case Some(fault) =>
            (Err(PersistError(fault.message)), Store(WithFile(s.tree, ScopeOf(root, loc), file), songs, AfterFailedSave(fault, s.persisted)))
  }

  /**
   * What a single download promises: a failed probe or fetch raises
   * `YouTubeDownloadError` and changes nothing; a song whose id the scan
   * finds is skipped and changes nothing; a fresh download registers the
   * song under its id with source `"youtube"` and the path it was written
   * to; a failed save leaves the file as it was, or emptied when it had
   * already been opened for writing.
   */
  lemma SingleOutcomes(root: string, env: YtDlp, saveFault: Option<SaveFault>, s: Store,
                       url: string, outputDir: Option<string>, playlistName: Option<string>, now: string)
    ensures var res := DownloadSingleSpec(root, env, saveFault, s, url, outputDir, playlistName, now);
      && (env.probe(url).Err? ==>
            res == (Err(YouTubeDownloadError(ProbeFailurePrefix + env.probe(url).error)), s))
      && (env.probe(url).Ok? && IsSongDownloaded(root, s.tree, VideoIdOf(env.probe(url).value)) ==>
            var info := env.probe(url).value;
            res.1 == s && res.0.Ok? &&
            res.0.value == ItemDescriptor(VideoIdOf(info), Some(TitleOf(info)), Some(ArtistOf(info)), true,
                                          Some(FindSongByVideoId(root, s.tree, VideoIdOf(info)).value.meta.path)))
      && (res.0.Ok? && res.0.value.skipped == Some(false) ==>
            var info := env.probe(url).value;
            var loc := outputDir.GetOr(SinglesDir(root));
            !IsSongDownloaded(root, s.tree, VideoIdOf(info)) &&
            res.1.songs == s.songs[VideoIdOf(info) := Registered(info, loc, playlistName, now)] &&
            res.1.persisted == Some(res.1.songs) &&
            res.0.value.path == Some(TargetPath(loc, info)))
      && (res.0.Err? && !res.0.error.PersistError? ==> res.1 == s && res.0.error.YouTubeDownloadError?)
      && (res.0.Err? && res.0.error.PersistError? ==>
            saveFault.Some? && saveFault.value.message == res.0.error.message &&
            res.1.persisted == AfterFailedSave(saveFault.value, s.persisted))
      && s.songs.Keys <= res.1.songs.Keys
  {
  }

  /** A song the scan finds is skipped, whatever the clock, and reported with the path the scan gives it. */
  lemma FoundIsSkipped(root: string, env: YtDlp, saveFault: Option<SaveFault>, s: Store, url: string,
                       outputDir: Option<string>, playlistName: Option<string>, now: string)
    requires env.probe(url).Ok? && IsSongDownloaded(root, s.tree, VideoIdOf(env.probe(url).value))
    ensures var info := env.probe(url).value;
      var vid := VideoIdOf(info);
      DownloadSingleSpec(root, env, saveFault, s, url, outputDir, playlistName, now) ==
        (Ok(ItemDescriptor(vid, Some(TitleOf(info)), Some(ArtistOf(info)), true,
                           Some(FindSongByVideoId(root, s.tree, vid).value.meta.path))), s)
  {
  }

  /** The tree a fetched song leaves, and the path a successful first run reports. */
  lemma FetchedFile(root: string, env: YtDlp, saveFault: Option<SaveFault>, s: Store, url: string,
                    outputDir: Option<string>, playlistName: Option<string>, now: string)
    requires env.probe(url).Ok? && !IsSongDownloaded(root, s.tree, VideoIdOf(env.probe(url).value))
    requires !DownloadSingleSpec(root, env, saveFault, s, url, outputDir, playlistName, now).0.Err? ||
             DownloadSingleSpec(root, env, saveFault, s, url, outputDir, playlistName, now).0.error.PersistError?
    ensures var info := env.probe(url).value;
      var loc := outputDir.GetOr(SinglesDir(root));
      var path := TargetPath(loc, info);
      var file := Mp3File(SanitizeFilename(TitleOf(info)), if env.tagWrites(path) then Some(VideoIdOf(info)) else None);
      var first := DownloadSingleSpec(root, env, saveFault, s, url, outputDir, playlistName, now);
      first.1.tree == WithFile(s.tree, ScopeOf(root, loc), file) &&
      (first.0.Ok? ==> first.0.value.path == Some(path))
  {
  }

  /**
   * Running the same single download again after one that fetched the file
   * (whether or not the ledger save then raised) is skipped and changes
   * nothing, provided the file was tagged and landed in a directory the
   * scan reads.
   */
  lemma RepeatIsSkipped(root: string, env: YtDlp, saveFault: Option<SaveFault>, s: Store, url: string,
                        outputDir: Option<string>, playlistName: Option<string>, now: string, later: string)
    requires ValidTree(s.tree) && env.probe(url).Ok?
    requires !ScopeOf(root, outputDir.GetOr(SinglesDir(root))).Unscanned?
    requires env.tagWrites(TargetPath(outputDir.GetOr(SinglesDir(root)), env.probe(url).value))
    requires !DownloadSingleSpec(root, env, saveFault, s, url, outputDir, playlistName, now).0.Err? ||
             DownloadSingleSpec(root, env, saveFault, s, url, outputDir, playlistName, now).0.error.PersistError?
    ensures var s1 := DownloadSingleSpec(root, env, saveFault, s, url, outputDir, playlistName, now).1;
      var again := DownloadSingleSpec(root, env, saveFault, s1, url, outputDir, playlistName, later);
      again.1 == s1 && again.0.Ok? && again.0.value.skipped == Some(true)
  {
    var info := env.probe(url).value;
    var vid := VideoIdOf(info);
    var loc := outputDir.GetOr(SinglesDir(root));
    var s1 := DownloadSingleSpec(root, env, saveFault, s, url, outputDir, playlistName, now).1;
    if !IsSongDownloaded(root, s.tree, vid) {
      FetchedFile(root, env, saveFault, s, url, outputDir, playlistName, now);
      var file := Mp3File(SanitizeFilename(TitleOf(info)), Some(vid));
      WrittenFileIsFound(root, s.tree, ScopeOf(root, loc), file, vid);
    } else {
      FoundIsSkipped(root, env, saveFault, s, url, outputDir, playlistName, now);
    }
    FoundIsSkipped(root, env, saveFault, s1, url, outputDir, playlistName, later);
  }

  /**
   * When the output directory is spelled the way the scan spells it, the
   * repeat of a single download reports the path the first run reported,
   * or the path the file was written to when the first run's save raised.
   */
  lemma RepeatReportsSamePath(root: string, env: YtDlp, saveFault: Option<SaveFault>, s: Store, url: string,
                              outputDir: Option<string>, playlistName: Option<string>, now: string, later: string)
    requires ValidTree(s.tree) && env.probe(url).Ok?
    requires !ScopeOf(root, outputDir.GetOr(SinglesDir(root))).Unscanned?
    requires outputDir.GetOr(SinglesDir(root)) == ScopeDir(root, ScopeOf(root, outputDir.GetOr(SinglesDir(root))))
    requires env.tagWrites(TargetPath(outputDir.GetOr(SinglesDir(root)), env.probe(url).value))
    requires !DownloadSingleSpec(root, env, saveFault, s, url, outputDir, playlistName, now).0.Err? ||
             DownloadSingleSpec(root, env, saveFault, s, url, outputDir, playlistName, now).0.error.PersistError?
    ensures var first := DownloadSingleSpec(root, env, saveFault, s, url, outputDir, playlistName, now);
      var again := DownloadSingleSpec(root, env, saveFault, first.1, url, outputDir, playlistName, later);
      && again.0.Ok?
      && (first.0.Ok? ==> again.0.value.path == first.0.value.path)
      && (first.0.Err? ==> again.0.value.path == Some(TargetPath(outputDir.GetOr(SinglesDir(root)), env.probe(url).value)))
  {
    var info := env.probe(url).value;
    var vid := VideoIdOf(info);
    var loc := outputDir.GetOr(SinglesDir(root));
    var first := DownloadSingleSpec(root, env, saveFault, s, url, outputDir, playlistName, now);
    RepeatIsSkipped(root, env, saveFault, s, url, outputDir, playlistName, now, later);
    FoundIsSkipped(root, env, saveFault, first.1, url, outputDir, playlistName, later);
    if !IsSongDownloaded(root, s.tree, vid) {
      FetchedFile(root, env, saveFault, s, url, outputDir, playlistName, now);
      var file := Mp3File(SanitizeFilename(TitleOf(info)), Some(vid));
      WrittenFileIsTheOneFound(root, s.tree, ScopeOf(root, loc), file, vid);
    } else {
      FoundIsSkipped(root, env, saveFault, s, url, outputDir, playlistName, now);
    }
  }

  /**
   * The skip decision and every descriptor depend on the music tree, never
   * on the ledger: two stores that differ only in their ledger give the
   * same answer.
   */
  lemma LedgerNotConsulted(root: string, env: YtDlp, saveFault: Option<SaveFault>, s: Store, other: Store,
                           url: string, outputDir: Option<string>, playlistName: Option<string>, now: string)
    requires s.tree == other.tree
    ensures DownloadSingleSpec(root, env, saveFault, s, url, outputDir, playlistName, now).0 ==
            DownloadSingleSpec(root, env, saveFault, other, url, outputDir, playlistName, now).0
    ensures DownloadSingleSpec(root, env, saveFault, s, url, outputDir, playlistName, now).1.tree ==
            DownloadSingleSpec(root, env, saveFault, other, url, outputDir, playlistName, now).1.tree
  {
  }

  /**
   * The URL of a playlist entry: `url`, else `webpage_url` (the first that
   * is truthy), else the watch URL of a truthy `id`; `None` when the entry
   * is skipped.
   */
  function EntryUrl(e: Entry): (r: Option<string>)
    ensures Truthy(e.url) ==> r == e.url
    ensures !Truthy(e.url) && Truthy(e.webpageUrl) ==> r == e.webpageUrl
    ensures !Truthy(e.url) && !Truthy(e.webpageUrl) ==>
      r == (if Truthy(e.id) then Some(WatchPrefix + e.id.value) else None)
    ensures r.Some? ==> r.value != ""
  {
    if Truthy(e.url) then e.url
    else if Truthy(e.webpageUrl) then e.webpageUrl
    else if Truthy(e.id) then Some(WatchPrefix + e.id.value)
    else None
  }

  /** An entry the playlist loop hands to `_download_single`. */
  predicate Resolvable(entry: Option<Entry>) {
    entry.Some? && EntryUrl(entry.value).Some?
  }

  function CountResolvable(entries: seq<Option<Entry>>): nat {
    if entries == [] then 0
    else CountResolvable(entries[..|entries| - 1]) + (if Resolvable(entries[|entries| - 1]) then 1 else 0)
  }

  /** `playlist_name` when truthy, else the sanitized playlist title (`'Unknown Playlist'` when missing). */
  function PlaylistNameFor(given: Option<string>, info: PlaylistInfo): (name: string)
    ensures Truthy(given) ==> name == given.value
    ensures !Truthy(given) ==> name == SanitizeFilename(info.title.GetOr("Unknown Playlist"))
  {
    if Truthy(given) then given.value else SanitizeFilename(info.title.GetOr("Unknown Playlist"))
  }

  /**
   * The dictionary the playlist loop appends for an entry: the single
   * download's own, or for any exception it raised the entry's `id` (else
   * `'unknown'`), its `title` (else `'Unknown'`) and `str(e)`.
   */
  function Contained(r: Result<Descriptor, Error>, e: Entry): (d: Descriptor)
    ensures r.Ok? ==> d == r.value
    ensures r.Err? ==>
      d.error == Some(r.error.message) && d.skipped == None &&
      d.id == Some(e.id.GetOr("unknown")) && d.title == Some(e.title.GetOr("Unknown"))
  {
    match r
    case Ok(d) => d
    case Err(err) => FailureDescriptor(Some(e.id.GetOr("unknown")), Some(e.title.GetOr("Unknown")), err)
  }

  /** The single download the playlist loop runs for a resolvable entry at position `i`. */
  function EntryDownload(root: string, env: YtDlp, saveFault: Option<SaveFault>, s: Store, e: Entry,
                         dir: string, name: string, clock: nat -> string, i: nat): (Result<Descriptor, Error>, Store)
    requires EntryUrl(e).Some?
  {
    DownloadSingleSpec(root, env, saveFault, s, EntryUrl(e).value, Some(dir), Some(name), clock(i))
  }

  /**
   * One iteration of the playlist loop for the entry at position `i`: an
   * unresolvable entry adds nothing and changes nothing; a resolvable one
   * is downloaded into `dir` under the playlist `name`, and whatever that
   * raised becomes a failure dictionary while the loop goes on.
   */
  function PlaylistStep(root: string, env: YtDlp, saveFault: Option<SaveFault>, s: Store, entry: Option<Entry>,
                        dir: string, name: string, clock: nat -> string, i: nat): (res: (seq<Descriptor>, Store))
    ensures forall d :: d in res.0 ==> Reported(d)
    ensures !Resolvable(entry) ==> res == ([], s)
    ensures Resolvable(entry) ==>
      var single := EntryDownload(root, env, saveFault, s, entry.value, dir, name, clock, i);
      res == ([Contained(single.0, entry.value)], single.1)
  {
    if !Resolvable(entry) then ([], s)
    else
      var e := entry.value;
      var (r, s1) := DownloadSingleSpec(root, env, saveFault, s, EntryUrl(e).value, Some(dir), Some(name), clock(i));
      match r
      case Ok(d) => ([d], s1)
      case Err(err) => ([FailureDescriptor(Some(e.id.GetOr("unknown")), Some(e.title.GetOr("Unknown")), err)], s1)
  }

  /** The playlist loop over `entries`, the entry at position `i` registered at `clock(i)`. */
  function PlaylistRun(root: string, env: YtDlp, saveFault: Option<SaveFault>, s: Store, entries: seq<Option<Entry>>,
                       dir: string, name: string, clock: nat -> string): (res: (seq<Descriptor>, Store))
    ensures |res.0| == CountResolvable(entries)
    ensures forall d :: d in res.0 ==> Reported(d)
  {
    if entries == [] then ([], s)
    else
      var n := |entries| - 1;
      var (before, s1) := PlaylistRun(root, env, saveFault, s, entries[..n], dir, name, clock);
      var (last, s2) := PlaylistStep(root, env, saveFault, s1, entries[n], dir, name, clock, n);
      (before + last, s2)
  }

  /** The loop over the first `k + 1` entries is the loop over the first `k` followed by the step for entry `k`. */
  lemma PlaylistRunNext(root: string, env: YtDlp, saveFault: Option<SaveFault>, s: Store, entries: seq<Option<Entry>>,
                        dir: string, name: string, clock: nat -> string, k: nat,
                        results: seq<Descriptor>, s1: Store, produced: seq<Descriptor>, s2: Store)
    requires k < |entries|
    requires PlaylistRun(root, env, saveFault, s, entries[..k], dir, name, clock) == (results, s1)
    requires PlaylistStep(root, env, saveFault, s1, entries[k], dir, name, clock, k) == (produced, s2)
    ensures PlaylistRun(root, env, saveFault, s, entries[..k + 1], dir, name, clock) == (results + produced, s2)
  {
    assert entries[..k + 1][..k] == entries[..k];
  }

  /** The loop over a prefix of the entries produces a prefix of the results. */
  lemma {:induction false} PlaylistRunPrefix(root: string, env: YtDlp, saveFault: Option<SaveFault>, s: Store,
                                             entries: seq<Option<Entry>>, dir: string, name: string, clock: nat -> string, m: nat)
    requires m <= |entries|
    ensures PlaylistRun(root, env, saveFault, s, entries[..m], dir, name, clock).0 <=
            PlaylistRun(root, env, saveFault, s, entries, dir, name, clock).0
    decreases |entries|
  {
    if m < |entries| {
      var n := |entries| - 1;
      PlaylistRunPrefix(root, env, saveFault, s, entries[..n], dir, name, clock, m);
      assert entries[..n][..m] == entries[..m];
    } else {
      assert entries[..m] == entries;
    }
  }

  /**
   * What the playlist loop returns, entry by entry: the `i`-th entry, when
   * resolvable, gives the result at position "number of resolvable entries
   * before it", and that result is the contained outcome of downloading its
   * URL into `dir` at `clock(i)`, on the store the entries before it left.
   */
  lemma PlaylistRunContents(root: string, env: YtDlp, saveFault: Option<SaveFault>, s: Store,
                            entries: seq<Option<Entry>>, dir: string, name: string, clock: nat -> string, i: nat)
    requires i < |entries| && Resolvable(entries[i])
    ensures var out := PlaylistRun(root, env, saveFault, s, entries, dir, name, clock).0;
      var before := PlaylistRun(root, env, saveFault, s, entries[..i], dir, name, clock).1;
      var k := CountResolvable(entries[..i]);
      k < |out| &&
      out[k] == Contained(EntryDownload(root, env, saveFault, before, entries[i].value, dir, name, clock, i).0, entries[i].value)
  {
    var before := PlaylistRun(root, env, saveFault, s, entries[..i], dir, name, clock);
    var step := PlaylistStep(root, env, saveFault, before.1, entries[i], dir, name, clock, i);
    PlaylistRunNext(root, env, saveFault, s, entries, dir, name, clock, i, before.0, before.1, step.0, step.1);
    PlaylistRunPrefix(root, env, saveFault, s, entries, dir, name, clock, i + 1);
    var k := |before.0|;
    assert (before.0 + step.0)[k] == step.0[0];
  }

  /**
   * The playlist loop never drops a ledger entry: every id registered
   * before is still registered after, whatever each entry's download did.
   */
  lemma {:induction false} PlaylistKeepsLedger(root: string, env: YtDlp, saveFault: Option<SaveFault>, s: Store,
                                               entries: seq<Option<Entry>>, dir: string, name: string, clock: nat -> string)
    ensures s.songs.Keys <= PlaylistRun(root, env, saveFault, s, entries, dir, name, clock).1.songs.Keys
    decreases |entries|
  {
    if entries != [] {
      var n := |entries| - 1;
      var s1 := PlaylistRun(root, env, saveFault, s, entries[..n], dir, name, clock).1;
      PlaylistKeepsLedger(root, env, saveFault, s, entries[..n], dir, name, clock);
      if Resolvable(entries[n]) {
        SingleOutcomes(root, env, saveFault, s1, EntryUrl(entries[n].value).value, Some(dir), Some(name), clock(n));
      }
    }
  }

  /**
   * `_download_playlist`. Failing to list the playlist is not wrapped: the
   * exception of yt-dlp reaches the caller as it was raised.
   */
  function DownloadPlaylistSpec(root: string, env: YtDlp, saveFault: Option<SaveFault>, s: Store, url: string,
                                outputDir: Option<string>, playlistName: Option<string>,
                                clock: nat -> string): (res: (Result<seq<Descriptor>, Error>, Store))
    ensures env.probePlaylist(url).Err? ==> res == (Err(ExternalError(env.probePlaylist(url).error)), s)
    ensures env.probePlaylist(url).Ok? ==>
      res.0.Ok? && |res.0.value| == CountResolvable(env.probePlaylist(url).value.entries.GetOr([]))
    ensures res.0.Ok? ==> forall d :: d in res.0.value ==> Reported(d)
  {
    match env.probePlaylist(url)
    case Err(e) => (Err(ExternalError(e)), s)
    case Ok(info) =>
      var name := PlaylistNameFor(playlistName, info);
      var dir := outputDir.GetOr(PlaylistDir(root, name));
      var (results, s1) := PlaylistRun(root, env, saveFault, s, info.entries.GetOr([]), dir, name, clock);
      (Ok(results), s1)
  }

  /**
   * What `_download_playlist` returns for a listed playlist, entry by
   * entry: the `i`-th resolvable entry's contained outcome, downloaded into
   * `output_dir` or by default into `playlists/<name>/`, which is the
   * playlist folder `name` the scans read whenever `name` is a plain name.
   */
  lemma DownloadPlaylistContents(root: string, env: YtDlp, saveFault: Option<SaveFault>, s: Store, url: string,
                                 outputDir: Option<string>, playlistName: Option<string>, clock: nat -> string, i: nat)
    requires env.probePlaylist(url).Ok?
    requires i < |env.probePlaylist(url).value.entries.GetOr([])|
    requires Resolvable(env.probePlaylist(url).value.entries.GetOr([])[i])
    ensures var info := env.probePlaylist(url).value;
      var entries := info.entries.GetOr([]);
      var name := PlaylistNameFor(playlistName, info);
      var dir := outputDir.GetOr(PlaylistDir(root, name));
      var res := DownloadPlaylistSpec(root, env, saveFault, s, url, outputDir, playlistName, clock);
      var before := PlaylistRun(root, env, saveFault, s, entries[..i], dir, name, clock).1;
      && res.0.Ok?
      && CountResolvable(entries[..i]) < |res.0.value|
      && res.0.value[CountResolvable(entries[..i])] ==
           Contained(EntryDownload(root, env, saveFault, before, entries[i].value, dir, name, clock, i).0, entries[i].value)
      && (outputDir.None? && IsPlainName(name) ==> ScopeOf(root, dir) == InPlaylist(name))
  {
    var info := env.probePlaylist(url).value;
    var name := PlaylistNameFor(playlistName, info);
    var dir := outputDir.GetOr(PlaylistDir(root, name));
    PlaylistRunContents(root, env, saveFault, s, info.entries.GetOr([]), dir, name, clock, i);
    if outputDir.None? && IsPlainName(name) {
      PlaylistDirScope(root, name);
    }
  }

  /** `download`: a playlist URL goes to the playlist path, any other URL to a one-element list. */
  function DownloadSpec(root: string, env: YtDlp, saveFault: Option<SaveFault>, s: Store, url: string,
                        outputDir: Option<string>, playlistName: Option<string>,
                        clock: nat -> string): (res: (Result<seq<Descriptor>, Error>, Store))
    ensures IsPlaylistUrl(url) ==> res == DownloadPlaylistSpec(root, env, saveFault, s, url, outputDir, playlistName, clock)
    ensures !IsPlaylistUrl(url) ==>
      var single := DownloadSingleSpec(root, env, saveFault, s, url, outputDir, playlistName, clock(0));
      && res.1 == single.1
      && (res.0.Ok? <==> single.0.Ok?)
      && (res.0.Ok? ==> res.0.value == [single.0.value])
      && (res.0.Err? ==> res.0.error == single.0.error)
    ensures res.0.Ok? ==> forall d :: d in res.0.value ==> Reported(d)
  {
    if IsPlaylistUrl(url) then DownloadPlaylistSpec(root, env, saveFault, s, url, outputDir, playlistName, clock)
    else
      var (r, s1) := DownloadSingleSpec(root, env, saveFault, s, url, outputDir, playlistName, clock(0));
      match r
      case Ok(d) => (Ok([d]), s1)
      case Err(e) => (Err(e), s1)
  }

  /** The music directory on disk. */
  class Disk {
    var tree: MusicTree

    constructor (tree: MusicTree)
      ensures this.tree == tree
    {
      this.tree := tree;
    }

    /** yt-dlp leaves `f` in the directory of `scope`, replacing a file of the same name. */
    method Receive(scope: Scope, f: Mp3File)
      modifies this`tree
      ensures tree == WithFile(old(tree), scope, f)
    {
      tree := WithFile(tree, scope, f);
    }
  }

  /** `YouTubeDownloader`: a music directory, its ledger and the yt-dlp it drives. */
  class YouTubeDownloader {
    const root: string
    const cache: DownloadCache
    const disk: Disk
    const env: YtDlp

    constructor (root: string, cache: DownloadCache, disk: Disk, env: YtDlp)
      ensures this.root == root && this.cache == cache && this.disk == disk && this.env == env
    {
      this.root := root;
      this.cache := cache;
      this.disk := disk;
      this.env := env;
    }

    ghost function StoreNow(): Store
      reads cache, disk
    {
      Store(disk.tree, cache.songs, cache.persisted)
    }

    method DownloadSingle(url: string, outputDir: Option<string>, playlistName: Option<string>, now: string)
      returns (r: Result<Descriptor, Error>)
      modifies cache`songs, cache`persisted, disk`tree
      ensures (r, StoreNow()) == DownloadSingleSpec(root, env, cache.saveFault, old(StoreNow()), url, outputDir, playlistName, now)
    {
      var probed := env.probe(url);
      if probed.Err? {
        return Err(YouTubeDownloadError(ProbeFailurePrefix + probed.error));
      }
      var info := probed.value;
      var vid := VideoIdOf(info);
      if IsSongDownloaded(root, disk.tree, vid) {
        var existing := FindSongByVideoId(root, disk.tree, vid);
        var path := if existing.Some? then Some(existing.value.meta.path) else None;
        return Ok(ItemDescriptor(vid, Some(TitleOf(info)), Some(ArtistOf(info)), true, path));
      }
      var loc := outputDir.GetOr(SinglesDir(root));
      var fetched := env.fetch(url, Template(loc, info));
      if fetched.Err? {
        return Err(YouTubeDownloadError("Error descargando " + url + ": " + fetched.error));
      }
      var path := TargetPath(loc, info);
      var tag := if env.tagWrites(path) then Some(vid) else None;
      disk.Receive(ScopeOf(root, loc), Mp3File(SanitizeFilename(TitleOf(info)), tag));
      var saved := cache.Register(vid, TitleOf(info), ArtistOf(info), "youtube", path, playlistName, now);
      if saved.Err? {
        return Err(saved.error);
      }
      r := Ok(ItemDescriptor(vid, Some(TitleOf(info)), Some(ArtistOf(info)), false, Some(path)));
    }

    method Step(entry: Option<Entry>, dir: string, name: string, clock: nat -> string, i: nat)
      returns (produced: seq<Descriptor>)
      modifies cache`songs, cache`persisted, disk`tree
      ensures (produced, StoreNow()) == PlaylistStep(root, env, cache.saveFault, old(StoreNow()), entry, dir, name, clock, i)
    {
      produced := [];
      if entry.Some? && EntryUrl(entry.value).Some? {
        var e := entry.value;
        var single := DownloadSingle(EntryUrl(e).value, Some(dir), Some(name), clock(i));
        match single
        case Ok(d) =>
          produced := [d];
        case Err(err) =>
          produced := [FailureDescriptor(Some(e.id.GetOr("unknown")), Some(e.title.GetOr("Unknown")), err)];
      }
    }

    method DownloadPlaylist(url: string, outputDir: Option<string>, playlistName: Option<string>, clock: nat -> string)
      returns (r: Result<seq<Descriptor>, Error>)
      modifies cache`songs, cache`persisted, disk`tree
      ensures (r, StoreNow()) == DownloadPlaylistSpec(root, env, cache.saveFault, old(StoreNow()), url, outputDir, playlistName, clock)
    {
      var probed := env.probePlaylist(url);
      if probed.Err? {
        return Err(ExternalError(probed.error));
      }
      var info := probed.value;
      var name := PlaylistNameFor(playlistName, info);
      var dir := outputDir.GetOr(PlaylistDir(root, name));
      var results := RunEntries(info.entries.GetOr([]), dir, name, clock);
      r := Ok(results);
    }

    /** The loop of `_download_playlist` over the listed entries, in order. */
    method RunEntries(entries: seq<Option<Entry>>, dir: string, name: string, clock: nat -> string)
      returns (results: seq<Descriptor>)
      modifies cache`songs, cache`persisted, disk`tree
      ensures (results, StoreNow()) == PlaylistRun(root, env, cache.saveFault, old(StoreNow()), entries, dir, name, clock)
    {
      results := [];
      ghost var start := StoreNow();
      var k := 0;
      while k < |entries|
        invariant 0 <= k <= |entries|
        invariant (results, StoreNow()) == PlaylistRun(root, env, cache.saveFault, start, entries[..k], dir, name, clock)
      {
        ghost var before := StoreNow();
        var produced := Step(entries[k], dir, name, clock, k);
        PlaylistRunNext(root, env, cache.saveFault, start, entries, dir, name, clock, k, results, before, produced, StoreNow());
        results := results + produced;
        k := k + 1;
      }
      assert entries[..k] == entries;
    }

    method Download(url: string, outputDir: Option<string>, playlistName: Option<string>, clock: nat -> string)
      returns (r: Result<seq<Descriptor>, Error>)
      modifies cache`songs, cache`persisted, disk`tree
      ensures (r, StoreNow()) == DownloadSpec(root, env, cache.saveFault, old(StoreNow()), url, outputDir, playlistName, clock)
    {
      if IsPlaylistUrl(url) {
        r := DownloadPlaylist(url, outputDir, playlistName, clock);
      } else {
        var single := DownloadSingle(url, outputDir, playlistName, clock(0));
        match single
        case Ok(d) => r := Ok([d]);
        case Err(e) => r := Err(e);
      }
    }
  }
}
