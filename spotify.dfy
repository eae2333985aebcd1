/**
 * The Spotify handler of src/music_downloader/spotify.py. The Spotify Web
 * API is an oracle (`Catalog`); the audio fetch it delegates to is an
 * explicit capability (`Fetcher`), which the handler is built with set to
 * the always-failing stub `ZotifyStub`. Only the ledger is read or changed:
 * the music tree is never scanned here.
 */
module Spotify {
  import opened Wrappers
  import opened Outcomes
  import opened Text
  import opened Utils
  import opened Ledger
  import opened Library

  const ConfigMessage: string := "Configura SPOTIFY_CLIENT_ID y SPOTIFY_CLIENT_SECRET en .env"
  const ZotifyMessage: string := "_download_track_with_zotify not yet implemented"
  /** `str(e)` of the `NameError` raised by reading the unbound `album_name`. */
  const AlbumNameMessage: string := "name 'album_name' is not defined"
  /** `str(e)` of the `IndexError` raised by `album['artists'][0]` on an empty list. */
  const IndexMessage: string := "list index out of range"
  const TrackUrlPrefix: string := "https://open.spotify.com/track/"

  /** `__init__`: both credentials must be set and non-empty before any client is built. */
  function CheckCredentials(clientId: Option<string>, clientSecret: Option<string>): (r: Result<(), Error>)
    ensures r.Ok? <==> Truthy(clientId) && Truthy(clientSecret)
    ensures r.Err? ==> r.error == SpotifyConfigError(ConfigMessage)
  {
    if !Truthy(clientId) || !Truthy(clientSecret) then Err(SpotifyConfigError(ConfigMessage)) else Ok(())
  }

  // _extract_id: re.search(rf'{t}/([a-zA-Z0-9]+)', url).group(1)

  /** `[a-zA-Z0-9]`. */
  predicate IsAlnum(c: char) {
    ('a' <= c <= 'z') || ('A' <= c <= 'Z') || ('0' <= c <= '9')
  }

  /** The pattern matches at `p`: `kind + "/"` followed by at least one id character. */
  predicate IdStartAt(url: string, kind: string, p: nat) {
    OccursAt(url, kind + "/", p) && p + |kind| + 1 < |url| && IsAlnum(url[p + |kind| + 1])
  }

  /** The end of the run of id characters starting at `from`: the greedy `+`. */
  function RunEnd(s: string, from: nat): (e: nat)
    requires from <= |s|
    ensures from <= e <= |s|
    ensures forall i :: from <= i < e ==> IsAlnum(s[i])
    ensures e < |s| ==> !IsAlnum(s[e])
    decreases |s| - from
  {
    if from < |s| && IsAlnum(s[from]) then RunEnd(s, from + 1) else from
  }

  /** The leftmost match at or after `from`. */
  function IdStartFrom(url: string, kind: string, from: nat): (r: Option<nat>)
    ensures r.Some? ==> from <= r.value && IdStartAt(url, kind, r.value)
    ensures r.Some? ==> forall q: nat :: from <= q < r.value ==> !IdStartAt(url, kind, q)
    ensures r.None? ==> forall q: nat :: from <= q ==> !IdStartAt(url, kind, q)
    decreases |url| - from
  {
    if from + |kind| + 1 >= |url| then None
    else if IdStartAt(url, kind, from) then Some(from)
    else IdStartFrom(url, kind, from + 1)
  }

  ghost predicate NoIdStart(url: string, kind: string) {
    forall q: nat :: !IdStartAt(url, kind, q)
  }

  ghost predicate LeftmostIdStart(url: string, kind: string, p: nat) {
    IdStartAt(url, kind, p) && forall q: nat :: q < p ==> !IdStartAt(url, kind, q)
  }

  /** The group of a match at `p`: the whole run of id characters after `kind + "/"`. */
  function IdAt(url: string, kind: string, p: nat): (id: string)
    requires IdStartAt(url, kind, p)
    ensures id != [] && forall i :: 0 <= i < |id| ==> IsAlnum(id[i])
    ensures p + |kind| + 1 + |id| <= |url| && id == url[p + |kind| + 1..p + |kind| + 1 + |id|]
    ensures p + |kind| + 1 + |id| == |url| || !IsAlnum(url[p + |kind| + 1 + |id|])
  {
    var b := p + |kind| + 1;
    url[b..RunEnd(url, b)]
  }

  /**
   * `_extract_id`: the id after the leftmost `kind + "/"` that an id
   * character follows, or `SpotifyDownloadError` when there is none.
   */
  function ExtractId(url: string, kind: string): (r: Result<string, Error>)
    ensures r.Err? <==> NoIdStart(url, kind)
    ensures r.Err? ==> r.error == SpotifyDownloadError("No se pudo extraer ID de " + kind + " de: " + url)
    ensures forall p: nat :: LeftmostIdStart(url, kind, p) ==> r == Ok(IdAt(url, kind, p))
  {
    match IdStartFrom(url, kind, 0)
    case None => Err(SpotifyDownloadError("No se pudo extraer ID de " + kind + " de: " + url))
    case Some(p) =>
      assert forall p': nat :: LeftmostIdStart(url, kind, p') ==> p' == p by {
        forall p': nat | LeftmostIdStart(url, kind, p') ensures p' == p {
        }
      }
      Ok(IdAt(url, kind, p))
  }

  // The catalog and the fetch capability.

  /** `sp.track(id)`: the name and the artist names. */
  datatype TrackMeta = TrackMeta(name: string, artists: seq<string>)

  /** A playlist item's `track`: its `id`, `name` and `external_urls['spotify']`, each possibly missing. */
  datatype TrackRef = TrackRef(id: Option<string>, name: Option<string>, spotifyUrl: Option<string>)

  /** One playlist item; `track` is `None` when it is missing or falsy. */
  datatype PlaylistItem = PlaylistItem(track: Option<TrackRef>)

  /** One page of playlist tracks: its items and whether `next` is set. */
  datatype Page = Page(items: seq<PlaylistItem>, hasNext: bool)

  /**
   * `sp.playlist(id)`: its name and first page of tracks, and what the
   * successive calls of `sp.next` give: the `k`-th call gives
   * `following[k]` (a page, `None`, or the message of an exception), and
   * `None` once `following` is exhausted.
   */
  datatype PlaylistMeta = PlaylistMeta(name: string, first: Page, following: seq<Result<Option<Page>, string>>)

  /** One item of `album['tracks']['items']`. */
  datatype AlbumTrack = AlbumTrack(id: string, name: Option<string>)

  /** `sp.album(id)`: its name, artist names and first page of tracks. */
  datatype AlbumMeta = AlbumMeta(name: string, artists: seq<string>, tracks: seq<AlbumTrack>)

  /** The Spotify Web API client; an `Err` carries the message of the exception raised. */
  datatype Catalog = Catalog(
    track: string -> Result<TrackMeta, string>,
    playlist: string -> Result<PlaylistMeta, string>,
    album: string -> Result<AlbumMeta, string>)

  /** Fetching the audio of a track URL into a directory, for a playlist name. */
  type Fetcher = (string, Option<string>, Option<string>) -> Result<Descriptor, Error>

  /** `_download_track_with_zotify`: fails for every input. */
  function ZotifyStub(url: string, dir: Option<string>, playlistName: Option<string>): (r: Result<Descriptor, Error>)
    ensures r == Err(AttributeError(ZotifyMessage))
  {
    Err(AttributeError(ZotifyMessage))
  }

  /** The in-memory and persisted maps of the ledger. */
  datatype Books = Books(songs: map<string, Record>, persisted: Option<map<string, Record>>)

  /** The ledger key of a Spotify track. */
  function LedgerKey(id: string): string {
    "spotify:" + id
  }

  /** `', '.join(names)`. */
  function JoinArtists(names: seq<string>): string
    decreases |names|
  {
    if names == [] then ""
    else if |names| == 1 then names[0]
    else JoinArtists(names[..|names| - 1]) + ", " + names[|names| - 1]
  }

  /** `{"id": track_id, "skipped": True, "path": path}`. */
  function HitDescriptor(id: string, path: string): Descriptor {
    Descriptor(Some(id), None, None, Some(true), Some(path), None, None)
  }

  /**
   * `_download_track`: a ledger hit is answered from the ledger; otherwise
   * the catalog is asked for the track, the fetch runs, and a result that
   * is not skipped and has a path is registered under the Spotify key.
   */
  function TrackSpec(cat: Catalog, fetch: Fetcher, saveFault: Option<SaveFault>, books: Books, url: string,
                     outputDir: Option<string>, playlistName: Option<string>, now: string): (res: (Result<Descriptor, Error>, Books))
    ensures ExtractId(url, "track").Err? ==> res == (Err(ExtractId(url, "track").error), books)
    ensures ExtractId(url, "track").Ok? && LedgerKey(ExtractId(url, "track").value) !in books.songs &&
            cat.track(ExtractId(url, "track").value).Err? ==>
              res == (Err(ExternalError(cat.track(ExtractId(url, "track").value).error)), books)
  {
    match ExtractId(url, "track")
    case Err(e) => (Err(e), books)
    case Ok(id) =>
      if LedgerKey(id) in books.songs then (Ok(HitDescriptor(id, books.songs[LedgerKey(id)].path)), books)
      else
        match cat.track(id)
        case Err(e) => (Err(ExternalError(e)), books)
        case Ok(meta) =>
          match fetch(url, outputDir, playlistName)
          case Err(e) => (Err(e), books)
          case Ok(d) =>
            if !SkippedFlag(d) && Truthy(d.path) then
              var songs := books.songs[LedgerKey(id) := Record(meta.name, JoinArtists(meta.artists), "spotify", d.path.value, playlistName, now)];
              match saveFault
              case None => (Ok(d), Books(songs, Some(songs)))
              case Some(fault) => (Err(PersistError(fault.message)), Books(songs, AfterFailedSave(fault, books.persisted)))
            else (Ok(d), books)
  }

  /**
   * A track already in the ledger is answered with its stored path, without
   * the catalog or the fetch: any other catalog and fetch give the same.
   */
  lemma HitSkipsCatalog(cat: Catalog, fetch: Fetcher, other: Catalog, otherFetch: Fetcher, saveFault: Option<SaveFault>,
                        books: Books, url: string, outputDir: Option<string>, playlistName: Option<string>, now: string)
    requires ExtractId(url, "track").Ok? && LedgerKey(ExtractId(url, "track").value) in books.songs
    ensures var id := ExtractId(url, "track").value;
      TrackSpec(cat, fetch, saveFault, books, url, outputDir, playlistName, now) ==
        (Ok(HitDescriptor(id, books.songs[LedgerKey(id)].path)), books)
    ensures TrackSpec(cat, fetch, saveFault, books, url, outputDir, playlistName, now) ==
            TrackSpec(other, otherFetch, saveFault, books, url, outputDir, playlistName, now)
  {
  }

  /**
   * With the stub fetch a track download never registers anything: it is a
   * ledger hit, or it raises. Beside the id error and the catalog's error,
   * which `TrackSpec` states for every fetch, every ledger miss raises the
   * stub's `AttributeError`.
   */
  lemma StubTrackOutcomes(cat: Catalog, saveFault: Option<SaveFault>, books: Books, url: string,
                          outputDir: Option<string>, playlistName: Option<string>, now: string)
    ensures var res := TrackSpec(cat, ZotifyStub, saveFault, books, url, outputDir, playlistName, now);
      && res.1 == books
      && (res.0.Ok? ==> SkippedFlag(res.0.value) && LedgerKey(ExtractId(url, "track").value) in books.songs)
      && (ExtractId(url, "track").Ok? && LedgerKey(ExtractId(url, "track").value) !in books.songs &&
            cat.track(ExtractId(url, "track").value).Ok? ==>
            res.0 == Err(AttributeError(ZotifyMessage)))
  {
  }

  /**
   * On a ledger miss, whatever the fetch: a fetched result that is neither
   * skipped nor without a path is registered under the Spotify key with
   * the catalog's name and joined artists, and saved unless the save
   * fails; any other result comes back as it is with nothing recorded. No
   * outcome forgets a ledger entry.
   */
  lemma TrackOutcomes(cat: Catalog, fetch: Fetcher, saveFault: Option<SaveFault>, books: Books, url: string,
                      outputDir: Option<string>, playlistName: Option<string>, now: string)
    requires ExtractId(url, "track").Ok? && LedgerKey(ExtractId(url, "track").value) !in books.songs
    requires cat.track(ExtractId(url, "track").value).Ok? && fetch(url, outputDir, playlistName).Ok?
    ensures var id := ExtractId(url, "track").value;
      var meta := cat.track(id).value;
      var d := fetch(url, outputDir, playlistName).value;
      var res := TrackSpec(cat, fetch, saveFault, books, url, outputDir, playlistName, now);
      && (!SkippedFlag(d) && Truthy(d.path) ==>
            && res.1.songs == books.songs[LedgerKey(id) := Record(meta.name, JoinArtists(meta.artists), "spotify", d.path.value, playlistName, now)]
            && (saveFault.None? ==> res == (Ok(d), Books(res.1.songs, Some(res.1.songs))))
            && (saveFault.Some? ==>
                  res.0 == Err(PersistError(saveFault.value.message)) &&
                  res.1.persisted == AfterFailedSave(saveFault.value, books.persisted)))
      && (SkippedFlag(d) || !Truthy(d.path) ==> res == (Ok(d), books))
      && books.songs.Keys <= res.1.songs.Keys
  {
  }

  // _download_playlist

  /** A playlist item the loop hands to `_download_track`: a track with a truthy Spotify URL. */
  predicate Usable(item: PlaylistItem) {
    item.track.Some? && Truthy(item.track.value.spotifyUrl)
  }

  function CountUsable(items: seq<PlaylistItem>): nat {
    if items == [] then 0 else CountUsable(items[..|items| - 1]) + (if Usable(items[|items| - 1]) then 1 else 0)
  }

  /** `{"id": track.get('id', 'unknown'), "title": track.get('name', 'Unknown'), "error": str(e)}`. */
  function ItemFailure(t: TrackRef, e: Error): (d: Descriptor)
    ensures d.id == Some(t.id.GetOr("unknown")) && d.title == Some(t.name.GetOr("Unknown"))
    ensures d.error == Some(e.message) && !SkippedFlag(d)
  {
    FailureDescriptor(Some(t.id.GetOr("unknown")), Some(t.name.GetOr("Unknown")), e)
  }

  /**
   * One item: an unusable one adds nothing and changes nothing; a usable
   * one is downloaded from its Spotify URL into `dir` for the playlist
   * `name`, and whatever that raised becomes a failure dictionary.
   */
  function ItemStep(cat: Catalog, fetch: Fetcher, saveFault: Option<SaveFault>, books: Books, item: PlaylistItem,
                    dir: string, name: string, now: string): (res: (seq<Descriptor>, Books))
    ensures |res.0| == (if Usable(item) then 1 else 0)
    ensures !Usable(item) ==> res == ([], books)
    ensures Usable(item) ==>
      var t := item.track.value;
      var single := TrackSpec(cat, fetch, saveFault, books, t.spotifyUrl.value, Some(dir), Some(name), now);
      && res.1 == single.1
      && (single.0.Ok? ==> res.0 == [single.0.value])
      && (single.0.Err? ==> res.0 == [ItemFailure(t, single.0.error)])
  {
    if !Usable(item) then ([], books)
    else
      var t := item.track.value;
      var (r, books1) := TrackSpec(cat, fetch, saveFault, books, t.spotifyUrl.value, Some(dir), Some(name), now);
      match r
      case Ok(d) => ([d], books1)
      case Err(e) => ([FailureDescriptor(Some(t.id.GetOr("unknown")), Some(t.name.GetOr("Unknown")), e)], books1)
  }

  /** The items of page `page` in order; item `i` is registered at `clock(page, i)`. */
  function ItemsRun(cat: Catalog, fetch: Fetcher, saveFault: Option<SaveFault>, books: Books, items: seq<PlaylistItem>,
                    dir: string, name: string, clock: (nat, nat) -> string, page: nat): (res: (seq<Descriptor>, Books))
    ensures |res.0| == CountUsable(items)
  {
    if items == [] then ([], books)
    else
      var n := |items| - 1;
      var (before, books1) := ItemsRun(cat, fetch, saveFault, books, items[..n], dir, name, clock, page);
      var (last, books2) := ItemStep(cat, fetch, saveFault, books1, items[n], dir, name, clock(page, n));
      (before + last, books2)
  }

  /**
   * The page loop from page number `page` on: the items of `current`, then
   * the page `sp.next` gives while `next` is set. An exception of `sp.next`
   * ends the download with that exception.
   */
  function PagesFrom(cat: Catalog, fetch: Fetcher, saveFault: Option<SaveFault>, books: Books, current: Page,
                     following: seq<Result<Option<Page>, string>>, page: nat,
                     dir: string, name: string, clock: (nat, nat) -> string): (res: (Result<seq<Descriptor>, Error>, Books))
    decreases |following|
  {
    var (here, books1) := ItemsRun(cat, fetch, saveFault, books, current.items, dir, name, clock, page);
    if !current.hasNext || following == [] then (Ok(here), books1)
    else
      match following[0]
      case Err(e) => (Err(ExternalError(e)), books1)
      case Ok(None) => (Ok(here), books1)
      case Ok(Some(next)) =>
        var (rest, books2) := PagesFrom(cat, fetch, saveFault, books1, next, following[1..], page + 1, dir, name, clock);
        (Prepend(here, rest), books2)
  }

  /** The results of earlier pages in front of those of the later ones, unless the later ones raised. */
  function Prepend(done: seq<Descriptor>, rest: Result<seq<Descriptor>, Error>): (r: Result<seq<Descriptor>, Error>)
    ensures rest.Ok? ==> r == Ok(done + rest.value)
    ensures rest.Err? ==> r == rest
    ensures done == [] ==> r == rest
  {
    assert rest.Ok? ==> [] + rest.value == rest.value;
    match rest
    case Ok(later) => Ok(done + later)
    case Err(e) => Err(e)
  }

  /** The outcome of the whole loop, given the results already collected and the outcome of the rest. */
  function Resume(done: seq<Descriptor>, rest: (Result<seq<Descriptor>, Error>, Books)): (Result<seq<Descriptor>, Error>, Books) {
    (Prepend(done, rest.0), rest.1)
  }

  /** One turn of the `while tracks` loop: the items of `current`, then what the next page decides. */
  lemma PagesFromStep(cat: Catalog, fetch: Fetcher, saveFault: Option<SaveFault>, books: Books, current: Page,
                      following: seq<Result<Option<Page>, string>>, page: nat, dir: string, name: string,
                      clock: (nat, nat) -> string, batch: seq<Descriptor>, books1: Books)
    requires ItemsRun(cat, fetch, saveFault, books, current.items, dir, name, clock, page) == (batch, books1)
    ensures !current.hasNext || following == [] ==>
      PagesFrom(cat, fetch, saveFault, books, current, following, page, dir, name, clock) == (Ok(batch), books1)
    ensures current.hasNext && following != [] && following[0].Err? ==>
      PagesFrom(cat, fetch, saveFault, books, current, following, page, dir, name, clock) == (Err(ExternalError(following[0].error)), books1)
    ensures current.hasNext && following != [] && following[0] == Ok(None) ==>
      PagesFrom(cat, fetch, saveFault, books, current, following, page, dir, name, clock) == (Ok(batch), books1)
    ensures current.hasNext && following != [] && following[0].Ok? && following[0].value.Some? ==>
      PagesFrom(cat, fetch, saveFault, books, current, following, page, dir, name, clock)
      == Resume(batch, PagesFrom(cat, fetch, saveFault, books1, following[0].value.value, following[1..], page + 1, dir, name, clock))
  {
  }

  /** Results collected in two goes come out as if collected in one. */
  lemma ResumeTwice(first: seq<Descriptor>, second: seq<Descriptor>, rest: (Result<seq<Descriptor>, Error>, Books))
    ensures Resume(first, Resume(second, rest)) == Resume(first + second, rest)
  {
    if rest.0.Ok? {
      assert first + (second + rest.0.value) == (first + second) + rest.0.value;
    }
  }

  /** `playlist_name` when truthy, else the sanitized playlist name. */
  function PlaylistNameFor(given: Option<string>, meta: PlaylistMeta): (name: string)
    ensures Truthy(given) ==> name == given.value
    ensures !Truthy(given) ==> name == SanitizeFilename(meta.name)
  {
    if Truthy(given) then given.value else SanitizeFilename(meta.name)
  }

  /**
   * `_download_playlist`: the id error and the catalog's error are raised
   * before any item is read, leaving the ledger alone.
   */
  function PlaylistSpec(root: string, cat: Catalog, fetch: Fetcher, saveFault: Option<SaveFault>, books: Books, url: string,
                        outputDir: Option<string>, playlistName: Option<string>, clock: (nat, nat) -> string): (res: (Result<seq<Descriptor>, Error>, Books))
    ensures ExtractId(url, "playlist").Err? ==> res == (Err(ExtractId(url, "playlist").error), books)
    ensures ExtractId(url, "playlist").Ok? && cat.playlist(ExtractId(url, "playlist").value).Err? ==>
      res == (Err(ExternalError(cat.playlist(ExtractId(url, "playlist").value).error)), books)
  {
    match ExtractId(url, "playlist")
    case Err(e) => (Err(e), books)
    case Ok(id) =>
      match cat.playlist(id)
      case Err(e) => (Err(ExternalError(e)), books)
      case Ok(meta) =>
        var name := PlaylistNameFor(playlistName, meta);
        var dir := outputDir.GetOr(PlaylistDir(root, name));
        PagesFrom(cat, fetch, saveFault, books, meta.first, meta.following, 0, dir, name, clock)
  }

  /** With the stub fetch, a playlist download leaves the ledger as it was, however many pages it reads. */
  lemma StubPlaylistKeepsLedger(root: string, cat: Catalog, saveFault: Option<SaveFault>, books: Books, url: string,
                                outputDir: Option<string>, playlistName: Option<string>, clock: (nat, nat) -> string)
    ensures PlaylistSpec(root, cat, ZotifyStub, saveFault, books, url, outputDir, playlistName, clock).1 == books
  {
    var id := ExtractId(url, "playlist");
    if id.Ok? && cat.playlist(id.value).Ok? {
      var meta := cat.playlist(id.value).value;
      var name := PlaylistNameFor(playlistName, meta);
      StubPagesRun(cat, saveFault, books, meta.first, meta.following, 0, outputDir.GetOr(PlaylistDir(root, name)), name, clock);
    }
  }

  /**
   * What the playlist loop yields for a usable track with the stub fetch,
   * read off the ledger and the catalog alone: the stored path on a ledger
   * hit; otherwise a failure dictionary with the track's id and name, for
   * the id error, the catalog's error, or the stub's `AttributeError`.
   */
  function StubItemDescriptor(cat: Catalog, books: Books, t: TrackRef): Descriptor
    requires t.spotifyUrl.Some?
  {
    match ExtractId(t.spotifyUrl.value, "track")
    case Err(e) => ItemFailure(t, e)
    case Ok(id) =>
      if LedgerKey(id) in books.songs then HitDescriptor(id, books.songs[LedgerKey(id)].path)
      else if cat.track(id).Err? then ItemFailure(t, ExternalError(cat.track(id).error))
      else ItemFailure(t, AttributeError(ZotifyMessage))
  }

  /** The stub dictionaries of the usable items of `items`, in order. */
  function StubDescriptors(cat: Catalog, books: Books, items: seq<PlaylistItem>): seq<Descriptor> {
    if items == [] then []
    else
      var last := items[|items| - 1];
      StubDescriptors(cat, books, items[..|items| - 1]) + (if Usable(last) then [StubItemDescriptor(cat, books, last.track.value)] else [])
  }

  lemma {:induction false} StubDescriptorsConcat(cat: Catalog, books: Books, a: seq<PlaylistItem>, b: seq<PlaylistItem>)
    ensures StubDescriptors(cat, books, a + b) == StubDescriptors(cat, books, a) + StubDescriptors(cat, books, b)
    decreases |b|
  {
    if b == [] {
      assert a + b == a;
    } else {
      var n := |b| - 1;
      assert (a + b)[..|a + b| - 1] == a + b[..n];
      StubDescriptorsConcat(cat, books, a, b[..n]);
    }
  }

  /** Where the dictionary of the `i`-th item sits: after those of the usable items before it. */
  lemma StubDescriptorAt(cat: Catalog, books: Books, items: seq<PlaylistItem>, i: nat)
    requires i < |items| && Usable(items[i])
    ensures CountUsable(items[..i]) < |StubDescriptors(cat, books, items)|
    ensures StubDescriptors(cat, books, items)[CountUsable(items[..i])] == StubItemDescriptor(cat, books, items[i].track.value)
  {
    assert items == items[..i] + [items[i]] + items[i + 1..];
    StubDescriptorsConcat(cat, books, items[..i] + [items[i]], items[i + 1..]);
    assert (items[..i] + [items[i]])[..i] == items[..i];
    StubCountMatches(cat, books, items[..i]);
  }

  /** There is one stub dictionary per usable item. */
  lemma {:induction false} StubCountMatches(cat: Catalog, books: Books, items: seq<PlaylistItem>)
    ensures |StubDescriptors(cat, books, items)| == CountUsable(items)
  {
    if items != [] {
      StubCountMatches(cat, books, items[..|items| - 1]);
    }
  }

  /** With the stub fetch, one item yields its stub dictionary and leaves the ledger as it was. */
  lemma StubItemStep(cat: Catalog, saveFault: Option<SaveFault>, books: Books, item: PlaylistItem,
                     dir: string, name: string, now: string)
    ensures ItemStep(cat, ZotifyStub, saveFault, books, item, dir, name, now) ==
      (if Usable(item) then [StubItemDescriptor(cat, books, item.track.value)] else [], books)
  {
    if Usable(item) {
      StubTrackOutcomes(cat, saveFault, books, item.track.value.spotifyUrl.value, Some(dir), Some(name), now);
    }
  }

  /** With the stub fetch, the items of a page yield their stub dictionaries, in order. */
  lemma {:induction false} StubItemsRun(cat: Catalog, saveFault: Option<SaveFault>, books: Books, items: seq<PlaylistItem>,
                                        dir: string, name: string, clock: (nat, nat) -> string, page: nat)
    ensures ItemsRun(cat, ZotifyStub, saveFault, books, items, dir, name, clock, page) == (StubDescriptors(cat, books, items), books)
    decreases |items|
  {
    if items != [] {
      var n := |items| - 1;
      StubItemsRun(cat, saveFault, books, items[..n], dir, name, clock, page);
      StubItemStep(cat, saveFault, books, items[n], dir, name, clock(page, n));
    }
  }

  /**
   * The items the page loop reads, page after page, and the message of the
   * `sp.next` exception that ended it, if one did.
   */
  function ReadPages(current: Page, following: seq<Result<Option<Page>, string>>): (seq<PlaylistItem>, Option<string>)
    decreases |following|
  {
    if !current.hasNext || following == [] then (current.items, None)
    else
      match following[0]
      case Err(e) => (current.items, Some(e))
      case Ok(None) => (current.items, None)
      case Ok(Some(next)) =>
        var (rest, err) := ReadPages(next, following[1..]);
        (current.items + rest, err)
  }

  /**
   * With the stub fetch the page loop yields the stub dictionary of every
   * usable item of every page it read, in order across pages, and leaves
   * the ledger as it was; an exception of `sp.next` discards them and
   * ends the download.
   */
  lemma {:induction false} StubPagesRun(cat: Catalog, saveFault: Option<SaveFault>, books: Books, current: Page,
                                        following: seq<Result<Option<Page>, string>>, page: nat,
                                        dir: string, name: string, clock: (nat, nat) -> string)
    ensures var (items, err) := ReadPages(current, following);
      PagesFrom(cat, ZotifyStub, saveFault, books, current, following, page, dir, name, clock) ==
        (if err.Some? then Err(ExternalError(err.value)) else Ok(StubDescriptors(cat, books, items)), books)
    decreases |following|
  {
    StubItemsRun(cat, saveFault, books, current.items, dir, name, clock, page);
    if current.hasNext && following != [] && following[0].Ok? && following[0].value.Some? {
      var next := following[0].value.value;
      StubPagesRun(cat, saveFault, books, next, following[1..], page + 1, dir, name, clock);
      StubDescriptorsConcat(cat, books, current.items, ReadPages(next, following[1..]).0);
    }
  }

  /**
   * A Spotify playlist downloaded with the stub fetch, item by item: when
   * no `sp.next` raised, the `i`-th usable item read gives the `i`-th
   * dictionary, its stored path on a ledger hit and otherwise a failure
   * carrying its id (else `'unknown'`) and name (else `'Unknown'`); nothing
   * is ever added to the ledger.
   */
  lemma StubPlaylistOutcomes(root: string, cat: Catalog, saveFault: Option<SaveFault>, books: Books, url: string,
                             outputDir: Option<string>, playlistName: Option<string>, clock: (nat, nat) -> string)
    requires ExtractId(url, "playlist").Ok? && cat.playlist(ExtractId(url, "playlist").value).Ok?
    ensures var meta := cat.playlist(ExtractId(url, "playlist").value).value;
      var (items, err) := ReadPages(meta.first, meta.following);
      var res := PlaylistSpec(root, cat, ZotifyStub, saveFault, books, url, outputDir, playlistName, clock);
      && res.1 == books
      && (err.Some? ==> res.0 == Err(ExternalError(err.value)))
      && (err.None? ==> res.0.Ok? && |res.0.value| == CountUsable(items))
      && (err.None? ==> forall i :: 0 <= i < |items| && Usable(items[i]) ==>
            CountUsable(items[..i]) < |res.0.value| &&
            res.0.value[CountUsable(items[..i])] == StubItemDescriptor(cat, books, items[i].track.value))
  {
    var meta := cat.playlist(ExtractId(url, "playlist").value).value;
    var name := PlaylistNameFor(playlistName, meta);
    var items := ReadPages(meta.first, meta.following).0;
    StubPagesRun(cat, saveFault, books, meta.first, meta.following, 0, outputDir.GetOr(PlaylistDir(root, name)), name, clock);
    StubCountMatches(cat, books, items);
    forall i | 0 <= i < |items| && Usable(items[i])
      ensures CountUsable(items[..i]) < |StubDescriptors(cat, books, items)|
      ensures StubDescriptors(cat, books, items)[CountUsable(items[..i])] == StubItemDescriptor(cat, books, items[i].track.value)
    {
      StubDescriptorAt(cat, books, items, i);
    }
  }

  // _download_album

  /**
   * The album's default playlist name: the first artist, unsanitized, then
   * `" - "`, then the sanitized album name. A given truthy name is kept.
   */
  function AlbumName(given: Option<string>, meta: AlbumMeta): (name: string)
    requires Truthy(given) || meta.artists != []
    ensures Truthy(given) ==> name == given.value
    ensures !Truthy(given) ==> name == meta.artists[0] + ArtistTitleSeparator + SanitizeFilename(meta.name)
  {
    if Truthy(given) then given.value else meta.artists[0] + ArtistTitleSeparator + SanitizeFilename(meta.name)
  }

  /** The dictionary every album track yields: the unbound `album_name` raises before `_download_track` runs. */
  function AlbumTrackFailure(t: AlbumTrack): Descriptor {
    FailureDescriptor(Some(t.id), Some(t.name.GetOr("Unknown")), NameError(AlbumNameMessage))
  }

  /** The album loop over `tracks`. */
  function AlbumFailures(tracks: seq<AlbumTrack>): seq<Descriptor> {
    if tracks == [] then [] else AlbumFailures(tracks[..|tracks| - 1]) + [AlbumTrackFailure(tracks[|tracks| - 1])]
  }

  /** The album loop yields one failure descriptor per track, in order, carrying the track's id. */
  lemma {:induction false} AlbumFailuresPerTrack(tracks: seq<AlbumTrack>)
    ensures |AlbumFailures(tracks)| == |tracks|
    ensures forall i :: 0 <= i < |tracks| ==>
      AlbumFailures(tracks)[i].id == Some(tracks[i].id) &&
      AlbumFailures(tracks)[i].error == Some(AlbumNameMessage) && !SkippedFlag(AlbumFailures(tracks)[i])
  {
    if tracks != [] {
      AlbumFailuresPerTrack(tracks[..|tracks| - 1]);
    }
  }

  /**
   * `_download_album`. Only the first page of album tracks is read; the
   * playlist name is needed only when none is given, and then the first
   * artist must exist.
   */
  function AlbumSpec(cat: Catalog, url: string, playlistName: Option<string>): (r: Result<seq<Descriptor>, Error>)
    ensures ExtractId(url, "album").Err? ==> r == Err(ExtractId(url, "album").error)
    ensures ExtractId(url, "album").Ok? && cat.album(ExtractId(url, "album").value).Err? ==>
      r == Err(ExternalError(cat.album(ExtractId(url, "album").value).error))
    ensures r.Ok? ==> ExtractId(url, "album").Ok? && cat.album(ExtractId(url, "album").value).Ok?
  {
    match ExtractId(url, "album")
    case Err(e) => Err(e)
    case Ok(id) =>
      match cat.album(id)
      case Err(e) => Err(ExternalError(e))
      case Ok(meta) =>
        if !Truthy(playlistName) && meta.artists == [] then Err(IndexError(IndexMessage))
        else Ok(AlbumFailures(meta.tracks))
  }

  /**
   * Every track of a listed album, in the ledger or not, yields a failure
   * descriptor carrying its id and the `NameError`; the album fails as a
   * whole only when it has no artist and no playlist name was given.
   */
  lemma AlbumOutcomes(cat: Catalog, url: string, playlistName: Option<string>)
    requires ExtractId(url, "album").Ok? && cat.album(ExtractId(url, "album").value).Ok?
    ensures var meta := cat.album(ExtractId(url, "album").value).value;
      var r := AlbumSpec(cat, url, playlistName);
      && (r.Err? <==> !Truthy(playlistName) && meta.artists == [])
      && (r.Err? ==> r.error == IndexError(IndexMessage))
      && (r.Ok? ==> |r.value| == |meta.tracks|)
      && (r.Ok? ==> forall i :: 0 <= i < |meta.tracks| ==>
            r.value[i].id == Some(meta.tracks[i].id) && r.value[i].error == Some(AlbumNameMessage) &&
            !SkippedFlag(r.value[i]))
  {
    AlbumFailuresPerTrack(cat.album(ExtractId(url, "album").value).value.tracks);
  }

  /**
   * `download`: dispatch on the first of `/playlist/`, `/track/`,
   * `/album/` the URL contains; anything else raises.
   */
  function DownloadSpec(root: string, cat: Catalog, fetch: Fetcher, saveFault: Option<SaveFault>, books: Books, url: string,
                        outputDir: Option<string>, playlistName: Option<string>, clock: (nat, nat) -> string): (res: (Result<seq<Descriptor>, Error>, Books))
    ensures Contains(url, "/playlist/") ==> res == PlaylistSpec(root, cat, fetch, saveFault, books, url, outputDir, playlistName, clock)
    ensures !Contains(url, "/playlist/") && Contains(url, "/track/") ==>
      var single := TrackSpec(cat, fetch, saveFault, books, url, outputDir, playlistName, clock(0, 0));
      && res.1 == single.1
      && (res.0.Ok? <==> single.0.Ok?)
      && (res.0.Ok? ==> res.0.value == [single.0.value])
      && (res.0.Err? ==> res.0.error == single.0.error)
    ensures !Contains(url, "/playlist/") && !Contains(url, "/track/") && Contains(url, "/album/") ==>
      res == (AlbumSpec(cat, url, playlistName), books)
    ensures !Contains(url, "/playlist/") && !Contains(url, "/track/") && !Contains(url, "/album/") ==>
      res == (Err(SpotifyDownloadError("URL no soportada: " + url)), books)
  {
    if Contains(url, "/playlist/") then PlaylistSpec(root, cat, fetch, saveFault, books, url, outputDir, playlistName, clock)
    else if Contains(url, "/track/") then
      var (r, books1) := TrackSpec(cat, fetch, saveFault, books, url, outputDir, playlistName, clock(0, 0));
      (match r case Ok(d) => Ok([d]) case Err(e) => Err(e), books1)
    else if Contains(url, "/album/") then (AlbumSpec(cat, url, playlistName), books)
    else (Err(SpotifyDownloadError("URL no soportada: " + url)), books)
  }

  /** `SpotifyHandler`: a music directory, its ledger, the Spotify client and the fetch it delegates to. */
  class SpotifyHandler {
    const root: string
    const cache: DownloadCache
    const catalog: Catalog
    const fetchTrack: Fetcher

    constructor (root: string, cache: DownloadCache, catalog: Catalog, fetchTrack: Fetcher)
      ensures this.root == root && this.cache == cache && this.catalog == catalog && this.fetchTrack == fetchTrack
    {
      this.root := root;
      this.cache := cache;
      this.catalog := catalog;
      this.fetchTrack := fetchTrack;
    }

    /** `SpotifyHandler(...)`: refuses to build without both credentials; the fetch is the stub. */
    static method Create(root: string, cache: DownloadCache, catalog: Catalog, clientId: Option<string>, clientSecret: Option<string>)
      returns (r: Result<SpotifyHandler, Error>)
      ensures r.Ok? <==> CheckCredentials(clientId, clientSecret).Ok?
      ensures r.Err? ==> r.error == SpotifyConfigError(ConfigMessage)
      ensures r.Ok? ==> fresh(r.value) && r.value.root == root && r.value.cache == cache && r.value.catalog == catalog
      ensures r.Ok? ==> r.value.fetchTrack == ZotifyStub
    {
      var checked := CheckCredentials(clientId, clientSecret);
      if checked.Err? {
        return Err(checked.error);
      }
      var handler := new SpotifyHandler(root, cache, catalog, ZotifyStub);
      r := Ok(handler);
    }

    ghost function BooksNow(): Books
      reads this, cache
    {
      Books(cache.songs, cache.persisted)
    }

    method DownloadTrack(url: string, outputDir: Option<string>, playlistName: Option<string>, now: string)
      returns (r: Result<Descriptor, Error>)
      modifies cache`songs, cache`persisted
      ensures (r, BooksNow()) == TrackSpec(catalog, fetchTrack, cache.saveFault, old(BooksNow()), url, outputDir, playlistName, now)
    {
      var id := ExtractId(url, "track");
      if id.Err? {
        return Err(id.error);
      }
      var key := LedgerKey(id.value);
      if cache.IsDownloaded(key) {
        return Ok(HitDescriptor(id.value, cache.GetPath(key).value));
      }
      var meta := catalog.track(id.value);
      if meta.Err? {
        return Err(ExternalError(meta.error));
      }
      var fetched := fetchTrack(url, outputDir, playlistName);
      if fetched.Err? {
        return Err(fetched.error);
      }
      var d := fetched.value;
      if !SkippedFlag(d) && Truthy(d.path) {
        var saved := cache.Register(key, meta.value.name, JoinArtists(meta.value.artists), "spotify", d.path.value, playlistName, now);
        if saved.Err? {
          return Err(saved.error);
        }
      }
      r := Ok(d);
    }

    method Item(item: PlaylistItem, dir: string, name: string, now: string) returns (produced: seq<Descriptor>)
      modifies cache`songs, cache`persisted
      ensures (produced, BooksNow()) == ItemStep(catalog, fetchTrack, cache.saveFault, old(BooksNow()), item, dir, name, now)
    {
      produced := [];
      if item.track.Some? && Truthy(item.track.value.spotifyUrl) {
        var t := item.track.value;
        var single := DownloadTrack(t.spotifyUrl.value, Some(dir), Some(name), now);
        match single
        case Ok(d) =>
          produced := [d];
        case Err(e) =>
          produced := [FailureDescriptor(Some(t.id.GetOr("unknown")), Some(t.name.GetOr("Unknown")), e)];
      }
    }

    method RunItems(items: seq<PlaylistItem>, dir: string, name: string, clock: (nat, nat) -> string, page: nat)
      returns (results: seq<Descriptor>)
      modifies cache`songs, cache`persisted
      ensures (results, BooksNow()) == ItemsRun(catalog, fetchTrack, cache.saveFault, old(BooksNow()), items, dir, name, clock, page)
    {
      results := [];
      ghost var start := BooksNow();
      var i := 0;
      while i < |items|
        invariant 0 <= i <= |items|
        invariant (results, BooksNow()) == ItemsRun(catalog, fetchTrack, cache.saveFault, start, items[..i], dir, name, clock, page)
      {
        assert items[..i + 1][..i] == items[..i];
        var produced := Item(items[i], dir, name, clock(page, i));
        results := results + produced;
        i := i + 1;
      }
      assert items[..i] == items;
    }

    method DownloadPlaylist(url: string, outputDir: Option<string>, playlistName: Option<string>, clock: (nat, nat) -> string)
      returns (r: Result<seq<Descriptor>, Error>)
      modifies cache`songs, cache`persisted
      ensures (r, BooksNow()) == PlaylistSpec(root, catalog, fetchTrack, cache.saveFault, old(BooksNow()), url, outputDir, playlistName, clock)
    {
      var id := ExtractId(url, "playlist");
      if id.Err? {
        return Err(id.error);
      }
      var fetched := catalog.playlist(id.value);
      if fetched.Err? {
        return Err(ExternalError(fetched.error));
      }
      var meta := fetched.value;
      var name := PlaylistNameFor(playlistName, meta);
      var dir := outputDir.GetOr(PlaylistDir(root, name));
      r := RunPages(meta.first, meta.following, dir, name, clock);
    }

    /** The `while tracks` loop: each page's items, then the page `sp.next` gives while `next` is set. */
    method RunPages(first: Page, following: seq<Result<Option<Page>, string>>, dir: string, name: string, clock: (nat, nat) -> string)
      returns (r: Result<seq<Descriptor>, Error>)
      modifies cache`songs, cache`persisted
      ensures (r, BooksNow()) == PagesFrom(catalog, fetchTrack, cache.saveFault, old(BooksNow()), first, following, 0, dir, name, clock)
    {
      ghost var goal := PagesFrom(catalog, fetchTrack, cache.saveFault, BooksNow(), first, following, 0, dir, name, clock);
      var results: seq<Descriptor> := [];
      var current := first;
      var k := 0;
      var done := false;
      assert following[0..] == following;
      assert goal == Resume(results, PagesFrom(catalog, fetchTrack, cache.saveFault, BooksNow(), current, following[k..], k, dir, name, clock));
      while !done
        invariant 0 <= k <= |following|
        invariant !done ==> goal == Resume(results, PagesFrom(catalog, fetchTrack, cache.saveFault, BooksNow(), current, following[k..], k, dir, name, clock))
        invariant done ==> goal == (Ok(results), BooksNow())
        decreases |following| - k, if done then 0 else 1
      {
        ghost var rest := following[k..];
        ghost var before := BooksNow();
        var batch := RunItems(current.items, dir, name, clock, k);
        PagesFromStep(catalog, fetchTrack, cache.saveFault, before, current, rest, k, dir, name, clock, batch, BooksNow());
        if !current.hasNext || k == |following| {
          results := results + batch;
          done := true;
        } else {
          match following[k]
          case Err(e) =>
            return Err(ExternalError(e));
          case Ok(None) =>
            results := results + batch;
            done := true;
          case Ok(Some(next)) =>
            assert rest[1..] == following[k + 1..];
            ResumeTwice(results, batch, PagesFrom(catalog, fetchTrack, cache.saveFault, BooksNow(), next, following[k + 1..], k + 1, dir, name, clock));
            results := results + batch;
            current := next;
            k := k + 1;
        }
      }
      r := Ok(results);
    }

    method DownloadAlbum(url: string, outputDir: Option<string>, playlistName: Option<string>)
      returns (r: Result<seq<Descriptor>, Error>)
      ensures r == AlbumSpec(catalog, url, playlistName)
    {
      var id := ExtractId(url, "album");
      if id.Err? {
        return Err(id.error);
      }
      var fetched := catalog.album(id.value);
      if fetched.Err? {
        return Err(ExternalError(fetched.error));
      }
      var meta := fetched.value;
      if !Truthy(playlistName) && meta.artists == [] {
        return Err(IndexError(IndexMessage));
      }
      var results: seq<Descriptor> := [];
      var i := 0;
      while i < |meta.tracks|
        invariant 0 <= i <= |meta.tracks|
        invariant results == AlbumFailures(meta.tracks[..i])
      {
        assert meta.tracks[..i + 1][..i] == meta.tracks[..i];
        results := results + [AlbumTrackFailure(meta.tracks[i])];
        i := i + 1;
      }
      assert meta.tracks[..i] == meta.tracks;
      r := Ok(results);
    }

    method Download(url: string, outputDir: Option<string>, playlistName: Option<string>, clock: (nat, nat) -> string)
      returns (r: Result<seq<Descriptor>, Error>)
      modifies cache`songs, cache`persisted
      ensures (r, BooksNow()) == DownloadSpec(root, catalog, fetchTrack, cache.saveFault, old(BooksNow()), url, outputDir, playlistName, clock)
    {
      if Contains(url, "/playlist/") {
        r := DownloadPlaylist(url, outputDir, playlistName, clock);
      } else if Contains(url, "/track/") {
        var single := DownloadTrack(url, outputDir, playlistName, clock(0, 0));
        match single
        case Ok(d) => r := Ok([d]);
        case Err(e) => r := Err(e);
      } else if Contains(url, "/album/") {
        r := DownloadAlbum(url, outputDir, playlistName);
      } else {
        r := Err(SpotifyDownloadError("URL no soportada: " + url));
      }
    }
  }
}
