# music-downloader: a verified model of the download pipeline

This project models the download pipeline of music-downloader in Dafny. The pipeline fetches songs from YouTube (through yt-dlp) and Spotify (through a Zotify stub) into a music directory. It keeps a JSON ledger of what has been downloaded, and it scans the directory to avoid downloading a video twice. The network, the tag library and the GUI are cut away. What remains is the control flow, the ledger, the directory scan and the name helpers, together with proofs of what each of them promises.

- **wrappers.dfy** (`Wrappers`): `Option` and `Result`.
- **text.dfy** (`Text`): first-occurrence substring search, Python's whitespace set and `str.strip`, and lexicographic order with a proved insertion sort. This is `sorted()` on strings.
- **outcomes.dfy** (`Outcomes`): the exceptions the pipeline raises, and the result dictionaries (`Descriptor`). Their `skipped` and `error` keys are optional, so Python truthiness can be stated exactly. An empty error string is falsy.
- **utils.dfy** (`Utils`): `sanitize_filename`, `format_duration`, `extract_video_id` and `is_playlist_url`. The regular expressions are written out as character scans.
- **ledger.dfy** (`Ledger`): the class `DownloadCache`, a map from song id to record that is changed in place.
  - A ghost `persisted` field is the last map written to the JSON file.
  - `saveFault` says whether writing the file fails.
- **library.dfy** (`Library`): the directory scanner of filesystem.py.
  - The music directory is a value, `MusicTree`: the playlist folders, `singles/` and the root.
  - Each file is a stem plus what reading its `video_id` tag yields.
  - The scanning loops are methods proved equal to specification functions.
  - This module also defines where a downloaded file lands in the tree.
- **youtube.dfy** (`YouTube`): `YouTubeDownloader`.
  - yt-dlp and the tag writer are an oracle value, `YtDlp`.
  - Each method is proved equal to a specification function over the `Store` (tree, ledger map, persisted map). The properties are proved about those functions.
- **spotify.dfy** (`Spotify`): `SpotifyHandler`.
  - The Spotify Web API is an oracle value, `Catalog`.
  - The audio fetch is an explicit capability, `Fetcher`. The handler is built with it set to the always-failing `ZotifyStub`.
- **zotify.dfy** (`Zotify`): the placeholder `ZotifyDownloader`. Both of its operations always raise.
- **workers.dfy** (`Workers`): `DownloadWorker`, made sequential.
  - The loop over URLs reads the cancel flag before each URL.
  - A `YouTubeDownloadError` stays with its URL; any other exception ends the run.
  - `_calculate_summary` gives the three counts.

**Python semantics.** Python exceptions are `Err` values of `Result`. A dictionary key that may be missing is an `Option`, and `dict.get(k, default)` is `GetOr`.

**Environment inputs.** The clock (`datetime.now()`) is a parameter; in loops it is a function of the position. The environment variables, the yt-dlp answers and the Spotify answers are parameters too.

**Python's `str.strip`.** `Text.Strip` removes the characters Python counts as whitespace (`str.isspace`). `sanitize_filename` splits on `\s`, which is the same set for `str` patterns.

## Model

| member | source | states |
|---|---|---|
| Text.Find | src/music_downloader/filesystem.py:116-117 | `in` and `split(sep, 1)` find the first occurrence: the result occurs, no earlier index does, and None means no occurrence anywhere |
| Text.FindIsFirst | src/music_downloader/filesystem.py:117 | whatever index is the first occurrence is the one `Find` returns |
| Text.Strip | src/music_downloader/filesystem.py:118-119 | `str.strip()` returns a contiguous slice of its input that neither starts nor ends with whitespace |
| Text.Sort | src/music_downloader/filesystem.py:153 | `sorted()` of names is ordered and a permutation of its input |
| Text.LessEqTotal | src/music_downloader/filesystem.py:153 | string order is total |
| Text.LessEqTransitive | src/music_downloader/filesystem.py:153 | string order is transitive |
| Text.LessEqAntisymmetric | src/music_downloader/filesystem.py:153 | string order is antisymmetric |
| Utils.RemoveIllegal | src/music_downloader/utils.py:23 | no character of `<>:"/\|?*` remains, and every other character is kept as often as it occurred (their order is stated by `RemoveIllegalChar` and `RemoveIllegalConcat`) |
| Utils.Collapse | src/music_downloader/utils.py:25 | the result has no whitespace but plain spaces, no double space, and the same non-space characters (that each run becomes exactly one space is stated by `CollapseRun` and `RunBetweenWords`) |
| Utils.Cleaned | src/music_downloader/utils.py:23-26 | the cleaned name has no illegal character, only plain spaces, no double space, and no leading or trailing space |
| Utils.SanitizeFilename | src/music_downloader/utils.py:10-29 | the output has no illegal character, only single plain spaces, at most 200 characters, and is exactly the first 200 cleaned characters when the cleaned name is longer; it never starts with a space and ends with one only when the cut fell after one |
| Utils.SanitizeKeepsCleanNames | src/music_downloader/utils.py:10-29 | a name that is already clean and short enough is returned unchanged |
| Utils.RemoveIllegalKeepsClean | src/music_downloader/utils.py:23 | removing illegal characters from a name without any is the identity |
| Utils.CollapseKeepsClean | src/music_downloader/utils.py:25 | collapsing a name whose spaces are already single plain ones is the identity |
| Utils.RemoveIllegalChar | src/music_downloader/utils.py:23 | one character is dropped exactly when it is one of `<>:"/\|?*`, and kept otherwise |
| Utils.RemoveIllegalConcat | src/music_downloader/utils.py:23 | removing illegal characters distributes over concatenation, so the kept characters stay in their order |
| Utils.CollapseChar | src/music_downloader/utils.py:25 | one whitespace character becomes a space, or nothing inside an open run; any other character is kept |
| Utils.CollapseConcat | src/music_downloader/utils.py:25 | collapsing a concatenation collapses the first piece, then the second, told whether the first ended inside a whitespace run |
| Utils.CollapseRun | src/music_downloader/utils.py:25 | a whole run of whitespace of any length and kind becomes exactly one space, or nothing when it continues an open run |
| Utils.RunBetweenWords | src/music_downloader/utils.py:25 | a whitespace run between a word and the rest of the text becomes exactly one space, with the text on each side collapsed on its own |
| Utils.DecimalValue | src/music_downloader/utils.py:58-59 | the decimal rendering of `n` reads back as `n` |
| Utils.Pad2 | src/music_downloader/utils.py:58-59 | `:02d` is two digits that read back as the number |
| Utils.FormatDuration | src/music_downloader/utils.py:45-59 | the text ends in `:SS`, two digits whose value is the seconds modulo 60 |
| Utils.FormatHoursRoundTrip | src/music_downloader/utils.py:54-58 | from one hour on, the text has the `H:MM:SS` shape and reads back as the same number of seconds |
| Utils.FormatHoursShape | src/music_downloader/utils.py:54-58 | from one hour on, the text is the hours, then the minutes and the seconds of the two `divmod`s, each padded to two digits |
| Utils.FormatMinutesRoundTrip | src/music_downloader/utils.py:54-59 | below one hour, the text has the `M:SS` shape and reads back as the same number of seconds |
| Utils.FormatDurationRoundTrip | src/music_downloader/utils.py:54-59 | for every non-negative input, reading the text back gives the input, and the hours field is present exactly from 3600 seconds on |
| Utils.AltAt | src/music_downloader/utils.py:71-77 | a match at a position is one of the alternatives followed by eleven id characters, and None means no alternative matches there |
| Utils.SearchFrom | src/music_downloader/utils.py:76-78 | `re.search` finds the leftmost matching position: it matches, no earlier position does, and None means none at all |
| Utils.SearchFindsLeftmost | src/music_downloader/utils.py:76-78 | whichever position is the leftmost match is the one the search returns |
| Utils.SearchGroup | src/music_downloader/utils.py:76-79 | the group is eleven id characters taken at the leftmost match, and None exactly when nothing matches |
| Utils.ExtractVideoId | src/music_downloader/utils.py:62-80 | an id has eleven id characters; the `v=`, `/v/`, `youtu.be/` pattern wins at its leftmost match; `embed/` is tried only when that pattern matches nowhere; None exactly when neither matches |
| Utils.IsPlaylistUrl | src/music_downloader/utils.py:83-92 | true exactly when the URL contains `list=` or `/playlist/` |
| Ledger.DownloadCache.constructor | src/music_downloader/cache.py:22-39 | a parsed file supplies the map; a missing or unreadable file gives the empty map |
| Ledger.DownloadCache.Save | src/music_downloader/cache.py:41-44 | a successful save makes the persisted copy equal to the map; a failure reports the error, and leaves the old copy when the file could not be opened, or no readable ledger once opening it for writing had emptied it |
| Ledger.DownloadCache.IsDownloaded | src/music_downloader/cache.py:46-55 | true exactly when the id is a key of the map |
| Ledger.DownloadCache.Get | src/music_downloader/cache.py:114-123 | the stored record, and None exactly for an unknown id |
| Ledger.DownloadCache.GetPath | src/music_downloader/cache.py:57-67 | the stored path, and None exactly for an unknown id |
| Ledger.DownloadCache.Register | src/music_downloader/cache.py:69-96 | only the entry of `song_id` is inserted or overwritten, with the given fields; `get_path` then returns the path; every other entry is unchanged; the map is then saved |
| Ledger.DownloadCache.ListSongs | src/music_downloader/cache.py:98-107 | exactly one entry per stored id, carrying that id and its stored record |
| Ledger.DownloadCache.Clear | src/music_downloader/cache.py:109-112 | the map is empty, no id is downloaded any more, and the empty map is saved |
| Ledger.DownloadCache.Remove | src/music_downloader/cache.py:125-138 | true exactly when the id was present; afterwards it is absent, all other entries are unchanged, and the map is saved only in the true case |
| Ledger.DownloadCache.UpdateSong | src/music_downloader/cache.py:140-166 | an absent id gives false with nothing changed or saved; a present one has only `path` and `playlist` overwritten, each only when given, keeps title, artist, source and time, is saved, and gives true |
| Library.SplitArtistTitle | src/music_downloader/filesystem.py:114-121 | with `" - "` in the stem, artist and title are the stripped text before and after its first occurrence; otherwise the artist is `Unknown` and the title is the whole stem |
| Library.Mp3Metadata | src/music_downloader/filesystem.py:94-129 | `path` and `filename` are always set, `video_id` is what the tag read yields (None when absent or unreadable), and artist and title come from the file name |
| Library.ScannedSong | src/music_downloader/filesystem.py:173-175 | the `id` of a scanned song is its tag value, never the stem, and `playlist` is the given name |
| Library.SongsIn | src/music_downloader/filesystem.py:172-176 | one song per file, in file order |
| Library.PlaylistNames | src/music_downloader/filesystem.py:132-153 | the names are sorted, and a name is listed exactly when a playlist folder of that name holds at least one file |
| Library.FolderFiles | src/music_downloader/filesystem.py:167-172 | the files of the folder with the given name, and none when there is no such folder |
| Library.PlaylistGroup | src/music_downloader/filesystem.py:193-196 | every song of the playlist part carries the name of a scanned playlist |
| Library.AllSongsLayout | src/music_downloader/filesystem.py:181-215 | the full scan is the playlist songs in sorted playlist order, then `singles/`, then the root, with no deduplication and `playlist` None for the last two |
| Library.AllSongsIdsAreTags | src/music_downloader/filesystem.py:175 | every scanned song's id is its tag value |
| Library.PlaylistGroupPrefix | src/music_downloader/filesystem.py:194-196 | the songs of earlier playlists are a prefix of the scan |
| Library.FindSongByVideoId | src/music_downloader/filesystem.py:218-234 | the first song in scan order whose `video_id` equals the argument, and None exactly when no song has it |
| Library.IsSongDownloaded | src/music_downloader/filesystem.py:237-247 | true exactly when the lookup finds a song |
| Library.IsSongDownloadedIffTagged | src/music_downloader/filesystem.py:181-247 | a video counts as downloaded exactly when a file in a non-empty playlist folder, `singles/` or the root carries its tag |
| Library.PlaylistStatsCountSongs | src/music_downloader/filesystem.py:250-266 | the stats have a key exactly for each scanned playlist, mapped to the number of its scanned songs |
| Library.PlaylistStatsCountFiles | src/music_downloader/filesystem.py:259-266 | a folder is in the stats exactly when it holds files, and then it is mapped to its number of `.mp3` files |
| Library.TruncateText | src/music_downloader/filesystem.py:269-281 | the text is unchanged when it fits; otherwise it is the first `max_length - 3` characters plus `...`, exactly `max_length` long when that is at least 3, with the negative-slice length worked out below 3 |
| Library.ScanPlaylists | src/music_downloader/filesystem.py:141-153 | the loop returns the sorted non-empty playlist names |
| Library.ScanFiles | src/music_downloader/filesystem.py:172-178 | the loop builds one song per file, in file order |
| Library.ScanPlaylistGroup | src/music_downloader/filesystem.py:193-196 | the playlist loop concatenates the songs of each playlist in the given order |
| Library.ScanSongsInPlaylist | src/music_downloader/filesystem.py:156-178 | the loop returns the songs of the named playlist folder |
| Library.ScanAllSongs | src/music_downloader/filesystem.py:181-215 | the loops return the full scan |
| Library.CountPlaylistSongs | src/music_downloader/filesystem.py:262-264 | the loop maps each given name to the number of files of its folder |
| Library.GetPlaylistStats | src/music_downloader/filesystem.py:250-266 | the loop returns the playlist stats |
| Library.SegmentsJoin | src/music_downloader/youtube.py:204-207 | the segments of `a / b` are those of `a` followed by those of `b` |
| Library.SinglesDirScope | src/music_downloader/youtube.py:129-130 | `music_dir / "singles"` is the directory the singles scan reads |
| Library.RootScope | src/music_downloader/filesystem.py:207-213 | the music directory itself is the root scan |
| Library.PlaylistDirScope | src/music_downloader/youtube.py:204-207 | `music_dir / "playlists" / name` is the scanned playlist folder `name` when the name is a plain directory name |
| Library.TrailingSlashName | src/music_downloader/youtube.py:204-207 | a playlist name with a trailing slash names the same scanned folder as the name without it |
| Library.DotSlashName | src/music_downloader/youtube.py:204-207 | a playlist name starting with `./` names the same scanned folder as the name without it |
| Library.DotDotName | src/music_downloader/youtube.py:204-207 | a playlist name `../x` leaves `playlists/`: it is `singles/` when `x` is `singles`, and a directory no scan reads otherwise |
| Library.ScopeOfSibling | src/music_downloader/filesystem.py:198-205 | a directory one level below the music directory is `singles/` when so named, and no scanned directory otherwise |
| Library.DefaultDirsAreScanDirs | src/music_downloader/youtube.py:129-130 | the default output directories (`singles/`, and `playlists/<name>` for a plain name) and the music directory are spelled exactly as the scans spell the directory they read |
| Library.Put | src/music_downloader/youtube.py:144-153 | a written file is in its directory afterwards; it replaces the file of the same name, every other file stays, and nothing else is added; in a directory whose names are unique, the names stay unique and the written file is the only one with its name |
| Library.PutInFolderNames | src/music_downloader/youtube.py:204-209 | writing into a playlist folder creates it if needed, adds no other name, and leaves the file in that folder |
| Library.PutInFolderDistinct | src/music_downloader/youtube.py:204-209 | writing into a playlist folder keeps folder names unique |
| Library.WrittenFileIsFound | src/music_downloader/youtube.py:151-153 | once a tagged file is written into a scanned directory, a scan finds its video id |
| Library.WrittenFileIsTheOneFound | src/music_downloader/filesystem.py:218-234 | when no scanned file had the tag before, the file just written with it is the song `find_song_by_video_id` returns, with the path `dir/<stem>.mp3` in the directory the scan reads |
| YouTube.SingleOutcomes | src/music_downloader/youtube.py:89-173 | a failing probe becomes `YouTubeDownloadError` with the fixed prefix and nothing changed; a video the scan finds is skipped with nothing changed and reported with the id, title, artist and the path the scan gives it; a fresh download registers the bare id with source `youtube`, saves, and returns `skipped=False` and the path `output_dir/(sanitize_filename(title)+".mp3")`, with `singles/` as the default directory; a fetch failure is wrapped before any registration; a failed save reports its message and leaves the file as a failed write does; no ledger entry is lost |
| YouTube.FoundIsSkipped | src/music_downloader/youtube.py:117-126 | a video the scan finds is answered at any clock with `{id, title, artist, skipped: True, path}`, the path being the one the scan gives the found file, and the store is unchanged |
| YouTube.FetchedFile | src/music_downloader/youtube.py:128-153 | a fetched video leaves the file `sanitize_filename(title)` in the directory of `output_dir` (default `singles/`), tagged when the tag write succeeds, and a successful run reports its path |
| YouTube.DownloadSingleSpec | src/music_downloader/youtube.py:89-173 | every returned result carries exactly one of `skipped` and `error` |
| YouTube.RepeatIsSkipped | src/music_downloader/youtube.py:117-126 | once a video has been fetched and tagged into a scanned directory, whether or not the ledger save then raised, downloading it again at any later time is a skip that changes nothing |
| YouTube.RepeatReportsSamePath | src/music_downloader/youtube.py:117-126 | when the output directory is spelled as the scan spells it, the repeated download reports the same path as the first, or the path the file was written to when the first run's save raised |
| YouTube.LedgerNotConsulted | src/music_downloader/youtube.py:117-126 | the skip decision and the result do not depend on the ledger's contents |
| YouTube.EntryUrl | src/music_downloader/youtube.py:212-222 | an entry's URL is the first truthy of `url`, `webpage_url` and the watch URL built from `id`; without any the entry is dropped |
| YouTube.PlaylistNameFor | src/music_downloader/youtube.py:194-197 | a truthy given name wins; otherwise the sanitized title, or `Unknown Playlist` |
| YouTube.Contained | src/music_downloader/youtube.py:224-237 | the result of a loop entry is the single download's own dictionary, or for any exception the entry's `id` (else `unknown`), `title` (else `Unknown`) and the message as `error`, with no `skipped` |
| YouTube.PlaylistStep | src/music_downloader/youtube.py:212-237 | a dropped entry (None, or no URL) gives no result and changes nothing; any other is downloaded from its URL into the playlist directory under the playlist name, and its one result is the contained outcome, with the store the download left |
| YouTube.PlaylistRun | src/music_downloader/youtube.py:211-239 | one well-formed result per resolvable entry |
| YouTube.PlaylistRunPrefix | src/music_downloader/youtube.py:211-239 | the results of the first entries are a prefix of the results of all of them |
| YouTube.PlaylistRunContents | src/music_downloader/youtube.py:211-239 | the `i`-th entry, when resolvable, gives the result at the position of the number of resolvable entries before it, and that result is the contained outcome of downloading its URL on the store the earlier entries left; a failing entry thus becomes a failure result and the loop goes on |
| YouTube.PlaylistKeepsLedger | src/music_downloader/youtube.py:211-239 | a playlist download never loses a ledger entry |
| YouTube.DownloadPlaylistSpec | src/music_downloader/youtube.py:175-239 | a failing playlist probe propagates unwrapped with nothing changed; otherwise there is one well-formed result per resolvable entry |
| YouTube.DownloadPlaylistContents | src/music_downloader/youtube.py:175-239 | for a listed playlist, the result of each resolvable entry is its contained outcome, downloaded into `output_dir` or by default `playlists/<name>/`, which is the scanned playlist folder `name` whenever the name is plain |
| YouTube.DownloadSpec | src/music_downloader/youtube.py:64-87 | a playlist URL gives the playlist outcome; any other URL gives the single download's store, and its result as a one-element list or its exception unchanged |
| YouTube.Disk.Receive | src/music_downloader/youtube.py:144-153 | the fetched file appears in the tree where the output directory places it |
| YouTube.YouTubeDownloader.DownloadSingle | src/music_downloader/youtube.py:89-173 | the result, the tree and the ledger are those of `DownloadSingleSpec` |
| YouTube.YouTubeDownloader.Step | src/music_downloader/youtube.py:212-237 | one entry of the loop changes the tree and ledger and returns what `PlaylistStep` gives: nothing for a dropped entry, else the contained outcome of its download |
| YouTube.YouTubeDownloader.RunEntries | src/music_downloader/youtube.py:211-239 | the loop's results, tree and ledger are those of `PlaylistRun`, whose results `PlaylistRunContents` describes entry by entry |
| YouTube.YouTubeDownloader.DownloadPlaylist | src/music_downloader/youtube.py:175-239 | the results, tree and ledger are those of `DownloadPlaylistSpec`: the probe error unwrapped, or the contained outcome of every resolvable entry in order |
| YouTube.YouTubeDownloader.Download | src/music_downloader/youtube.py:64-87 | the result, tree and ledger are those of `DownloadSpec`: the playlist outcome, or the single download as a one-element list or its exception |
| Spotify.CheckCredentials | src/music_downloader/spotify.py:56-62 | success exactly when both the client id and the secret are set and non-empty; otherwise `SpotifyConfigError` with the fixed message |
| Spotify.SpotifyHandler.Create | src/music_downloader/spotify.py:35-69 | a handler is built exactly when the credentials pass, and its fetch is the always-failing stub |
| Spotify.RunEnd | src/music_downloader/spotify.py:293 | the greedy `[a-zA-Z0-9]+` stops at the first character outside the class |
| Spotify.IdStartFrom | src/music_downloader/spotify.py:293-294 | the leftmost position where `<type>/` is followed by an alphanumeric character |
| Spotify.IdAt | src/music_downloader/spotify.py:293-301 | the group is the maximal non-empty alphanumeric run right after `<type>/` |
| Spotify.ExtractId | src/music_downloader/spotify.py:278-301 | the id is the maximal run after the leftmost `<type>/` that is followed by one; `SpotifyDownloadError` with its message exactly when there is none |
| Spotify.ZotifyStub | src/music_downloader/spotify.py:71-73 | raises `AttributeError` for every input |
| Spotify.TrackSpec | src/music_downloader/spotify.py:116-126 | a bad track URL raises the id error, and on a ledger miss a failing track lookup raises the catalog's error, both with the ledger unchanged |
| Spotify.HitSkipsCatalog | src/music_downloader/spotify.py:117-123 | a ledger hit under `spotify:<id>` returns `{id, skipped: True, path}` with the stored path, and neither the catalog nor the fetch matters |
| Spotify.TrackOutcomes | src/music_downloader/spotify.py:126-150 | on a miss, a fetched result that is not skipped and has a path is registered under `spotify:<id>` with the catalog's name and `', '`-joined artists and then saved; any other result is returned with nothing recorded |
| Spotify.StubTrackOutcomes | src/music_downloader/spotify.py:71-73 | with the stub the ledger never changes; every successful result is a ledger hit, and a miss with a working catalog raises `AttributeError` |
| Spotify.ItemStep | src/music_downloader/spotify.py:191-211 | an item without a track or without a Spotify URL gives no result and changes nothing; any other is downloaded from its URL into the playlist directory, giving its dictionary, or for an exception `{id, title, error}` with the track's id (else `unknown`) and name (else `Unknown`), with the ledger the download left |
| Spotify.ItemsRun | src/music_downloader/spotify.py:191-211 | one result per usable item of a page |
| Spotify.ItemFailure | src/music_downloader/spotify.py:204-210 | the failure dictionary of an item carries the track's id (else `unknown`), its name (else `Unknown`) and the message, and is not skipped |
| Spotify.Prepend | src/music_downloader/spotify.py:187-219 | results of earlier pages come first, unless a later page fetch raised |
| Spotify.PlaylistNameFor | src/music_downloader/spotify.py:171-172 | a truthy given name wins; otherwise the sanitized playlist name |
| Spotify.PlaylistSpec | src/music_downloader/spotify.py:152-168 | a bad playlist URL raises the id error and a failing catalog lookup raises its error, both before any item is read and with the ledger unchanged |
| Spotify.StubPlaylistKeepsLedger | src/music_downloader/spotify.py:152-219 | with the stub, a playlist download leaves the ledger unchanged |
| Spotify.StubDescriptorsConcat | src/music_downloader/spotify.py:187-219 | the stub results of two runs of items are those of the first followed by those of the second |
| Spotify.StubDescriptorAt | src/music_downloader/spotify.py:191-211 | the stub result of the `i`-th usable item sits after those of the usable items before it |
| Spotify.StubCountMatches | src/music_downloader/spotify.py:191-211 | there is one stub result per usable item |
| Spotify.StubItemStep | src/music_downloader/spotify.py:71-73 | with the stub fetch, one item gives its stub result (the stored path on a ledger hit; else a failure for the id error, the catalog error or the stub's `AttributeError`) and leaves the ledger as it was |
| Spotify.StubItemsRun | src/music_downloader/spotify.py:191-211 | with the stub fetch, the items of a page give their stub results in order and leave the ledger as it was |
| Spotify.StubPagesRun | src/music_downloader/spotify.py:187-219 | with the stub fetch, the page loop gives the stub results of every usable item of every page read, in order across pages, and leaves the ledger as it was; an exception of `sp.next` discards them and is raised |
| Spotify.StubPlaylistOutcomes | src/music_downloader/spotify.py:152-219 | with the stub fetch and a listed playlist, an `sp.next` exception is raised, and otherwise the `i`-th usable item read gives the result at the position of the usable items before it: its stored path on a ledger hit, else a failure with its id and name; the ledger never changes |
| Spotify.AlbumName | src/music_downloader/spotify.py:240-243 | a truthy given name wins; otherwise `<first artist> - <sanitized album name>`, with the artist not sanitized |
| Spotify.AlbumFailuresPerTrack | src/music_downloader/spotify.py:259-274 | each album track gives one failure result carrying its id and the `NameError` message |
| Spotify.AlbumSpec | src/music_downloader/spotify.py:221-276 | a bad album URL raises the id error and a failing album lookup raises the catalog's error, both before any track is read; a result needs the id and the lookup to succeed |
| Spotify.AlbumOutcomes | src/music_downloader/spotify.py:237-276 | `IndexError` exactly when no name is given and the album has no artist; otherwise one `NameError` failure per track of the first page, even for a track already in the ledger |
| Spotify.DownloadSpec | src/music_downloader/spotify.py:75-98 | dispatch by substring with precedence `/playlist/`, `/track/`, `/album/`; anything else raises `URL no soportada` |
| Spotify.SpotifyHandler.DownloadTrack | src/music_downloader/spotify.py:100-150 | the result and the ledger are those of `TrackSpec`: the id or lookup error with nothing changed, a ledger hit, or the fetched result registered |
| Spotify.SpotifyHandler.Item | src/music_downloader/spotify.py:191-211 | one playlist item changes the ledger and returns what `ItemStep` gives: nothing for an unusable item, else its dictionary or its failure dictionary |
| Spotify.SpotifyHandler.RunItems | src/music_downloader/spotify.py:191-211 | the item loop of one page returns the results and leaves the ledger of `ItemsRun`, which `StubItemsRun` gives item by item for the stub fetch |
| Spotify.SpotifyHandler.RunPages | src/music_downloader/spotify.py:187-219 | the page loop returns the results and leaves the ledger of `PagesFrom`: each page's items in order, then stop, raise or continue as `sp.next` answers |
| Spotify.PagesFromStep | src/music_downloader/spotify.py:190-219 | one turn of the page loop: the page's items, then stop, raise or continue with the next page, as the answer of `sp.next` says |
| Spotify.SpotifyHandler.DownloadPlaylist | src/music_downloader/spotify.py:152-219 | the results and the ledger are those of `PlaylistSpec`: the id or catalog error with nothing changed, else the page loop over the playlist's pages |
| Spotify.SpotifyHandler.DownloadAlbum | src/music_downloader/spotify.py:221-276 | the loop's results are those of `AlbumSpec` |
| Spotify.SpotifyHandler.Download | src/music_downloader/spotify.py:75-98 | the dispatch, as `DownloadSpec` says |
| Zotify.ZotifyDownloader.constructor | src/music_downloader/zotify_downloader.py:7-9 | stores the music directory |
| Zotify.ZotifyDownloader.DownloadTrack | src/music_downloader/zotify_downloader.py:11-12 | raises `NotImplementedError("download_track not yet implemented")` for every input |
| Zotify.ZotifyDownloader.DownloadPlaylist | src/music_downloader/zotify_downloader.py:14-15 | raises `NotImplementedError("download_playlist not yet implemented")` for every input |
| Workers.SummaryPartition | src/music_downloader/ui/workers.py:125-137 | each count is at most the total; downloaded is disjoint from skipped and from errors; the counts add up to at least the total, and exactly to it when no result has both flags |
| Workers.DoubleCounted | src/music_downloader/ui/workers.py:125-130 | a result with both flags is counted as skipped and as an error, so the counts exceed the total |
| Workers.SummaryAppend | src/music_downloader/ui/workers.py:99-108 | the summary of appended results is the sum of the summaries |
| Workers.EmptyErrorCountsAsDownloaded | src/music_downloader/ui/workers.py:127-130 | an empty `error` string is falsy: the result counts as downloaded, not as an error |
| Workers.ReportedUnambiguous | src/music_downloader/ui/workers.py:125-130 | results that carry exactly one of `skipped` and `error` never have both flags |
| Workers.CollectedAreReported | src/music_downloader/ui/workers.py:83-105 | for a downloader whose results are well formed, every collected result is well formed too, since the worker adds only `{error, url}` results of its own; a stopped run never ends with a summary |
| Workers.CompletedSummaryAddsUp | src/music_downloader/ui/workers.py:83-111 | for a downloader whose results are well formed, a completed run's downloaded, skipped and errors add up to its total |
| Workers.CancelledBeforeStart | src/music_downloader/ui/workers.py:83-86 | with the flag set before the run, it stops at the first URL with nothing downloaded; with no URL it completes with zero counts |
| Workers.StoppedPersists | src/music_downloader/ui/workers.py:83-114 | once the run has stopped, later URLs change neither its outcome nor the store |
| Workers.CancelStops | src/music_downloader/ui/workers.py:84-86 | a flag seen before URL `j` ends the run as cancelled, with the store as it was after the earlier URLs |
| Workers.UrlFailureContinues | src/music_downloader/ui/workers.py:99-105 | a URL whose download raises `YouTubeDownloadError(m)` adds exactly `{error: m, url}` and the loop goes on with the store the download left |
| Workers.UrlSuccessContinues | src/music_downloader/ui/workers.py:93-99 | a URL whose download returns adds its results in order and the loop goes on |
| Workers.UnexpectedErrorFails | src/music_downloader/ui/workers.py:113-114 | any other exception at a URL the loop reaches ends the whole run with `Error inesperado: ` and the message, with no summary and no later download |
| Workers.PartialFailureCompletes | src/music_downloader/ui/workers.py:83-111 | with three URLs and the middle one failing, the run completes; the summary counts the other two URLs' results plus the failure entry, which is an error exactly when its message is not empty |
| Workers.YouTubeDownloadReports | src/music_downloader/youtube.py:64-239 | every result `YouTubeDownloader.download` returns carries exactly one of `skipped` and `error` |
| Workers.YouTubeDownloadDrives | src/music_downloader/ui/workers.py:74-78 | the worker's downloader answers each URL as `DownloadSpec` does, with the worker's output directory and playlist name |
| Workers.EndsAt | src/music_downloader/ui/workers.py:83-114 | once the loop has seen every URL or stopped, the run's outcome is settled: a summary of what was collected, or the reason it stopped |
| Workers.DownloadWorker.constructor | src/music_downloader/ui/workers.py:35-59 | a worker stores its URLs, settings and ledger, and starts not cancelled |
| Workers.DownloadWorker.Cancel | src/music_downloader/ui/workers.py:139-141 | `cancel` only sets the flag |
| Workers.DownloadWorker.Visit | src/music_downloader/ui/workers.py:93-105 | one URL: returned results are appended in order; a `YouTubeDownloadError` appends `{error: str(e), url}` and the loop goes on; any other exception ends the run with `Error inesperado: ` and the message; the store is the one the download left |
| Workers.DownloadWorker.Turn | src/music_downloader/ui/workers.py:84-105 | one URL: the flag check, then the download; the flag is set afterwards exactly when this turn stopped the run as cancelled |
| Workers.DownloadWorker.Loop | src/music_downloader/ui/workers.py:83-105 | the loop runs until every URL is seen or the run stops, with the store and progress of `RunPrefix` |
| Workers.DownloadWorker.Run | src/music_downloader/ui/workers.py:61-114 | the outcome and the store are those of `RunSpec`, and the flag is set afterwards exactly when it was set before or the run was cancelled |

Specification functions that define a source function but state nothing beyond their own body have no row. The rows of their lemmas and of the methods proved equal to them describe them:

- `Text.IsSpace` is `str.isspace` (filesystem.py:118-119); `Text.Strip` and `Utils.Collapse` use it.
- `Library.PlaylistSongs` is `scan_songs_in_playlist` (filesystem.py:156-178), described by `Library.ScanSongsInPlaylist`.
- `Library.AllSongs` is `scan_all_songs` (filesystem.py:181-215), described by `Library.AllSongsLayout`, `Library.AllSongsIdsAreTags` and `Library.ScanAllSongs`.
- `Library.PlaylistStats` is `get_playlist_stats` (filesystem.py:250-266), described by `Library.PlaylistStatsCountSongs`, `Library.PlaylistStatsCountFiles` and `Library.GetPlaylistStats`.
- `Library.ScopeOf` says which scanned directory a path is, if any. It is described by `Library.SinglesDirScope`, `Library.RootScope`, `Library.PlaylistDirScope`, `Library.TrailingSlashName`, `Library.DotSlashName`, `Library.DotDotName`, `Library.ScopeOfSibling` and `Library.DefaultDirsAreScanDirs`.
- `Library.WithFile` and `Library.PutInFolder` are the file write of youtube.py:144-153. They are described by `Library.Put`, `Library.PutInFolderNames`, `Library.PutInFolderDistinct`, `Library.WrittenFileIsFound` and `Library.WrittenFileIsTheOneFound`.
- `Spotify.JoinArtists` is `', '.join` of the artist names (spotify.py:128), used by `Spotify.TrackOutcomes`.
- `Spotify.PagesFrom` is the `while tracks` loop (spotify.py:187-219), described by `Spotify.PagesFromStep`, `Spotify.Prepend`, `Spotify.StubPagesRun` and `Spotify.SpotifyHandler.RunPages`.
- `Workers.CalculateSummary` is `_calculate_summary` (ui/workers.py:116-137), described by `Workers.SummaryPartition`, `Workers.DoubleCounted`, `Workers.SummaryAppend` and `Workers.EmptyErrorCountsAsDownloaded`.
- `Workers.UrlStep` is one pass of the URL loop (ui/workers.py:84-105), and `Workers.RunPrefix` is the loop over the first URLs (ui/workers.py:83-105). They are described by `Workers.UrlFailureContinues`, `Workers.UrlSuccessContinues`, `Workers.UnexpectedErrorFails`, `Workers.CancelStops`, `Workers.StoppedPersists` and `Workers.DownloadWorker.Loop`.
- `Workers.RunSpec` is `run` (ui/workers.py:61-114), described by `Workers.EndsAt`, `Workers.CompletedSummaryAddsUp`, `Workers.CancelledBeforeStart`, `Workers.PartialFailureCompletes` and `Workers.DownloadWorker.Run`.

## Left out

- The Tk and Qt interfaces, the command line, the `on_progress` callbacks and the status signals are not modelled. Neither are the float progress percentages (workers.py:89). The constructors' `on_progress` defaults are not modelled either.
- Concurrency is not modelled. `run` is one sequential loop, and a `cancel()` from the interface thread is an input that says whether it has happened by the time URL `k` is checked.
- The network is not modelled:
  - yt-dlp (`extract_info`, `download`) is the `YtDlp` oracle;
  - spotipy (`track`, `playlist`, `next`, `album`) is the `Catalog` oracle;
  - the client construction after the credential check is not modelled.
  - The oracle answers are values. An error's text is `str(e)`.
- The ID3 tag library is not modelled. A read is the file's `videoIdTag`. The write of `save_mp3_metadata` is the oracle `tagWrites`, and its result is ignored as in the source.
- Only the files of the three scanned scopes are in `MusicTree`. A download into any other directory changes nothing a scan can see.
- The JSON format of the ledger file is not modelled. The load gives a parsed map or nothing. A failing save is the `saveFault` input.
- Ledger.DownloadCache.constructor: `_load` (cache.py:33-39) catches only `JSONDecodeError` and `IOError`. A file that is not valid UTF-8 raises `UnicodeDecodeError` out of the constructor, and a JSON value without a `"songs"` key is loaded and then raises `KeyError` on every later access. `StoredFile` can represent neither case.
- Ledger.DownloadCache.Get: `get` (cache.py:123) returns the live record dictionary, so a caller that changes it changes the ledger without a save. The model returns a value.
- Ledger.DownloadCache.Save: `saveFault` is fixed for the life of a `DownloadCache`. Either every save fails in the same way, or none does.
- The order of files in a directory (`glob`) is not modelled; the tree's sequences fix it. The same goes for `iterdir` and for the order of the ledger's keys.
- Directory creation (`ensure_directory`) is not modelled. An empty folder is one that no scan lists.
- Paths are strings joined with `/`. Which scanned directory a path is gets decided on its segments, with empty and `.` segments dropped and `..` resolved lexically. Absolute against relative paths, the working directory and symbolic links are not modelled.
- YouTube.RepeatReportsSamePath: the path a scan reports is the scan's own spelling of the directory (`music_dir / "singles"` and so on), and pathlib's rendering of a differently spelled output directory is not modelled. So the lemma requires the output directory to be spelled as the scan spells it; `DefaultDirsAreScanDirs` shows the default directories are.
- Library.TruncateText: the default `max_length=30` is not modelled; the caller passes the length.
- Spotify.ItemsRun: the contents of the results are stated item by item only for the stub fetch the handler is built with (Spotify.StubItemsRun, Spotify.StubPlaylistOutcomes). For any other fetch, `ItemStep` states one item at a time.
- A dictionary key present with the value `None` is modelled as a missing key.
- Library.Put: an empty sanitized title writes a file whose stem is the empty string, whereas Python's `Path` gives it the stem `.mp3`.
- A fetch that overwrites a tagged file with the same name, and then fails to tag it, leaves the new file untagged.
- Spotify track ids are taken as present in the album tracks. The `external_urls` key of a playlist track is taken as present too.
- Spotify.AlbumSpec: the computed name feeds only the progress message and the unused album directory. So `AlbumSpec` raises `IndexError` as the source does, but it keeps neither the name nor the directory. `AlbumName` states the name on its own.
- Spotify.SpotifyHandler.DownloadAlbum: the `total_tracks` and `tracks.total` keys of the progress messages are taken as present.
- Text.Strip: its contract does not state that every removed character is whitespace. It states only that the result is a slice whose ends are not whitespace.
- YouTube.DownloadSingleSpec: the `%` characters of a title are kept literally in the output template. yt-dlp's own expansion of the template is not modelled.
