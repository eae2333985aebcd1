/**
 * The library scanner of src/music_downloader/filesystem.py. The output
 * tree is a value: the subdirectories of `<music>/playlists/` in `iterdir`
 * order, and the `*.mp3` files of every scanned directory in `glob` order,
 * each file with its stem and what reading its `video_id` tag returns.
 * Scans are list constructions over that value; the loops of the source
 * are methods proved equal to the specification functions.
 */
module Library {
  import opened Wrappers
  import opened Text

  /** One `*.mp3` file: its stem and the result of `get_video_id_from_mp3` (`None` when absent or unreadable). */
  datatype Mp3File = Mp3File(stem: string, videoIdTag: Option<string>)

  /** A subdirectory of `<music>/playlists/` and its `*.mp3` files. */
  datatype Folder = Folder(name: string, files: seq<Mp3File>)

  /**
   * The three scanned scopes of the output tree. A missing directory is an
   * empty one: every scan treats the two alike.
   */
  datatype MusicTree = MusicTree(playlists: seq<Folder>, singles: seq<Mp3File>, rootFiles: seq<Mp3File>)

  /** Directory entries are unique: no two playlist folders share a name. */
  predicate ValidTree(t: MusicTree) {
    DistinctNames(t.playlists)
  }

  predicate DistinctNames(folders: seq<Folder>) {
    forall i, j :: 0 <= i < j < |folders| ==> folders[i].name != folders[j].name
  }

  /** Some folder of `folders` is called `name`. */
  predicate Named(folders: seq<Folder>, name: string) {
    exists i :: 0 <= i < |folders| && folders[i].name == name
  }

  /** `Path / name`, rendered with `str`. */
  function Join(dir: string, name: string): string {
    dir + "/" + name
  }

  function PlaylistsDir(root: string): string {
    Join(root, "playlists")
  }

  function PlaylistDir(root: string, name: string): string {
    Join(PlaylistsDir(root), name)
  }

  function SinglesDir(root: string): string {
    Join(root, "singles")
  }

  /** `file_path.name`. */
  function FileName(f: Mp3File): string {
    f.stem + ".mp3"
  }

  /** The dictionary `get_mp3_metadata` builds. */
  datatype Metadata = Metadata(
    title: string,
    artist: string,
    album: Option<string>,
    videoId: Option<string>,
    path: string,
    filename: string)

  /** A scanned song: the metadata plus the `playlist` and `id` keys the scanners add. */
  datatype Song = Song(meta: Metadata, playlist: Option<string>, id: Option<string>)

  /** The separator of the expected `"Artist - Title"` file name. */
  const ArtistTitleSeparator: string := " - "

  /** The stripped text before and after a separator found at `k`. */
  function AroundSeparator(stem: string, k: nat): (string, string)
    requires OccursAt(stem, ArtistTitleSeparator, k)
  {
    (Strip(stem[..k]), Strip(stem[k + |ArtistTitleSeparator|..]))
  }

  /**
   * The `(artist, title)` pair the file name yields: around the first
   * `" - "`, both stripped; without one, `"Unknown"` and the whole stem.
   */
  function SplitArtistTitle(stem: string): (r: (string, string))
    ensures !Contains(stem, ArtistTitleSeparator) ==> r == ("Unknown", stem)
    ensures forall k: nat :: FirstOccurrence(stem, ArtistTitleSeparator, k) ==> r == AroundSeparator(stem, k)
  {
    FindIsFirst(stem, ArtistTitleSeparator);
    match Find(stem, ArtistTitleSeparator)
    case None => ("Unknown", stem)
    case Some(k) => AroundSeparator(stem, k)
  }

  /**
   * `get_mp3_metadata`: title and artist come from the file name: around the
   * first `" - "`, both stripped; without one, the whole stem is the title and
   * the artist stays `"Unknown"`. Path and file name are always set, and the
   * `video_id` key always holds the tag's value (possibly `None`).
   */
  function Mp3Metadata(dir: string, f: Mp3File): (r: Metadata)
    ensures r.path == Join(dir, FileName(f)) && r.filename == FileName(f)
    ensures r.videoId == f.videoIdTag && r.album == None
    ensures (r.artist, r.title) == SplitArtistTitle(f.stem)
  {
    var (artist, title) := SplitArtistTitle(f.stem);
    Metadata(title, artist, None, f.videoIdTag, Join(dir, FileName(f)), FileName(f))
  }

  /**
   * One scanned song. `metadata.get('video_id', stem)` always finds the key,
   * so the id is the tag's value, never the stem.
   */
  function ScannedSong(dir: string, f: Mp3File, playlist: Option<string>): (s: Song)
    ensures s.id == f.videoIdTag && s.meta.videoId == f.videoIdTag
    ensures s.meta.path == Join(dir, FileName(f)) && s.playlist == playlist
  {
    var meta := Mp3Metadata(dir, f);
    Song(meta, playlist, meta.videoId)
  }

  /** The songs of the files of one directory, in `glob` order. */
  function SongsIn(dir: string, files: seq<Mp3File>, playlist: Option<string>): (r: seq<Song>)
    ensures |r| == |files|
    ensures forall i :: 0 <= i < |r| ==> r[i] == ScannedSong(dir, files[i], playlist)
  {
    seq(|files|, i requires 0 <= i < |files| => ScannedSong(dir, files[i], playlist))
  }

  /** The names of the folders holding at least one `*.mp3`, in `iterdir` order. */
  function NonEmptyNames(folders: seq<Folder>): (r: seq<string>)
    ensures forall n :: n in r <==> exists i :: 0 <= i < |folders| && folders[i].name == n && |folders[i].files| > 0
  {
    if folders == [] then []
    else
      var last := folders[|folders| - 1];
      NonEmptyNames(folders[..|folders| - 1]) + (if |last.files| > 0 then [last.name] else [])
  }

  /**
   * `scan_playlists`: the names of the subdirectories of `playlists/` that
   * hold at least one `*.mp3`, sorted.
   */
  function PlaylistNames(t: MusicTree): (r: seq<string>)
    ensures Sorted(r)
    ensures forall n :: n in r <==> exists i :: 0 <= i < |t.playlists| && t.playlists[i].name == n && |t.playlists[i].files| > 0
  {
    var names := NonEmptyNames(t.playlists);
    var r := Sort(names);
    assert forall n :: n in r <==> n in names by {
      forall n ensures n in r <==> n in names {
        assert n in r <==> n in multiset(r);
        assert n in names <==> n in multiset(names);
      }
    }
    r
  }

  /** `folders[i]` is the first folder called `name`. */
  predicate FirstNamed(folders: seq<Folder>, name: string, i: int) {
    0 <= i < |folders| && folders[i].name == name && forall j :: 0 <= j < i ==> folders[j].name != name
  }

  /** The files of the folder called `name`, none when there is no such folder. */
  function FolderFiles(folders: seq<Folder>, name: string): (r: seq<Mp3File>)
    ensures r != [] ==> exists i :: FirstNamed(folders, name, i) && folders[i].files == r
    ensures forall i :: FirstNamed(folders, name, i) ==> r == folders[i].files
  {
    if folders == [] then []
    else if folders[0].name == name then folders[0].files
    else
      var r := FolderFiles(folders[1..], name);
      assert forall i :: FirstNamed(folders, name, i) ==> FirstNamed(folders[1..], name, i - 1);
      assert forall i :: FirstNamed(folders[1..], name, i) ==> FirstNamed(folders, name, i + 1);
      r
  }

  /** `scan_songs_in_playlist`: the songs of `playlists/<name>/`, tagged with `name`. */
  function PlaylistSongs(root: string, t: MusicTree, name: string): seq<Song> {
    SongsIn(PlaylistDir(root, name), FolderFiles(t.playlists, name), Some(name))
  }

  /** The songs of the playlists `names`, playlist after playlist. */
  function PlaylistGroup(root: string, t: MusicTree, names: seq<string>): (r: seq<Song>)
    ensures forall i :: 0 <= i < |r| ==> r[i].playlist.Some? && r[i].playlist.value in names
  {
    if names == [] then []
    else
      var front := PlaylistGroup(root, t, names[..|names| - 1]);
      var last := PlaylistSongs(root, t, names[|names| - 1]);
      assert forall i :: 0 <= i < |front| ==> front[i].playlist.value in names;
      front + last
  }

  /**
   * `scan_all_songs`: the playlist songs in sorted playlist order, then the
   * `singles/` songs, then the songs directly in the root, without removing
   * duplicates; only playlist songs carry a playlist name.
   */
  function AllSongs(root: string, t: MusicTree): seq<Song> {
    PlaylistGroup(root, t, PlaylistNames(t)) + SongsIn(SinglesDir(root), t.singles, None) + SongsIn(root, t.rootFiles, None)
  }

  /** Every song's `id` is its `video_id`. */
  predicate IdsAreTags(songs: seq<Song>) {
    forall i :: 0 <= i < |songs| ==> songs[i].id == songs[i].meta.videoId
  }

  lemma IdsAreTagsConcat(a: seq<Song>, b: seq<Song>)
    requires IdsAreTags(a) && IdsAreTags(b)
    ensures IdsAreTags(a + b)
  {
  }

  lemma {:induction false} PlaylistGroupIdsAreTags(root: string, t: MusicTree, names: seq<string>)
    ensures IdsAreTags(PlaylistGroup(root, t, names))
  {
    if names != [] {
      PlaylistGroupIdsAreTags(root, t, names[..|names| - 1]);
      IdsAreTagsConcat(PlaylistGroup(root, t, names[..|names| - 1]), PlaylistSongs(root, t, names[|names| - 1]));
    }
  }

  /**
   * The `id` every scan assigns is the `video_id` tag (possibly `None`),
   * never the file stem: `metadata.get('video_id', stem)` always finds the key.
   */
  lemma AllSongsIdsAreTags(root: string, t: MusicTree)
    ensures IdsAreTags(AllSongs(root, t))
  {
    var group := PlaylistGroup(root, t, PlaylistNames(t));
    var singles := SongsIn(SinglesDir(root), t.singles, None);
    var loose := SongsIn(root, t.rootFiles, None);
    PlaylistGroupIdsAreTags(root, t, PlaylistNames(t));
    IdsAreTagsConcat(group, singles);
    IdsAreTagsConcat(group + singles, loose);
  }

  /** The songs of the first `m` playlists come first, in the same order. */
  lemma {:induction false} PlaylistGroupPrefix(root: string, t: MusicTree, names: seq<string>, m: nat)
    requires m <= |names|
    ensures PlaylistGroup(root, t, names[..m]) <= PlaylistGroup(root, t, names)
    decreases |names|
  {
    if m < |names| {
      var front := names[..|names| - 1];
      PlaylistGroupPrefix(root, t, front, m);
      assert front[..m] == names[..m];
    } else {
      assert names[..m] == names;
    }
  }

  /**
   * Layout of `scan_all_songs`: `|g|` playlist songs, each naming a scanned
   * playlist, then one song per `singles/` file and one per root file, in
   * `glob` order, both without a playlist.
   */
  lemma AllSongsLayout(root: string, t: MusicTree)
    ensures var g := PlaylistGroup(root, t, PlaylistNames(t));
      var r := AllSongs(root, t);
      && |r| == |g| + |t.singles| + |t.rootFiles|
      && (forall i :: 0 <= i < |g| ==> r[i].playlist.Some? && r[i].playlist.value in PlaylistNames(t))
      && (forall k :: 0 <= k < |t.singles| ==> r[|g| + k] == ScannedSong(SinglesDir(root), t.singles[k], None))
      && (forall k :: 0 <= k < |t.rootFiles| ==> r[|g| + |t.singles| + k] == ScannedSong(root, t.rootFiles[k], None))
  {
    var g := PlaylistGroup(root, t, PlaylistNames(t));
    var singles := SongsIn(SinglesDir(root), t.singles, None);
    var loose := SongsIn(root, t.rootFiles, None);
    assert AllSongs(root, t) == g + singles + loose;
    ThreePartIndex(g, singles, loose);
  }

  /** Where each part of `a + b + c` sits. */
  lemma ThreePartIndex<T>(a: seq<T>, b: seq<T>, c: seq<T>)
    ensures forall i :: 0 <= i < |a| ==> (a + b + c)[i] == a[i]
    ensures forall k :: 0 <= k < |b| ==> (a + b + c)[|a| + k] == b[k]
    ensures forall k :: 0 <= k < |c| ==> (a + b + c)[|a| + |b| + k] == c[k]
  {
  }

  /** `files[k]` carries the tag `v`. */
  predicate FileTaggedAt(files: seq<Mp3File>, v: string, k: int) {
    0 <= k < |files| && files[k].videoIdTag == Some(v)
  }

  ghost predicate FilesHaveTag(files: seq<Mp3File>, v: string) {
    exists k :: FileTaggedAt(files, v, k)
  }

  /** The `i`-th playlist folder holds a file tagged `v`. */
  ghost predicate FolderTagged(t: MusicTree, i: int, v: string) {
    0 <= i < |t.playlists| && FilesHaveTag(t.playlists[i].files, v)
  }

  /** Some `*.mp3` file of a scanned directory carries the tag `v`. */
  ghost predicate TreeHasTag(t: MusicTree, v: string) {
    (exists i :: FolderTagged(t, i, v)) || FilesHaveTag(t.singles, v) || FilesHaveTag(t.rootFiles, v)
  }

  /** `songs[i]` has the `video_id` `v`. */
  predicate TaggedAt(songs: seq<Song>, v: string, i: int) {
    0 <= i < |songs| && songs[i].meta.videoId == Some(v)
  }

  ghost predicate SongsHaveTag(songs: seq<Song>, v: string) {
    exists i :: TaggedAt(songs, v, i)
  }

  /** `songs[i]` is the first song with the `video_id` `v`. */
  predicate FirstTaggedAt(songs: seq<Song>, v: string, i: int) {
    TaggedAt(songs, v, i) && forall j :: 0 <= j < i ==> !TaggedAt(songs, v, j)
  }

  /** The first index at or after `from` whose song has the `video_id` `v`. */
  function FirstTaggedFrom(songs: seq<Song>, v: string, from: nat): (r: Option<nat>)
    requires from <= |songs|
    ensures r.Some? ==> from <= r.value && TaggedAt(songs, v, r.value)
    ensures r.Some? ==> forall j :: from <= j < r.value ==> !TaggedAt(songs, v, j)
    ensures r.None? ==> forall j :: from <= j < |songs| ==> !TaggedAt(songs, v, j)
    decreases |songs| - from
  {
    if from == |songs| then None
    else if songs[from].meta.videoId == Some(v) then Some(from)
    else FirstTaggedFrom(songs, v, from + 1)
  }

  /**
   * `find_song_by_video_id`: the first song of the full scan whose
   * `video_id` is `v`; `None` exactly when no scanned song has it.
   */
  function FindSongByVideoId(root: string, t: MusicTree, v: string): (r: Option<Song>)
    ensures r.None? <==> !SongsHaveTag(AllSongs(root, t), v)
    ensures r.Some? ==> exists i :: FirstTaggedAt(AllSongs(root, t), v, i) && r.value == AllSongs(root, t)[i]
  {
    var songs := AllSongs(root, t);
    match FirstTaggedFrom(songs, v, 0)
    case None => None
    case Some(i) =>
      assert FirstTaggedAt(songs, v, i);
      Some(songs[i])
  }

  /** `is_song_downloaded`: the lookup found a song. */
  predicate IsSongDownloaded(root: string, t: MusicTree, v: string)
    ensures IsSongDownloaded(root, t, v) <==> SongsHaveTag(AllSongs(root, t), v)
  {
    FindSongByVideoId(root, t, v).Some?
  }

  lemma SongsInHaveTag(dir: string, files: seq<Mp3File>, playlist: Option<string>, v: string)
    ensures SongsHaveTag(SongsIn(dir, files, playlist), v) <==> FilesHaveTag(files, v)
  {
    var r := SongsIn(dir, files, playlist);
    if SongsHaveTag(r, v) {
      var i :| TaggedAt(r, v, i);
      assert FileTaggedAt(files, v, i);
    }
    if FilesHaveTag(files, v) {
      var k :| FileTaggedAt(files, v, k);
      assert TaggedAt(r, v, k);
    }
  }

  lemma ConcatHasTag(a: seq<Song>, b: seq<Song>, v: string)
    ensures SongsHaveTag(a + b, v) <==> SongsHaveTag(a, v) || SongsHaveTag(b, v)
  {
    if SongsHaveTag(a + b, v) {
      var i :| TaggedAt(a + b, v, i);
      if i < |a| {
        assert TaggedAt(a, v, i);
      } else {
        assert TaggedAt(b, v, i - |a|);
      }
    }
    if SongsHaveTag(a, v) {
      var i :| TaggedAt(a, v, i);
      assert TaggedAt(a + b, v, i);
    }
    if SongsHaveTag(b, v) {
      var i :| TaggedAt(b, v, i);
      assert TaggedAt(a + b, v, |a| + i);
    }
  }

  /** The folder called `n` holds a file tagged `v`. */
  ghost predicate NamedFolderTagged(t: MusicTree, n: string, v: string) {
    FilesHaveTag(FolderFiles(t.playlists, n), v)
  }

  /** One of the folders called by a name in `names` holds a file tagged `v`. */
  ghost predicate AnyFolderTagged(t: MusicTree, names: seq<string>, v: string) {
    exists n :: n in names && NamedFolderTagged(t, n, v)
  }

  lemma AnyFolderTaggedSnoc(t: MusicTree, front: seq<string>, last: string, v: string)
    ensures AnyFolderTagged(t, front + [last], v) <==> AnyFolderTagged(t, front, v) || NamedFolderTagged(t, last, v)
  {
    if AnyFolderTagged(t, front + [last], v) {
      var n :| n in front + [last] && NamedFolderTagged(t, n, v);
      if n != last {
        assert n in front;
      }
    }
    if AnyFolderTagged(t, front, v) {
      var n :| n in front && NamedFolderTagged(t, n, v);
      assert n in front + [last];
    }
    if NamedFolderTagged(t, last, v) {
      assert last in front + [last];
    }
  }

  lemma {:induction false} PlaylistGroupHasTag(root: string, t: MusicTree, names: seq<string>, v: string)
    ensures SongsHaveTag(PlaylistGroup(root, t, names), v) <==> AnyFolderTagged(t, names, v)
  {
    if names == [] {
      assert !AnyFolderTagged(t, names, v);
    } else {
      var front := names[..|names| - 1];
      var last := names[|names| - 1];
      assert names == front + [last];
      PlaylistGroupHasTag(root, t, front, v);
      ConcatHasTag(PlaylistGroup(root, t, front), PlaylistSongs(root, t, last), v);
      SongsInHaveTag(PlaylistDir(root, last), FolderFiles(t.playlists, last), Some(last), v);
      AnyFolderTaggedSnoc(t, front, last, v);
    }
  }

  /**
   * The scanned playlists hold a file tagged `v` exactly when some playlist
   * folder does: a folder without `*.mp3` files holds no tagged file.
   */
  lemma PlaylistNamesHaveTag(t: MusicTree, v: string)
    requires ValidTree(t)
    ensures AnyFolderTagged(t, PlaylistNames(t), v) <==> exists i :: FolderTagged(t, i, v)
  {
    if AnyFolderTagged(t, PlaylistNames(t), v) {
      var n :| n in PlaylistNames(t) && NamedFolderTagged(t, n, v);
      var files := FolderFiles(t.playlists, n);
      var k :| FileTaggedAt(files, v, k);
      var i :| FirstNamed(t.playlists, n, i) && t.playlists[i].files == files;
      assert FolderTagged(t, i, v);
    }
    if exists i :: FolderTagged(t, i, v) {
      var i :| FolderTagged(t, i, v);
      var n := t.playlists[i].name;
      assert FirstNamed(t.playlists, n, i);
      var k :| FileTaggedAt(t.playlists[i].files, v, k);
      assert n in PlaylistNames(t);
      assert NamedFolderTagged(t, n, v);
    }
  }

  /**
   * `is_song_downloaded` looks at the tags on disk and nothing else: it holds
   * exactly when a `*.mp3` file of a playlist folder, of `singles/` or of the
   * root carries the `video_id` tag `v`.
   */
  lemma IsSongDownloadedIffTagged(root: string, t: MusicTree, v: string)
    requires ValidTree(t)
    ensures IsSongDownloaded(root, t, v) <==> TreeHasTag(t, v)
  {
    var group := PlaylistGroup(root, t, PlaylistNames(t));
    var singles := SongsIn(SinglesDir(root), t.singles, None);
    var loose := SongsIn(root, t.rootFiles, None);
    ConcatHasTag(group, singles, v);
    ConcatHasTag(group + singles, loose, v);
    PlaylistGroupHasTag(root, t, PlaylistNames(t), v);
    PlaylistNamesHaveTag(t, v);
    SongsInHaveTag(SinglesDir(root), t.singles, None, v);
    SongsInHaveTag(root, t.rootFiles, None, v);
  }

  /** `get_playlist_stats`: each scanned playlist mapped to the number of its songs. */
  function PlaylistStats(t: MusicTree): map<string, int> {
    map n | n in PlaylistNames(t) :: |FolderFiles(t.playlists, n)|
  }

  /**
   * The statistics count what the scan yields: each scanned playlist is a
   * key, mapped to the number of songs `scan_songs_in_playlist` returns for it.
   */
  lemma PlaylistStatsCountSongs(root: string, t: MusicTree)
    ensures forall n :: n in PlaylistStats(t) <==> n in PlaylistNames(t)
    ensures forall n :: n in PlaylistStats(t) ==> PlaylistStats(t)[n] == |PlaylistSongs(root, t, n)|
  {
  }

  /**
   * In a tree with unique folder names, the keys are the names of the folders
   * holding `*.mp3` files, each mapped to the number of those files.
   */
  lemma PlaylistStatsCountFiles(t: MusicTree, i: int)
    requires ValidTree(t) && 0 <= i < |t.playlists|
    ensures t.playlists[i].name in PlaylistStats(t) <==> |t.playlists[i].files| > 0
    ensures t.playlists[i].name in PlaylistStats(t) ==> PlaylistStats(t)[t.playlists[i].name] == |t.playlists[i].files|
  {
    assert FirstNamed(t.playlists, t.playlists[i].name, i);
    if t.playlists[i].name in PlaylistNames(t) {
      var j :| 0 <= j < |t.playlists| && t.playlists[j].name == t.playlists[i].name && |t.playlists[j].files| > 0;
      assert j == i;
    }
  }

  /**
   * `truncate_text`: the text unchanged when it fits; otherwise the slice
   * `text[:max_length - 3]` (Python's negative index counts from the end
   * and bottoms out at the empty string) followed by `"..."`.
   */
  function TruncateText(text: string, maxLength: int): (r: string)
    ensures |text| <= maxLength ==> r == text
    ensures |text| > maxLength ==> |r| >= 3 && r[|r| - 3..] == "..." && r[..|r| - 3] <= text
    ensures |text| > maxLength && maxLength >= 3 ==> |r| == maxLength && r == text[..maxLength - 3] + "..."
    ensures |text| > maxLength && maxLength < 3 ==> |r| == 3 + (if |text| + maxLength - 3 > 0 then |text| + maxLength - 3 else 0)
  {
    if |text| <= maxLength then text
    else
      var stop := maxLength - 3;
      var cut := if stop >= 0 then stop else if |text| + stop > 0 then |text| + stop else 0;
      text[..cut] + "..."
  }

  /** `scan_playlists` as written: a loop over the folders, then `sorted`. */
  method ScanPlaylists(t: MusicTree) returns (r: seq<string>)
    ensures r == PlaylistNames(t)
  {
    var names: seq<string> := [];
    var k := 0;
    while k < |t.playlists|
      invariant 0 <= k <= |t.playlists|
      invariant names == NonEmptyNames(t.playlists[..k])
    {
      var item := t.playlists[k];
      assert t.playlists[..k + 1][..k] == t.playlists[..k];
      if |item.files| > 0 {
        names := names + [item.name];
      }
      k := k + 1;
    }
    assert t.playlists[..k] == t.playlists;
    r := Sort(names);
  }

  /** The loop of `scan_songs_in_playlist` over one directory's files. */
  method ScanFiles(dir: string, files: seq<Mp3File>, playlist: Option<string>) returns (songs: seq<Song>)
    ensures songs == SongsIn(dir, files, playlist)
  {
    songs := [];
    var k := 0;
    while k < |files|
      invariant 0 <= k <= |files|
      invariant songs == SongsIn(dir, files[..k], playlist)
    {
      var song := ScannedSong(dir, files[k], playlist);
      SongsInNext(dir, files, playlist, k, songs, song);
      songs := songs + [song];
      k := k + 1;
    }
    assert files[..k] == files;
  }

  lemma SongsInNext(dir: string, files: seq<Mp3File>, playlist: Option<string>, k: nat, songs: seq<Song>, song: Song)
    requires k < |files| && songs == SongsIn(dir, files[..k], playlist) && song == ScannedSong(dir, files[k], playlist)
    ensures SongsIn(dir, files[..k + 1], playlist) == songs + [song]
  {
    var next := SongsIn(dir, files[..k + 1], playlist);
    assert forall i :: 0 <= i < k ==> next[i] == songs[i];
  }

  /** `scan_songs_in_playlist`: no folder yields no songs. */
  method ScanSongsInPlaylist(root: string, t: MusicTree, name: string) returns (songs: seq<Song>)
    ensures songs == PlaylistSongs(root, t, name)
  {
    songs := ScanFiles(PlaylistDir(root, name), FolderFiles(t.playlists, name), Some(name));
  }

  /** The first loop of `scan_all_songs`: the songs of each playlist in `names`, in order. */
  method ScanPlaylistGroup(root: string, t: MusicTree, names: seq<string>) returns (all: seq<Song>)
    ensures all == PlaylistGroup(root, t, names)
  {
    all := [];
    var k := 0;
    while k < |names|
      invariant 0 <= k <= |names|
      invariant all == PlaylistGroup(root, t, names[..k])
    {
      var songs := ScanSongsInPlaylist(root, t, names[k]);
      assert names[..k + 1][..k] == names[..k];
      all := all + songs;
      k := k + 1;
    }
    assert names[..k] == names;
  }

  /** `scan_all_songs`: playlist by playlist, then `singles/`, then the root. */
  method ScanAllSongs(root: string, t: MusicTree) returns (all: seq<Song>)
    ensures all == AllSongs(root, t)
  {
    var names := ScanPlaylists(t);
    all := ScanPlaylistGroup(root, t, names);
    var singles := ScanFiles(SinglesDir(root), t.singles, None);
    all := all + singles;
    var loose := ScanFiles(root, t.rootFiles, None);
    all := all + loose;
  }

  /** The song count of each playlist in `names`, one `scan_songs_in_playlist` per name. */
  method CountPlaylistSongs(root: string, t: MusicTree, names: seq<string>) returns (stats: map<string, int>)
    ensures stats == map n | n in names :: |FolderFiles(t.playlists, n)|
  {
    stats := map[];
    var k := 0;
    while k < |names|
      invariant 0 <= k <= |names|
      invariant stats == map n | n in names[..k] :: |FolderFiles(t.playlists, n)|
    {
      var songs := ScanSongsInPlaylist(root, t, names[k]);
      StatsNext(t, names, k, stats);
      stats := stats[names[k] := |songs|];
      k := k + 1;
    }
    assert names[..k] == names;
  }

  lemma StatsNext(t: MusicTree, names: seq<string>, k: nat, stats: map<string, int>)
    requires k < |names| && stats == map n | n in names[..k] :: |FolderFiles(t.playlists, n)|
    ensures stats[names[k] := |FolderFiles(t.playlists, names[k])|] == map n | n in names[..k + 1] :: |FolderFiles(t.playlists, n)|
  {
    assert names[..k + 1] == names[..k] + [names[k]];
  }

  /** `get_playlist_stats`: the scanned playlists, each mapped to its song count. */
  method GetPlaylistStats(root: string, t: MusicTree) returns (stats: map<string, int>)
    ensures stats == PlaylistStats(t)
  {
    var names := ScanPlaylists(t);
    stats := CountPlaylistSongs(root, t, names);
  }

  // Writing into the tree: where a downloaded file lands.

  /** Which scanned scope, if any, a directory is. */
  datatype Scope = InSingles | InRoot | InPlaylist(name: string) | Unscanned

  /** A name that denotes one immediate subdirectory of `playlists/`. */
  predicate IsPlainName(name: string) {
    name != "" && name != "." && name != ".." && '/' !in name
  }

  /** The segments of a path between its slashes, empty ones included (`p.split("/")`). */
  function Segments(p: string): (r: seq<string>)
    ensures |r| >= 1
    decreases |p|
  {
    if p == [] then [""]
    else
      var front := Segments(p[..|p| - 1]);
      var c := p[|p| - 1];
      if c == '/' then front + [""]
      else front[..|front| - 1] + [front[|front| - 1] + [c]]
  }

  /**
   * The directory a sequence of segments names, as the file system
   * resolves it: an empty or `.` segment names nothing (pathlib drops
   * these, a trailing slash with them), and `..` climbs out of the
   * segment before it.
   */
  function Resolve(segs: seq<string>): seq<string>
    decreases |segs|
  {
    if segs == [] then []
    else
      var front := Resolve(segs[..|segs| - 1]);
      var last := segs[|segs| - 1];
      if last == "" || last == "." then front
      else if last == ".." && front != [] && front[|front| - 1] != ".." then front[..|front| - 1]
      else front + [last]
  }

  /** The resolved segments of a path. */
  function Resolved(p: string): seq<string> {
    Resolve(Segments(p))
  }

  /**
   * The scanned scope the directory `dir` is for the music directory
   * `root`, decided on resolved paths: `root` itself, `root/singles`, a
   * direct subdirectory of `root/playlists`, or none of them.
   */
  function ScopeOf(root: string, dir: string): Scope {
    var r := Resolved(root);
    var d := Resolved(dir);
    if d == r then InRoot
    else if d == r + ["singles"] then InSingles
    else if |d| == |r| + 2 && d[..|r|] == r && d[|r|] == "playlists" then InPlaylist(d[|r| + 1])
    else Unscanned
  }

  /** Splitting one more character, as `Segments` does from the back. */
  lemma SegmentsSnoc(p: string, c: char)
    ensures Segments(p + [c]) ==
      var front := Segments(p);
      if c == '/' then front + [""] else front[..|front| - 1] + [front[|front| - 1] + [c]]
  {
    assert (p + [c])[..|p|] == p;
  }

  /** Splitting `a + "/" + b` at its slashes splits `a` and `b` apart. */
  lemma {:induction false} SegmentsJoin(a: string, b: string)
    ensures Segments(Join(a, b)) == Segments(a) + Segments(b)
    decreases |b|
  {
    if b == [] {
      assert Join(a, b) == a + ['/'];
      SegmentsSnoc(a, '/');
      SegmentsSnoc([], '/');
    } else {
      var b', c := b[..|b| - 1], b[|b| - 1];
      SegmentsJoin(a, b');
      assert Join(a, b) == Join(a, b') + [c];
      assert b == b' + [c];
      SegmentsSnoc(Join(a, b'), c);
      SegmentsSnoc(b', c);
      if c == '/' {
        assert (Segments(a) + Segments(b')) + [""] == Segments(a) + (Segments(b') + [""]);
      } else {
        ExtendLast(Segments(a), Segments(b'), c);
      }
    }
  }

  /** Appending to the last segment of `xs + ys` appends to the last segment of `ys`. */
  lemma ExtendLast(xs: seq<string>, ys: seq<string>, c: char)
    requires |ys| >= 1
    ensures var zs := xs + ys;
      zs[..|zs| - 1] + [zs[|zs| - 1] + [c]] == xs + (ys[..|ys| - 1] + [ys[|ys| - 1] + [c]])
  {
    var zs := xs + ys;
    assert zs[..|zs| - 1] == xs + ys[..|ys| - 1];
  }

  /** A name without a slash is one segment. */
  lemma {:induction false} SegmentsOfName(n: string)
    requires '/' !in n
    ensures Segments(n) == [n]
    decreases |n|
  {
    if n != [] {
      var n', c := n[..|n| - 1], n[|n| - 1];
      SegmentsOfName(n');
      assert n == n' + [c];
      SegmentsSnoc(n', c);
    }
  }

  /** Resolving one more segment, as `Resolve` does from the back. */
  lemma ResolveSnoc(segs: seq<string>, x: string)
    ensures Resolve(segs + [x]) ==
      var front := Resolve(segs);
      if x == "" || x == "." then front
      else if x == ".." && front != [] && front[|front| - 1] != ".." then front[..|front| - 1]
      else front + [x]
  {
    assert (segs + [x])[..|segs|] == segs;
  }

  /** `music_dir / "singles"`, the default output directory of a single video. */
  lemma SinglesDirScope(root: string)
    ensures ScopeOf(root, SinglesDir(root)) == InSingles
  {
    SegmentsJoinName(root, "singles");
    ResolveSnoc(Segments(root), "singles");
    ScopeOfSingles(root, SinglesDir(root));
  }

  /** The music directory itself is the root scope. */
  lemma RootScope(root: string)
    ensures ScopeOf(root, root) == InRoot
  {
  }

  /** `music_dir / "playlists" / name` is the playlist folder `name` exactly when `name` is a plain name. */
  lemma PlaylistDirScope(root: string, name: string)
    requires IsPlainName(name)
    ensures ScopeOf(root, PlaylistDir(root, name)) == InPlaylist(name)
  {
    PlaylistDirResolved(root, name);
    ScopeOfPlaylist(root, PlaylistDir(root, name), name);
  }

  lemma PlaylistDirResolved(root: string, name: string)
    requires IsPlainName(name)
    ensures Resolved(PlaylistDir(root, name)) == Resolved(root) + ["playlists", name]
  {
    PlaylistDirSegments(root, name);
    ResolvePlainPair(Segments(root), "playlists", name);
  }

  lemma PlaylistDirSegments(root: string, name: string)
    requires '/' !in name
    ensures Segments(PlaylistDir(root, name)) == Segments(root) + ["playlists", name]
  {
    SegmentsJoinName(root, "playlists");
    SegmentsJoinName(PlaylistsDir(root), name);
  }

  /** `dir / name` for a name without a slash adds one segment. */
  lemma SegmentsJoinName(dir: string, name: string)
    requires '/' !in name
    ensures Segments(Join(dir, name)) == Segments(dir) + [name]
  {
    SegmentsJoin(dir, name);
    SegmentsOfName(name);
  }

  /** Two plain segments resolve to themselves. */
  lemma ResolvePlainPair(segs: seq<string>, a: string, b: string)
    requires IsPlainName(a) && IsPlainName(b)
    ensures Resolve(segs + [a, b]) == Resolve(segs) + [a, b]
  {
    ResolveSnoc(segs, a);
    assert segs + [a, b] == (segs + [a]) + [b];
    ResolveSnoc(segs + [a], b);
  }

  lemma ScopeOfPlaylist(root: string, dir: string, name: string)
    requires Resolved(dir) == Resolved(root) + ["playlists", name]
    ensures ScopeOf(root, dir) == InPlaylist(name)
  {
    var rr, d := Resolved(root), Resolved(dir);
    assert |d| == |rr| + 2 && d[..|rr|] == rr && d[|rr|] == "playlists" && d[|rr| + 1] == name;
    assert d != rr && d != rr + ["singles"];
  }

  /** The segments of `music_dir / "playlists" / name`, whatever `name` is. */
  lemma PlaylistDirSegmentsOf(root: string, name: string)
    ensures Segments(PlaylistDir(root, name)) == Segments(root) + ["playlists"] + Segments(name)
  {
    SegmentsJoinName(root, "playlists");
    SegmentsJoin(PlaylistsDir(root), name);
  }

  /** The segments of a two-part playlist name `x/y`. */
  lemma PlaylistDirPair(root: string, x: string, y: string)
    requires '/' !in x && '/' !in y
    ensures Resolved(PlaylistDir(root, Join(x, y))) == Resolve(Segments(root) + ["playlists", x, y])
  {
    PlaylistDirSegmentsOf(root, Join(x, y));
    SegmentsOfPair(x, y);
    var r := Segments(root);
    assert r + ["playlists"] + [x, y] == r + ["playlists", x, y];
  }

  lemma SegmentsOfPair(x: string, y: string)
    requires '/' !in x && '/' !in y
    ensures Segments(Join(x, y)) == [x, y]
  {
    SegmentsJoin(x, y);
    SegmentsOfName(x);
    SegmentsOfName(y);
  }

  lemma ResolveTrailingEmpty(xs: seq<string>, a: string, b: string)
    requires IsPlainName(a) && IsPlainName(b)
    ensures Resolve(xs + [a, b, ""]) == Resolve(xs) + [a, b]
  {
    assert xs + [a, b, ""] == (xs + [a, b]) + [""];
    ResolveSnoc(xs + [a, b], "");
    ResolvePlainPair(xs, a, b);
  }

  lemma ResolveDotMiddle(xs: seq<string>, a: string, b: string)
    requires IsPlainName(a) && IsPlainName(b)
    ensures Resolve(xs + [a, ".", b]) == Resolve(xs) + [a, b]
  {
    assert xs + [a, ".", b] == (xs + [a, "."]) + [b];
    ResolveSnoc(xs + [a, "."], b);
    assert xs + [a, "."] == (xs + [a]) + ["."];
    ResolveSnoc(xs + [a], ".");
    ResolveSnoc(xs, a);
  }

  lemma ResolveDotDotMiddle(xs: seq<string>, a: string, b: string)
    requires IsPlainName(a) && IsPlainName(b)
    ensures Resolve(xs + [a, "..", b]) == Resolve(xs) + [b]
  {
    assert xs + [a, "..", b] == (xs + [a, ".."]) + [b];
    ResolveSnoc(xs + [a, ".."], b);
    assert xs + [a, ".."] == (xs + [a]) + [".."];
    ResolveSnoc(xs + [a], "..");
    ResolveSnoc(xs, a);
    var front := Resolve(xs) + [a];
    assert front[..|front| - 1] == Resolve(xs);
  }

  /** A trailing slash on a playlist name (`"foo/"`) is dropped, as pathlib drops it. */
  lemma TrailingSlashName(root: string, name: string)
    requires IsPlainName(name)
    ensures ScopeOf(root, PlaylistDir(root, Join(name, ""))) == InPlaylist(name)
  {
    PlaylistDirPair(root, name, "");
    ResolveTrailingEmpty(Segments(root), "playlists", name);
    ScopeOfPlaylist(root, PlaylistDir(root, Join(name, "")), name);
  }

  /** A leading `./` on a playlist name (`"./foo"`) is dropped, as pathlib drops it. */
  lemma DotSlashName(root: string, name: string)
    requires IsPlainName(name)
    ensures ScopeOf(root, PlaylistDir(root, Join(".", name))) == InPlaylist(name)
  {
    PlaylistDirPair(root, ".", name);
    ResolveDotMiddle(Segments(root), "playlists", name);
    ScopeOfPlaylist(root, PlaylistDir(root, Join(".", name)), name);
  }

  /**
   * A playlist named `"../" + name` leaves the playlists directory: it is the
   * singles directory when `name` is `singles`, and a folder no scan looks
   * at otherwise.
   */
  lemma DotDotName(root: string, name: string)
    requires IsPlainName(name)
    ensures ScopeOf(root, PlaylistDir(root, Join("..", name))) ==
      if name == "singles" then InSingles else Unscanned
  {
    PlaylistDirPair(root, "..", name);
    ResolveDotDotMiddle(Segments(root), "playlists", name);
    ScopeOfSibling(root, PlaylistDir(root, Join("..", name)), name);
  }

  /** A directory one segment below the music directory. */
  lemma ScopeOfSibling(root: string, dir: string, name: string)
    requires Resolved(dir) == Resolved(root) + [name]
    ensures ScopeOf(root, dir) == if name == "singles" then InSingles else Unscanned
  {
    var r := Resolved(root);
    assert |Resolved(dir)| == |r| + 1;
    if name != "singles" {
      assert Resolved(dir)[|r|] != (r + ["singles"])[|r|];
    }
  }

  lemma ScopeOfSingles(root: string, dir: string)
    requires Resolved(dir) == Resolved(root) + ["singles"]
    ensures ScopeOf(root, dir) == InSingles
  {
    assert Resolved(dir) != Resolved(root);
  }

  /** No two files of a directory share a name, as on a real file system. */
  predicate UniqueStems(files: seq<Mp3File>) {
    forall i, j :: 0 <= i < j < |files| ==> files[i].stem != files[j].stem
  }

  /**
   * Writing `f` into a directory: it replaces the file with the same name, or
   * is added last. In a directory whose names are unique, `f` is afterwards
   * the only file of its name and the names stay unique.
   */
  function Put(files: seq<Mp3File>, f: Mp3File): (r: seq<Mp3File>)
    ensures f in r
    ensures forall g :: g in r ==> g == f || g in files
    ensures forall g :: g in files && g.stem != f.stem ==> g in r
    ensures UniqueStems(files) ==>
      UniqueStems(r) && forall g :: g in r && g.stem == f.stem ==> g == f
  {
    if files == [] then [f]
    else if files[0].stem == f.stem then
      UniqueTail(files);
      UniqueCons(f, files[1..]);
      [f] + files[1..]
    else
      var rest := Put(files[1..], f);
      UniqueTail(files);
      UniqueCons(files[0], rest);
      [files[0]] + rest
  }

  /** In a uniquely named directory, the head's name is nowhere in the tail. */
  lemma UniqueTail(files: seq<Mp3File>)
    requires files != []
    ensures UniqueStems(files) ==>
      UniqueStems(files[1..]) && forall g :: g in files[1..] ==> g.stem != files[0].stem
  {
    if UniqueStems(files) {
      forall g | g in files[1..] ensures g.stem != files[0].stem {
        var k :| 0 <= k < |files[1..]| && files[1..][k] == g;
        assert files[k + 1] == g;
      }
    }
  }

  /** Prepending a file whose name is nowhere in a uniquely named tail. */
  lemma UniqueCons(x: Mp3File, rest: seq<Mp3File>)
    ensures UniqueStems(rest) && (forall g :: g in rest ==> g.stem != x.stem) ==>
      UniqueStems([x] + rest)
  {
    if UniqueStems(rest) && (forall g :: g in rest ==> g.stem != x.stem) {
      forall i, j | 0 <= i < j < |[x] + rest|
        ensures ([x] + rest)[i].stem != ([x] + rest)[j].stem
      {
        if i == 0 {
          assert rest[j - 1] in rest;
        } else {
          assert ([x] + rest)[i] == rest[i - 1] && ([x] + rest)[j] == rest[j - 1];
        }
      }
    }
  }

  /** Writing `f` into the playlist folder `name`, creating the folder when there is none. */
  function PutInFolder(folders: seq<Folder>, name: string, f: Mp3File): seq<Folder> {
    if folders == [] then [Folder(name, [f])]
    else if folders[0].name == name then [Folder(name, Put(folders[0].files, f))] + folders[1..]
    else [folders[0]] + PutInFolder(folders[1..], name, f)
  }

  /** The `i`-th folder is called `name` and holds `f`. */
  predicate HoldsAt(folders: seq<Folder>, name: string, f: Mp3File, i: int)
    requires 0 <= i < |folders|
  {
    folders[i].name == name && f in folders[i].files
  }

  lemma NamedCons(x: Folder, rest: seq<Folder>)
    ensures forall n :: Named([x] + rest, n) <==> n == x.name || Named(rest, n)
  {
    var r := [x] + rest;
    forall n | Named(r, n) && n != x.name ensures Named(rest, n) {
      var i :| 0 <= i < |r| && r[i].name == n;
      assert rest[i - 1] == r[i];
    }
    forall n | Named(rest, n) ensures Named(r, n) {
      var i :| 0 <= i < |rest| && rest[i].name == n;
      assert r[i + 1] == rest[i];
    }
    assert r[0] == x;
  }

  /**
   * Writing into a playlist folder adds exactly the name `name` to the
   * folder names, puts `f` into a folder of that name, and keeps the names
   * unique.
   */
  lemma {:induction false} PutInFolderNames(folders: seq<Folder>, name: string, f: Mp3File)
    ensures forall n :: Named(PutInFolder(folders, name, f), n) <==> n == name || Named(folders, n)
    ensures exists i :: 0 <= i < |PutInFolder(folders, name, f)| && HoldsAt(PutInFolder(folders, name, f), name, f, i)
    decreases |folders|
  {
    var r := PutInFolder(folders, name, f);
    if folders == [] {
      assert HoldsAt(r, name, f, 0);
      NamedCons(r[0], []);
    } else {
      assert folders == [folders[0]] + folders[1..];
      NamedCons(folders[0], folders[1..]);
      if folders[0].name == name {
        assert HoldsAt(r, name, f, 0);
        NamedCons(r[0], folders[1..]);
      } else {
        var rest := PutInFolder(folders[1..], name, f);
        PutInFolderNames(folders[1..], name, f);
        NamedCons(folders[0], rest);
        var k :| 0 <= k < |rest| && HoldsAt(rest, name, f, k);
        assert r[k + 1] == rest[k];
        assert HoldsAt(r, name, f, k + 1);
      }
    }
  }

  /** Writing into a playlist folder keeps folder names unique. */
  lemma {:induction false} PutInFolderDistinct(folders: seq<Folder>, name: string, f: Mp3File)
    requires DistinctNames(folders)
    ensures DistinctNames(PutInFolder(folders, name, f))
    decreases |folders|
  {
    var r := PutInFolder(folders, name, f);
    if folders == [] {
    } else if folders[0].name == name {
      assert forall i :: 0 <= i < |r| ==> r[i].name == folders[i].name;
    } else {
      var rest := PutInFolder(folders[1..], name, f);
      assert DistinctNames(folders[1..]) by {
        forall i, j | 0 <= i < j < |folders[1..]| ensures folders[1..][i].name != folders[1..][j].name {
          assert folders[1..][i] == folders[i + 1] && folders[1..][j] == folders[j + 1];
        }
      }
      PutInFolderDistinct(folders[1..], name, f);
      PutInFolderNames(folders[1..], name, f);
      assert folders == [folders[0]] + folders[1..];
      NamedCons(folders[0], folders[1..]);
      assert !Named(rest, folders[0].name);
      forall i, j | 0 <= i < j < |r| ensures r[i].name != r[j].name {
        if i == 0 {
          assert rest[j - 1] == r[j];
          assert Named(rest, r[j].name);
        } else {
          assert rest[i - 1] == r[i] && rest[j - 1] == r[j];
        }
      }
    }
  }

  /** The tree after `f` is written into the directory of scope `scope`. */
  function WithFile(t: MusicTree, scope: Scope, f: Mp3File): MusicTree {
    match scope
    case InSingles => t.(singles := Put(t.singles, f))
    case InRoot => t.(rootFiles := Put(t.rootFiles, f))
    case InPlaylist(name) => t.(playlists := PutInFolder(t.playlists, name, f))
    case Unscanned => t
  }

  lemma PutHasTag(files: seq<Mp3File>, f: Mp3File, v: string)
    requires f.videoIdTag == Some(v)
    ensures FilesHaveTag(Put(files, f), v)
  {
    var r := Put(files, f);
    var k :| 0 <= k < |r| && r[k] == f;
    assert FileTaggedAt(r, v, k);
  }

  /**
   * A file written with the tag `v` into a scanned directory of a tree
   * with unique folder names is found by `is_song_downloaded` afterwards,
   * whatever the tree held before.
   */
  lemma WrittenFileIsFound(root: string, t: MusicTree, scope: Scope, f: Mp3File, v: string)
    requires ValidTree(t) && !scope.Unscanned? && f.videoIdTag == Some(v)
    ensures ValidTree(WithFile(t, scope, f))
    ensures IsSongDownloaded(root, WithFile(t, scope, f), v)
  {
    var r := WithFile(t, scope, f);
    PutHasTag(t.singles, f, v);
    PutHasTag(t.rootFiles, f, v);
    if scope.InPlaylist? {
      PutInFolderNames(t.playlists, scope.name, f);
      PutInFolderDistinct(t.playlists, scope.name, f);
      var i :| 0 <= i < |r.playlists| && HoldsAt(r.playlists, scope.name, f, i);
      var k :| 0 <= k < |r.playlists[i].files| && r.playlists[i].files[k] == f;
      assert FileTaggedAt(r.playlists[i].files, v, k);
      assert FolderTagged(r, i, v);
    }
    assert TreeHasTag(r, v);
    IsSongDownloadedIffTagged(root, r, v);
  }
  /** The directory the scan reads for `scope`, as the scan renders it. */
  function ScopeDir(root: string, scope: Scope): string
    requires !scope.Unscanned?
  {
    match scope
    case InSingles => SinglesDir(root)
    case InRoot => root
    case InPlaylist(name) => PlaylistDir(root, name)
  }

  /** The playlist name the scan gives the songs of `scope`. */
  function ScopePlaylist(scope: Scope): Option<string> {
    if scope.InPlaylist? then Some(scope.name) else None
  }

  /**
   * The default output directories are spelled the way the scans spell
   * them: `singles/`, the music directory itself, and the folder of a
   * playlist with a plain name.
   */
  lemma DefaultDirsAreScanDirs(root: string, name: string)
    requires IsPlainName(name)
    ensures ScopeOf(root, SinglesDir(root)) == InSingles && ScopeDir(root, ScopeOf(root, SinglesDir(root))) == SinglesDir(root)
    ensures ScopeOf(root, root) == InRoot && ScopeDir(root, ScopeOf(root, root)) == root
    ensures ScopeOf(root, PlaylistDir(root, name)) == InPlaylist(name) &&
      ScopeDir(root, ScopeOf(root, PlaylistDir(root, name))) == PlaylistDir(root, name)
  {
    SinglesDirScope(root);
    RootScope(root);
    PlaylistDirScope(root, name);
  }

  /** Every file of `files` tagged `v` is `f`. */
  ghost predicate OnlyTaggedFile(files: seq<Mp3File>, v: string, f: Mp3File) {
    forall k :: FileTaggedAt(files, v, k) ==> files[k] == f
  }

  /** Every song of `songs` with the `video_id` `v` is `song`. */
  ghost predicate OnlyTaggedSong(songs: seq<Song>, v: string, song: Song) {
    forall i :: TaggedAt(songs, v, i) ==> songs[i] == song
  }

  lemma OnlyTaggedSongsIn(dir: string, files: seq<Mp3File>, playlist: Option<string>, v: string, f: Mp3File)
    requires OnlyTaggedFile(files, v, f)
    ensures OnlyTaggedSong(SongsIn(dir, files, playlist), v, ScannedSong(dir, f, playlist))
  {
    var r := SongsIn(dir, files, playlist);
    forall i | TaggedAt(r, v, i) ensures r[i] == ScannedSong(dir, f, playlist) {
      assert FileTaggedAt(files, v, i);
    }
  }

  lemma OnlyTaggedConcat(a: seq<Song>, b: seq<Song>, v: string, song: Song)
    requires OnlyTaggedSong(a, v, song) && OnlyTaggedSong(b, v, song)
    ensures OnlyTaggedSong(a + b, v, song)
  {
    forall i | TaggedAt(a + b, v, i) ensures (a + b)[i] == song {
      if i < |a| {
        assert TaggedAt(a, v, i);
      } else {
        assert TaggedAt(b, v, i - |a|);
      }
    }
  }

  /** A directory without a file tagged `v` gets `f` as its only such file. */
  lemma PutOnlyTagged(files: seq<Mp3File>, f: Mp3File, v: string)
    requires !FilesHaveTag(files, v)
    ensures OnlyTaggedFile(Put(files, f), v, f)
  {
    var r := Put(files, f);
    forall k | FileTaggedAt(r, v, k) ensures r[k] == f {
      if r[k] in files {
        MemberHasTag(files, r[k], v);
      }
    }
  }

  lemma MemberHasTag(files: seq<Mp3File>, g: Mp3File, v: string)
    requires g in files && g.videoIdTag == Some(v)
    ensures FilesHaveTag(files, v)
  {
    var j :| 0 <= j < |files| && files[j] == g;
    assert FileTaggedAt(files, v, j);
  }

  lemma NoTagOnlyTagged(files: seq<Mp3File>, v: string, f: Mp3File)
    requires !FilesHaveTag(files, v)
    ensures OnlyTaggedFile(files, v, f)
  {
  }

  /** Writing into the folder `name` changes that folder's files by `Put`, and no other folder's. */
  lemma {:induction false} FolderFilesAfterPut(folders: seq<Folder>, name: string, f: Mp3File, n: string)
    ensures FolderFiles(PutInFolder(folders, name, f), n) ==
      if n == name then Put(FolderFiles(folders, name), f) else FolderFiles(folders, n)
    decreases |folders|
  {
    if folders != [] && folders[0].name != name {
      FolderFilesAfterPut(folders[1..], name, f, n);
      var r := PutInFolder(folders, name, f);
      assert r[0] == folders[0] && r[1..] == PutInFolder(folders[1..], name, f);
    }
  }

  /** The songs of all playlists in `names` are `song` wherever they carry `v`. */
  lemma {:induction false} OnlyTaggedGroup(root: string, t: MusicTree, names: seq<string>, v: string, song: Song)
    requires forall n :: OnlyTaggedSong(PlaylistSongs(root, t, n), v, song)
    ensures OnlyTaggedSong(PlaylistGroup(root, t, names), v, song)
  {
    if names != [] {
      OnlyTaggedGroup(root, t, names[..|names| - 1], v, song);
      OnlyTaggedConcat(PlaylistGroup(root, t, names[..|names| - 1]), PlaylistSongs(root, t, names[|names| - 1]), v, song);
    }
  }

  /** A folder of a tree without the tag `v` holds no file tagged `v`. */
  lemma UntaggedFolder(t: MusicTree, n: string, v: string)
    requires !TreeHasTag(t, v)
    ensures !FilesHaveTag(FolderFiles(t.playlists, n), v)
  {
    var files := FolderFiles(t.playlists, n);
    if FilesHaveTag(files, v) {
      var i :| FirstNamed(t.playlists, n, i) && t.playlists[i].files == files;
      assert FolderTagged(t, i, v);
    }
  }

  /** Every playlist song of the new tree carrying `v` is the scan of `f`. */
  lemma OnlyTaggedPlaylists(root: string, t: MusicTree, scope: Scope, f: Mp3File, v: string)
    requires !scope.Unscanned? && !TreeHasTag(t, v)
    ensures var r := WithFile(t, scope, f);
      OnlyTaggedSong(PlaylistGroup(root, r, PlaylistNames(r)), v, ScannedSong(ScopeDir(root, scope), f, ScopePlaylist(scope)))
  {
    var r := WithFile(t, scope, f);
    var song := ScannedSong(ScopeDir(root, scope), f, ScopePlaylist(scope));
    forall n ensures OnlyTaggedSong(PlaylistSongs(root, r, n), v, song) {
      UntaggedFolder(t, n, v);
      if scope.InPlaylist? {
        FolderFilesAfterPut(t.playlists, scope.name, f, n);
        if n == scope.name {
          PutOnlyTagged(FolderFiles(t.playlists, n), f, v);
        }
      }
      OnlyTaggedSongsIn(PlaylistDir(root, n), FolderFiles(r.playlists, n), Some(n), v, f);
      if !(scope.InPlaylist? && n == scope.name) {
        SongsInHaveTag(PlaylistDir(root, n), FolderFiles(r.playlists, n), Some(n), v);
      }
    }
    OnlyTaggedGroup(root, r, PlaylistNames(r), v, song);
  }

  /** The `singles/` and root songs of the new tree carrying `v` are the scan of `f`. */
  lemma OnlyTaggedLoose(root: string, t: MusicTree, scope: Scope, f: Mp3File, v: string)
    requires !scope.Unscanned? && !TreeHasTag(t, v)
    ensures var r := WithFile(t, scope, f);
      var song := ScannedSong(ScopeDir(root, scope), f, ScopePlaylist(scope));
      OnlyTaggedSong(SongsIn(SinglesDir(root), r.singles, None), v, song) &&
      OnlyTaggedSong(SongsIn(root, r.rootFiles, None), v, song)
  {
    var r := WithFile(t, scope, f);
    if scope.InSingles? {
      PutOnlyTagged(t.singles, f, v);
    }
    if scope.InRoot? {
      PutOnlyTagged(t.rootFiles, f, v);
    }
    OnlyTaggedSongsIn(SinglesDir(root), r.singles, None, v, f);
    OnlyTaggedSongsIn(root, r.rootFiles, None, v, f);
    SongsInHaveTag(SinglesDir(root), r.singles, None, v);
    SongsInHaveTag(root, r.rootFiles, None, v);
  }

  /**
   * In a tree where no scanned file carries `v`, a file written with the tag
   * `v` into a scanned directory is the song `find_song_by_video_id` then
   * returns: its path is the file's name in that directory.
   */
  lemma WrittenFileIsTheOneFound(root: string, t: MusicTree, scope: Scope, f: Mp3File, v: string)
    requires ValidTree(t) && !scope.Unscanned? && f.videoIdTag == Some(v)
    requires !IsSongDownloaded(root, t, v)
    ensures FindSongByVideoId(root, WithFile(t, scope, f), v) ==
      Some(ScannedSong(ScopeDir(root, scope), f, ScopePlaylist(scope)))
    ensures FindSongByVideoId(root, WithFile(t, scope, f), v).value.meta.path ==
      Join(ScopeDir(root, scope), FileName(f))
  {
    var r := WithFile(t, scope, f);
    var song := ScannedSong(ScopeDir(root, scope), f, ScopePlaylist(scope));
    IsSongDownloadedIffTagged(root, t, v);
    WrittenFileIsFound(root, t, scope, f, v);
    OnlyTaggedPlaylists(root, t, scope, f, v);
    OnlyTaggedLoose(root, t, scope, f, v);
    var group := PlaylistGroup(root, r, PlaylistNames(r));
    var singles := SongsIn(SinglesDir(root), r.singles, None);
    var loose := SongsIn(root, r.rootFiles, None);
    OnlyTaggedConcat(group, singles, v, song);
    OnlyTaggedConcat(group + singles, loose, v, song);
    assert AllSongs(root, r) == group + singles + loose;
  }
}
