/**
 * The download ledger of src/music_downloader/cache.py: an in-memory map
 * from song id to record, loaded once from a JSON file and written back in
 * full after every change. The JSON file is abstracted to the map it holds;
 * whether writing the file fails, and how, is part of the environment
 * (`saveFault`).
 */
module Ledger {
  import opened Wrappers
  import opened Outcomes

  /** One entry of `self._data["songs"]`. */
  datatype Record = Record(
    title: string,
    artist: string,
    source: string,
    path: string,
    playlist: Option<string>,
    downloadedAt: string)

  /** One element of `list_songs`: `{"id": song_id, **record}`. */
  datatype Listed = Listed(id: string, record: Record)

  /** What `_load` finds at the ledger location. */
  datatype StoredFile =
    | Missing
    /** The file exists but reading it raised `IOError` or `json.JSONDecodeError`. */
    | Unreadable
    | Parsed(songs: map<string, Record>)

  /**
   * Why `_save` raised: the text of the `OSError`, and whether `open(..., 'w')`
   * had already emptied the file before `json.dump` failed.
   */
  datatype SaveFault = SaveFault(message: string, truncated: bool)

  /**
   * What the backing file holds after a failed save: an emptied or partly
   * written file holds no readable ledger; a file that could not be opened
   * keeps what it held.
   */
  function AfterFailedSave(fault: SaveFault, before: Option<map<string, Record>>): Option<map<string, Record>> {
    if fault.truncated then None else before
  }

  class DownloadCache {
    /** `self._cache_file`. */
    const cacheFile: string
    /** `self._data["songs"]`. */
    var songs: map<string, Record>
    /** The ledger the backing file holds now; `None` while it holds none (missing or unreadable). */
    ghost var persisted: Option<map<string, Record>>
    /** `None` when writing the backing file succeeds; otherwise how every write fails. */
    const saveFault: Option<SaveFault>

    /** `__init__` with `_load`: a missing or unreadable file falls back to an empty ledger. */
    constructor (cacheFile: string, stored: StoredFile, saveFault: Option<SaveFault>)
      ensures this.cacheFile == cacheFile && this.saveFault == saveFault
      ensures songs == (if stored.Parsed? then stored.songs else map[])
      ensures persisted == (if stored.Parsed? then Some(stored.songs) else None)
    {
      this.cacheFile := cacheFile;
      this.saveFault := saveFault;
      songs := if stored.Parsed? then stored.songs else map[];
      persisted := if stored.Parsed? then Some(stored.songs) else None;
    }

    /** `_save`: a full rewrite of the backing file; its failure is not caught. */
    method Save() returns (r: Result<(), Error>)
      modifies this`persisted
      ensures r.Ok? <==> saveFault.None?
      ensures r.Ok? ==> persisted == Some(songs)
      ensures r.Err? ==> persisted == AfterFailedSave(saveFault.value, old(persisted)) && r.error == PersistError(saveFault.value.message)
    {
      if saveFault.None? {
        persisted := Some(songs);
        r := Ok(());
      } else {
        persisted := AfterFailedSave(saveFault.value, persisted);
        r := Err(PersistError(saveFault.value.message));
      }
    }

    /** `is_downloaded`. */
    predicate IsDownloaded(songId: string)
      reads this
      ensures IsDownloaded(songId) <==> songId in songs
    {
      songId in songs
    }

    /** `get`: the stored record, `None` for an unknown id. */
    function Get(songId: string): (r: Option<Record>)
      reads this
      ensures r.Some? <==> IsDownloaded(songId)
      ensures r.Some? ==> r.value == songs[songId]
    {
      if songId in songs then Some(songs[songId]) else None
    }

    /** `get_path`: the stored path, `None` for an unknown id. */
    function GetPath(songId: string): (r: Option<string>)
      reads this
      ensures r.Some? <==> IsDownloaded(songId)
      ensures r.Some? ==> r.value == songs[songId].path
    {
      match Get(songId)
      case Some(rec) => Some(rec.path)
      case None => None
    }

    /**
     * `register`: inserts or overwrites the record of `songId` only, stamped
     * with `now` (`datetime.now().isoformat()`), then persists the whole map.
     * The in-memory change stays even when the save raises.
     */
    method Register(songId: string, title: string, artist: string, source: string, path: string,
                    playlistName: Option<string>, now: string) returns (r: Result<(), Error>)
      modifies this`songs, this`persisted
      ensures songs == old(songs)[songId := Record(title, artist, source, path, playlistName, now)]
      ensures IsDownloaded(songId) && GetPath(songId) == Some(path)
      ensures forall other :: other != songId ==> Get(other) == old(Get(other))
      ensures r.Ok? <==> saveFault.None?
      ensures r.Ok? ==> persisted == Some(songs)
      ensures r.Err? ==> persisted == AfterFailedSave(saveFault.value, old(persisted)) && r.error == PersistError(saveFault.value.message)
    {
      songs := songs[songId := Record(title, artist, source, path, playlistName, now)];
      r := Save();
    }

    /** `list_songs`: one element per stored id, carrying that id and its record. */
    method ListSongs() returns (r: seq<Listed>)
      ensures |r| == |songs|
      ensures forall i :: 0 <= i < |r| ==> r[i].id in songs && r[i].record == songs[r[i].id]
      ensures forall id :: id in songs ==> exists i :: 0 <= i < |r| && r[i].id == id
      ensures forall i, j :: 0 <= i < j < |r| ==> r[i].id != r[j].id
    {
      var rest := songs.Keys;
      r := [];
      while rest != {}
        invariant rest <= songs.Keys
        invariant |r| + |rest| == |songs|
        invariant forall i :: 0 <= i < |r| ==> r[i].id in songs && r[i].id !in rest && r[i].record == songs[r[i].id]
        invariant forall id :: id in songs && id !in rest ==> exists i :: 0 <= i < |r| && r[i].id == id
        invariant forall i, j :: 0 <= i < j < |r| ==> r[i].id != r[j].id
        decreases |rest|
      {
        var id :| id in rest;
        ghost var before := r;
        r := r + [Listed(id, songs[id])];
        rest := rest - {id};
        assert r[|r| - 1].id == id;
        assert forall i :: 0 <= i < |before| ==> r[i] == before[i];
      }
    }

    /** `clear`: empties the ledger and persists the empty map. */
    method Clear() returns (r: Result<(), Error>)
      modifies this`songs, this`persisted
      ensures songs == map[]
      ensures forall id :: !IsDownloaded(id)
      ensures r.Ok? <==> saveFault.None?
      ensures r.Ok? ==> persisted == Some(map[])
      ensures r.Err? ==> persisted == AfterFailedSave(saveFault.value, old(persisted)) && r.error == PersistError(saveFault.value.message)
    {
      songs := map[];
      r := Save();
    }

    /**
     * `remove`: `Ok(true)` when the id was present, which is then gone, every
     * other record kept, and the map persisted; `Ok(false)` with nothing
     * changed and nothing written when it was absent.
     */
    method Remove(songId: string) returns (r: Result<bool, Error>)
      modifies this`songs, this`persisted
      ensures songs == old(songs) - {songId}
      ensures !IsDownloaded(songId)
      ensures forall other :: other != songId ==> Get(other) == old(Get(other))
      ensures songId !in old(songs) ==> r == Ok(false) && persisted == old(persisted)
      ensures songId in old(songs) && saveFault.None? ==> r == Ok(true) && persisted == Some(songs)
      ensures songId in old(songs) && saveFault.Some? ==>
        r == Err(PersistError(saveFault.value.message)) && persisted == AfterFailedSave(saveFault.value, old(persisted))
    {
      if songId in songs {
        songs := songs - {songId};
        var saved := Save();
        if saved.Err? {
          return Err(saved.error);
        }
        return Ok(true);
      }
      return Ok(false);
    }

    /**
     * `update_song`: for a known id, replaces the path and the playlist only
     * where a new value is given (not `None`), keeps title, artist, source and
     * timestamp, and persists even when nothing changed; for an unknown id,
     * `Ok(false)` with nothing changed and nothing written.
     */
    method UpdateSong(songId: string, path: Option<string>, playlist: Option<string>) returns (r: Result<bool, Error>)
      modifies this`songs, this`persisted
      ensures songId !in old(songs) ==> songs == old(songs) && persisted == old(persisted) && r == Ok(false)
      ensures songId in old(songs) ==>
        var was := old(songs)[songId];
        songs == old(songs)[songId := was.(path := path.GetOr(was.path), playlist := if playlist.Some? then playlist else was.playlist)]
      ensures songId in old(songs) ==>
        && songs[songId].title == old(songs)[songId].title
        && songs[songId].artist == old(songs)[songId].artist
        && songs[songId].source == old(songs)[songId].source
        && songs[songId].downloadedAt == old(songs)[songId].downloadedAt
      ensures songId in old(songs) && saveFault.None? ==> r == Ok(true) && persisted == Some(songs)
      ensures songId in old(songs) && saveFault.Some? ==>
        r == Err(PersistError(saveFault.value.message)) && persisted == AfterFailedSave(saveFault.value, old(persisted))
    {
      if songId !in songs {
        return Ok(false);
      }
      if path.Some? {
        songs := songs[songId := songs[songId].(path := path.value)];
      }
      if playlist.Some? {
        songs := songs[songId := songs[songId].(playlist := playlist)];
      }
      var saved := Save();
      if saved.Err? {
        return Err(saved.error);
      }
      return Ok(true);
    }
  }
}
