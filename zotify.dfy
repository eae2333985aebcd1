/**
 * The Zotify downloader of src/music_downloader/zotify_downloader.py: a
 * placeholder whose two operations raise for every input.
 */
module Zotify {
  import opened Wrappers
  import opened Outcomes
  import opened Library

  const TrackMessage: string := "download_track not yet implemented"
  const PlaylistMessage: string := "download_playlist not yet implemented"

  class ZotifyDownloader {
    const musicDir: string

    constructor (musicDir: string)
      ensures this.musicDir == musicDir
    {
      this.musicDir := musicDir;
    }

    /** `download_track`: raises `NotImplementedError` whatever it is given. */
    method DownloadTrack(trackUrl: string, outputDir: string, playlistName: Option<string>) returns (r: Result<Descriptor, Error>)
      ensures r == Err(NotImplementedError(TrackMessage))
    {
      r := Err(NotImplementedError(TrackMessage));
    }

    /** `download_playlist`: raises `NotImplementedError` whatever it is given. */
    method DownloadPlaylist(playlistUrl: string, outputDir: string, playlistName: Option<string>) returns (r: Result<seq<Descriptor>, Error>)
      ensures r == Err(NotImplementedError(PlaylistMessage))
    {
      r := Err(NotImplementedError(PlaylistMessage));
    }
  }
}
