/**
 * The values the download pipeline hands between its parts: the exceptions
 * it raises (by Python class) and the per-item result dictionaries, with
 * the Python truthiness the batch summary applies to their `skipped` and
 * `error` entries.
 */
module Outcomes {
  import opened Wrappers

  /** The exceptions of the pipeline. `message` is what `str(e)` gives. */
  datatype Error =
    | YouTubeDownloadError(message: string)
    | SpotifyDownloadError(message: string)
    | SpotifyConfigError(message: string)
    | NotImplementedError(message: string)
    | AttributeError(message: string)
    | NameError(message: string)
    | IndexError(message: string)
    /** An `OSError` raised while writing the ledger file; never caught by the ledger. */
    | PersistError(message: string)
    /** An exception raised inside yt-dlp or spotipy, passed through unchanged. */
    | ExternalError(message: string)

  /**
   * One per-item result dictionary. A field is `None` when the dictionary
   * has no such key (or holds `None` there); `skipped` and `error` keep the
   * value so that Python truthiness can be applied to it.
   */
  datatype Descriptor = Descriptor(
    id: Option<string>,
    title: Option<string>,
    artist: Option<string>,
    skipped: Option<bool>,
    path: Option<string>,
    error: Option<string>,
    url: Option<string>)

  /** `bool(r.get('skipped'))`. */
  predicate SkippedFlag(d: Descriptor) {
    d.skipped == Some(true)
  }

  /** `bool(r.get('error'))`: present and not the empty string. */
  predicate ErrorFlag(d: Descriptor) {
    Truthy(d.error)
  }

  /** The dictionary of an item that was fetched (`skipped` False) or found on disk (`skipped` True). */
  function ItemDescriptor(id: string, title: Option<string>, artist: Option<string>, skipped: bool, path: Option<string>): Descriptor {
    Descriptor(Some(id), title, artist, Some(skipped), path, None, None)
  }

  /** `{"id": ..., "title": ..., "error": str(e)}`, the dictionary of a contained failure. */
  function FailureDescriptor(id: Option<string>, title: Option<string>, e: Error): Descriptor {
    Descriptor(id, title, None, None, None, Some(e.message), None)
  }

  /**
   * The shape every downloader result has: an item dictionary carries
   * `skipped` and no `error`, a failure dictionary the reverse.
   */
  predicate Reported(d: Descriptor) {
    d.skipped.Some? != d.error.Some?
  }

  /** Python truthiness of an optional string: present and not empty. */
  predicate Truthy(o: Option<string>) {
    o.Some? && o.value != ""
  }
}
