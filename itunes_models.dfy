/**
 * The records the catalog client decodes (ITunesModels.kt) and the outcome
 * of one client call (ITunesClient.kt). Kotlin's `Int` and `Long` are kept
 * as their 32- and 64-bit ranges.
 */
module ITunesModels {
  import opened Wrappers

  newtype Int32 = x: int | -0x8000_0000 <= x < 0x8000_0000
  newtype Int64 = x: int | -0x8000_0000_0000_0000 <= x < 0x8000_0000_0000_0000

  /** One catalog entry: `artistName` and `wrapperType` are required, every other field defaults to absent. */
  datatype ITunesResult = ITunesResult(
    trackId: Option<Int64> := None,
    collectionId: Option<Int64> := None,
    artistName: string,
    collectionName: Option<string> := None,
    trackName: Option<string> := None,
    artworkUrl100: Option<string> := None,
    previewUrl: Option<string> := None,
    primaryGenreName: Option<string> := None,
    kind: Option<string> := None,
    wrapperType: string)

  /** A decoded response. The count is reported by the server and is not tied to the list's length. */
  datatype ITunesSearchResponse = ITunesSearchResponse(resultCount: Int32, results: seq<ITunesResult>)

  /**
   * What `ITunesClient.search` returns. The request runs inside `runCatching`,
   * so the call never throws: every error, cancellation included, comes back
   * as `Failure`. The cause is only logged by the caller, so it is not kept.
   */
  datatype SearchOutcome = Success(response: ITunesSearchResponse) | Failure

  lemma OnlyArtistAndWrapperRequired(artist: string, wrapper: string)
    ensures var r := ITunesResult(artistName := artist, wrapperType := wrapper);
      && r.artistName == artist && r.wrapperType == wrapper
      && r.trackId == None && r.collectionId == None
      && r.collectionName == None && r.trackName == None
      && r.artworkUrl100 == None && r.previewUrl == None
      && r.primaryGenreName == None && r.kind == None
  {
  }
}
