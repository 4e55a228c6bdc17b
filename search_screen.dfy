/**
 * The search screen's public types (SearchScreen.kt): the screen key, the two
 * UI states and the closed set of UI events. The `eventSink` both states carry
 * is always the presenter's event handler and is not represented here.
 */
module SearchScreen {
  import opened ITunesModels

  /** The navigation key; a search tab opens with an empty initial query. */
  datatype Screen = Screen(initialQuery: string := "")

  datatype State =
    | Empty(query: string := "")
    | Loaded(query: string, results: seq<ITunesResult>, isSearching: bool)

  datatype Event =
    | UpdateQuery(query: string)
    | Search
    | ClearQuery
    | ClickResult(result: ITunesResult)
}
