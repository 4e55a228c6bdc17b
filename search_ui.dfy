/**
 * The presentation rules of SearchUi.kt: which view a state selects, the rows
 * of the result list with their keys, titles, shapes and padding, and the
 * search field's event handlers. Layout, colours, images, animation, focus and
 * the keyboard are not modelled.
 */
module SearchUi {
  import opened Wrappers
  import opened ITunesModels
  import opened SearchScreen
  import opened Theme
  import SearchSession
  import SearchPresenter

  /**
   * A lazy-list key. Track and collection ids are both Kotlin `Long`s, so they
   * share one case; `KeyHash(r)` stands for `r.hashCode()`, an `Int`, which is
   * never equal to a `Long` key.
   */
  datatype RowKey = KeyName(name: string) | KeyId(id: Int64) | KeyHash(result: ITunesResult)

  /** The key of a result row: its track id, else its collection id, else its hash. */
  function ResultKey(r: ITunesResult): (k: RowKey)
    ensures k.KeyId? <==> r.trackId.Some? || r.collectionId.Some?
    ensures r.trackId.Some? ==> k == KeyId(r.trackId.value)
    ensures r.trackId.None? && r.collectionId.Some? ==> k == KeyId(r.collectionId.value)
    ensures r.trackId.None? && r.collectionId.None? ==> k == KeyHash(r)
  {
    match r.trackId
    case Some(id) => KeyId(id)
    case None =>
      match r.collectionId
      case Some(id) => KeyId(id)
      case None => KeyHash(r)
  }

  /** A result row's title: the track name, else the collection name, else "Unknown". */
  function Title(r: ITunesResult): (title: string)
    ensures r.trackName.Some? ==> title == r.trackName.value
    ensures r.trackName.None? && r.collectionName.Some? ==> title == r.collectionName.value
    ensures r.trackName.None? && r.collectionName.None? ==> title == "Unknown"
  {
    match r.trackName
    case Some(name) => name
    case None =>
      match r.collectionName
      case Some(name) => name
      case None => "Unknown"
  }

  /** A result row's second line. */
  function Subtitle(r: ITunesResult): string {
    r.artistName
  }

  datatype Row =
    | LoadingRow
    | ResultRow(result: ITunesResult, shape: ListShape, topPadding: nat)
    | BottomSpacer

  function KeyOf(row: Row): RowKey {
    match row
    case LoadingRow => KeyName("loading")
    case ResultRow(r, _, _) => ResultKey(r)
    case BottomSpacer => KeyName("bottom-spacer")
  }

  /** Result row i: its shape comes from its place in the list, and only the first row is padded on top. */
  function ResultRowAt(results: seq<ITunesResult>, i: nat): (row: Row)
    requires i < |results|
    ensures row.ResultRow? && row.result == results[i]
    ensures row.topPadding == if i == 0 then Small else 0
    ensures row.shape == CalculateListShape(i, |results|)
  {
    ResultRow(results[i], CalculateListShape(i, |results|), if i == 0 then Small else 0)
  }

  /**
   * The rows of the result list: a loading row exactly when searching, then
   * one row per result in order, then a bottom spacer exactly when there are
   * results.
   */
  function Rows(results: seq<ITunesResult>, isSearching: bool): (rows: seq<Row>)
    ensures var lead := if isSearching then 1 else 0;
      && |rows| == lead + |results| + (if results == [] then 0 else 1)
      && (forall i :: 0 <= i < |results| ==> rows[lead + i] == ResultRowAt(results, i))
      && (forall j :: 0 <= j < |rows| ==> (rows[j] == LoadingRow <==> isSearching && j == 0))
      && (forall j :: 0 <= j < |rows| ==> (rows[j] == BottomSpacer <==> results != [] && j == |rows| - 1))
  {
    var loading := if isSearching then [LoadingRow] else [];
    var items := seq(|results|, i requires 0 <= i < |results| => ResultRowAt(results, i));
    var spacer := if results == [] then [] else [BottomSpacer];
    loading + items + spacer
  }

  datatype View = EmptyHint | NoResults | ResultList(rows: seq<Row>)

  /** `SearchUi`'s content: the empty hint, the "no results" message, or the list, which then has at least one row. */
  function ViewFor(state: State): (v: View)
    ensures v == EmptyHint <==> state.Empty?
    ensures v == NoResults <==> state.Loaded? && state.results == [] && !state.isSearching
    ensures v.ResultList? ==> v.rows == Rows(state.results, state.isSearching) && v.rows != []
  {
    match state
    case Empty(_) => EmptyHint
    case Loaded(_, results, isSearching) =>
      if results == [] && !isSearching then NoResults
      else ResultList(Rows(results, isSearching))
  }

  /** Whatever the query, a session holding results shows each of them as a row, in order. */
  lemma ResultsAlwaysListed(s: SearchSession.Session)
    requires s.results != []
    ensures ViewFor(SearchSession.StateOf(s)) == ResultList(Rows(s.results, s.isSearching))
  {
    var st := SearchSession.StateOf(s);
    assert st == SearchScreen.Loaded(s.query, s.results, s.isSearching);
  }

  /**
   * The search bar's remembered text field. `stateQuery` is the query of the
   * state the bar was last composed with: it is the key of the `remember`
   * that holds `text`, and the handlers read it as `state.query`.
   */
  class SearchTopBar {
    var stateQuery: string
    var text: string

    constructor (query: string)
      ensures stateQuery == query && text == query
    {
      stateQuery := query;
      text := query;
    }

    /** Recomposition with a new state: a changed query resets the field to it. */
    method Recompose(state: State)
      modifies this
      ensures stateQuery == state.query
      ensures text == if state.query == old(stateQuery) then old(text) else state.query
    {
      if state.query != stateQuery {
        stateQuery := state.query;
        text := state.query;
      }
    }

    /** The clear button is shown exactly while the field holds text. */
    function ClearButtonVisible(): bool
      reads this
    {
      text != ""
    }

    /** An edit updates the field, and reports the text only when it differs from the state's query. */
    method OnValueChange(newText: string) returns (event: Option<Event>)
      modifies this
      ensures text == newText && stateQuery == old(stateQuery)
      ensures event == if newText != old(stateQuery) then Some(UpdateQuery(newText)) else None
    {
      text := newText;
      if newText != stateQuery {
        event := Some(UpdateQuery(newText));
      } else {
        event := None;
      }
    }

    /** The keyboard's search action. */
    method OnSearch() returns (event: Event)
      ensures event == Search
    {
      event := Search;
    }

    /** The clear button empties the field, which hides the button. */
    method OnClear() returns (event: Event)
      modifies this
      ensures text == "" && !ClearButtonVisible() && stateQuery == old(stateQuery)
      ensures event == ClearQuery
    {
      text := "";
      event := ClearQuery;
    }
  }

  /**
   * One edit travelling through the field and the presenter: whether or not
   * an event was sent, the field, the bar's state key and the presenter's
   * query all hold the new text afterwards.
   */
  method TypeIntoField(bar: SearchTopBar, provider: SearchPresenter.SearchStateProvider, newText: string)
    requires bar.stateQuery == provider.query
    modifies bar, provider
    ensures bar.text == newText && bar.stateQuery == newText && provider.query == newText
  {
    var event := bar.OnValueChange(newText);
    if event.Some? {
      provider.HandleEvent(event.value);
    }
    bar.Recompose(provider.State());
  }
}
