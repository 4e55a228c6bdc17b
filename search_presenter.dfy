/**
 * `SearchStateProvider` (SearchPresenter.kt), the object behind the search
 * screen. Its fields are updated in place, statement by statement as in the
 * source; every method is proved to move the fields exactly as the matching
 * transition of `SearchSession` says, so the trace lemmas proved there hold
 * of the object. The coroutine steps the source leaves to the scheduler are
 * the two environment methods `DelayElapses` and `ClientReturns`.
 */
module SearchPresenter {
  import opened Text
  import opened ITunesModels
  import opened SearchScreen
  import opened SearchSession

  class SearchStateProvider {
    var query: string
    /** `mutableStateListOf`: cleared and refilled in place. */
    var results: seq<ITunesResult>
    var isSearching: bool
    var searchJob: Job
    /** The id the next launched coroutine gets. */
    var nextId: nat
    /** Search tasks whose client call has not returned yet. */
    var inFlight: set<nat>
    /** The terms passed to the client, in call order. */
    var requests: seq<string>

    function Snapshot(): Session
      reads this
    {
      Session(query, results, isSearching, searchJob, nextId, inFlight, requests)
    }

    /** The `state` getter; reading it changes nothing. */
    function State(): (st: SearchScreen.State)
      reads this
      ensures st.query == query
      ensures st.Empty? <==> IsBlank(query) && results == []
      ensures st.Loaded? ==> st.results == results && st.isSearching == isSearching
    {
      StateOf(Snapshot())
    }

    constructor (initialQuery: string)
      ensures Snapshot() == Initial(initialQuery)
      ensures Valid(Snapshot())
    {
      query := initialQuery;
      results := [];
      isSearching := false;
      searchJob := NoJob;
      nextId := 0;
      inFlight := {};
      requests := [];
      new;
      if !IsBlank(initialQuery) {
        PerformSearch();
      }
    }

    method HandleEvent(event: Event)
      modifies this
      ensures Snapshot() == SearchSession.HandleEvent(old(Snapshot()), event)
    {
      match event {
        case UpdateQuery(text) =>
          query := text;
          DebouncedSearch();
        case Search =>
          PerformSearch();
        case ClearQuery =>
          query := "";
          results := [];
        case ClickResult(_) =>
      }
    }

    method DebouncedSearch()
      modifies this
      ensures Snapshot() == SearchSession.DebouncedSearch(old(Snapshot()))
    {
      searchJob := NoJob;  // the previous job is cancelled
      var id := nextId;
      nextId := nextId + 1;
      searchJob := Debouncing(id);
    }

    method PerformSearch()
      modifies this
      ensures Snapshot() == SearchSession.PerformSearch(old(Snapshot()))
    {
      if IsBlank(query) {
        searchJob := NoJob;
        results := [];
        return;
      }
      searchJob := NoJob;
      var id := nextId;
      nextId := nextId + 1;
      searchJob := Running(id);
      // the task body: flag the search, then call the client with the live query
      isSearching := true;
      inFlight := inFlight + {id};
      requests := requests + [query];
    }

    /** The live debounce job's delay elapses and it runs `performSearch`. */
    method DelayElapses()
      requires searchJob.Debouncing?
      modifies this
      ensures Snapshot() == SearchSession.DelayElapsed(old(Snapshot()))
    {
      PerformSearch();
    }

    /** Task `id`'s client call returns `outcome`; a cancelled task's call resumes as a failure. */
    method ClientReturns(id: nat, outcome: SearchOutcome)
      requires id in inFlight
      modifies this
      ensures Snapshot() == SearchSession.ClientReturned(old(Snapshot()), id, outcome)
    {
      var current := searchJob == Running(id);
      var resumed := if current then outcome else Failure;
      inFlight := inFlight - {id};
      if resumed.Success? {
        results := [];
        results := results + resumed.response.results;
      }
      isSearching := false;
      if current {
        searchJob := NoJob;  // the job has completed
      }
    }
  }

  /** SearchPresenterTest "initial state is empty" and "search updates results", against the object. */
  method SearchUpdatesResults(response: ITunesSearchResponse) returns (states: seq<State>, requests: seq<string>)
    ensures states == [Empty(""), Loaded("test", [], false), Loaded("test", [], true),
                       Loaded("test", response.results, false)]
    ensures requests == ["test"]
  {
    var provider := new SearchStateProvider("");
    states := [provider.State()];
    provider.HandleEvent(UpdateQuery("test"));
    assert !IsBlank("test") by { assert "test"[0] == 't'; }
    states := states + [provider.State()];
    provider.DelayElapses();
    states := states + [provider.State()];
    provider.ClientReturns(1, Success(response));
    states := states + [provider.State()];
    requests := provider.requests;
  }
}
