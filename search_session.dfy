/**
 * The search session of SearchPresenter.kt as a value, with one transition
 * per function of `SearchStateProvider` and one per step the coroutines take
 * later: "the current job's debounce delay elapses" and "a task's client call
 * returns". The class `SearchPresenter.SearchStateProvider` is proved to
 * follow these transitions; the trace properties are proved here.
 *
 * Conventions:
 * - every launched coroutine gets a fresh id; `searchJob` names the job the
 *   field refers to while that job is still live (neither cancelled nor
 *   finished). Cancelling or finishing it leaves `NoJob`: cancelling a dead
 *   job does nothing, so that is the same as keeping the stale reference;
 * - a search task's body is taken to run as soon as it is launched, so it
 *   sets `isSearching` and calls the client in the launching step; the term
 *   it sends is the live `query` at that moment;
 * - `inFlight` holds the search tasks whose client call has not returned
 *   (cancelled ones included) and `requests` the terms the client received.
 */
module SearchSession {
  import opened Wrappers
  import opened Text
  import opened ITunesModels
  import opened SearchScreen

  /** The quiet period before an edited query is searched (SearchPresenter.kt:25). */
  const SearchDebounceMs: nat := 600

  datatype Job = NoJob | Debouncing(id: nat) | Running(id: nat)

  datatype Session = Session(
    query: string,
    results: seq<ITunesResult>,
    isSearching: bool,
    searchJob: Job,
    nextId: nat,
    inFlight: set<nat>,
    requests: seq<string>)

  /** What every reachable session satisfies. */
  ghost predicate Valid(s: Session) {
    && (s.searchJob.Debouncing? ==> s.searchJob.id < s.nextId && s.searchJob.id !in s.inFlight)
    && (s.searchJob.Running? ==> s.searchJob.id in s.inFlight)
    && (forall id :: id in s.inFlight ==> id < s.nextId)
    && (s.isSearching ==> s.inFlight != {})
    && (forall i :: 0 <= i < |s.requests| ==> !IsBlank(s.requests[i]))
  }

  /** The `state` getter: a pure function of the stored fields. */
  function StateOf(s: Session): (st: State)
    ensures st.query == s.query
    ensures st.Empty? <==> IsBlank(s.query) && s.results == []
    ensures st.Loaded? ==> st.results == s.results && st.isSearching == s.isSearching
  {
    if IsBlank(s.query) && s.results == [] then Empty(s.query)
    else Loaded(s.query, s.results, s.isSearching)
  }

  /** `performSearch`: cancel the current job, then either clear the results (blank query) or launch a search task. */
  function PerformSearch(s: Session): (r: Session)
    ensures Valid(s) ==> Valid(r)
    ensures Valid(s) && s.searchJob != NoJob ==> r.searchJob != s.searchJob
    ensures r.query == s.query
    ensures IsBlank(s.query) ==>
      && r.results == [] && r.searchJob == NoJob && r.requests == s.requests
      && r.isSearching == s.isSearching && r.inFlight == s.inFlight
    ensures !IsBlank(s.query) ==>
      && r.results == s.results && r.isSearching
      && r.searchJob == Running(s.nextId) && r.inFlight == s.inFlight + {s.nextId}
      && r.requests == s.requests + [s.query]
  {
    var cancelled := s.(searchJob := NoJob);
    if IsBlank(s.query) then
      cancelled.(results := [])
    else
      var id := s.nextId;
      cancelled.(searchJob := Running(id), nextId := id + 1, isSearching := true,
                 inFlight := s.inFlight + {id}, requests := s.requests + [s.query])
  }

  /** `debouncedSearch`: cancel the current job and launch one that waits before searching. */
  function DebouncedSearch(s: Session): (r: Session)
    ensures Valid(s) ==> Valid(r)
    ensures Valid(s) ==> r.searchJob != s.searchJob
    ensures r.searchJob == Debouncing(s.nextId)
    ensures r.query == s.query && r.results == s.results && r.isSearching == s.isSearching
    ensures r.inFlight == s.inFlight && r.requests == s.requests
  {
    s.(searchJob := Debouncing(s.nextId), nextId := s.nextId + 1)
  }

  /** The session a new provider starts in: a non-blank initial query is searched at once, without the delay. */
  function Initial(initialQuery: string): (s: Session)
    ensures Valid(s)
    ensures s.query == initialQuery && s.results == []
    ensures IsBlank(initialQuery) ==>
      s.searchJob == NoJob && s.requests == [] && !s.isSearching && StateOf(s) == Empty(initialQuery)
    ensures !IsBlank(initialQuery) ==>
      s.searchJob.Running? && s.isSearching && s.requests == [initialQuery]
  {
    var s0 := Session(initialQuery, [], false, NoJob, 0, {}, []);
    if IsBlank(initialQuery) then s0 else PerformSearch(s0)
  }

  /** `handleEvent`. */
  function HandleEvent(s: Session, e: Event): (r: Session)
    ensures Valid(s) ==> Valid(r)
    ensures e.UpdateQuery? ==>
      && r.query == e.query && r.searchJob == Debouncing(s.nextId)
      && (Valid(s) ==> r.searchJob != s.searchJob)
      && r.results == s.results && r.isSearching == s.isSearching
      && r.requests == s.requests && r.inFlight == s.inFlight
    ensures e.Search? ==> r == PerformSearch(s)
    ensures e.ClearQuery? ==>
      && r.query == "" && r.results == [] && StateOf(r) == Empty("")
      && r.searchJob == s.searchJob && r.requests == s.requests
      && r.isSearching == s.isSearching && r.inFlight == s.inFlight
    ensures e.ClickResult? ==> r == s
  {
    match e
    case UpdateQuery(t) => DebouncedSearch(s.(query := t))
    case Search => PerformSearch(s)
    case ClearQuery => s.(query := "", results := [])
    case ClickResult(_) => s
  }

  /**
   * The current job's delay has elapsed: it calls `performSearch`, which reads
   * the live query and, cancelling the current job, cancels the debounce job
   * itself (a no-op, since nothing of it remains to run).
   */
  function DelayElapsed(s: Session): (r: Session)
    requires s.searchJob.Debouncing?
    ensures Valid(s) ==> Valid(r)
    ensures r.query == s.query
    ensures r.requests == s.requests + (if IsBlank(s.query) then [] else [s.query])
    ensures r.results == (if IsBlank(s.query) then [] else s.results)
    ensures r.searchJob == (if IsBlank(s.query) then NoJob else Running(s.nextId))
    ensures r.isSearching == (if IsBlank(s.query) then s.isSearching else true)
    ensures r.inFlight == s.inFlight + (if IsBlank(s.query) then {} else {s.nextId})
  {
    PerformSearch(s)
  }

  /**
   * The client call of task `id` returns. A task that is no longer current
   * was cancelled; the cancellation resumes the call as a failure (the call
   * sits inside `runCatching`), so such a task never writes the results but
   * still runs `isSearching = false`.
   */
  function ClientReturned(s: Session, id: nat, outcome: SearchOutcome): (r: Session)
    requires id in s.inFlight
    ensures Valid(s) ==> Valid(r)
    ensures !r.isSearching
    ensures r.inFlight == s.inFlight - {id}
    ensures r.query == s.query && r.requests == s.requests
    ensures r.results ==
      if s.searchJob == Running(id) && outcome.Success? then outcome.response.results else s.results
    ensures r.searchJob == if s.searchJob == Running(id) then NoJob else s.searchJob
  {
    var current := s.searchJob == Running(id);
    var resumed := if current then outcome else Failure;
    var results := if resumed.Success? then resumed.response.results else s.results;
    s.(results := results, isSearching := false, inFlight := s.inFlight - {id},
       searchJob := if current then NoJob else s.searchJob)
  }

  // ---------------------------------------------------------------------
  // Traces

  datatype Input =
    | Ui(event: Event)
    | DelayElapses
    | ClientReturns(id: nat, outcome: SearchOutcome)

  /** The environment only delivers steps that can happen: the live debounce job's delay, a pending call's return. */
  predicate Enabled(s: Session, i: Input) {
    match i
    case Ui(_) => true
    case DelayElapses => s.searchJob.Debouncing?
    case ClientReturns(id, _) => id in s.inFlight
  }

  function Step(s: Session, i: Input): Session
    requires Enabled(s, i)
  {
    match i
    case Ui(e) => HandleEvent(s, e)
    case DelayElapses => DelayElapsed(s)
    case ClientReturns(id, outcome) => ClientReturned(s, id, outcome)
  }

  /** The session after a sequence of inputs, or None if one of them could not happen. */
  function Run(s: Session, inputs: seq<Input>): Option<Session>
    decreases |inputs|
  {
    if inputs == [] then Some(s)
    else if !Enabled(s, inputs[0]) then None
    else Run(Step(s, inputs[0]), inputs[1..])
  }

  /** A run of UI edits, one `UpdateQuery` per text. */
  function Edits(texts: seq<string>): (inputs: seq<Input>)
    ensures |inputs| == |texts|
    ensures forall i :: 0 <= i < |texts| ==> inputs[i] == Ui(UpdateQuery(texts[i]))
  {
    seq(|texts|, i requires 0 <= i < |texts| => Ui(UpdateQuery(texts[i])))
  }

  lemma {:induction false} RunAppend(s: Session, a: seq<Input>, b: seq<Input>)
    ensures Run(s, a + b) == if Run(s, a).Some? then Run(Run(s, a).value, b) else None
    decreases |a|
  {
    if a == [] {
      assert a + b == b;
    } else {
      assert (a + b)[0] == a[0];
      assert (a + b)[1..] == a[1..] + b;
      if Enabled(s, a[0]) {
        RunAppend(Step(s, a[0]), a[1..], b);
      }
    }
  }

  /** Every step keeps the session invariant. */
  lemma {:induction false} RunKeepsValid(s: Session, inputs: seq<Input>)
    requires Valid(s)
    requires Run(s, inputs).Some?
    ensures Valid(Run(s, inputs).value)
    decreases |inputs|
  {
    if inputs != [] {
      RunKeepsValid(Step(s, inputs[0]), inputs[1..]);
    }
  }

  /** From construction on, the client is never asked to search for a blank term. */
  lemma ClientNeverSeesBlankTerm(initialQuery: string, inputs: seq<Input>)
    requires Run(Initial(initialQuery), inputs).Some?
    ensures var r := Run(Initial(initialQuery), inputs).value;
      forall i :: 0 <= i < |r.requests| ==> !IsBlank(r.requests[i])
  {
    RunKeepsValid(Initial(initialQuery), inputs);
  }

  /** A burst of edits calls no client and leaves only the last edit's debounce job live. */
  lemma {:induction false} EditsOnlyDebounce(s: Session, texts: seq<string>)
    requires texts != []
    ensures Run(s, Edits(texts)).Some?
    ensures var r := Run(s, Edits(texts)).value;
      && r.query == texts[|texts| - 1] && r.searchJob.Debouncing?
      && r.requests == s.requests && r.results == s.results && r.inFlight == s.inFlight
    decreases |texts|
  {
    var first := Ui(UpdateQuery(texts[0]));
    var s1 := Step(s, first);
    assert Edits(texts) == [first] + Edits(texts[1..]);
    RunAppend(s, [first], Edits(texts[1..]));
    assert Run(s, [first]) == Run(s1, []);
    if |texts| > 1 {
      EditsOnlyDebounce(s1, texts[1..]);
    } else {
      assert Edits(texts[1..]) == [];
    }
  }

  /**
   * Debounce suppression: of a burst of edits with no delay elapsing between
   * them, only the last one reaches the client, once its delay has elapsed,
   * and only if it is not blank.
   */
  lemma OnlyLastEditReachesClient(s: Session, texts: seq<string>)
    requires texts != []
    ensures Run(s, Edits(texts) + [DelayElapses]).Some?
    ensures var r := Run(s, Edits(texts) + [DelayElapses]).value;
      var last := texts[|texts| - 1];
      && r.query == last
      && r.requests == s.requests + (if IsBlank(last) then [] else [last])
  {
    EditsOnlyDebounce(s, texts);
    RunAppend(s, Edits(texts), [DelayElapses]);
  }

  /** An explicit search bypasses the delay: the client is called in the same step. */
  lemma SearchBypassesDebounce(s: Session)
    requires !IsBlank(s.query)
    ensures var r := Step(s, Ui(Search));
      && r.requests == s.requests + [s.query] && r.isSearching && r.searchJob.Running?
  {
  }

  /**
   * Clearing does not cancel a pending debounce job: its delay still elapses,
   * but the search then reads the live query, which is blank, so it clears
   * the results and calls no client.
   */
  lemma ClearedEditNeverSearched(s: Session, text: string)
    ensures Run(s, [Ui(UpdateQuery(text)), Ui(ClearQuery), DelayElapses]).Some?
    ensures var r := Run(s, [Ui(UpdateQuery(text)), Ui(ClearQuery), DelayElapses]).value;
      && r.requests == s.requests && r.results == [] && r.searchJob == NoJob
      && StateOf(r).Empty?
  {
    var s1 := Step(s, Ui(UpdateQuery(text)));
    var s2 := Step(s1, Ui(ClearQuery));
    assert IsBlank(s2.query);
    assert Run(s, [Ui(UpdateQuery(text)), Ui(ClearQuery), DelayElapses])
        == Run(s1, [Ui(ClearQuery), DelayElapses]);
  }

  /**
   * Clearing does not cancel a running search either: when its call succeeds
   * the results come back under an empty query, and the state is `Loaded`.
   */
  lemma ClearedSearchStillDelivers(s: Session, response: ITunesSearchResponse)
    requires Valid(s) && s.searchJob.Running?
    requires response.results != []
    ensures var id := s.searchJob.id;
      var r := Run(s, [Ui(ClearQuery), ClientReturns(id, Success(response))]);
      && r.Some?
      && StateOf(r.value) == Loaded("", response.results, false)
  {
    var step := ClientReturns(s.searchJob.id, Success(response));
    var s1 := Step(s, Ui(ClearQuery));
    assert Enabled(s1, step);
    assert Run(s, [Ui(ClearQuery), step]) == Run(s1, [step]);
    assert Run(s1, [step]) == Some(Step(s1, step));
  }

  /** A failed search keeps the old results and still ends the searching phase. */
  lemma FailureKeepsResults(s: Session, id: nat)
    requires id in s.inFlight
    ensures var r := Step(s, ClientReturns(id, Failure));
      r.results == s.results && !r.isSearching
  {
  }

  /**
   * Cancellation race: once search B has been launched over a running search
   * A, A's late return never overwrites what B delivered, whatever A's call
   * returned.
   */
  lemma SupersededSearchNeverWrites(s: Session, b: ITunesSearchResponse, aOutcome: SearchOutcome)
    requires Valid(s)
    requires s.searchJob.Running? && !IsBlank(s.query)
    ensures var a := s.searchJob.id;
      var bId := s.nextId;
      var r := Run(s, [Ui(Search), ClientReturns(bId, Success(b)), ClientReturns(a, aOutcome)]);
      && r.Some?
      && r.value.results == b.results
      && !r.value.isSearching && r.value.searchJob == NoJob
  {
    var a := s.searchJob.id;
    var s1 := Step(s, Ui(Search));
    assert a != s.nextId;
    var s2 := Step(s1, ClientReturns(s.nextId, Success(b)));
    assert a in s2.inFlight;
    assert Run(s, [Ui(Search), ClientReturns(s.nextId, Success(b)), ClientReturns(a, aOutcome)])
        == Run(s1, [ClientReturns(s.nextId, Success(b)), ClientReturns(a, aOutcome)]);
    assert Run(s1, [ClientReturns(s.nextId, Success(b)), ClientReturns(a, aOutcome)])
        == Run(s2, [ClientReturns(a, aOutcome)]);
    assert Run(s2, [ClientReturns(a, aOutcome)]) == Some(Step(s2, ClientReturns(a, aOutcome)));
  }

  /**
   * Once task `a` is not the current job, it never becomes current again:
   * every later launch takes a fresh id.
   */
  lemma {:induction false} SupersededStaysSuperseded(s: Session, a: nat, inputs: seq<Input>)
    requires a < s.nextId && s.searchJob != Running(a)
    requires Run(s, inputs).Some?
    ensures Run(s, inputs).value.searchJob != Running(a)
    ensures a < Run(s, inputs).value.nextId
    decreases |inputs|
  {
    if inputs != [] {
      SupersededStaysSuperseded(Step(s, inputs[0]), a, inputs[1..]);
    }
  }

  /**
   * Cancellation race, for every trace: after task `a` has been superseded,
   * whatever happens in between, its late return never touches the results.
   */
  lemma LateReturnNeverWrites(s: Session, a: nat, inputs: seq<Input>, outcome: SearchOutcome)
    requires a < s.nextId && s.searchJob != Running(a)
    requires Run(s, inputs).Some? && a in Run(s, inputs).value.inFlight
    ensures var r := Run(s, inputs).value;
      Step(r, ClientReturns(a, outcome)).results == r.results
  {
    SupersededStaysSuperseded(s, a, inputs);
  }

  /**
   * A consequence of the cancelled call resuming through `runCatching`: if
   * the superseded task's cancelled call resumes only after the new task has
   * started, its `isSearching = false` lands while the current search is
   * still waiting for its client, and the loading row disappears early. (When
   * the cancelled call resumes before the new task's body, the order this
   * model does not produce, the new task sets the flag again afterwards.)
   */
  lemma SupersededTaskClearsSearchingFlag()
    ensures var s0 := Initial("a");
      var r := Run(s0, [Ui(Search), ClientReturns(0, Failure)]);
      && r.Some?
      && r.value.searchJob == Running(1) && 1 in r.value.inFlight
      && !r.value.isSearching
  {
    var s0 := Initial("a");
    assert !IsWhitespace('a');
    assert !IsBlank("a") by { assert "a"[0] == 'a'; }
    var s1 := Step(s0, Ui(Search));
    assert Run(s0, [Ui(Search), ClientReturns(0, Failure)]) == Run(s1, [ClientReturns(0, Failure)]);
  }

  /**
   * The emitted states of SearchPresenterTest "search updates results": an edit
   * to "test" shows the query at once, the search starts after the delay, and
   * the response's results replace the (empty) list.
   */
  lemma EditThenResultsScenario(response: ITunesSearchResponse)
    ensures var s0 := Initial("");
      var s1 := Step(s0, Ui(UpdateQuery("test")));
      var s2 := Step(s1, DelayElapses);
      && StateOf(s0) == Empty("")
      && StateOf(s1) == Loaded("test", [], false)
      && StateOf(s2) == Loaded("test", [], true) && s2.requests == ["test"]
      && s2.searchJob == Running(1)
      && StateOf(Step(s2, ClientReturns(1, Success(response)))) == Loaded("test", response.results, false)
  {
    assert !IsBlank("test") by { assert "test"[0] == 't'; }
  }
}
