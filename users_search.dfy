/**
 * The search hook (`useUsersSearch`): every search aborts the one before it, and only the
 * search started last may write the results or clear the loading flag. The abort controller is
 * modelled by a generation number: search k is the k-th search started, and it is current
 * while no later search has started.
 */
module UsersSearch {
  import opened Types
  import opened UserMatch

  /**
   * `users`, `isLoading`, `hasSearched`; `generation`, the number of the search whose
   * controller sits in `abortControllerRef` (0 before the first); whether that search has not
   * yet settled; and the query it was started with.
   */
  datatype SearchState = SearchState(
    users: seq<User>,
    isLoading: bool,
    hasSearched: bool,
    generation: nat,
    inFlight: bool,
    query: string)

  /** A search is started, or the fetch of search `k` settles (its timer fires, or its abort rejects it). */
  datatype Event = Start(query: string) | Settle(k: nat)

  const Initial := SearchState([], false, false, 0, false, "")

  ghost predicate Valid(s: SearchState)
  {
    && (s.hasSearched <==> s.generation > 0)
    && (s.isLoading <==> s.inFlight)
  }

  /** Whenever nothing is loading after a search, the users shown are the results of the current query. */
  ghost predicate ShowsCurrentResults(mock: seq<User>, s: SearchState)
  {
    s.hasSearched && !s.isLoading ==> s.users == FetchUsers(mock, s.query)
  }

  function Step(mock: seq<User>, s: SearchState, e: Event): SearchState
  {
    match e
    case Start(q) =>
      s.(isLoading := true, hasSearched := true, generation := s.generation + 1, inFlight := true, query := q)
    case Settle(k) =>
      if k == s.generation && s.inFlight then
        s.(users := FetchUsers(mock, s.query), isLoading := false, inFlight := false)
      else
        s
  }

  function Run(mock: seq<User>, s: SearchState, evs: seq<Event>): SearchState
    decreases |evs|
  {
    if evs == [] then s else Run(mock, Step(mock, s, evs[0]), evs[1..])
  }

  /** The query of the last search started in `evs`, or `q0` when none is. */
  function LatestQuery(evs: seq<Event>, q0: string): string
    decreases |evs|
  {
    if evs == [] then q0
    else LatestQuery(evs[1..], if evs[0].Start? then evs[0].query else q0)
  }

  /**
   * A settling search writes `users` or clears `isLoading` only if it is the current one;
   * an aborted one changes nothing.
   */
  lemma OnlyCurrentSearchWrites(mock: seq<User>, s: SearchState, k: nat)
    ensures k != s.generation ==> Step(mock, s, Settle(k)) == s
    ensures Step(mock, s, Settle(k)).users != s.users || Step(mock, s, Settle(k)).isLoading != s.isLoading
      ==> k == s.generation && s.inFlight
  {
  }

  /** Starting a search supersedes the current one, leaves the users alone and sets both flags. */
  lemma StartSupersedes(mock: seq<User>, s: SearchState, q: string)
    ensures Step(mock, s, Start(q)).generation == s.generation + 1
    ensures Step(mock, s, Start(q)).users == s.users
    ensures Step(mock, s, Start(q)).isLoading && Step(mock, s, Start(q)).hasSearched
  {
  }

  /** Every event keeps the state well formed and keeps the shown users those of the current query. */
  lemma {:induction false} RunKeepsInvariants(mock: seq<User>, s: SearchState, evs: seq<Event>)
    requires Valid(s) && ShowsCurrentResults(mock, s)
    ensures Valid(Run(mock, s, evs)) && ShowsCurrentResults(mock, Run(mock, s, evs))
    decreases |evs|
  {
    if evs != [] {
      RunKeepsInvariants(mock, Step(mock, s, evs[0]), evs[1..]);
    }
  }

  /** The current query is the one of the last search started. */
  lemma {:induction false} RunTracksLatestQuery(mock: seq<User>, s: SearchState, evs: seq<Event>)
    ensures Run(mock, s, evs).query == LatestQuery(evs, s.query)
    decreases |evs|
  {
    if evs != [] {
      RunTracksLatestQuery(mock, Step(mock, s, evs[0]), evs[1..]);
    }
  }

  /** Once a search has been made, `hasSearched` is never reset. */
  lemma {:induction false} HasSearchedStays(mock: seq<User>, s: SearchState, evs: seq<Event>)
    requires s.hasSearched
    ensures Run(mock, s, evs).hasSearched
    decreases |evs|
  {
    if evs != [] {
      HasSearchedStays(mock, Step(mock, s, evs[0]), evs[1..]);
    }
  }

  /**
   * Last write wins: after any sequence of searches and settlements, whenever a search has been
   * made and nothing is loading, the users shown are exactly the results of the query searched
   * for last, however the earlier searches interleaved.
   */
  lemma LastWriteWins(mock: seq<User>, evs: seq<Event>)
    ensures var t := Run(mock, Initial, evs);
      t.hasSearched && !t.isLoading ==> t.users == FetchUsers(mock, LatestQuery(evs, ""))
  {
    RunKeepsInvariants(mock, Initial, evs);
    RunTracksLatestQuery(mock, Initial, evs);
  }

  /** Settlements of superseded searches, in any number, change nothing. */
  lemma {:induction false} StaleSettlementsChangeNothing(mock: seq<User>, s: SearchState, evs: seq<Event>)
    requires forall i :: 0 <= i < |evs| ==> evs[i].Settle? && evs[i].k != s.generation
    ensures Run(mock, s, evs) == s
    decreases |evs|
  {
    if evs != [] {
      StaleSettlementsChangeNothing(mock, s, evs[1..]);
    }
  }

  /** What `search` does before it awaits, in order. */
  datatype Effect = Abort(generation: nat) | RunOnSearchStart | SetLoading | SetHasSearched

  /** The hook's state, updated in place by `search` and by the settling of its fetches. */
  class Controller {
    const mock: seq<User>
    var users: seq<User>
    var isLoading: bool
    var hasSearched: bool
    var current: nat
    var inFlight: bool
    var query: string

    function State(): SearchState
      reads this
    {
      SearchState(users, isLoading, hasSearched, current, inFlight, query)
    }

    constructor (mock: seq<User>)
      ensures this.mock == mock && State() == Initial
    {
      this.mock := mock;
      users, isLoading, hasSearched, current, inFlight, query := [], false, false, 0, false, "";
    }

    /**
     * `search(query, onSearchStart)`: abort the current controller if there is one, install a
     * new one, run `onSearchStart` if it is given, then set the loading flags.
     */
    method Search(q: string, hasCallback: bool) returns (effects: seq<Effect>)
      modifies this
      ensures State() == Step(mock, old(State()), Start(q))
      ensures effects ==
        (if old(current) > 0 then [Abort(old(current))] else [])
        + (if hasCallback then [RunOnSearchStart] else [])
        + [SetLoading, SetHasSearched]
    {
      effects := [];
      if current > 0 {
        effects := effects + [Abort(current)];
      }
      current := current + 1;
      inFlight := true;
      query := q;
      if hasCallback {
        effects := effects + [RunOnSearchStart];
      }
      isLoading := true;
      effects := effects + [SetLoading];
      hasSearched := true;
      effects := effects + [SetHasSearched];
    }

    /**
     * Search `k` settles. The current search resolves with the matching users, stores them and
     * clears the loading flag; a superseded one was rejected with an AbortError, which is
     * swallowed, and its `finally` sees the signal aborted, so nothing changes.
     */
    method SettleSearch(k: nat) returns (applied: bool)
      modifies this
      ensures State() == Step(mock, old(State()), Settle(k))
      ensures applied <==> k == old(current) && old(inFlight)
    {
      var aborted := k != current;
      if aborted || !inFlight {
        return false;
      }
      var results := FetchUsers(mock, query);
      users := results;
      isLoading := false;
      inFlight := false;
      applied := true;
    }
  }
}
