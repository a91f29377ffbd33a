/**
 * The store that owns the movie state: one object whose seven fields the
 * reducer cases assign in place. A ghost history records every action
 * dispatched so far, and `Valid` ties the fields to `Run` over that history,
 * so every lemma about action sequences applies to the live store.
 */
module MovieStore {
  import opened Wrappers
  import opened MovieSlice

  class Store {
    var trending: seq<Movie>
    var topRated: seq<Movie>
    var upcoming: seq<Movie>
    var popular: seq<Movie>
    var searchResults: seq<Movie>
    var loading: bool
    var error: Option<string>

    /** Every action applied since the store was created. */
    ghost var history: seq<Action>

    /** The fields as a state value. */
    function State(): MoviesState
      reads this
    {
      MoviesState(trending, topRated, upcoming, popular, searchResults, loading, error)
    }

    ghost predicate Valid()
      reads this
    {
      State() == Run(InitialState(), history)
    }

    /** The store as the application creates it: all buckets empty, not loading, no error. */
    constructor ()
      ensures Valid() && history == []
      ensures trending == [] && topRated == [] && upcoming == [] && popular == []
      ensures searchResults == [] && !loading && error == None
    {
      trending, topRated, upcoming, popular := [], [], [], [];
      searchResults, loading, error := [], false, None;
      history := [];
    }

    /** Records `a` in the history once the fields hold `Step(old state, a)`. */
    ghost method Record(before: MoviesState, a: Action)
      requires before == Run(InitialState(), history)
      requires State() == Step(before, a)
      modifies this`history
      ensures history == old(history) + [a] && Valid()
    {
      RunSnoc(InitialState(), history, a);
      history := history + [a];
    }

    method ClearSearchResults()
      requires Valid()
      modifies this
      ensures Valid() && history == old(history) + [Action.ClearSearchResults]
      ensures searchResults == []
      ensures trending == old(trending) && topRated == old(topRated)
      ensures upcoming == old(upcoming) && popular == old(popular)
      ensures loading == old(loading) && error == old(error)
    {
      ghost var before := State();
      searchResults := [];
      Record(before, Action.ClearSearchResults);
    }

    method FetchByCategoryPending()
      requires Valid()
      modifies this
      ensures Valid() && history == old(history) + [CategoryPending]
      ensures loading
      ensures trending == old(trending) && topRated == old(topRated)
      ensures upcoming == old(upcoming) && popular == old(popular)
      ensures searchResults == old(searchResults) && error == old(error)
    {
      ghost var before := State();
      loading := true;
      Record(before, CategoryPending);
    }

    method FetchByCategoryFulfilled(category: Category, payload: seq<Movie>)
      requires Valid()
      modifies this
      ensures Valid() && history == old(history) + [CategoryFulfilled(category, payload)]
      ensures Bucket(State(), CategorySlot(category)) == payload
      ensures SameBucketsExcept(old(State()), State(), CategorySlot(category))
      ensures !loading && error == old(error)
    {
      ghost var before := State();
      match category {
        case Trending => trending := payload;
        case TopRated => topRated := payload;
        case Upcoming => upcoming := payload;
        case Popular => popular := payload;
      }
      loading := false;
      Record(before, CategoryFulfilled(category, payload));
    }

    method FetchByCategoryRejected(message: Option<string>)
      requires Valid()
      modifies this
      ensures Valid() && history == old(history) + [CategoryRejected(message)]
      ensures error == Some(ErrorText(message, CategoryFallback)) && !loading
      ensures trending == old(trending) && topRated == old(topRated)
      ensures upcoming == old(upcoming) && popular == old(popular)
      ensures searchResults == old(searchResults)
    {
      ghost var before := State();
      error := Some(ErrorText(message, CategoryFallback));
      loading := false;
      Record(before, CategoryRejected(message));
    }

    method FetchBySearchPending()
      requires Valid()
      modifies this
      ensures Valid() && history == old(history) + [SearchPending]
      ensures loading
      ensures trending == old(trending) && topRated == old(topRated)
      ensures upcoming == old(upcoming) && popular == old(popular)
      ensures searchResults == old(searchResults) && error == old(error)
    {
      ghost var before := State();
      loading := true;
      Record(before, SearchPending);
    }

    method FetchBySearchFulfilled(payload: seq<Movie>)
      requires Valid()
      modifies this
      ensures Valid() && history == old(history) + [SearchFulfilled(payload)]
      ensures searchResults == payload && !loading
      ensures trending == old(trending) && topRated == old(topRated)
      ensures upcoming == old(upcoming) && popular == old(popular)
      ensures error == old(error)
    {
      ghost var before := State();
      searchResults := payload;
      loading := false;
      Record(before, SearchFulfilled(payload));
    }

    method FetchBySearchRejected(message: Option<string>)
      requires Valid()
      modifies this
      ensures Valid() && history == old(history) + [SearchRejected(message)]
      ensures error == Some(ErrorText(message, SearchFallback)) && !loading
      ensures trending == old(trending) && topRated == old(topRated)
      ensures upcoming == old(upcoming) && popular == old(popular)
      ensures searchResults == old(searchResults)
    {
      ghost var before := State();
      error := Some(ErrorText(message, SearchFallback));
      loading := false;
      Record(before, SearchRejected(message));
    }

    /** Hands an action to the reducer case that handles it. */
    method Dispatch(a: Action)
      requires Valid()
      modifies this
      ensures Valid() && history == old(history) + [a]
      ensures State() == Step(old(State()), a)
      ensures error.Some? ==> error.value != []
      ensures old(error).Some? ==> error.Some?
    {
      match a {
        case ClearSearchResults => ClearSearchResults();
        case CategoryPending => FetchByCategoryPending();
        case CategoryFulfilled(c, p) => FetchByCategoryFulfilled(c, p);
        case CategoryRejected(m) => FetchByCategoryRejected(m);
        case SearchPending => FetchBySearchPending();
        case SearchFulfilled(p) => FetchBySearchFulfilled(p);
        case SearchRejected(m) => FetchBySearchRejected(m);
      }
      ErrorNeverEmpty(InitialState(), history);
    }
  }
}
