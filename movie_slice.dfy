/**
 * The movie state slice: the record held by the store, the actions the
 * reducer handles, and the reducer itself as a pure function `Step` on
 * values. `Run` folds `Step` over a sequence of already-settled actions;
 * the lemmas below state what such sequences do to every field.
 */
module MovieSlice {
  import opened Wrappers

  /** One title as the metadata service returns it. The reducer never looks inside. */
  datatype Movie = Movie(
    id: int,
    title: string,
    posterPath: string,
    releaseDate: string,
    voteAverage: real,
    firstAirDate: Option<string>,
    name: Option<string>)

  /** The keys of the category endpoint table; each names a bucket of the state. */
  datatype Category = Trending | TopRated | Upcoming | Popular

  /** The five result buckets of the state. */
  datatype Slot = CategorySlot(category: Category) | SearchSlot

  datatype MoviesState = MoviesState(
    trending: seq<Movie>,
    topRated: seq<Movie>,
    upcoming: seq<Movie>,
    popular: seq<Movie>,
    searchResults: seq<Movie>,
    loading: bool,
    error: Option<string>)

  /** The bucket a slot names (the source's `state[category]`, as a fixed switch). */
  function Bucket(s: MoviesState, slot: Slot): seq<Movie>
  {
    match slot
    case CategorySlot(Trending) => s.trending
    case CategorySlot(TopRated) => s.topRated
    case CategorySlot(Upcoming) => s.upcoming
    case CategorySlot(Popular) => s.popular
    case SearchSlot => s.searchResults
  }

  /** True when the two states hold the same five buckets. */
  ghost predicate SameBuckets(s: MoviesState, r: MoviesState)
  {
    forall slot :: Bucket(r, slot) == Bucket(s, slot)
  }

  /** True when the two states agree on every bucket except possibly `slot`. */
  ghost predicate SameBucketsExcept(s: MoviesState, r: MoviesState, slot: Slot)
  {
    forall other :: other != slot ==> Bucket(r, other) == Bucket(s, other)
  }

  /** Replaces one bucket by `payload` and keeps every other field. */
  function WithBucket(s: MoviesState, slot: Slot, payload: seq<Movie>): (r: MoviesState)
    ensures Bucket(r, slot) == payload
    ensures SameBucketsExcept(s, r, slot)
    ensures r.loading == s.loading && r.error == s.error
  {
    match slot
    case CategorySlot(Trending) => s.(trending := payload)
    case CategorySlot(TopRated) => s.(topRated := payload)
    case CategorySlot(Upcoming) => s.(upcoming := payload)
    case CategorySlot(Popular) => s.(popular := payload)
    case SearchSlot => s.(searchResults := payload)
  }

  /** Two states that agree on every bucket, the flag and the error are equal. */
  lemma StateExtensional(s: MoviesState, r: MoviesState)
    requires SameBuckets(s, r) && s.loading == r.loading && s.error == r.error
    ensures s == r
  {
    assert Bucket(r, CategorySlot(Trending)) == Bucket(s, CategorySlot(Trending));
    assert Bucket(r, CategorySlot(TopRated)) == Bucket(s, CategorySlot(TopRated));
    assert Bucket(r, CategorySlot(Upcoming)) == Bucket(s, CategorySlot(Upcoming));
    assert Bucket(r, CategorySlot(Popular)) == Bucket(s, CategorySlot(Popular));
    assert Bucket(r, SearchSlot) == Bucket(s, SearchSlot);
  }

  /** The state the store starts with. */
  function InitialState(): (s: MoviesState)
    ensures forall slot :: Bucket(s, slot) == []
    ensures !s.loading && s.error == None
  {
    MoviesState([], [], [], [], [], false, None)
  }

  const CategoryFallback: string := "Failed to fetch movies"
  const SearchFallback: string := "Failed to fetch search results"

  /**
   * JavaScript's `message || fallback` on an optional string: an absent or
   * empty message gives way to the fallback.
   */
  function ErrorText(message: Option<string>, fallback: string): (t: string)
    ensures message.Some? && message.value != [] ==> t == message.value
    ensures message.None? || message.value == [] ==> t == fallback
    ensures fallback != [] ==> t != []
  {
    if message.Some? && message.value != [] then message.value else fallback
  }

  /**
   * The actions the reducer handles. A rejected action carries
   * `action.error.message`, which may be absent.
   */
  datatype Action =
    | ClearSearchResults
    | CategoryPending
    | CategoryFulfilled(category: Category, payload: seq<Movie>)
    | CategoryRejected(message: Option<string>)
    | SearchPending
    | SearchFulfilled(payload: seq<Movie>)
    | SearchRejected(message: Option<string>)

  /** The reducer: the state after one action. */
  function Step(s: MoviesState, a: Action): (r: MoviesState)
    ensures a.ClearSearchResults? ==>
      r.searchResults == [] && SameBucketsExcept(s, r, SearchSlot) &&
      r.loading == s.loading && r.error == s.error
    ensures a.CategoryPending? || a.SearchPending? ==>
      r.loading && SameBuckets(s, r) && r.error == s.error
    ensures a.CategoryFulfilled? ==>
      Bucket(r, CategorySlot(a.category)) == a.payload &&
      SameBucketsExcept(s, r, CategorySlot(a.category)) &&
      !r.loading && r.error == s.error
    ensures a.SearchFulfilled? ==>
      r.searchResults == a.payload && SameBucketsExcept(s, r, SearchSlot) &&
      !r.loading && r.error == s.error
    ensures a.CategoryRejected? ==>
      r.error == Some(ErrorText(a.message, CategoryFallback)) &&
      !r.loading && SameBuckets(s, r)
    ensures a.SearchRejected? ==>
      r.error == Some(ErrorText(a.message, SearchFallback)) &&
      !r.loading && SameBuckets(s, r)
  {
    match a
    case ClearSearchResults => WithBucket(s, SearchSlot, [])
    case CategoryPending => s.(loading := true)
    case CategoryFulfilled(c, p) => WithBucket(s, CategorySlot(c), p).(loading := false)
    case CategoryRejected(m) => s.(error := Some(ErrorText(m, CategoryFallback)), loading := false)
    case SearchPending => s.(loading := true)
    case SearchFulfilled(p) => WithBucket(s, SearchSlot, p).(loading := false)
    case SearchRejected(m) => s.(error := Some(ErrorText(m, SearchFallback)), loading := false)
  }

  /** Clearing the search results twice is the same as clearing them once. */
  lemma ClearSearchResultsIdempotent(s: MoviesState)
    ensures Step(Step(s, ClearSearchResults), ClearSearchResults) == Step(s, ClearSearchResults)
  {
  }

  // ---------------------------------------------------------------------
  // Effects of an action, field by field. These give a second, table-like
  // description of the reducer, from which commutation is read off.

  /** The bucket an action overwrites, and with what. */
  function WriteOf(a: Action): Option<(Slot, seq<Movie>)>
  {
    match a
    case ClearSearchResults => Some((SearchSlot, []))
    case CategoryFulfilled(c, p) => Some((CategorySlot(c), p))
    case SearchFulfilled(p) => Some((SearchSlot, p))
    case _ => None
  }

  /** The value an action gives the loading flag, if it touches it. */
  function LoadingOf(a: Action): Option<bool>
  {
    match a
    case ClearSearchResults => None
    case CategoryPending => Some(true)
    case SearchPending => Some(true)
    case _ => Some(false)
  }

  /** The message an action stores in `error`, if it touches it. */
  function ErrorOf(a: Action): Option<string>
  {
    match a
    case CategoryRejected(m) => Some(ErrorText(m, CategoryFallback))
    case SearchRejected(m) => Some(ErrorText(m, SearchFallback))
    case _ => None
  }

  predicate WritesTo(a: Action, slot: Slot)
  {
    WriteOf(a).Some? && WriteOf(a).value.0 == slot
  }

  /** The reducer agrees with the effect table on every field. */
  lemma StepByEffects(s: MoviesState, a: Action)
    ensures forall slot :: Bucket(Step(s, a), slot) ==
                           (if WritesTo(a, slot) then WriteOf(a).value.1 else Bucket(s, slot))
    ensures Step(s, a).loading == LoadingOf(a).GetOr(s.loading)
    ensures Step(s, a).error == if ErrorOf(a).Some? then ErrorOf(a) else s.error
  {
  }

  /**
   * Two actions are independent when they write different buckets and do
   * not give the loading flag or the error different values.
   */
  predicate Independent(a: Action, b: Action)
  {
    (WriteOf(a).None? || WriteOf(b).None? || WriteOf(a).value.0 != WriteOf(b).value.0) &&
    (LoadingOf(a).None? || LoadingOf(b).None? || LoadingOf(a) == LoadingOf(b)) &&
    (ErrorOf(a).None? || ErrorOf(b).None? || ErrorOf(a) == ErrorOf(b))
  }

  /** Independent actions commute: either order reaches the same state. */
  lemma IndependentActionsCommute(s: MoviesState, a: Action, b: Action)
    requires Independent(a, b)
    ensures Step(Step(s, a), b) == Step(Step(s, b), a)
  {
    var ab, ba := Step(Step(s, a), b), Step(Step(s, b), a);
    StepByEffects(s, a);
    StepByEffects(Step(s, a), b);
    StepByEffects(s, b);
    StepByEffects(Step(s, b), a);
    forall slot ensures Bucket(ab, slot) == Bucket(ba, slot) {
      if WritesTo(a, slot) {
        assert !WritesTo(b, slot);
      }
    }
    StateExtensional(ab, ba);
  }

  /** Two fulfilled category fetches for different categories commute. */
  lemma CategoryFulfilledCommute(s: MoviesState, c1: Category, p1: seq<Movie>, c2: Category, p2: seq<Movie>)
    requires c1 != c2
    ensures Step(Step(s, CategoryFulfilled(c1, p1)), CategoryFulfilled(c2, p2)) ==
            Step(Step(s, CategoryFulfilled(c2, p2)), CategoryFulfilled(c1, p1))
  {
  }

  // ---------------------------------------------------------------------
  // Sequences of settled actions.

  /** The state after applying the actions of `es` in order. */
  function Run(s: MoviesState, es: seq<Action>): MoviesState
    decreases |es|
  {
    if es == [] then s else Step(Run(s, es[..|es| - 1]), es[|es| - 1])
  }

  lemma RunSnoc(s: MoviesState, es: seq<Action>, e: Action)
    ensures Run(s, es + [e]) == Step(Run(s, es), e)
  {
  }

  /** Running two sequences one after the other is running their concatenation. */
  lemma {:induction false} RunAppend(s: MoviesState, xs: seq<Action>, ys: seq<Action>)
    ensures Run(s, xs + ys) == Run(Run(s, xs), ys)
    decreases |ys|
  {
    if ys == [] {
      assert xs + ys == xs;
    } else {
      var n := |ys| - 1;
      assert xs + ys == (xs + ys[..n]) + [ys[n]];
      RunSnoc(s, xs + ys[..n], ys[n]);
      RunAppend(s, xs, ys[..n]);
    }
  }

  /** No action resets the error: once set, it stays set. */
  lemma {:induction false} ErrorStaysSet(s: MoviesState, es: seq<Action>)
    requires s.error.Some?
    ensures Run(s, es).error.Some?
    decreases |es|
  {
    if es != [] {
      ErrorStaysSet(s, es[..|es| - 1]);
    }
  }

  /** A stored error message is never the empty string. */
  lemma {:induction false} ErrorNeverEmpty(s: MoviesState, es: seq<Action>)
    requires s.error.Some? ==> s.error.value != []
    ensures Run(s, es).error.Some? ==> Run(s, es).error.value != []
    decreases |es|
  {
    if es != [] {
      ErrorNeverEmpty(s, es[..|es| - 1]);
    }
  }

  /** Without a rejection the error is what it was before. */
  lemma {:induction false} ErrorWithoutRejection(s: MoviesState, es: seq<Action>)
    requires forall j :: 0 <= j < |es| ==> ErrorOf(es[j]).None?
    ensures Run(s, es).error == s.error
    decreases |es|
  {
    if es != [] {
      var n := |es| - 1;
      StepByEffects(Run(s, es[..n]), es[n]);
      ErrorWithoutRejection(s, es[..n]);
    }
  }

  /** The error holds the message of the last rejection. */
  lemma {:induction false} ErrorFromLastRejection(s: MoviesState, es: seq<Action>, i: nat)
    requires i < |es| && ErrorOf(es[i]).Some?
    requires forall j :: i < j < |es| ==> ErrorOf(es[j]).None?
    ensures Run(s, es).error == ErrorOf(es[i])
    decreases |es|
  {
    var n := |es| - 1;
    StepByEffects(Run(s, es[..n]), es[n]);
    if i < n {
      ErrorFromLastRejection(s, es[..n], i);
    }
  }

  /** A bucket no action writes keeps its contents: stale data survives. */
  lemma {:induction false} BucketWithoutWrite(s: MoviesState, es: seq<Action>, slot: Slot)
    requires forall j :: 0 <= j < |es| ==> !WritesTo(es[j], slot)
    ensures Bucket(Run(s, es), slot) == Bucket(s, slot)
    decreases |es|
  {
    if es != [] {
      var n := |es| - 1;
      StepByEffects(Run(s, es[..n]), es[n]);
      BucketWithoutWrite(s, es[..n], slot);
    }
  }

  /** A bucket holds exactly the payload of the last action that wrote it. */
  lemma {:induction false} BucketFromLastWrite(s: MoviesState, es: seq<Action>, i: nat, slot: Slot)
    requires i < |es| && WritesTo(es[i], slot)
    requires forall j :: i < j < |es| ==> !WritesTo(es[j], slot)
    ensures Bucket(Run(s, es), slot) == WriteOf(es[i]).value.1
    decreases |es|
  {
    var n := |es| - 1;
    StepByEffects(Run(s, es[..n]), es[n]);
    if i < n {
      BucketFromLastWrite(s, es[..n], i, slot);
    }
  }

  /** The loading flag is set exactly when the last fetch action was a pending one. */
  lemma {:induction false} LoadingFromLastFetchAction(s: MoviesState, es: seq<Action>, i: nat)
    requires i < |es| && LoadingOf(es[i]).Some?
    requires forall j :: i < j < |es| ==> LoadingOf(es[j]).None?
    ensures Run(s, es).loading <==> es[i].CategoryPending? || es[i].SearchPending?
    decreases |es|
  {
    var n := |es| - 1;
    StepByEffects(Run(s, es[..n]), es[n]);
    if i < n {
      LoadingFromLastFetchAction(s, es[..n], i);
    }
  }

  /** Without a fetch action (only clears) the loading flag is what it was before. */
  lemma {:induction false} LoadingWithoutFetch(s: MoviesState, es: seq<Action>)
    requires forall j :: 0 <= j < |es| ==> LoadingOf(es[j]).None?
    ensures Run(s, es).loading == s.loading
    decreases |es|
  {
    if es != [] {
      var n := |es| - 1;
      StepByEffects(Run(s, es[..n]), es[n]);
      LoadingWithoutFetch(s, es[..n]);
    }
  }

  /**
   * The loading flag is shared by every fetch: a category fetch that settles
   * clears it while a search is still in flight.
   */
  lemma LoadingClearedWhileSearchInFlight(s: MoviesState, c: Category, p: seq<Movie>)
    ensures Run(s, [SearchPending, CategoryPending]).loading
    ensures !Run(s, [SearchPending, CategoryPending, CategoryFulfilled(c, p)]).loading
  {
    var es := [SearchPending, CategoryPending, CategoryFulfilled(c, p)];
    LoadingFromLastFetchAction(s, es[..2], 1);
    LoadingFromLastFetchAction(s, es, 2);
  }
}
