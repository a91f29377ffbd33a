/**
 * The two fetch thunks, with the network call left abstract: the decision
 * that turns a response into a fulfilled or rejected outcome, the search
 * request path, and the pending-then-settled lifecycle each dispatch
 * drives through the reducer.
 */
module MovieThunks {
  import opened Wrappers
  import opened MovieSlice

  /**
   * What the HTTP client hands back: a response with a result list, or a
   * failure that throws (a transport error, or for example a null body).
   */
  datatype Response = Responded(status: int, results: seq<Movie>) | TransportFailed

  /** How a thunk settles: with the result list, or rejected with a value. */
  datatype Outcome = Fulfilled(payload: seq<Movie>) | RejectedWithValue(value: string)

  /** The value both thunks reject with, whatever went wrong. */
  const RejectValue: string := "Failed to fetch movies"

  /**
   * The status check shared by both thunks: only a 200 response yields its
   * results; any other status, and any thrown failure, is caught and rejected.
   */
  function Settle(resp: Response): (o: Outcome)
    ensures o.Fulfilled? <==> resp.Responded? && resp.status == 200
    ensures o.Fulfilled? ==> o.payload == resp.results
    ensures o.RejectedWithValue? ==> o.value == RejectValue
  {
    match resp
    case Responded(status, results) =>
      if status != 200 then RejectedWithValue(RejectValue) else Fulfilled(results)
    case TransportFailed => RejectedWithValue(RejectValue)
  }

  /** True when the response makes the thunk fulfil. */
  predicate Succeeds(resp: Response)
  {
    resp.Responded? && resp.status == 200
  }

  const SearchPrefix: string := "search/movie?query="

  /** The search request path, for a query encoder the model does not interpret. */
  function SearchUrl(query: string, encode: string -> string): (url: string)
    ensures |url| == |SearchPrefix| + |encode(query)|
    ensures url[..|SearchPrefix|] == SearchPrefix
    ensures url[|SearchPrefix|..] == encode(query)
  {
    SearchPrefix + encode(query)
  }

  /** Queries the encoder tells apart are sent to different paths. */
  lemma SearchUrlDistinguishesQueries(q1: string, q2: string, encode: string -> string)
    requires encode(q1) != encode(q2)
    ensures SearchUrl(q1, encode) != SearchUrl(q2, encode)
  {
  }

  /**
   * The action a settled category fetch dispatches. `message` is what the
   * rejected action carries in `error.message`.
   */
  function CategorySettled(category: Category, o: Outcome, message: Option<string>): (a: Action)
    ensures o.Fulfilled? ==> a == CategoryFulfilled(category, o.payload)
    ensures o.RejectedWithValue? ==> a == CategoryRejected(message)
  {
    match o
    case Fulfilled(p) => CategoryFulfilled(category, p)
    case RejectedWithValue(_) => CategoryRejected(message)
  }

  /** The action a settled search fetch dispatches. */
  function SearchSettled(o: Outcome, message: Option<string>): (a: Action)
    ensures o.Fulfilled? ==> a == SearchFulfilled(o.payload)
    ensures o.RejectedWithValue? ==> a == SearchRejected(message)
  {
    match o
    case Fulfilled(p) => SearchFulfilled(p)
    case RejectedWithValue(_) => SearchRejected(message)
  }

  lemma RunPair(s: MoviesState, a: Action, b: Action)
    ensures Run(s, [a]) == Step(s, a)
    ensures Run(s, [a, b]) == Step(Step(s, a), b)
  {
  }

  /**
   * One category fetch, pending then settled: loading is on in between and
   * off at the end; a 200 response replaces the category's bucket and keeps
   * the error; anything else keeps every bucket and stores a non-empty
   * error. No other bucket changes.
   */
  lemma CategoryFetchLifecycle(s: MoviesState, c: Category, resp: Response, message: Option<string>)
    ensures Run(s, [CategoryPending]).loading
    ensures var r := Run(s, [CategoryPending, CategorySettled(c, Settle(resp), message)]);
      !r.loading && SameBucketsExcept(s, r, CategorySlot(c)) &&
      (Succeeds(resp) ==>
        Bucket(r, CategorySlot(c)) == resp.results && r.error == s.error) &&
      (!Succeeds(resp) ==>
        Bucket(r, CategorySlot(c)) == Bucket(s, CategorySlot(c)) &&
        r.error == Some(ErrorText(message, CategoryFallback)) && r.error.value != [])
  {
    RunPair(s, CategoryPending, CategorySettled(c, Settle(resp), message));
  }

  /** One search fetch, pending then settled; the category buckets never change. */
  lemma SearchFetchLifecycle(s: MoviesState, resp: Response, message: Option<string>)
    ensures Run(s, [SearchPending]).loading
    ensures var r := Run(s, [SearchPending, SearchSettled(Settle(resp), message)]);
      !r.loading && SameBucketsExcept(s, r, SearchSlot) &&
      (Succeeds(resp) ==> r.searchResults == resp.results && r.error == s.error) &&
      (!Succeeds(resp) ==>
        r.searchResults == s.searchResults &&
        r.error == Some(ErrorText(message, SearchFallback)) && r.error.value != [])
  {
    RunPair(s, SearchPending, SearchSettled(Settle(resp), message));
  }

  /**
   * Two category fetches in flight at once, for different categories, both
   * successful: whichever settles first, the end state is the same, each
   * bucket holds its own results and loading is off.
   */
  lemma ConcurrentCategoryFetches(s: MoviesState, c1: Category, p1: seq<Movie>, c2: Category, p2: seq<Movie>)
    requires c1 != c2
    ensures var inOrder := Run(s, [CategoryPending, CategoryPending, CategoryFulfilled(c1, p1), CategoryFulfilled(c2, p2)]);
      var swapped := Run(s, [CategoryPending, CategoryPending, CategoryFulfilled(c2, p2), CategoryFulfilled(c1, p1)]);
      inOrder == swapped &&
      Bucket(inOrder, CategorySlot(c1)) == p1 && Bucket(inOrder, CategorySlot(c2)) == p2 &&
      !inOrder.loading
  {
    var pre := [CategoryPending, CategoryPending];
    var a, b := CategoryFulfilled(c1, p1), CategoryFulfilled(c2, p2);
    var mid := Run(s, pre);
    RunAppend(s, pre, [a, b]);
    RunAppend(s, pre, [b, a]);
    assert pre + [a, b] == [CategoryPending, CategoryPending, a, b];
    assert pre + [b, a] == [CategoryPending, CategoryPending, b, a];
    RunPair(mid, a, b);
    RunPair(mid, b, a);
    CategoryFulfilledCommute(mid, c1, p1, c2, p2);
  }
}
