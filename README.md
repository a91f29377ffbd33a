# Movie state slice

A model of the movie state slice of a small movie-browsing web client. The
slice holds one record: four category result lists (trending, top-rated,
upcoming, popular), the search results, one `loading` flag shared by every
fetch, and an error message that may be absent. Two asynchronous fetches
each dispatch a pending action, then a fulfilled or a rejected one. One
synchronous action clears the search results.

The model has four modules:

- `Wrappers` (wrappers.dfy): `Option`, which stands for the source's `string | null`.
- `MovieSlice` (movie_slice.dfy): the state as a value, the actions, and the
  reducer as a pure function `Step`. It also has a second, table-like
  description of each action's effect (`WriteOf`, `LoadingOf`, `ErrorOf`),
  `Run`, which applies a sequence of settled actions in order, and lemmas
  about such sequences: the error never becomes null again, last write wins
  per bucket and per field, stale data survives, and independent actions
  commute.
- `MovieThunks` (movie_thunks.dfy): the thunks' status check, with the
  network call as an abstract `Response`. It also holds the search request
  path and the pending-then-settled lifecycle of a single fetch, run through
  the reducer.
- `MovieStore` (movie_store.dfy): the store as a class whose seven fields
  the reducer cases assign in place. There is one method per case, plus
  `Dispatch`. A ghost `history` of dispatched actions is tied to the fields
  by `Valid()` (`State() == Run(InitialState(), history)`), so the
  sequence lemmas hold of the live store; `Dispatch` uses them to promise
  that a stored error is never empty and, once set, stays set.

No reducer case sets `error` back to null, so a successful fetch leaves an
earlier error in place (`ErrorStaysSet`, `ErrorWithoutRejection`). On
rejection the reducer stores `action.error.message`, or the kind's fallback
when that is absent or empty. The model takes that message as an input of
the rejected action and never links it to the thunk's `rejectWithValue`
value.

## Model

| member | source | states |
|---|---|---|
| `MovieSlice.InitialState` | src/redux/movieSlice.ts:29-37 | all five buckets are empty, `loading` is false and there is no error |
| `MovieSlice.WithBucket` | src/redux/movieSlice.ts:88 | writing a bucket sets that bucket to exactly the payload and leaves the other four buckets, the flag and the error unchanged |
| `MovieSlice.ErrorText` | src/redux/movieSlice.ts:92-103 | JavaScript's or-operator on the message: a non-empty message is kept, an absent or empty one is replaced by the fallback, so the text is never empty when the fallback is not |
| `MovieSlice.Step` | src/redux/movieSlice.ts:77-105 | per action: a pending action sets `loading` and keeps buckets and error; a fulfilled action replaces exactly its target bucket with the payload, clears `loading` and keeps the other buckets and the error; a rejected action clears `loading`, stores the message or that kind's fallback, and keeps every bucket; clearing empties only `searchResults` |
| `MovieSlice.ClearSearchResultsIdempotent` | src/redux/movieSlice.ts:77-79 | clearing the search results twice gives the same state as clearing them once |
| `MovieSlice.StepByEffects` | src/redux/movieSlice.ts:77-105 | the reducer agrees field by field with the effect table: buckets written by the action, loading value, error message |
| `MovieSlice.IndependentActionsCommute` | src/redux/movieSlice.ts:83-105 | two actions that write different buckets and do not set the flag or the error to different values reach the same state in either order |
| `MovieSlice.CategoryFulfilledCommute` | src/redux/movieSlice.ts:86-90 | fulfilled fetches for two different categories commute |
| `MovieSlice.ErrorStaysSet` | src/redux/movieSlice.ts:77-105 | once `error` is set, no sequence of actions makes it null again |
| `MovieSlice.ErrorNeverEmpty` | src/redux/movieSlice.ts:91-94 | a stored error message is never the empty string, after any sequence of actions |
| `MovieSlice.ErrorWithoutRejection` | src/redux/movieSlice.ts:83-101 | a sequence with no rejected action leaves `error` as it was, even after a successful fetch |
| `MovieSlice.ErrorFromLastRejection` | src/redux/movieSlice.ts:91-105 | after any sequence, `error` holds the message of the last rejected action |
| `MovieSlice.BucketWithoutWrite` | src/redux/movieSlice.ts:77-105 | a bucket that no action in the sequence writes keeps its contents (stale data survives rejections) |
| `MovieSlice.BucketFromLastWrite` | src/redux/movieSlice.ts:86-90 | a bucket holds exactly the payload of the last action that wrote it (last write wins) |
| `MovieSlice.LoadingFromLastFetchAction` | src/redux/movieSlice.ts:83-100 | `loading` is true exactly when the last fetch action was a pending one, whatever kind of fetch it belongs to |
| `MovieSlice.LoadingWithoutFetch` | src/redux/movieSlice.ts:77-79 | a sequence with no fetch action (only clears) leaves `loading` as it was |
| `MovieSlice.LoadingClearedWhileSearchInFlight` | src/redux/movieSlice.ts:84-89 | the flag is shared: a category fetch that settles clears `loading` while a search is still pending |
| `MovieThunks.Settle` | src/redux/movieSlice.ts:42-68 | the thunk fulfils with the response's `results` exactly when the response arrived with status 200; any other status or a thrown failure rejects with "Failed to fetch movies" |
| `MovieThunks.SearchUrl` | src/redux/movieSlice.ts:60 | the search path is `search/movie?query=` followed by the encoded query |
| `MovieThunks.SearchUrlDistinguishesQueries` | src/redux/movieSlice.ts:60 | queries the encoder tells apart are sent to different paths |
| `MovieThunks.CategorySettled` | src/redux/movieSlice.ts:39-54 | a fulfilled category thunk dispatches the fulfilled action with the category it was called with and the results; a rejected one dispatches the rejected action |
| `MovieThunks.SearchSettled` | src/redux/movieSlice.ts:56-71 | a fulfilled search thunk dispatches the fulfilled action with the results; a rejected one dispatches the rejected action |
| `MovieThunks.CategoryFetchLifecycle` | src/redux/movieSlice.ts:83-94 | pending then settled: loading is on in between and off at the end; on status 200 the category's bucket becomes the results and the error is kept; otherwise every bucket is kept and a non-empty error is stored; other buckets never change |
| `MovieThunks.SearchFetchLifecycle` | src/redux/movieSlice.ts:95-105 | the same for a search: only `searchResults` can change, and only on status 200 |
| `MovieThunks.ConcurrentCategoryFetches` | src/redux/movieSlice.ts:83-90 | two successful fetches for different categories in flight at once end in the same state whichever settles first, each bucket holding its own results and loading off |
| `MovieStore.Store.constructor` | src/redux/movieSlice.ts:29-37 | the new store has empty buckets, loading off, no error and an empty history |
| `MovieStore.Store.ClearSearchResults` | src/redux/movieSlice.ts:77-79 | empties `searchResults`, keeps every other field, and records the action |
| `MovieStore.Store.FetchByCategoryPending` | src/redux/movieSlice.ts:83-85 | sets `loading`, keeps all buckets and the error |
| `MovieStore.Store.FetchByCategoryFulfilled` | src/redux/movieSlice.ts:86-90 | sets the named category's bucket to the payload, clears `loading`, keeps the other buckets and the error |
| `MovieStore.Store.FetchByCategoryRejected` | src/redux/movieSlice.ts:91-94 | stores the message or "Failed to fetch movies", clears `loading`, keeps all buckets |
| `MovieStore.Store.FetchBySearchPending` | src/redux/movieSlice.ts:95-97 | sets `loading`, keeps all buckets and the error |
| `MovieStore.Store.FetchBySearchFulfilled` | src/redux/movieSlice.ts:98-101 | sets `searchResults` to the payload, clears `loading`, keeps the category buckets and the error |
| `MovieStore.Store.FetchBySearchRejected` | src/redux/movieSlice.ts:102-105 | stores the message or "Failed to fetch search results", clears `loading`, keeps all buckets |
| `MovieStore.Store.Dispatch` | src/redux/movieSlice.ts:81-106 | applying any action to the store gives the state `Step` gives and extends the history by that action; a stored error is never empty and an error that was set stays set |

## Left out

- The HTTP client and the category endpoint table (`URLS`) are not part of this model. A response is an abstract `Response`: a status with a result list, or a thrown failure (a transport error, or for example a null body). So the category request path is not modelled.
- A 200 response whose body has no `results` list is not modelled: the source would fulfil with `undefined` and store it in the bucket, which `seq<Movie>` cannot express.
- `encodeURIComponent` is taken as an uninterpreted function parameter of `SearchUrl`.
- `console.error` logging in both thunks is I/O and is not modelled.
- The Redux Toolkit machinery (`createAsyncThunk`, `createSlice`, draft updates) and the asynchronous interleaving of requests are not modelled. Concurrency is modelled only as an arbitrary order of already-settled actions.
- The text Redux Toolkit puts in `action.error.message` for a rejected thunk is an input of the rejected action. The model does not claim the thunk's rejection value reaches `error`.
- The fields of `Movie` are carried but never inspected, as in the source.
- `src/App.tsx` is routing and provider wiring with no logic, and is not modelled.
