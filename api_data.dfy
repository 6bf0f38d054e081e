/**
 * The data-fetching hook of `hooks/useApiData.ts`: a loading / data / error
 * triple per hook instance, and one cache shared by every instance, keyed by a
 * string and holding results for five minutes.
 *
 * The clock (`Date.now()`, read once before the cache lookup and once when the
 * cache is written) and the awaited fetch function are inputs of `Fetch`: the
 * caller supplies both readings and the loader's outcome.
 */
module ApiData {
  import opened Wrappers

  /** Cache entries are fresh for five minutes, in milliseconds. */
  const CACHE_DURATION: int := 5 * 60 * 1000

  const UNKNOWN_ERROR: string := "An unknown error occurred"

  datatype Error = Error(message: string)

  datatype Entry<T> = Entry(data: T, timestamp: int)

  /** How the awaited fetch function ended: with a value, by throwing an `Error`, or by throwing anything else. */
  datatype LoadOutcome<T> = Loaded(value: T) | Threw(err: Error) | ThrewNonError

  /** The three fields the hook returns. */
  datatype State<T> = State(data: Option<T>, isLoading: bool, error: Option<Error>)

  /** `if (cacheKey)`: the key takes part only when it is present and non-empty. */
  predicate HasKey(cacheKey: Option<string>) {
    cacheKey.Some? && cacheKey.value != ""
  }

  /** The lookup that short-cuts the loader: an entry whose age is below the duration. */
  predicate Hit<T>(entries: map<string, Entry<T>>, cacheKey: Option<string>, now: int) {
    HasKey(cacheKey) && cacheKey.value in entries && now - entries[cacheKey.value].timestamp < CACHE_DURATION
  }

  /** What one call of `fetchData` leaves behind. */
  datatype Effect<T> = Effect(state: State<T>, entries: map<string, Entry<T>>, loaderCalled: bool)

  /** The error the catch block records. */
  function Caught<T>(outcome: LoadOutcome<T>): (e: Error)
    requires !outcome.Loaded?
    ensures outcome.Threw? ==> e == outcome.err
    ensures outcome.ThrewNonError? ==> e.message == UNKNOWN_ERROR
  {
    if outcome.Threw? then outcome.err else Error(UNKNOWN_ERROR)
  }

  /**
   * One call of `fetchData` from state `s` with the cache `entries`, the clock at
   * `now` for the lookup and at `loadedAt` for the write.
   */
  function FetchStep<T>(s: State<T>, entries: map<string, Entry<T>>, cacheKey: Option<string>,
                        now: int, outcome: LoadOutcome<T>, loadedAt: int): (r: Effect<T>)
    ensures !r.state.isLoading
    ensures r.loaderCalled <==> !Hit(entries, cacheKey, now)
    ensures Hit(entries, cacheKey, now) ==>
      r.state == State(Some(entries[cacheKey.value].data), false, None) && r.entries == entries
    ensures !HasKey(cacheKey) ==> r.entries == entries
    ensures r.loaderCalled && outcome.Loaded? ==>
      r.state == State(Some(outcome.value), false, None) &&
      r.entries == if HasKey(cacheKey) then entries[cacheKey.value := Entry(outcome.value, loadedAt)] else entries
    ensures r.loaderCalled && !outcome.Loaded? ==>
      r.state == State(s.data, false, Some(Caught(outcome))) && r.entries == entries
  {
    if Hit(entries, cacheKey, now) then
      Effect(State(Some(entries[cacheKey.value].data), false, None), entries, false)
    else match outcome
      case Loaded(v) =>
        Effect(State(Some(v), false, None),
               if HasKey(cacheKey) then entries[cacheKey.value := Entry(v, loadedAt)] else entries,
               true)
      case _ =>
        Effect(State(s.data, false, Some(Caught(outcome))), entries, true)
  }

  /** Another key's entry is never changed by a fetch. */
  lemma OtherKeysUntouched<T>(s: State<T>, entries: map<string, Entry<T>>, cacheKey: Option<string>,
                              now: int, outcome: LoadOutcome<T>, loadedAt: int, other: string)
    requires !HasKey(cacheKey) || other != cacheKey.value
    ensures var r := FetchStep(s, entries, cacheKey, now, outcome, loadedAt);
      (other in r.entries <==> other in entries) &&
      (other in entries ==> r.entries[other] == entries[other])
  {
  }

  /**
   * A successful load, followed within five minutes by a second fetch under the
   * same key, is served from the cache whatever the loader would have done.
   */
  lemma SecondFetchHits<T>(s: State<T>, entries: map<string, Entry<T>>, key: string,
                           now1: int, v: T, loadedAt: int,
                           now2: int, outcome2: LoadOutcome<T>, loadedAt2: int)
    requires key != ""
    requires !Hit(entries, Some(key), now1)
    requires now2 - loadedAt < CACHE_DURATION
    ensures var first := FetchStep(s, entries, Some(key), now1, Loaded(v), loadedAt);
      var second := FetchStep(first.state, first.entries, Some(key), now2, outcome2, loadedAt2);
      !second.loaderCalled && second.state == State(Some(v), false, None) && second.entries == first.entries
  {
    var first := FetchStep(s, entries, Some(key), now1, Loaded(v), loadedAt);
    assert first.entries[key] == Entry(v, loadedAt);
  }

  /** Without a key every fetch calls the loader, however recent the last one was. */
  lemma NoKeyAlwaysLoads<T>(s: State<T>, entries: map<string, Entry<T>>, cacheKey: Option<string>,
                            now: int, outcome: LoadOutcome<T>, loadedAt: int)
    requires !HasKey(cacheKey)
    ensures FetchStep(s, entries, cacheKey, now, outcome, loadedAt).loaderCalled
  {
  }

  /** An entry exactly five minutes old is stale. */
  lemma BoundaryIsStale<T>(entries: map<string, Entry<T>>, key: string, now: int)
    requires key != "" && key in entries && now == entries[key].timestamp + CACHE_DURATION
    ensures !Hit(entries, Some(key), now)
  {
  }

  /** The module-level cache object, shared by every hook instance. */
  class Cache<T> {
    var entries: map<string, Entry<T>>

    constructor()
      ensures entries == map[]
    {
      entries := map[];
    }
  }

  /** One hook instance. */
  class ApiData<T> {
    const cacheKey: Option<string>
    const cache: Cache<T>
    var data: Option<T>
    var isLoading: bool
    var error: Option<Error>

    function Current(): State<T>
      reads this
    {
      State(data, isLoading, error)
    }

    /** The initial state: no data, loading, no error. */
    constructor(cacheKey: Option<string>, cache: Cache<T>)
      ensures this.cacheKey == cacheKey && this.cache == cache
      ensures Current() == State(None, true, None)
    {
      this.cacheKey := cacheKey;
      this.cache := cache;
      data := None;
      isLoading := true;
      error := None;
    }

    /** `fetchData`; the result says whether the loader was awaited. */
    method Fetch(now: int, outcome: LoadOutcome<T>, loadedAt: int) returns (loaderCalled: bool)
      modifies this, cache
      ensures var e := FetchStep(old(Current()), old(cache.entries), cacheKey, now, outcome, loadedAt);
        Current() == e.state && cache.entries == e.entries && loaderCalled == e.loaderCalled
    {
      isLoading := true;
      error := None;
      if HasKey(cacheKey) {
        var key := cacheKey.value;
        if key in cache.entries && now - cache.entries[key].timestamp < CACHE_DURATION {
          data := Some(cache.entries[key].data);
          isLoading := false;
          return false;
        }
      }
      loaderCalled := true;
      match outcome {
        case Loaded(v) =>
          data := Some(v);
          if HasKey(cacheKey) {
            cache.entries := cache.entries[cacheKey.value := Entry(v, loadedAt)];
          }
        case Threw(e) =>
          error := Some(e);
        case ThrewNonError =>
          error := Some(Error(UNKNOWN_ERROR));
      }
      isLoading := false;
    }

    /** `refetch` is the same `fetchData`. */
    method Refetch(now: int, outcome: LoadOutcome<T>, loadedAt: int) returns (loaderCalled: bool)
      modifies this, cache
      ensures var e := FetchStep(old(Current()), old(cache.entries), cacheKey, now, outcome, loadedAt);
        Current() == e.state && cache.entries == e.entries && loaderCalled == e.loaderCalled
    {
      loaderCalled := Fetch(now, outcome, loadedAt);
    }
  }

  /** Two hooks sharing the cache and key: the second is served what the first loaded. */
  method SharedCacheScenario<T>(key: string, v: T, w: T, t0: int) returns (second: ApiData<T>)
    requires key != ""
    ensures second.data == Some(v) && !second.isLoading && second.error == None
  {
    var cache := new Cache<T>();
    var first := new ApiData<T>(Some(key), cache);
    var called := first.Fetch(t0, Loaded(v), t0);
    second := new ApiData<T>(Some(key), cache);
    called := second.Fetch(t0 + CACHE_DURATION - 1, Loaded(w), t0 + CACHE_DURATION - 1);
    assert !called;
  }
}
