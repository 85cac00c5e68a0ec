/**
 * `getMoviesWithCache`: cache-aside for the movie list, guarded by a set-if-absent lock with a
 * bounded, doubling retry. The key/value store is a map from key to entry; a stored TTL is
 * recorded but never expires in this model, and the waits are returned rather than slept.
 */
module MovieCache {
  import opened Wrappers
  import opened Backoff

  /** A row of `movies` (the columns the cache path does not inspect are left out). */
  datatype Movie = Movie(id: nat, title: string)

  /** What a key holds: the JSON encoding of movie rows, or any other string. */
  datatype CacheValue = Json(rows: seq<Movie>) | Raw(text: string)

  /** A stored value and the TTL, in seconds, it was written with (if any). */
  datatype Entry = Entry(value: CacheValue, ttl: Option<nat>)

  type Cache = map<string, Entry>

  const MoviesKey: string := "movies"
  const LockKey: string := "movies_lock"
  const LockTtl: nat := 10
  const MoviesTtl: nat := 60
  const DefaultRetries: nat := 3
  const DefaultDelay: nat := 100
  /** The one message every failure of the call is re-raised with. */
  const FetchFailed: string := "Failed to fetch movies with cache"

  /** `if (cached)`: a stored string counts unless it is empty; an encoding of rows never is. */
  predicate Hit(cache: Cache) {
    MoviesKey in cache && (cache[MoviesKey].value.Json? || cache[MoviesKey].value.text != [])
  }

  /**
   * One call's outcome: the result, the cache it leaves, the waits between its lock
   * attempts, how many times it ran its body, and how many store queries it made.
   */
  datatype Fetch = Fetch(result: Result<seq<Movie>, string>, cache: Cache, waits: seq<nat>, attempts: nat, queries: nat)

  const LockEntry: Entry := Entry(Raw("1"), Some(LockTtl))

  /**
   * What other clients do while a call waits: the cache they leave when the wait ends, and
   * whether one of them sets `movies_lock` again after the waiting frame has deleted it and
   * before the retry's set-if-absent.
   */
  datatype Window = Window(cache: Cache, relock: bool)

  /** The cache at the end of a wait: `later` lists the windows in order; once it runs out, nobody else touches the cache. */
  function AfterWait(cache: Cache, later: seq<Window>): Cache {
    if later == [] then cache else later[0].cache
  }

  function Remaining(later: seq<Window>): seq<Window> {
    if later == [] then [] else later[1..]
  }

  /** Another client sets the lock again in the first window. */
  predicate Relocked(later: seq<Window>) {
    later != [] && later[0].relock
  }

  /**
   * The cache a retry works on. The retried call is returned without `await`, so the waiting
   * frame's `finally` deletes `movies_lock` as soon as the retry has sent its first `GET`:
   * the retry's hit test sees the cache the wait left (the lock plays no part in it), and its
   * set-if-absent finds the lock gone unless another client has set it again.
   */
  function RetryView(cache: Cache, later: seq<Window>): (v: Cache)
    ensures LockKey in v <==> Relocked(later)
    ensures v - {LockKey} == AfterWait(cache, later) - {LockKey}
  {
    var freed := AfterWait(cache, later) - {LockKey};
    if Relocked(later) then freed[LockKey := LockEntry] else freed
  }

  /** The cache that the set-if-absent of the attempt after `k` waits finds. */
  function ViewAfter(cache: Cache, later: seq<Window>, k: nat): Cache
    decreases k
  {
    if k == 0 then cache else ViewAfter(RetryView(cache, later), Remaining(later), k - 1)
  }

  /** The cached-rows test does not look at the lock. */
  lemma HitIgnoresLock(cache: Cache, e: Entry)
    ensures Hit(cache - {LockKey}) == Hit(cache) && Hit(cache[LockKey := e]) == Hit(cache)
  {
    assert MoviesKey != LockKey by { assert |MoviesKey| != |LockKey|; }
  }

  /**
   * `getMoviesWithCache(retries, delay)` as the source has it. `rows` is what
   * `SELECT * FROM movies ORDER BY title` returns, or `None` when that query fails. Each frame
   * that retries has already deleted the lock before its retry takes it (see `RetryView`);
   * the frame that ends the call deletes it in its `finally`.
   */
  function GetMovies(cache: Cache, rows: Option<seq<Movie>>, later: seq<Window>, retries: nat, delay: nat): (f: Fetch)
    // the lock never survives the call, whoever set it
    ensures LockKey !in f.cache
    // every failure surfaces with the same message
    ensures f.result.Err? ==> f.result.error == FetchFailed
    // one more attempt than waits, and at most `retries` waits
    ensures f.attempts == |f.waits| + 1 && |f.waits| <= retries
    // the store is queried at most once, and only by the attempt that took the lock
    ensures f.queries <= 1
    ensures f.result.Ok? && f.queries == 0 ==> Hit(ViewAfter(cache, later, |f.waits|))
    decreases retries
  {
    if Hit(cache) then
      var v := cache[MoviesKey].value;
      Fetch(if v.Json? then Ok(v.rows) else Err(FetchFailed), cache - {LockKey}, [], 1, 0)
    else if LockKey in cache then
      if retries == 0 then Fetch(Err(FetchFailed), cache - {LockKey}, [], 1, 0)
      else
        var inner := GetMovies(RetryView(cache, later), rows, Remaining(later), retries - 1, 2 * delay);
        Fetch(inner.result, inner.cache, [delay] + inner.waits, inner.attempts + 1, inner.queries)
    else
      var locked := cache[LockKey := LockEntry];
      match rows
      case None => Fetch(Err(FetchFailed), locked - {LockKey}, [], 1, 1)
      case Some(rs) => Fetch(Ok(rs), locked[MoviesKey := Entry(Json(rs), Some(MoviesTtl))] - {LockKey}, [], 1, 1)
  }

  /** A hit returns the cached rows without taking the lock or querying the store. */
  lemma HitReturnsCached(cache: Cache, rows: Option<seq<Movie>>, later: seq<Window>, retries: nat, delay: nat)
    requires MoviesKey in cache && cache[MoviesKey].value.Json?
    ensures var f := GetMovies(cache, rows, later, retries, delay);
      && f.result == Ok(cache[MoviesKey].value.rows)
      && f.queries == 0 && f.waits == []
      && f.cache == cache - {LockKey}
  {
  }

  /** A miss with the lock free stores the queried rows under `movies` for 60 s and returns them. */
  lemma MissStoresRows(cache: Cache, rs: seq<Movie>, later: seq<Window>, retries: nat, delay: nat)
    requires !Hit(cache) && LockKey !in cache
    ensures var f := GetMovies(cache, Some(rs), later, retries, delay);
      && f.result == Ok(rs)
      && f.queries == 1 && f.waits == []
      && f.cache == cache[MoviesKey := Entry(Json(rs), Some(60))]
  {
    var f := GetMovies(cache, Some(rs), later, retries, delay);
    assert f.cache == cache[MoviesKey := Entry(Json(rs), Some(60))];
  }

  /**
   * Running out of retries takes another client that sets the lock again in every window:
   * then the call waits `delay`, `2*delay`, … (`retries` times), never queries, and fails.
   */
  lemma {:induction false} ContentionExhausts(cache: Cache, rows: Option<seq<Movie>>, later: seq<Window>, retries: nat, delay: nat)
    requires !Hit(cache) && LockKey in cache
    requires |later| >= retries
    requires forall k :: 0 <= k < retries ==> later[k].relock && !Hit(later[k].cache)
    ensures var f := GetMovies(cache, rows, later, retries, delay);
      && f.result == Err(FetchFailed)
      && f.waits == Delays(delay, retries)
      && f.attempts == retries + 1
      && f.queries == 0
    decreases retries
  {
    if retries > 0 {
      var next := RetryView(cache, later);
      HitIgnoresLock(later[0].cache, LockEntry);
      HitIgnoresLock(later[0].cache - {LockKey}, LockEntry);
      assert !Hit(next);
      forall k | 0 <= k < retries - 1
        ensures Remaining(later)[k].relock && !Hit(Remaining(later)[k].cache)
      {
        assert Remaining(later)[k] == later[k + 1];
      }
      ContentionExhausts(next, rows, Remaining(later), retries - 1, 2 * delay);
    }
  }

  /** With the defaults, a lock set again in each of three windows gives four attempts separated by waits of 100, 200 and 400 ms. */
  lemma DefaultContention(cache: Cache, rows: Option<seq<Movie>>)
    requires !Hit(cache) && LockKey in cache
    ensures var f := GetMovies(cache, rows, [Window(cache, true), Window(cache, true), Window(cache, true)], DefaultRetries, DefaultDelay);
      f.result == Err(FetchFailed) && f.attempts == 4 && f.waits == [100, 200, 400] && f.queries == 0
  {
    ContentionExhausts(cache, rows, [Window(cache, true), Window(cache, true), Window(cache, true)], DefaultRetries, DefaultDelay);
  }

  /**
   * The lock does not hold a waiting caller back: even when the holder still has the lock at
   * the end of the wait and the cache is still empty, the retry finds the lock deleted by its
   * own caller, takes it and queries.
   */
  lemma WaiterTakesHeldLock(cache: Cache, rows: Option<seq<Movie>>, later: seq<Window>, retries: nat, delay: nat)
    requires !Hit(cache) && LockKey in cache && retries > 0
    requires later != [] && LockKey in later[0].cache && !Hit(later[0].cache) && !later[0].relock
    ensures var f := GetMovies(cache, rows, later, retries, delay);
      && f.queries == 1 && f.waits == [delay] && f.attempts == 2
      && (rows.Some? ==> f.result == Ok(rows.value))
  {
    HitIgnoresLock(later[0].cache, LockEntry);
  }

  /**
   * With the defaults, a held lock and nobody else touching the cache, the call queries after
   * a single wait of 100 ms and fills the cache.
   */
  lemma DefaultUncontended(cache: Cache, rs: seq<Movie>)
    requires !Hit(cache) && LockKey in cache
    ensures var f := GetMovies(cache, Some(rs), [], DefaultRetries, DefaultDelay);
      && f.result == Ok(rs) && f.attempts == 2 && f.waits == [100] && f.queries == 1
      && f.cache == (cache - {LockKey})[MoviesKey := Entry(Json(rs), Some(MoviesTtl))]
  {
    HitIgnoresLock(cache, LockEntry);
    var next := RetryView(cache, []);
    assert next == cache - {LockKey};
    assert next[LockKey := LockEntry][MoviesKey := Entry(Json(rs), Some(MoviesTtl))] - {LockKey}
      == (cache - {LockKey})[MoviesKey := Entry(Json(rs), Some(MoviesTtl))];
  }

  /**
   * A call that never took the lock writes nothing: the cache it leaves is the last one it
   * worked on, without the lock, even though some other client set that lock.
   */
  lemma {:induction false} NoQueryOnlyDropsLock(cache: Cache, rows: Option<seq<Movie>>, later: seq<Window>, retries: nat, delay: nat)
    ensures var f := GetMovies(cache, rows, later, retries, delay);
      f.queries == 0 ==> f.cache == ViewAfter(cache, later, |f.waits|) - {LockKey}
    decreases retries
  {
    var f := GetMovies(cache, rows, later, retries, delay);
    if !Hit(cache) && LockKey in cache && retries > 0 {
      NoQueryOnlyDropsLock(RetryView(cache, later), rows, Remaining(later), retries - 1, 2 * delay);
      var inner := GetMovies(RetryView(cache, later), rows, Remaining(later), retries - 1, 2 * delay);
      if f.queries == 0 {
        assert |f.waits| == |inner.waits| + 1;
        assert ViewAfter(cache, later, |f.waits|) == ViewAfter(RetryView(cache, later), Remaining(later), |inner.waits|);
      }
    }
  }

  /** A concrete case: a cache hit while another client holds the lock removes that client's lock. */
  lemma HitReleasesForeignLock()
    ensures var cache := map[MoviesKey := Entry(Json([]), Some(60)), LockKey := LockEntry];
      var f := GetMovies(cache, None, [], DefaultRetries, DefaultDelay);
      f.result == Ok([]) && f.queries == 0 && f.cache == map[MoviesKey := Entry(Json([]), Some(60))]
  {
    var cache := map[MoviesKey := Entry(Json([]), Some(60)), LockKey := LockEntry];
    assert Hit(cache);
    assert cache - {LockKey} == map[MoviesKey := Entry(Json([]), Some(60))];
  }

  /** If another client fills the cache during the first wait, the retry returns its rows. */
  lemma FilledDuringWait(cache: Cache, filled: Window, rows: Option<seq<Movie>>, retries: nat, delay: nat)
    requires !Hit(cache) && LockKey in cache && retries > 0
    requires MoviesKey in filled.cache && filled.cache[MoviesKey].value.Json?
    ensures var f := GetMovies(cache, rows, [filled], retries, delay);
      f.result == Ok(filled.cache[MoviesKey].value.rows) && f.waits == [delay] && f.queries == 0
  {
    var next := RetryView(cache, [filled]);
    assert MoviesKey != LockKey by { assert |MoviesKey| != |LockKey|; }
    assert next[MoviesKey] == filled.cache[MoviesKey];
    HitReturnsCached(next, rows, [], retries - 1, 2 * delay);
  }

  // ---------------------------------------------------------------------------------------
  // The retry awaited
  // ---------------------------------------------------------------------------------------

  /**
   * The call with `return await getMoviesWithCache(retries - 1, delay * 2)`: each frame's
   * `finally` runs only once its retry has finished, so the retry sees the cache the wait left,
   * lock included, and the lock is deleted on the way out.
   */
  function GetMoviesAwaited(cache: Cache, rows: Option<seq<Movie>>, later: seq<Window>, retries: nat, delay: nat): (f: Fetch)
    ensures LockKey !in f.cache
    ensures f.result.Err? ==> f.result.error == FetchFailed
    ensures f.attempts == |f.waits| + 1 && |f.waits| <= retries
    ensures f.queries <= 1
    decreases retries
  {
    if Hit(cache) then
      var v := cache[MoviesKey].value;
      Fetch(if v.Json? then Ok(v.rows) else Err(FetchFailed), cache - {LockKey}, [], 1, 0)
    else if LockKey in cache then
      if retries == 0 then Fetch(Err(FetchFailed), cache - {LockKey}, [], 1, 0)
      else
        var inner := GetMoviesAwaited(AfterWait(cache, later), rows, Remaining(later), retries - 1, 2 * delay);
        Fetch(inner.result, inner.cache - {LockKey}, [delay] + inner.waits, inner.attempts + 1, inner.queries)
    else
      var locked := cache[LockKey := LockEntry];
      match rows
      case None => Fetch(Err(FetchFailed), locked - {LockKey}, [], 1, 1)
      case Some(rs) => Fetch(Ok(rs), locked[MoviesKey := Entry(Json(rs), Some(MoviesTtl))] - {LockKey}, [], 1, 1)
  }

  /**
   * With the retry awaited the lock does what it is for: while its holder keeps it and the
   * cache stays empty, a waiting caller never queries; it waits `delay`, `2*delay`, … and fails.
   */
  lemma {:induction false} AwaitedWaitsForHolder(cache: Cache, rows: Option<seq<Movie>>, later: seq<Window>, retries: nat, delay: nat)
    requires !Hit(cache) && LockKey in cache
    requires |later| >= retries
    requires forall k :: 0 <= k < retries ==> LockKey in later[k].cache && !Hit(later[k].cache)
    ensures var f := GetMoviesAwaited(cache, rows, later, retries, delay);
      && f.queries == 0
      && f.result == Err(FetchFailed)
      && f.waits == Delays(delay, retries)
    decreases retries
  {
    if retries > 0 {
      forall k | 0 <= k < retries - 1
        ensures LockKey in Remaining(later)[k].cache && !Hit(Remaining(later)[k].cache)
      {
        assert Remaining(later)[k] == later[k + 1];
      }
      AwaitedWaitsForHolder(later[0].cache, rows, Remaining(later), retries - 1, 2 * delay);
    }
  }
}
