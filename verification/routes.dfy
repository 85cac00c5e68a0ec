/**
 * The booking back end: the state behind the HTTP routes (the movie catalogue, the seat and
 * booking tables, the booking/seat associations, the key/value cache and the booking queue)
 * and the handlers that change it. Each handler runs its steps in place on that state; each
 * is proved to leave exactly the state its transaction function describes.
 */
module Routes {
  import opened Wrappers
  import opened Text
  import opened Sequences
  import opened BookingValidation
  import opened BookingStore
  import opened StoreInvariant
  import opened MovieCache

  // ---------------------------------------------------------------------------------------
  // Replies and cache keys
  // ---------------------------------------------------------------------------------------

  /** A JSON response body. */
  datatype Body =
    | Booked(bookingId: BookingId, status: string)        // POST /book
    | SeatsBooked(bookingId: BookingId, bookedSeats: nat) // POST /bookings
    | Success                                             // POST /bookings/:id/cancel
    | Failure(error: string)

  datatype Reply = Reply(code: nat, body: Body)

  /** The key of a screening's cached seat map; a booking without a screening yields `null`. */
  function SeatMapKey(screening: Option<ScreeningId>): (k: string)
    ensures |k| >= |"screening:"| + |":seats"| + 1
    ensures k[..10] == "screening:" && k[|k| - 6..] == ":seats"
  {
    "screening:" + (match screening case None => "null" case Some(n) => NatToString(n)) + ":seats"
  }

  lemma NullIsNoNumeral(n: nat)
    ensures NatToString(n) != "null"
  {
    assert !IsDigit("null"[0]);
  }

  /** Distinct screenings have distinct seat-map keys, and none of them is a movie-cache key. */
  lemma SeatMapKeyInjective(a: Option<ScreeningId>, b: Option<ScreeningId>)
    ensures SeatMapKey(a) == SeatMapKey(b) ==> a == b
    ensures SeatMapKey(a) != MoviesKey && SeatMapKey(a) != LockKey
  {
    var ka, kb := SeatMapKey(a), SeatMapKey(b);
    var ma := match a case None => "null" case Some(n) => NatToString(n);
    var mb := match b case None => "null" case Some(n) => NatToString(n);
    assert ka[10..|ka| - 6] == ma;
    assert kb[10..|kb| - 6] == mb;
    if ka == kb {
      assert ma == mb;
      match a
      case None =>
        if b.Some? { NullIsNoNumeral(b.value); }
      case Some(m) =>
        match b
        case None => NullIsNoNumeral(m);
        case Some(n) => NatToStringInjective(m, n);
    }
    assert ka[0] != MoviesKey[0];
    assert ka[0] != LockKey[0];
  }

  // ---------------------------------------------------------------------------------------
  // POST /book
  // ---------------------------------------------------------------------------------------

  datatype BookError = Invalid(reason: ValidationError) | UnknownMovie

  function BookMessage(e: BookError): string {
    match e
    case Invalid(v) => Message(v)
    case UnknownMovie => "Movie not found"
  }

  /** `SELECT id FROM movies WHERE id = $1` finds a row. */
  predicate HasMovie(catalog: seq<Movie>, id: nat) {
    exists m :: m in catalog && m.id == id
  }

  /**
   * The `POST /book` transaction: validation before BEGIN, then the movie check, then one
   * Pending booking carrying the movie and the user name. Any failure leaves the store as it was.
   */
  function BookTx(db: Db, catalog: seq<Movie>, movieId: JsValue, userName: JsValue, newId: BookingId)
    : (t: Tx<BookingId, BookError>)
    requires newId !in db.bookings
    ensures t.result.Err? ==> t.db == db
    ensures t.result.Err? && t.result.error.Invalid? <==> !WellFormed(movieId, userName)
    ensures t.result.Err? && t.result.error.Invalid? ==> Some(t.result.error.reason) == ValidateBookingInput(movieId, userName)
    ensures t.result == Err(UnknownMovie) <==>
              WellFormed(movieId, userName) && !HasMovie(catalog, NumeralValue(movieId.s))
    ensures t.result.Ok? ==>
              && WellFormed(movieId, userName) && HasMovie(catalog, NumeralValue(movieId.s))
              && t.result.value == newId
              && t.db == Db(db.seats, db.bookings[newId := Booking(Some(NumeralValue(movieId.s)), Some(userName.s), None, None, Pending)], db.links)
  {
    match ValidateBookingInput(movieId, userName)
    case Some(v) => Tx(db, Err(Invalid(v)))
    case None =>
      var movie := NumeralValue(movieId.s);
      if !HasMovie(catalog, movie) then Tx(db, Err(UnknownMovie))
      else Tx(Db(db.seats, db.bookings[newId := Booking(Some(movie), Some(userName.s), None, None, Pending)], db.links), Ok(newId))
  }

  /** The reply of `POST /book`: 404 exactly when the message mentions "not found", else 400 with a generic message. */
  function BookReply(r: Result<BookingId, BookError>): Reply {
    match r
    case Ok(id) => Reply(200, Booked(id, "Pending"))
    case Err(e) =>
      var msg := BookMessage(e);
      if Includes(msg, "not found") then Reply(404, Failure(msg)) else Reply(400, Failure("Failed to create booking"))
  }

  /** An unknown movie is answered 404 "Movie not found"; every validation failure 400 "Failed to create booking". */
  lemma BookReplyByCause(e: BookError)
    ensures e == UnknownMovie ==> BookReply(Err(e)) == Reply(404, Failure("Movie not found"))
    ensures e.Invalid? ==> BookReply(Err(e)) == Reply(400, Failure("Failed to create booking"))
  {
    match e
    case UnknownMovie => IncludesAt("Movie not found", "not found", 6);
    case Invalid(v) => MessagesLackNotFound(v);
  }

  // ---------------------------------------------------------------------------------------
  // POST /bookings and POST /bookings/:id/cancel
  // ---------------------------------------------------------------------------------------

  function ReserveReply(r: Result<Reservation, ReserveError>): Reply {
    match r
    case Ok(v) => Reply(200, SeatsBooked(v.booking, v.bookedSeats))
    case Err(e) => Reply(400, Failure(ReserveMessage(e)))
  }

  function CancelReply(r: Result<Option<ScreeningId>, CancelError>): Reply {
    match r
    case Ok(_) => Reply(200, Success)
    case Err(BookingNotFound) => Reply(400, Failure("Booking not found"))
  }

  /**
   * One retry of `GetMovies`: the outer call reports what the retried call does, after one
   * more wait, and the retried call starts without the lock unless another client set it again.
   */
  lemma RetryStep(cache: Cache, rows: Option<seq<Movie>>, later: seq<Window>, retries: nat, delay: nat)
    requires !Hit(cache) && LockKey in cache && retries > 0
    ensures var f := GetMovies(cache, rows, later, retries, delay);
      var g := GetMovies(RetryView(cache, later), rows, Remaining(later), retries - 1, 2 * delay);
      f.result == g.result && f.waits == [delay] + g.waits && f.cache == g.cache
    ensures LockKey in RetryView(cache, later) <==> Relocked(later)
  {
  }

  /** Where a `getMoviesWithCache` call stands between attempts: the cache it sees, what others will leave in it, and its retry budget and delay. */
  datatype Attempt = Attempt(seen: Cache, views: seq<Window>, retries: nat, delay: nat)

  /** The rest of the call from `a` on. */
  ghost function RestOf(rows: Option<seq<Movie>>, a: Attempt): Fetch {
    GetMovies(a.seen, rows, a.views, a.retries, a.delay)
  }

  /**
   * The attempt after one failed lock attempt and its wait: the retry sees what other clients
   * left in the cache, without the lock, which the waiting frame's `finally` deletes once the
   * retry has sent its GET, unless another client takes the lock again first.
   */
  function Next(a: Attempt): Attempt
    requires a.retries > 0
  {
    Attempt(RetryView(a.seen, a.views), Remaining(a.views), a.retries - 1, 2 * a.delay)
  }

  /**
   * The loop state of `Backend.GetMoviesWithCache`: finishing the call from `a` gives the
   * result and cache of the whole call, and the waits still to come complete the ones made.
   */
  ghost predicate Tracks(whole: Fetch, waits: seq<nat>, rows: Option<seq<Movie>>, a: Attempt) {
    var f := RestOf(rows, a);
    whole.result == f.result && whole.waits == waits + f.waits && whole.cache == f.cache
  }

  /** One more failed lock attempt and wait keeps the loop state on track. */
  lemma TracksStep(whole: Fetch, waits: seq<nat>, rows: Option<seq<Movie>>, a: Attempt)
    requires Tracks(whole, waits, rows, a)
    requires !Hit(a.seen) && LockKey in a.seen && a.retries > 0
    ensures Tracks(whole, waits + [a.delay], rows, Next(a))
  {
    RetryStep(a.seen, rows, a.views, a.retries, a.delay);
    var g := RestOf(rows, Next(a));
    assert whole.waits == (waits + [a.delay]) + g.waits;
  }

  /** The last attempt, followed by deleting the lock, completes the whole call. */
  lemma TracksFinish(whole: Fetch, waits: seq<nat>, rows: Option<seq<Movie>>, a: Attempt, result: Result<seq<Movie>, string>, after: Cache)
    requires Tracks(whole, waits, rows, a)
    requires var f := GetMovies(a.seen, rows, a.views, a.retries, a.delay);
      result == f.result && f.waits == [] && after - {LockKey} == f.cache
    ensures result == whole.result && waits == whole.waits && after - {LockKey} == whole.cache
  {
    assert waits + [] == waits;
  }

  /** The attempt that ends the call: a hit, an exhausted retry budget, or the lock taken. */
  lemma FinalStep(cache: Cache, rows: Option<seq<Movie>>, later: seq<Window>, retries: nat, delay: nat)
    requires Hit(cache) || LockKey !in cache || retries == 0
    ensures var f := GetMovies(cache, rows, later, retries, delay);
      && f.waits == []
      && (Hit(cache) ==>
            && f.cache == cache - {LockKey}
            && f.result == if cache[MoviesKey].value.Json? then Ok(cache[MoviesKey].value.rows) else Err(FetchFailed))
      && (!Hit(cache) && LockKey in cache ==> f.cache == cache - {LockKey} && f.result == Err(FetchFailed))
      && (!Hit(cache) && LockKey !in cache && rows.None? ==>
            f.cache == cache[LockKey := Entry(Raw("1"), Some(LockTtl))] - {LockKey} && f.result == Err(FetchFailed))
      && (!Hit(cache) && LockKey !in cache && rows.Some? ==>
            f.cache == cache[LockKey := Entry(Raw("1"), Some(LockTtl))][MoviesKey := Entry(Json(rows.value), Some(MoviesTtl))] - {LockKey}
            && f.result == Ok(rows.value))
  {
  }

  // ---------------------------------------------------------------------------------------
  // The server state and its handlers
  // ---------------------------------------------------------------------------------------

  class Backend {
    var movies: seq<Movie>
    var seats: map<SeatId, Seat>
    var bookings: map<BookingId, Booking>
    var links: seq<Link>
    var cache: Cache
    /** The ids sent to `booking_queue`, oldest first. */
    var queue: seq<BookingId>

    constructor (catalog: seq<Movie>, db: Db)
      ensures movies == catalog && State() == db && cache == map[] && queue == []
    {
      movies := catalog;
      seats := db.seats;
      bookings := db.bookings;
      links := db.links;
      cache := map[];
      queue := [];
    }

    /** The three booking tables as one store value. */
    function State(): Db
      reads this
    {
      Db(seats, bookings, links)
    }

    /** No oversold seat, and every `is_booked` flag agrees with the availability view. */
    predicate Valid()
      reads this
    {
      Consistent(State())
    }

    /**
     * The attempt that ends a `getMoviesWithCache` call, up to its `finally`: return the cached
     * rows, give up for want of the lock, or take the lock, query and fill the cache.
     */
    method LastAttempt(rows: Option<seq<Movie>>, later: seq<Window>, retries: nat, delay: nat)
      returns (result: Result<seq<Movie>, string>)
      requires Hit(cache) || LockKey !in cache || retries == 0
      modifies this`cache
      ensures var f := GetMovies(old(cache), rows, later, retries, delay);
        result == f.result && f.waits == [] && cache - {LockKey} == f.cache
    {
      FinalStep(cache, rows, later, retries, delay);
      if Hit(cache) {
        var v := cache[MoviesKey].value;
        result := if v.Json? then Ok(v.rows) else Err(FetchFailed);
      } else if LockKey in cache {
        result := Err(FetchFailed);
      } else {
        cache := cache[LockKey := LockEntry];
        if rows.None? {
          result := Err(FetchFailed);
        } else {
          cache := cache[MoviesKey := Entry(Json(rows.value), Some(MoviesTtl))];
          result := Ok(rows.value);
        }
      }
    }

    /**
     * `getMoviesWithCache()` with its defaults (3 retries from 100 ms), the recursion run as a
     * loop. `storeUp` says whether the movie query succeeds; `later` is what other clients do
     * during each wait. Each pass deletes the lock in the `finally` of the frame that waited,
     * once its retry is under way; the frame that ends the call deletes it on the way out.
     */
    method GetMoviesWithCache(storeUp: bool, later: seq<Window>) returns (result: Result<seq<Movie>, string>, waits: seq<nat>)
      modifies this`cache
      ensures var f := GetMovies(old(cache), if storeUp then Some(old(movies)) else None, later, DefaultRetries, DefaultDelay);
        result == f.result && waits == f.waits && cache == f.cache
      ensures movies == old(movies) && seats == old(seats) && bookings == old(bookings)
      ensures links == old(links) && queue == old(queue)
    {
      var rows := if storeUp then Some(movies) else None;
      var at := Attempt(cache, later, DefaultRetries, DefaultDelay);
      waits := [];
      ghost var whole := RestOf(rows, at);
      assert Tracks(whole, waits, rows, at);
      // each pass is one attempt that finds neither cached rows nor a free lock, then waits
      while !Hit(at.seen) && LockKey in at.seen && at.retries > 0
        invariant Tracks(whole, waits, rows, at)
        modifies {}
        decreases at.retries
      {
        TracksStep(whole, waits, rows, at);
        waits := waits + [at.delay];
        // other clients act while this frame waits; once the retry has sent its GET, this
        // frame's `finally` deletes the lock, unless another client has taken it again
        at := Next(at);
      }
      cache := at.seen;
      result := LastAttempt(rows, at.views, at.retries, at.delay);
      TracksFinish(whole, waits, rows, at, result, cache);
      // finally
      cache := cache - {LockKey};
    }

    /**
     * `POST /book`: validate, check the movie, insert a Pending booking, enqueue its id when a
     * channel is attached, commit, then drop the cached movie list.
     */
    method Book(movieId: JsValue, userName: JsValue, newId: BookingId, channel: bool) returns (reply: Reply)
      requires newId !in bookings
      modifies this
      ensures var t := BookTx(old(State()), old(movies), movieId, userName, newId);
        && State() == t.db
        && reply == BookReply(t.result)
        && queue == (if t.result.Ok? && channel then old(queue) + [newId] else old(queue))
        && cache == (if t.result.Ok? then old(cache) - {MoviesKey} else old(cache))
      ensures movies == old(movies)
      ensures old(Valid()) ==> Valid()
    {
      var invalid := ValidateBookingInput(movieId, userName);
      if invalid.Some? {
        reply := BookReply(Err(Invalid(invalid.value)));
        return;
      }
      // BEGIN
      var movie := NumeralValue(movieId.s);
      if !HasMovie(movies, movie) {
        reply := BookReply(Err(UnknownMovie));
        return;
      }
      ghost var before := State();
      bookings := bookings[newId := Booking(Some(movie), Some(userName.s), None, None, Pending)];
      if channel {
        queue := queue + [newId];
      }
      // COMMIT
      cache := cache - {MoviesKey};
      reply := Reply(200, Booked(newId, "Pending"));
      if Consistent(before) {
        AddBookingPreservesConsistency(before, newId, bookings[newId]);
      }
    }

    /**
     * `POST /bookings`: the reservation transaction, then, once it has committed, the
     * screening's cached seat map is dropped.
     */
    method CreateBooking(userId: int, screening: ScreeningId, input: Option<seq<SeatId>>, newId: BookingId)
      returns (reply: Reply)
      requires newId !in bookings
      modifies this
      ensures var t := Reserve(old(State()), userId, screening, input, newId);
        && State() == t.db
        && reply == ReserveReply(t.result)
        && cache == (if t.result.Ok? then old(cache) - {SeatMapKey(Some(screening))} else old(cache))
      ensures movies == old(movies) && queue == old(queue)
      ensures old(Valid()) ==> Valid()
    {
      ghost var start := State();
      var result := ReserveSeats(userId, screening, input, newId);
      if result.Ok? {
        cache := cache - {SeatMapKey(Some(screening))};
      }
      reply := ReserveReply(result);
      if Consistent(start) {
        ReservePreservesConsistency(start, userId, screening, input, newId);
      }
    }

    /**
     * The transaction of `POST /bookings`: the two request checks, then BEGIN, the
     * availability check, the booking, the seat flags and the associations; with no seats the
     * association INSERT fails and everything written so far is rolled back.
     */
    method ReserveSeats(userId: int, screening: ScreeningId, input: Option<seq<SeatId>>, newId: BookingId)
      returns (result: Result<Reservation, ReserveError>)
      requires newId !in bookings
      modifies this`seats, this`bookings, this`links
      ensures var t := Reserve(old(State()), userId, screening, input, newId);
        State() == t.db && result == t.result
    {
      if input.None? {
        return Err(NotAnArray);
      }
      var ids := input.value;
      var unique := Distinct(ids);
      DistinctLength(ids);
      if |unique| != |ids| {
        return Err(DuplicateSeatIds);
      }
      // BEGIN
      var available := FreeSeats(seats, screening, unique);
      if |available| != |unique| {
        return Err(SeatsAlreadyBooked(|unique| - |available|));
      }
      var before := State();
      bookings := bookings[newId := Booking(None, None, Some(userId), Some(screening), Confirmed)];
      seats := SetBooked(seats, unique, true);
      if unique == [] {
        // the association INSERT has nothing after VALUES; ROLLBACK
        seats, bookings, links := before.seats, before.bookings, before.links;
        return Err(EmptyInsert);
      }
      links := links + LinksFor(newId, unique);
      // COMMIT
      result := Ok(Reservation(newId, |unique|));
    }

    /**
     * `POST /bookings/:id/cancel`: any existing booking, whatever its status, is marked
     * Cancelled and every seat it was ever associated with is released. The store invariant is
     * kept unless the booking was already Cancelled (see `StoreInvariant.RecancelOversells`).
     */
    method CancelBooking(id: BookingId) returns (reply: Reply)
      modifies this
      ensures var t := Cancel(old(State()), id);
        && State() == t.db
        && reply == CancelReply(t.result)
        && cache == (if t.result.Ok? then old(cache) - {SeatMapKey(t.result.value)} else old(cache))
      ensures movies == old(movies) && queue == old(queue)
      ensures old(Valid()) && !(id in old(bookings) && old(bookings)[id].status == Cancelled) ==> Valid()
    {
      ghost var start := State();
      // BEGIN
      if id !in bookings {
        reply := CancelReply(Err(BookingNotFound));
        return;
      }
      var booking := bookings[id];
      bookings := bookings[id := booking.(status := Cancelled)];
      var seatIds := LinkedSeats(links, id);
      if |seatIds| > 0 {
        seats := SetBooked(seats, seatIds, false);
      } else {
        assert SetBooked(seats, seatIds, false) == seats;
      }
      // COMMIT
      cache := cache - {SeatMapKey(booking.screening)};
      reply := Reply(200, Success);
      if Consistent(start) && start.bookings[id].status != Cancelled {
        CancelLivePreservesConsistency(start, id);
      }
    }
  }
}
