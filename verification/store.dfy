/**
 * The relational store behind the seat-booking routes, and its two multi-seat transactions:
 * reserving seats for a new Confirmed booking (`POST /bookings`) and cancelling a booking
 * (`POST /bookings/:id/cancel`). Each transaction is one atomic step from a `Db` to a `Db`;
 * a transaction that fails leaves the `Db` exactly as it was (ROLLBACK).
 */
module BookingStore {
  import opened Wrappers
  import opened Text
  import opened Sequences

  type SeatId = int
  type ScreeningId = nat
  type BookingId = string

  datatype Status = Pending | Confirmed | Cancelled

  /** A row of `seats`. */
  datatype Seat = Seat(screening: ScreeningId, row: string, number: int, booked: bool)

  /**
   * A row of `bookings`. `POST /book` fills the movie and the user name; `POST /bookings` fills
   * the user id and the screening; the columns a route does not write are NULL.
   */
  datatype Booking = Booking(
    movie: Option<nat>,
    userName: Option<string>,
    userId: Option<int>,
    screening: Option<ScreeningId>,
    status: Status)

  /** A row of `booking_seats`. */
  datatype Link = Link(booking: BookingId, seat: SeatId)

  datatype Db = Db(seats: map<SeatId, Seat>, bookings: map<BookingId, Booking>, links: seq<Link>)

  /** The state a transaction leaves and what it reports. */
  datatype Tx<+R, +E> = Tx(db: Db, result: Result<R, E>)

  // ---------------------------------------------------------------------------------------
  // The seat-availability view and the invariant it should agree with
  // ---------------------------------------------------------------------------------------

  /** A link counts while its booking exists and is not Cancelled. */
  predicate LiveIn(bookings: map<BookingId, Booking>, l: Link) {
    l.booking in bookings && bookings[l.booking].status != Cancelled
  }

  predicate Live(db: Db, l: Link) {
    LiveIn(db.bookings, l)
  }

  /**
   * `GET /screenings/:id/seats` shows a seat as booked when it is joined, through
   * `booking_seats`, to a booking whose status is not Cancelled.
   */
  predicate ShownBooked(db: Db, s: SeatId) {
    exists i :: 0 <= i < |db.links| && db.links[i].seat == s && Live(db, db.links[i])
  }

  /** Every link names an existing booking and an existing seat. */
  predicate LinksValid(db: Db) {
    forall i :: 0 <= i < |db.links| ==> db.links[i].booking in db.bookings && db.links[i].seat in db.seats
  }

  /** No seat is held by two live links. */
  predicate NoOversell(bookings: map<BookingId, Booking>, links: seq<Link>) {
    forall i, j :: 0 <= i < j < |links| && LiveIn(bookings, links[i]) && LiveIn(bookings, links[j]) ==>
      links[i].seat != links[j].seat
  }

  /** Every seat's `is_booked` flag agrees with the availability view. */
  predicate FlagsAgree(db: Db) {
    forall s :: s in db.seats ==> (db.seats[s].booked <==> ShownBooked(db, s))
  }

  /** The store invariant: valid links, no oversold seat, and flags that agree with the view. */
  predicate Consistent(db: Db) {
    LinksValid(db) && NoOversell(db.bookings, db.links) && FlagsAgree(db)
  }

  // ---------------------------------------------------------------------------------------
  // POST /bookings
  // ---------------------------------------------------------------------------------------

  datatype ReserveError =
    | NotAnArray          // seat_ids is not an array
    | DuplicateSeatIds    // the same id twice in seat_ids
    | SeatsAlreadyBooked(count: nat)
    | EmptyInsert         // no seats: the generated INSERT has an empty VALUES list

  function ReserveMessage(e: ReserveError): string {
    match e
    case NotAnArray => "seat_ids must be an array"
    case DuplicateSeatIds => "Duplicate seat IDs in request"
    case SeatsAlreadyBooked(n) => NatToString(n) + " seats are already booked"
    case EmptyInsert => "syntax error at end of input"
  }

  datatype Reservation = Reservation(booking: BookingId, bookedSeats: nat)

  /** An unbooked seat of the screening. */
  predicate IsFree(seats: map<SeatId, Seat>, screening: ScreeningId, id: SeatId) {
    id in seats && seats[id].screening == screening && !seats[id].booked
  }

  /**
   * The rows of `SELECT id FROM seats WHERE id = ANY(ids) AND screening_id = $2 AND
   * is_booked = false FOR UPDATE`, in request order. All requested seats are free exactly
   * when no row is missing.
   */
  function FreeSeats(seats: map<SeatId, Seat>, screening: ScreeningId, ids: seq<SeatId>): (r: seq<SeatId>)
    ensures forall id :: id in r <==> id in ids && IsFree(seats, screening, id)
    ensures |r| <= |ids|
    ensures |r| == |ids| <==> forall id :: id in ids ==> IsFree(seats, screening, id)
    decreases |ids|
  {
    if ids == [] then []
    else
      var rest := FreeSeats(seats, screening, ids[1..]);
      if IsFree(seats, screening, ids[0]) then [ids[0]] + rest else rest
  }

  /** `UPDATE seats SET is_booked = $flag WHERE id = ANY(ids)`. */
  function SetBooked(seats: map<SeatId, Seat>, ids: seq<SeatId>, flag: bool): map<SeatId, Seat> {
    map s | s in seats :: if s in ids then seats[s].(booked := flag) else seats[s]
  }

  /** One `booking_seats` row per requested seat, in request order. */
  function LinksFor(booking: BookingId, ids: seq<SeatId>): (r: seq<Link>)
    ensures |r| == |ids|
    ensures forall k :: 0 <= k < |ids| ==> r[k] == Link(booking, ids[k])
  {
    seq(|ids|, k requires 0 <= k < |ids| => Link(booking, ids[k]))
  }

  /**
   * The reservation transaction. The two request checks run before BEGIN; the availability
   * check inside it; with no seats at all the checks pass and the generated INSERT has an
   * empty VALUES list, which the store rejects, so the whole transaction rolls back.
   */
  function Reserve(db: Db, userId: int, screening: ScreeningId, input: Option<seq<SeatId>>, newId: BookingId)
    : (t: Tx<Reservation, ReserveError>)
    requires newId !in db.bookings
    // every failure leaves the store untouched
    ensures t.result.Err? ==> t.db == db
    ensures input.None? ==> t.result == Err(NotAnArray)
    ensures input.Some? && !NoDup(input.value) ==> t.result == Err(DuplicateSeatIds)
    ensures t.result.Err? && t.result.error.SeatsAlreadyBooked? ==>
              input.Some? && NoDup(input.value) &&
              t.result.error.count == |input.value| - |FreeSeats(db.seats, screening, input.value)| > 0
    // a duplicate-free request with a seat that is not free fails with the number of such seats
    ensures input.Some? && NoDup(input.value) && |FreeSeats(db.seats, screening, input.value)| < |input.value| ==>
              t.result == Err(SeatsAlreadyBooked(|input.value| - |FreeSeats(db.seats, screening, input.value)|))
    // the empty insert happens exactly for an empty array
    ensures t.result == Err(EmptyInsert) <==> input == Some([])
    ensures t.result.Ok? ==>
              && input.Some? && NoDup(input.value) && input.value != []
              && (forall id :: id in input.value ==> IsFree(db.seats, screening, id))
              && t.result.value == Reservation(newId, |input.value|)
              // exactly one new booking, Confirmed, for this user and screening
              && t.db.bookings == db.bookings[newId := Booking(None, None, Some(userId), Some(screening), Confirmed)]
              // every requested seat is now booked, and no other seat changed
              && t.db.seats.Keys == db.seats.Keys
              && (forall s :: s in input.value ==> t.db.seats[s] == db.seats[s].(booked := true))
              && (forall s :: s in db.seats && s !in input.value ==> t.db.seats[s] == db.seats[s])
              // one association per requested seat
              && t.db.links == db.links + LinksFor(newId, input.value)
  {
    match input
    case None => Tx(db, Err(NotAnArray))
    case Some(ids) =>
      DistinctLength(ids);
      if |Distinct(ids)| != |ids| then Tx(db, Err(DuplicateSeatIds))
      else
        var free := FreeSeats(db.seats, screening, ids);
        if |free| != |ids| then Tx(db, Err(SeatsAlreadyBooked(|ids| - |free|)))
        else if ids == [] then Tx(db, Err(EmptyInsert))
        else Tx(ReserveWrites(db, userId, screening, ids, newId), Ok(Reservation(newId, |ids|)))
  }

  /** The three writes of a reservation that passed its checks: the booking, its seats, its links. */
  function ReserveWrites(db: Db, userId: int, screening: ScreeningId, ids: seq<SeatId>, newId: BookingId): (d: Db)
    ensures d.bookings == db.bookings[newId := Booking(None, None, Some(userId), Some(screening), Confirmed)]
    ensures d.seats.Keys == db.seats.Keys
    ensures forall s :: s in ids && s in db.seats ==> d.seats[s] == db.seats[s].(booked := true)
    ensures forall s :: s in db.seats && s !in ids ==> d.seats[s] == db.seats[s]
    ensures d.links == db.links + LinksFor(newId, ids)
  {
    var booking := Booking(None, None, Some(userId), Some(screening), Confirmed);
    Db(SetBooked(db.seats, ids, true), db.bookings[newId := booking], db.links + LinksFor(newId, ids))
  }

  /** The reservation succeeds exactly when the request is a non-empty, duplicate-free list of free seats of the screening. */
  lemma ReserveSucceedsIff(db: Db, userId: int, screening: ScreeningId, input: Option<seq<SeatId>>, newId: BookingId)
    requires newId !in db.bookings
    ensures Reserve(db, userId, screening, input, newId).result.Ok? <==>
              && input.Some? && NoDup(input.value) && input.value != []
              && forall id :: id in input.value ==> IsFree(db.seats, screening, id)
  {
    if input.Some? {
      DistinctLength(input.value);
    }
  }

  // ---------------------------------------------------------------------------------------
  // POST /bookings/:id/cancel
  // ---------------------------------------------------------------------------------------

  datatype CancelError = BookingNotFound

  /** `SELECT seat_id FROM booking_seats WHERE booking_id = $1`, in row order. */
  function LinkedSeats(links: seq<Link>, booking: BookingId): (r: seq<SeatId>)
    ensures forall s :: s in r <==> Link(booking, s) in links
    decreases |links|
  {
    if links == [] then []
    else
      var rest := LinkedSeats(links[1..], booking);
      assert links == [links[0]] + links[1..];
      if links[0].booking == booking then [links[0].seat] + rest else rest
  }

  /**
   * The cancellation transaction as the source has it: any existing booking, whatever its
   * status, becomes Cancelled and every seat it was ever linked to is released. The links
   * stay. On success it reports the booking's screening, whose seat-map cache key is dropped.
   */
  function Cancel(db: Db, id: BookingId): (t: Tx<Option<ScreeningId>, CancelError>)
    ensures id !in db.bookings ==> t == Tx(db, Err(BookingNotFound))
    ensures id in db.bookings ==>
              && t.result == Ok(db.bookings[id].screening)
              && t.db.bookings == db.bookings[id := db.bookings[id].(status := Cancelled)]
              && t.db.links == db.links
              && t.db.seats.Keys == db.seats.Keys
              && (forall s :: s in db.seats && Link(id, s) in db.links ==> t.db.seats[s] == db.seats[s].(booked := false))
              && (forall s :: s in db.seats && Link(id, s) !in db.links ==> t.db.seats[s] == db.seats[s])
  {
    if id !in db.bookings then Tx(db, Err(BookingNotFound))
    else
      var b := db.bookings[id];
      var seatIds := LinkedSeats(db.links, id);
      Tx(Db(SetBooked(db.seats, seatIds, false), db.bookings[id := b.(status := Cancelled)], db.links),
         Ok(b.screening))
  }

  /** Cancelling twice in a row leaves the same store as cancelling once. */
  lemma CancelTwice(db: Db, id: BookingId)
    ensures Cancel(Cancel(db, id).db, id) == Cancel(db, id)
  {
    if id in db.bookings {
      var once := Cancel(db, id).db;
      var twice := Cancel(once, id).db;
      assert twice.seats == once.seats;
      assert twice.bookings == once.bookings;
    }
  }

  /**
   * Cancellation with the already-Cancelled case treated as a successful no-op that touches
   * no seat, so that a client repeating its request changes nothing.
   */
  function CancelOnce(db: Db, id: BookingId): (t: Tx<Option<ScreeningId>, CancelError>)
    ensures id in db.bookings && db.bookings[id].status == Cancelled ==>
              t == Tx(db, Ok(db.bookings[id].screening))
    ensures !(id in db.bookings && db.bookings[id].status == Cancelled) ==> t == Cancel(db, id)
  {
    if id in db.bookings && db.bookings[id].status == Cancelled then Tx(db, Ok(db.bookings[id].screening))
    else Cancel(db, id)
  }
}
