/**
 * The store invariant `Consistent` (no oversold seat, and `is_booked` agreeing with the
 * availability view) under the two seat transactions, and the re-cancellation that breaks it.
 */
module StoreInvariant {
  import opened Wrappers
  import opened Sequences
  import opened BookingStore

  /** The store a successful reservation of `ids` for the fresh booking `newId` commits. */
  function Reserved(db: Db, ids: seq<SeatId>, newId: BookingId, booking: Booking): Db {
    Db(SetBooked(db.seats, ids, true), db.bookings[newId := booking], db.links + LinksFor(newId, ids))
  }

  /** What a successful reservation may assume about its request. */
  predicate ReservableIn(db: Db, screening: ScreeningId, ids: seq<SeatId>, newId: BookingId, booking: Booking) {
    && newId !in db.bookings
    && booking.status != Cancelled
    && NoDup(ids)
    && (forall id :: id in ids ==> IsFree(db.seats, screening, id))
  }

  /** Links that existed before a reservation keep their liveness; the new ones are all live. */
  lemma ReservedLiveness(db: Db, ids: seq<SeatId>, newId: BookingId, booking: Booking)
    requires LinksValid(db) && newId !in db.bookings && booking.status != Cancelled
    ensures forall i :: 0 <= i < |db.links| ==>
              (db.links + LinksFor(newId, ids))[i] == db.links[i] &&
              (LiveIn(db.bookings[newId := booking], db.links[i]) <==> LiveIn(db.bookings, db.links[i]))
    ensures forall k :: 0 <= k < |ids| ==>
              (db.links + LinksFor(newId, ids))[|db.links| + k] == Link(newId, ids[k]) &&
              LiveIn(db.bookings[newId := booking], Link(newId, ids[k]))
  {
    var links := db.links + LinksFor(newId, ids);
    var bookings := db.bookings[newId := booking];
    forall i | 0 <= i < |db.links|
      ensures links[i] == db.links[i]
      ensures LiveIn(bookings, db.links[i]) <==> LiveIn(db.bookings, db.links[i])
    {
      assert db.links[i].booking in db.bookings;
      assert db.links[i].booking != newId;
    }
    forall k | 0 <= k < |ids|
      ensures links[|db.links| + k] == Link(newId, ids[k])
      ensures LiveIn(bookings, Link(newId, ids[k]))
    {
      assert links[|db.links| + k] == LinksFor(newId, ids)[k];
    }
  }

  /** A requested seat was unbooked, so no live link held it before the reservation. */
  lemma RequestedSeatsUnheld(db: Db, screening: ScreeningId, ids: seq<SeatId>)
    requires FlagsAgree(db)
    requires forall id :: id in ids ==> IsFree(db.seats, screening, id)
    ensures forall i :: 0 <= i < |db.links| && Live(db, db.links[i]) ==> db.links[i].seat !in ids
  {
    forall i | 0 <= i < |db.links| && Live(db, db.links[i])
      ensures db.links[i].seat !in ids
    {
      var s := db.links[i].seat;
      assert ShownBooked(db, s);
    }
  }

  lemma ReservedNoOversell(bookings: map<BookingId, Booking>, links: seq<Link>, ids: seq<SeatId>, newId: BookingId, booking: Booking)
    requires NoOversell(bookings, links)
    requires forall i :: 0 <= i < |links| ==> links[i].booking in bookings
    requires newId !in bookings && booking.status != Cancelled && NoDup(ids)
    requires forall i :: 0 <= i < |links| && LiveIn(bookings, links[i]) ==> links[i].seat !in ids
    ensures NoOversell(bookings[newId := booking], links + LinksFor(newId, ids))
  {
    var bookings' := bookings[newId := booking];
    var links' := links + LinksFor(newId, ids);
    var n := |links|;
    forall i, j | 0 <= i < j < |links'| && LiveIn(bookings', links'[i]) && LiveIn(bookings', links'[j])
      ensures links'[i].seat != links'[j].seat
    {
      if j < n {
        assert links'[i] == links[i] && links'[j] == links[j];
        assert LiveIn(bookings, links[i]) && LiveIn(bookings, links[j]);
      } else if i < n {
        assert links'[i] == links[i] && links'[j] == Link(newId, ids[j - n]);
        assert LiveIn(bookings, links[i]);
      } else {
        assert links'[i] == Link(newId, ids[i - n]) && links'[j] == Link(newId, ids[j - n]);
      }
    }
  }

  lemma ReservedFlags(db: Db, screening: ScreeningId, ids: seq<SeatId>, newId: BookingId, booking: Booking)
    requires Consistent(db) && ReservableIn(db, screening, ids, newId, booking)
    ensures FlagsAgree(Reserved(db, ids, newId, booking))
  {
    var db' := Reserved(db, ids, newId, booking);
    var n := |db.links|;
    ReservedLiveness(db, ids, newId, booking);
    forall s | s in db'.seats
      ensures db'.seats[s].booked <==> ShownBooked(db', s)
    {
      if s in ids {
        var k :| 0 <= k < |ids| && ids[k] == s;
        assert db'.links[n + k].seat == s && Live(db', db'.links[n + k]);
      } else {
        if ShownBooked(db', s) {
          var i :| 0 <= i < |db'.links| && db'.links[i].seat == s && Live(db', db'.links[i]);
          assert ShownBooked(db, s);
        }
        if ShownBooked(db, s) {
          var i :| 0 <= i < n && db.links[i].seat == s && Live(db, db.links[i]);
          assert db'.links[i].seat == s && Live(db', db'.links[i]);
        }
      }
    }
  }

  /** The store a successful reservation commits is consistent. */
  lemma ReservedConsistent(db: Db, screening: ScreeningId, ids: seq<SeatId>, newId: BookingId, booking: Booking)
    requires Consistent(db) && ReservableIn(db, screening, ids, newId, booking)
    ensures Consistent(Reserved(db, ids, newId, booking))
  {
    var db' := Reserved(db, ids, newId, booking);
    RequestedSeatsUnheld(db, screening, ids);
    ReservedNoOversell(db.bookings, db.links, ids, newId, booking);
    ReservedFlags(db, screening, ids, newId, booking);
    assert LinksValid(db') by {
      forall i | 0 <= i < |db'.links|
        ensures db'.links[i].booking in db'.bookings && db'.links[i].seat in db'.seats
      {
        if i >= |db.links| {
          var id := ids[i - |db.links|];
          assert db'.links[i] == Link(newId, id);
          assert id in ids && IsFree(db.seats, screening, id);
        } else {
          assert db'.links[i] == db.links[i];
        }
      }
    }
  }

  /** A successful reservation keeps the store consistent: no seat ends up held twice. */
  lemma ReservePreservesConsistency(db: Db, userId: int, screening: ScreeningId, input: Option<seq<SeatId>>, newId: BookingId)
    requires newId !in db.bookings
    requires Consistent(db)
    ensures Consistent(Reserve(db, userId, screening, input, newId).db)
  {
    var t := Reserve(db, userId, screening, input, newId);
    if t.result.Ok? {
      var booking := Booking(None, None, Some(userId), Some(screening), Confirmed);
      ReservedConsistent(db, screening, input.value, newId, booking);
    }
  }

  /**
   * Cancelling a booking that is not yet Cancelled keeps the store consistent: the seats it
   * held were held by it alone, so releasing them makes flag and view agree again.
   */
  lemma CancelLivePreservesConsistency(db: Db, id: BookingId)
    requires Consistent(db)
    requires id in db.bookings && db.bookings[id].status != Cancelled
    ensures Consistent(Cancel(db, id).db)
  {
    var db' := Cancel(db, id).db;
    assert db'.links == db.links;
    forall i | 0 <= i < |db.links|
      ensures Live(db', db.links[i]) <==> Live(db, db.links[i]) && db.links[i].booking != id
    {
    }
    forall s | s in db'.seats
      ensures db'.seats[s].booked <==> ShownBooked(db', s)
    {
      if Link(id, s) in db.links {
        var k :| 0 <= k < |db.links| && db.links[k] == Link(id, s);
        assert Live(db, db.links[k]);
      } else {
        if ShownBooked(db', s) {
          var i :| 0 <= i < |db.links| && db.links[i].seat == s && Live(db', db.links[i]);
          assert ShownBooked(db, s);
        }
        if ShownBooked(db, s) {
          var i :| 0 <= i < |db.links| && db.links[i].seat == s && Live(db, db.links[i]);
          assert db.links[i].booking != id;
          assert ShownBooked(db', s);
        }
      }
    }
  }

  /** The corrected cancellation keeps the store consistent whatever the booking's status. */
  lemma CancelOncePreservesConsistency(db: Db, id: BookingId)
    requires Consistent(db)
    ensures Consistent(CancelOnce(db, id).db)
  {
    if id in db.bookings && db.bookings[id].status != Cancelled {
      CancelLivePreservesConsistency(db, id);
    }
  }

  /**
   * Inserting a booking under a fresh id (`POST /book` inserts one with no seats) keeps the
   * store consistent: no existing link names the new id, so no seat's view changes.
   */
  lemma AddBookingPreservesConsistency(db: Db, id: BookingId, b: Booking)
    requires Consistent(db) && id !in db.bookings
    ensures Consistent(Db(db.seats, db.bookings[id := b], db.links))
  {
    var db' := Db(db.seats, db.bookings[id := b], db.links);
    forall i | 0 <= i < |db.links|
      ensures Live(db', db.links[i]) <==> Live(db, db.links[i])
    {
      assert db.links[i].booking != id;
    }
    forall s | s in db.seats
      ensures ShownBooked(db', s) <==> ShownBooked(db, s)
    {
    }
  }

  /**
   * Moving a booking between two live statuses (the worker's Pending to Confirmed) keeps the
   * store consistent: every link keeps its liveness.
   */
  lemma LiveStatusChangePreservesConsistency(db: Db, id: BookingId, status: Status)
    requires Consistent(db) && id in db.bookings
    requires db.bookings[id].status != Cancelled && status != Cancelled
    ensures Consistent(Db(db.seats, db.bookings[id := db.bookings[id].(status := status)], db.links))
  {
    var db' := Db(db.seats, db.bookings[id := db.bookings[id].(status := status)], db.links);
    forall i | 0 <= i < |db.links|
      ensures Live(db', db.links[i]) <==> Live(db, db.links[i])
    {
    }
    forall s | s in db.seats
      ensures ShownBooked(db', s) <==> ShownBooked(db, s)
    {
    }
  }

  /** One free seat 1 of screening 10 and nothing else. */
  function OneFreeSeat(): Db {
    Db(map[1 := Seat(10, "A", 1, false)], map[], [])
  }

  function SeatOne(booked: bool): Seat {
    Seat(10, "A", 1, booked)
  }

  function ByUser(userId: int, status: Status): Booking {
    Booking(None, None, Some(userId), Some(10), status)
  }

  /** After b1 booked seat 1, b1 was cancelled and b2 booked seat 1. */
  function Rebooked(): Db {
    Db(map[1 := SeatOne(true)], map["b1" := ByUser(7, Cancelled), "b2" := ByUser(8, Confirmed)],
       [Link("b1", 1), Link("b2", 1)])
  }

  lemma ReachRebooked()
    ensures var t1 := Reserve(OneFreeSeat(), 7, 10, Some([1]), "b1");
      var t2 := Cancel(t1.db, "b1");
      "b2" !in t2.db.bookings && Reserve(t2.db, 8, 10, Some([1]), "b2").db == Rebooked()
  {
    var db0 := OneFreeSeat();
    var t1 := Reserve(db0, 7, 10, Some([1]), "b1");
    ReserveSucceedsIff(db0, 7, 10, Some([1]), "b1");
    var db1 := Db(map[1 := SeatOne(true)], map["b1" := ByUser(7, Confirmed)], [Link("b1", 1)]);
    assert t1.db.seats == db1.seats;
    assert t1.db == db1;
    var t2 := Cancel(db1, "b1");
    var db2 := Db(map[1 := SeatOne(false)], map["b1" := ByUser(7, Cancelled)], [Link("b1", 1)]);
    assert t2.db.seats == db2.seats;
    assert t2.db == db2;
    var t3 := Reserve(db2, 8, 10, Some([1]), "b2");
    ReserveSucceedsIff(db2, 8, 10, Some([1]), "b2");
    assert t3.db.seats == Rebooked().seats;
  }

  /**
   * Booking b1 takes seat 1 and is cancelled; b2 then takes seat 1 (the store is still
   * consistent); cancelling b1 a second time releases seat 1 although b2 still holds it, and
   * b3 can book it again: two live bookings on one seat.
   */
  lemma RecancelOversells()
    ensures Consistent(Rebooked())
    ensures var t4 := Cancel(Rebooked(), "b1");
      && t4.result.Ok? && !Consistent(t4.db)
      && "b3" !in t4.db.bookings
      && var t5 := Reserve(t4.db, 9, 10, Some([1]), "b3");
      && t5.result.Ok?
      && t5.db.bookings["b2"].status == Confirmed && t5.db.bookings["b3"].status == Confirmed
      && Link("b2", 1) in t5.db.links && Link("b3", 1) in t5.db.links
  {
    var db3 := Rebooked();
    assert Consistent(db3) by {
      assert ShownBooked(db3, 1) by {
        assert db3.links[1].seat == 1 && Live(db3, db3.links[1]);
      }
    }
    var t4 := Cancel(db3, "b1");
    assert !Consistent(t4.db) by {
      assert !t4.db.seats[1].booked;
      assert t4.db.links[1].seat == 1 && Live(t4.db, t4.db.links[1]);
    }
    ReserveSucceedsIff(t4.db, 9, 10, Some([1]), "b3");
  }

  /** With the corrected cancellation the retried cancel changes nothing and seat 1 stays sold once. */
  lemma RecancelOnceKeepsSeat()
    ensures var t1 := Reserve(OneFreeSeat(), 7, 10, Some([1]), "b1");
      var t2 := CancelOnce(t1.db, "b1");
      "b2" !in t2.db.bookings &&
      var t3 := Reserve(t2.db, 8, 10, Some([1]), "b2");
      var t4 := CancelOnce(t3.db, "b1");
      "b3" !in t4.db.bookings &&
      var t5 := Reserve(t4.db, 9, 10, Some([1]), "b3");
      && t3.result.Ok? && t4.db == t3.db && t5.result == Err(SeatsAlreadyBooked(1))
  {
    var db0 := OneFreeSeat();
    var t1 := Reserve(db0, 7, 10, Some([1]), "b1");
    ReserveSucceedsIff(db0, 7, 10, Some([1]), "b1");
    assert t1.db.bookings["b1"].status == Confirmed && t1.db.links == [Link("b1", 1)];
    var t2 := CancelOnce(t1.db, "b1");
    assert t2.db.seats[1].booked == false && t2.db.bookings["b1"].status == Cancelled;
    var t3 := Reserve(t2.db, 8, 10, Some([1]), "b2");
    ReserveSucceedsIff(t2.db, 8, 10, Some([1]), "b2");
    assert t3.db.bookings["b1"].status == Cancelled && t3.db.seats[1].booked;
    var t4 := CancelOnce(t3.db, "b1");
    assert t4.db == t3.db;
    var t5 := Reserve(t4.db, 9, 10, Some([1]), "b3");
    assert FreeSeats(t4.db.seats, 10, [1]) == [];
  }
}
