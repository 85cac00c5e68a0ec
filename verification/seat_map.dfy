/**
 * The grid seat picker. Its selection is a JavaScript `Set` of seat ids; a click builds a new
 * set from the old one and adds or deletes the seat in the new one, so the old set is never
 * touched. Booking posts the set's elements, in insertion order.
 */
module SeatMap {
  import opened Wrappers
  import opened Sequences
  import opened SeatLayout
  import opened BookingForm
  import opened BookingStore

  /** A `Set` of seat ids: its elements in insertion order, each once. */
  class IdSet {
    var elems: seq<int>

    /** `new Set()` */
    constructor Empty()
      ensures elems == []
    {
      elems := [];
    }

    /** `new Set(other)`: a fresh set with the same elements in the same order. */
    constructor Copy(other: IdSet)
      ensures elems == other.elems
    {
      elems := other.elems;
    }

    predicate Valid()
      reads this
    {
      NoDup(elems)
    }

    predicate Has(x: int)
      reads this
    {
      x in elems
    }

    function Size(): nat
      reads this
    {
      |elems|
    }

    /** `add(x)`: appended at the end unless already present. */
    method Add(x: int)
      modifies this
      ensures elems == if x in old(elems) then old(elems) else old(elems) + [x]
      ensures old(Valid()) ==> Valid()
    {
      if x !in elems {
        if Valid() {
          ToggleNoDup(elems, x);
        }
        elems := elems + [x];
      }
    }

    /** `delete(x)`: removed, the others keeping their order. */
    method Delete(x: int)
      modifies this
      ensures elems == Without(old(elems), x)
      ensures old(Valid()) ==> Valid()
    {
      if Valid() {
        WithoutNoDup(elems, x);
      }
      elems := Without(elems, x);
    }
  }

  /**
   * `handleSeatClick(seat)` applied to the current selection `prev`: a booked seat leaves the
   * very same set in place; any other seat yields a fresh set with the seat's membership
   * flipped, which on a set is exactly the booking form's `Toggle`. No existing object is
   * modified, so `prev` is left as it was.
   */
  method HandleSeatClick(prev: IdSet, seat: SeatView) returns (next: IdSet)
    ensures seat.booked ==> next == prev
    ensures !seat.booked ==> fresh(next) && next.elems == Toggle(prev.elems, seat.id)
    ensures prev.Valid() ==> next.Valid()
  {
    if seat.booked {
      return prev;
    }
    next := new IdSet.Copy(prev);
    if next.Has(seat.id) {
      next.Delete(seat.id);
    } else {
      next.Add(seat.id);
    }
  }

  /** Two clicks on an unselected, unbooked seat give back the original selection in the original order. */
  lemma TwoClicksRestoreAbsent(prev: seq<int>, seat: SeatView)
    requires !seat.booked && seat.id !in prev
    ensures Toggle(Toggle(prev, seat.id), seat.id) == prev
  {
    ToggleTwiceAbsent(prev, seat.id);
  }

  /** Two clicks on a selected seat give back the same set of seats, the seat now last. */
  lemma TwoClicksRestorePresent(prev: seq<int>, seat: SeatView)
    requires NoDup(prev) && seat.id in prev
    ensures var twice := Toggle(Toggle(prev, seat.id), seat.id);
      (forall x :: x in twice <==> x in prev) && |twice| == |prev| && twice[|twice| - 1] == seat.id
  {
    var twice := Toggle(Toggle(prev, seat.id), seat.id);
    ToggleTwicePresent(prev, seat.id);
    WithoutNoDup(prev, seat.id);
    DistinctLength(prev);
    WithoutLength(prev, seat.id);
  }

  /** Removing an element that occurs once shortens a sequence by one. */
  lemma {:induction false} WithoutLength(s: seq<int>, x: int)
    requires NoDup(s) && x in s
    ensures |Without(s, x)| == |s| - 1
    decreases |s|
  {
    if s[0] == x {
      assert x !in s[1..];
      WithoutAbsent(s[1..], x);
    } else {
      WithoutLength(s[1..], x);
    }
  }

  /** The ids a picker posts are duplicate-free, so the server's duplicate check never rejects them. */
  lemma PostedIdsPassDuplicateCheck(db: Db, userId: int, screening: ScreeningId, ids: seq<SeatId>, newId: BookingId)
    requires NoDup(ids) && newId !in db.bookings
    ensures Reserve(db, userId, screening, Some(ids), newId).result != Err(DuplicateSeatIds)
  {
    DistinctLength(ids);
  }

  const PickFirstAlert: string := "Pick at least one seat first!"
  const BookedAlert: string := "\U{2705} Seats booked successfully!"
  const FailurePrefix: string := "\U{274C} Booking failed: "

  class Picker {
    const screening: nat
    var selected: IdSet
    /** Requests posted, in order. */
    var posted: seq<BookingRequest>
    /** Alerts shown, in order. */
    var alerts: seq<string>

    constructor (screeningId: nat)
      ensures screening == screeningId && fresh(selected) && selected.elems == []
      ensures posted == [] && alerts == []
    {
      screening := screeningId;
      selected := new IdSet.Empty();
      posted := [];
      alerts := [];
    }

    predicate Valid()
      reads this, selected
    {
      selected.Valid()
    }

    /** A seat button: the selection becomes what `HandleSeatClick` gives. */
    method ClickSeat(seat: SeatView)
      modifies this
      ensures seat.booked ==> selected == old(selected)
      ensures !seat.booked ==> fresh(selected) && selected.elems == Toggle(old(selected.elems), seat.id)
      ensures old(selected).elems == old(selected.elems)
      ensures posted == old(posted) && alerts == old(alerts)
      ensures old(Valid()) ==> Valid()
    {
      selected := HandleSeatClick(selected, seat);
    }

    /**
     * `bookSeats`: an empty selection only alerts; otherwise the set's elements are posted and
     * the answer decides the alert.
     */
    method BookSeats(answer: ServerAnswer)
      modifies this
      ensures old(selected.elems) == [] ==> posted == old(posted) && alerts == old(alerts) + [PickFirstAlert]
      ensures old(selected.elems) != [] ==>
                && posted == old(posted) + [BookingRequest(DemoUserId, Some(screening), old(selected.elems))]
                && (answer == Accepted ==> alerts == old(alerts) + [BookedAlert])
                && (answer.Refused? ==>
                      alerts == old(alerts) + [FailurePrefix + OrElse(answer.serverError, answer.message)])
      ensures old(Valid()) && old(selected.elems) != [] ==> NoDup(posted[|posted| - 1].seatIds)
      ensures selected == old(selected) && selected.elems == old(selected.elems)
    {
      if selected.Size() == 0 {
        alerts := alerts + [PickFirstAlert];
        return;
      }
      posted := posted + [BookingRequest(DemoUserId, Some(screening), selected.elems)];
      if answer == Accepted {
        alerts := alerts + [BookedAlert];
      } else {
        alerts := alerts + [FailurePrefix + OrElse(answer.serverError, answer.message)];
      }
    }
  }
}
