/**
 * The booking form: choose a screening, load its seats, toggle seats in and out of the
 * selection, and post the selection to the seat-booking endpoint. The component's React
 * state is the state of a `Form` object; each handler is a method that updates it.
 */
module BookingForm {
  import opened Wrappers
  import opened Text
  import opened Sequences
  import opened SeatLayout

  /** The selection after `toggleSeat(seatId)`: the seat removed if present, else appended. */
  function Toggle(selected: seq<int>, seatId: int): (r: seq<int>)
    ensures seatId in r <==> seatId !in selected
    ensures forall x :: x != seatId ==> (x in r <==> x in selected)
    ensures seatId !in selected ==> r == selected + [seatId]
    // a selected seat loses every copy; every other seat keeps its count
    ensures seatId in selected ==> multiset(r) == multiset(selected)[seatId := 0]
  {
    if seatId in selected then
      WithoutCounts(selected, seatId);
      Without(selected, seatId)
    else selected + [seatId]
  }

  /** Toggling a seat that was not selected, twice, gives back exactly the original selection. */
  lemma ToggleTwiceAbsent(selected: seq<int>, seatId: int)
    requires seatId !in selected
    ensures Toggle(Toggle(selected, seatId), seatId) == selected
  {
    WithoutAppended(selected, seatId);
  }

  /** Toggling a selected seat twice drops its copies and puts it once at the end. */
  lemma ToggleTwicePresent(selected: seq<int>, seatId: int)
    requires seatId in selected
    ensures Toggle(Toggle(selected, seatId), seatId) == Without(selected, seatId) + [seatId]
  {
  }

  /** A duplicate-free selection stays duplicate-free. */
  lemma ToggleNoDup(selected: seq<int>, seatId: int)
    requires NoDup(selected)
    ensures NoDup(Toggle(selected, seatId))
  {
    if seatId in selected {
      WithoutNoDup(selected, seatId);
    } else {
      var r := selected + [seatId];
      forall i, j | 0 <= i < j < |r| ensures r[i] != r[j] {
        if j == |selected| {
          assert r[i] == selected[i];
        }
      }
    }
  }

  /** The body posted to the seat-booking endpoint. */
  datatype BookingRequest = BookingRequest(userId: int, screening: Option<nat>, seatIds: seq<int>)

  /** What the post came back with: success, or a failure with the server's `error` field (if any) and the client's own message. */
  datatype ServerAnswer = Accepted | Refused(serverError: Option<string>, message: string)

  /** `a || b` on an optional string: an absent or empty string gives way. */
  function OrElse(a: Option<string>, b: string): (r: string)
    ensures a.Some? && a.value != [] ==> r == a.value
    ensures (a.None? || a.value == []) ==> r == b
  {
    if a.Some? && a.value != [] then a.value else b
  }

  const EmptySelectionError: string := "Please select at least one seat"
  const LoadSeatsError: string := "Failed to load seats"
  const DefaultBookingError: string := "Booking failed"
  const BookingsPage: string := "/bookings"
  /** The demo user every request is made for. */
  const DemoUserId: int := 1

  function SuccessAlert(n: nat): string {
    "Successfully booked " + NatToString(n) + " seat(s)!"
  }

  class Form {
    var selectedScreening: Option<nat>
    var seats: seq<SeatView>
    var selected: seq<int>
    var loading: bool
    var error: Option<string>
    /** Requests posted, in order. */
    var posted: seq<BookingRequest>
    /** Alerts shown, in order. */
    var alerts: seq<string>
    /** The page navigated to, once one is. */
    var location: Option<string>

    constructor ()
      ensures selectedScreening == None && seats == [] && selected == [] && !loading && error == None
      ensures posted == [] && alerts == [] && location == None
    {
      selectedScreening := None;
      seats := [];
      selected := [];
      loading := false;
      error := None;
      posted := [];
      alerts := [];
      location := None;
    }

    /** The selection never names a seat twice. */
    predicate Valid()
      reads this
    {
      NoDup(selected)
    }

    /**
     * `loadSeats`: `answer` is the seat list the endpoint returned, or `None` when the request
     * failed. A fresh seat list always starts with an empty selection.
     */
    method LoadSeats(answer: Option<seq<SeatView>>)
      modifies this
      ensures answer.Some? ==> seats == answer.value && selected == [] && error == old(error)
      ensures answer.None? ==> seats == old(seats) && selected == old(selected) && error == Some(LoadSeatsError)
      ensures !loading
      ensures selectedScreening == old(selectedScreening) && posted == old(posted)
      ensures alerts == old(alerts) && location == old(location)
      ensures old(Valid()) ==> Valid()
    {
      loading := true;
      if answer.Some? {
        seats := answer.value;
        selected := [];
      } else {
        error := Some(LoadSeatsError);
      }
      loading := false;
    }

    /** A screening button: remember the screening, then load its seats. */
    method ChooseScreening(screening: nat, answer: Option<seq<SeatView>>)
      modifies this
      ensures selectedScreening == Some(screening)
      ensures answer.Some? ==> seats == answer.value && selected == [] && error == old(error)
      ensures answer.None? ==> seats == old(seats) && selected == old(selected) && error == Some(LoadSeatsError)
      ensures !loading && posted == old(posted) && alerts == old(alerts) && location == old(location)
      ensures old(Valid()) ==> Valid()
    {
      selectedScreening := Some(screening);
      LoadSeats(answer);
    }

    /** `toggleSeat(seatId)` */
    method ToggleSeat(seatId: int)
      modifies this
      ensures selected == Toggle(old(selected), seatId)
      ensures seats == old(seats) && error == old(error) && loading == old(loading)
      ensures selectedScreening == old(selectedScreening) && posted == old(posted)
      ensures alerts == old(alerts) && location == old(location)
      ensures old(Valid()) ==> Valid()
    {
      if old(Valid()) {
        ToggleNoDup(selected, seatId);
      }
      selected := Toggle(selected, seatId);
    }

    /** A seat button: a booked seat ignores the click, any other seat is toggled. */
    method ClickSeat(seat: SeatView)
      modifies this
      ensures seat.booked ==> selected == old(selected)
      ensures !seat.booked ==> selected == Toggle(old(selected), seat.id)
      ensures seats == old(seats) && error == old(error) && loading == old(loading)
      ensures selectedScreening == old(selectedScreening) && posted == old(posted)
      ensures alerts == old(alerts) && location == old(location)
      ensures old(Valid()) ==> Valid()
    {
      if !seat.booked {
        ToggleSeat(seat.id);
      }
    }

    /**
     * `handleBookSeats`: an empty selection only sets an error; otherwise the selection is
     * posted, and the answer decides between an alert plus a move to the bookings page and
     * an error message.
     */
    method HandleBookSeats(answer: ServerAnswer)
      modifies this
      ensures old(selected) == [] ==>
                && error == Some(EmptySelectionError)
                && posted == old(posted) && alerts == old(alerts) && location == old(location)
                && loading == old(loading)
      ensures old(selected) != [] ==>
                && posted == old(posted) + [BookingRequest(DemoUserId, old(selectedScreening), old(selected))]
                && !loading
                && (answer == Accepted ==>
                      error == None && alerts == old(alerts) + [SuccessAlert(|old(selected)|)] && location == Some(BookingsPage))
                && (answer.Refused? ==>
                      error == Some(OrElse(answer.serverError, DefaultBookingError))
                      && alerts == old(alerts) && location == old(location))
      ensures selected == old(selected) && seats == old(seats) && selectedScreening == old(selectedScreening)
    {
      if |selected| == 0 {
        error := Some(EmptySelectionError);
        return;
      }
      loading := true;
      error := None;
      posted := posted + [BookingRequest(DemoUserId, selectedScreening, selected)];
      if answer == Accepted {
        alerts := alerts + [SuccessAlert(|selected|)];
        location := Some(BookingsPage);
      } else {
        error := Some(OrElse(answer.serverError, DefaultBookingError));
      }
      loading := false;
    }
  }
}
