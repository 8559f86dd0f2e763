/**
 * The reservation section (components/Booking.tsx): a form prefilled from the
 * session, a submission that stores a confirmed booking under a drawn "RES-"
 * number, and a reset for the next reservation.
 */
module Bookings {
  import opened Types
  import Digits
  import Profile
  import opened Storage

  const EmptyRequest: BookingRequest := BookingRequest("", "", "", "", "", 2, Some(""))

  /** The prefill effect: the session's name and email replace the form's. */
  function Prefill(form: BookingRequest, currentUser: Option<User>): (r: BookingRequest)
    ensures currentUser.None? ==> r == form
    ensures currentUser.Some? ==> r.name == currentUser.value.name && r.email == currentUser.value.email
    ensures r.(name := form.name, email := form.email) == form
  {
    if currentUser.Some? then form.(name := currentUser.value.name, email := currentUser.value.email)
    else form
  }

  /** Prefilling twice from the same session changes nothing more. */
  lemma PrefillIdempotent(form: BookingRequest, currentUser: Option<User>)
    ensures Prefill(Prefill(form, currentUser), currentUser) == Prefill(form, currentUser)
  {
  }

  /**
   * The record handleSubmit stores: confirmed, tagged "RES-", and counted as a
   * user's reservation exactly when that user is signed in.
   */
  function NewBooking(form: BookingRequest, number: nat, currentUser: Option<User>, now: int): (r: Booking)
    ensures r.status == Confirmed
    ensures |r.id| > 4 && r.id[..4] == "RES-"
    ensures forall email :: Profile.BookedBy(email)(r) <==> currentUser.Some? && currentUser.value.email == email
  {
    Booking(form, Digits.TaggedId("RES-", number),
            if currentUser.Some? then Some(currentUser.value.email) else None,
            Confirmed, now)
  }

  /**
   * A reservation made while signed in shows up in that user's history; one
   * made as a guest shows up in no one's.
   */
  lemma NewBookingInHistory(bookings: seq<Booking>, form: BookingRequest, number: nat,
                            currentUser: Option<User>, now: int, email: string)
    ensures var b := NewBooking(form, number, currentUser, now);
      (b in Profile.BookingHistory(bookings + [b], email) <==> currentUser.Some? && currentUser.value.email == email)
  {
    var b := NewBooking(form, number, currentUser, now);
    Profile.BookingHistoryExact(bookings + [b], email);
    if currentUser.Some? && currentUser.value.email == email {
      assert multiset(bookings + [b])[b] > 0;
    }
  }

  /** Two reservations drawn with different numbers never share an id. */
  lemma ReservationIdsDistinct(form: BookingRequest, a: nat, b: nat, currentUser: Option<User>, now: int)
    requires a != b
    ensures NewBooking(form, a, currentUser, now).id != NewBooking(form, b, currentUser, now).id
  {
    if Digits.TaggedId("RES-", a) == Digits.TaggedId("RES-", b) {
      Digits.TaggedIdInjective("RES-", a, b);
    }
  }

  class BookingForm {
    var form: BookingRequest
    var isSubmitted: bool
    var reservationId: string
    var isSubmitting: bool

    constructor ()
      ensures form == EmptyRequest && !isSubmitted && reservationId == "" && !isSubmitting
    {
      form, isSubmitted, reservationId, isSubmitting := EmptyRequest, false, "", false;
    }

    /** The effect run whenever the session user changes. */
    method PrefillFromSession(currentUser: Option<User>)
      modifies this`form
      ensures form == Prefill(old(form), currentUser)
    {
      form := Prefill(form, currentUser);
    }

    /**
     * handleSubmit: draw the reservation id and append one confirmed booking,
     * linked to the session's email, to the stored bookings.
     */
    method HandleSubmit(currentUser: Option<User>, random: real, now: int, store: Store)
      requires 0.0 <= random < 1.0
      modifies this`isSubmitting, this`reservationId, store`bookings
      ensures isSubmitting
      ensures reservationId == Digits.TaggedId("RES-", Digits.IdNumber(random)) && |reservationId| == 10
      ensures store.bookings == old(store.bookings) + [NewBooking(form, Digits.IdNumber(random), currentUser, now)]
      ensures store.bookings[|old(store.bookings)|].status == Confirmed
      ensures store.bookings[|old(store.bookings)|].request == form
      ensures store.bookings[|old(store.bookings)|].id == reservationId
      ensures store.bookings[|old(store.bookings)|].timestamp == now
      ensures store.bookings[|old(store.bookings)|].userEmail
           == if currentUser.Some? then Some(currentUser.value.email) else None
    {
      isSubmitting := true;
      var number := Digits.IdNumber(random);
      Digits.DrawnIdLength("RES-", random);
      reservationId := Digits.TaggedId("RES-", number);
      store.bookings := store.bookings + [NewBooking(form, number, currentUser, now)];
    }

    /** The delayed callback of handleSubmit: show the confirmation. */
    method FinishSubmit()
      modifies this`isSubmitting, this`isSubmitted
      ensures !isSubmitting && isSubmitted
    {
      isSubmitting := false;
      isSubmitted := true;
    }

    /** resetForm: a new reservation for the same guest; contact details are kept. */
    method ResetForm()
      modifies this`isSubmitted, this`reservationId, this`form
      ensures !isSubmitted && reservationId == ""
      ensures form.name == old(form.name) && form.email == old(form.email) && form.phone == old(form.phone)
      ensures form.date == "" && form.time == "" && form.guests == 2 && form.specialRequests == Some("")
    {
      isSubmitted := false;
      reservationId := "";
      form := form.(date := "", time := "", guests := 2, specialRequests := Some(""));
    }
  }
}
