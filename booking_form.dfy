/** The booking form of a tour page: a date, two guest counters, and a
    submit sequence that asks the server action `createBooking` to store the
    booking. The server action is seen only through its reply. */
module BookingForm {
  import opened Wrappers

  /** The argument of `createBooking`; the date is already formatted as
      "yyyy-MM-dd". */
  datatype BookingRequest = BookingRequest(tourId: string, date: string, adults: int, children: int)

  /** What awaiting `createBooking` gives the form: a returned object
      `{ success, error? }`, or an exception. */
  datatype BookingReply = Returned(success: bool, error: Option<string>) | Threw(message: string)

  const FailedToCreate: string := "Failed to create booking"

  /** `createBooking`: the write to the bookings table either succeeds or
      throws, and both outcomes are caught inside the action, so the form
      always sees a returned object. */
  function CreateBooking(stored: bool): (reply: BookingReply)
    ensures reply.Returned?
    ensures reply.success == stored
    ensures !stored ==> reply.error == Some(FailedToCreate)
  {
    if stored then Returned(true, None) else Returned(false, Some(FailedToCreate))
  }

  /** The guard of `handleSubmit` as written: the confirmation is shown
      whenever awaiting `createBooking` does not throw. */
  predicate ConfirmsAsWritten(reply: BookingReply) {
    reply.Returned?
  }

  /** The intended guard: the confirmation is shown only when the booking was
      stored. */
  predicate Confirms(reply: BookingReply) {
    reply.Returned? && reply.success
  }

  /** The minus buttons: `Math.max(floor, n - 1)`. */
  function Decremented(n: int, floor: int): (r: int)
    ensures r >= floor
    ensures r <= n || n < floor
  {
    if n - 1 > floor then n - 1 else floor
  }

  /** As written, every call of `createBooking` ends in the confirmation,
      whether or not the booking was stored. */
  lemma AsWrittenConfirmsEveryBooking(stored: bool)
    ensures ConfirmsAsWritten(CreateBooking(stored))
  {
  }

  /** The failing write is the input that shows it: the action reports
      failure, yet the as-written form confirms it. */
  lemma AsWrittenConfirmsFailedBooking()
    ensures CreateBooking(false) == Returned(false, Some(FailedToCreate))
    ensures ConfirmsAsWritten(CreateBooking(false))
    ensures !Confirms(CreateBooking(false))
  {
  }

  /** With the intended guard the confirmation appears exactly when the
      booking was stored, and never after an exception. */
  lemma ConfirmsExactlyStored(stored: bool, message: string)
    ensures Confirms(CreateBooking(stored)) <==> stored
    ensures !Confirms(Threw(message))
  {
  }

  /** A confirmation with the intended guard is also one as written: the
      correction only withholds confirmations. */
  lemma ConfirmsImpliesAsWritten(reply: BookingReply)
    ensures Confirms(reply) ==> ConfirmsAsWritten(reply)
    ensures ConfirmsAsWritten(reply) && reply.success ==> Confirms(reply)
  {
  }

  /** Minus after plus gives the count back; plus after minus does too
      while the count is above the floor. */
  lemma DecrementUndoesIncrement(n: int, floor: int)
    requires n >= floor
    ensures Decremented(n + 1, floor) == n
    ensures n > floor ==> Decremented(n, floor) + 1 == n
    ensures Decremented(floor, floor) == floor
  {
  }

  class Form {
    const tourId: string
    var date: Option<string>
    var adults: int
    var children: int
    var loading: bool
    var success: bool

    /** At least one adult, no negative number of children. */
    predicate Valid()
      reads this
    {
      adults >= 1 && children >= 0
    }

    /** The initial state: no date, two adults, no children. */
    constructor(tourId: string)
      ensures this.tourId == tourId
      ensures date.None? && adults == 2 && children == 0 && !loading && !success
      ensures Valid()
    {
      this.tourId := tourId;
      date := None;
      adults := 2;
      children := 0;
      loading := false;
      success := false;
    }

    /** Picking a day in the calendar (or clearing it). */
    method SelectDate(day: Option<string>)
      modifies this
      ensures date == day
      ensures adults == old(adults) && children == old(children)
      ensures loading == old(loading) && success == old(success)
    {
      date := day;
    }

    method DecrementAdults()
      modifies this
      requires Valid()
      ensures adults == Decremented(old(adults), 1) && children == old(children)
      ensures date == old(date) && loading == old(loading) && success == old(success)
      ensures Valid()
    {
      adults := if adults - 1 > 1 then adults - 1 else 1;
    }

    method IncrementAdults()
      modifies this
      requires Valid()
      ensures adults == old(adults) + 1 && children == old(children)
      ensures date == old(date) && loading == old(loading) && success == old(success)
      ensures Valid()
    {
      adults := adults + 1;
    }

    method DecrementChildren()
      modifies this
      requires Valid()
      ensures children == Decremented(old(children), 0) && adults == old(adults)
      ensures date == old(date) && loading == old(loading) && success == old(success)
      ensures Valid()
    {
      children := if children - 1 > 0 then children - 1 else 0;
    }

    method IncrementChildren()
      modifies this
      requires Valid()
      ensures children == old(children) + 1 && adults == old(adults)
      ensures date == old(date) && loading == old(loading) && success == old(success)
      ensures Valid()
    {
      children := children + 1;
    }

    /** `handleSubmit` up to the `await`: without a date nothing happens and
      no request is made; otherwise `loading` is set and the request carries
      the form's date and guest counts. */
    method BeginSubmit() returns (request: Option<BookingRequest>)
      modifies this
      ensures old(date).None? ==> request.None? && loading == old(loading)
      ensures old(date).Some? ==>
        request == Some(BookingRequest(tourId, old(date).value, adults, children)) && loading
      ensures date == old(date) && adults == old(adults) && children == old(children)
      ensures success == old(success)
    {
      if date.None? {
        return None;
      }
      loading := true;
      request := Some(BookingRequest(tourId, date.value, adults, children));
    }

    /** `handleSubmit` after the `await`, as written: the confirmation
      whenever `createBooking` returns, whatever its `success` says, nothing
      when it throws, and `loading` cleared in every case. */
    method EndSubmit(reply: BookingReply)
      modifies this
      ensures success == (old(success) || ConfirmsAsWritten(reply))
      ensures !loading
      ensures date == old(date) && adults == old(adults) && children == old(children)
    {
      if reply.Returned? {
        success := true;
      }
      loading := false;
    }

    /** `handleSubmit` after the `await` with the intended guard: the
      confirmation only for a stored booking. */
    method EndSubmitIntended(reply: BookingReply)
      modifies this
      ensures success == (old(success) || Confirms(reply))
      ensures !loading
      ensures date == old(date) && adults == old(adults) && children == old(children)
    {
      if reply.Returned? && reply.success {
        success := true;
      }
      loading := false;
    }

    /** A whole submit as written: the reply is used only when a request was
      made, and a returned failure is confirmed too. */
    method HandleSubmit(reply: BookingReply) returns (request: Option<BookingRequest>)
      modifies this
      requires !loading
      ensures old(date).None? ==> request.None? && success == old(success)
      ensures old(date).Some? ==> request.Some? && success == (old(success) || ConfirmsAsWritten(reply))
      ensures !loading
      ensures date == old(date) && adults == old(adults) && children == old(children)
    {
      request := BeginSubmit();
      if request.Some? {
        EndSubmit(reply);
      }
    }

    /** A whole submit with the intended guard. */
    method HandleSubmitIntended(reply: BookingReply) returns (request: Option<BookingRequest>)
      modifies this
      requires !loading
      ensures old(date).None? ==> request.None? && success == old(success)
      ensures old(date).Some? ==> request.Some? && success == (old(success) || Confirms(reply))
      ensures !loading
      ensures date == old(date) && adults == old(adults) && children == old(children)
    {
      request := BeginSubmit();
      if request.Some? {
        EndSubmitIntended(reply);
      }
    }

    /** "Book Another Tour": back to the form with no date, keeping the
      guest counts. */
    method BookAnother()
      modifies this
      ensures !success && date.None?
      ensures adults == old(adults) && children == old(children) && loading == old(loading)
    {
      success := false;
      date := None;
    }
  }
}
