/** The booking entity and its guarded status transitions. Each transition
    is a pure function from the booking (and the current instant) to the
    returned Result and the booking as it is afterwards. */
module Bookings {
  import opened Wrappers
  import opened Entities
  import opened Time
  import opened DomainEvents
  import Errors
  import opened Results
  import BookingErrors
  import opened Currencies
  import opened Apartments

  datatype BookingStatus = Reserved | Confirmed | Rejected | Completed | Cancelled

  /** A monetary amount in a currency. */
  datatype Money = Money(amount: real, currency: Currency)

  /** The booked days; only the start day matters to the transitions. */
  datatype DateRange = DateRange(start: Date, end: Date)

  /** What the pricing collaborator computes for an apartment and a range. */
  datatype PricingDetails = PricingDetails(
    priceForPeriod: Money,
    cleaningFee: Money,
    amenitiesUpCharge: Money,
    totalPrice: Money)

  datatype Booking = Booking(
    entity: Entity<Event>,
    apartmentId: Guid,
    userId: Guid,
    duration: DateRange,
    priceForPeriod: Money,
    cleaningFee: Money,
    amenitiesUpCharge: Money,
    totalPrice: Money,
    status: BookingStatus,
    createdOnUtc: Instant,
    confirmedOnUtc: Option<Instant>,
    rejectedOnUtc: Option<Instant>,
    completedOnUtc: Option<Instant>,
    cancelledOnUtc: Option<Instant>)

  /** The four optional timestamps of a booking. */
  datatype Stamp = ConfirmedAt | RejectedAt | CompletedAt | CancelledAt

  function StampOf(b: Booking, s: Stamp): (t: Option<Instant>) {
    match s
    case ConfirmedAt => b.confirmedOnUtc
    case RejectedAt => b.rejectedOnUtc
    case CompletedAt => b.completedOnUtc
    case CancelledAt => b.cancelledOnUtc
  }

  /** Everything a transition must leave alone: identity, parties, dates,
      prices and the creation time. */
  predicate SameTerms(a: Booking, b: Booking) {
    && a.entity.id == b.entity.id
    && a.apartmentId == b.apartmentId
    && a.userId == b.userId
    && a.duration == b.duration
    && a.priceForPeriod == b.priceForPeriod
    && a.cleaningFee == b.cleaningFee
    && a.amenitiesUpCharge == b.amenitiesUpCharge
    && a.totalPrice == b.totalPrice
    && a.createdOnUtc == b.createdOnUtc
  }

  /** A successful step from `a` to `b`: status `s`, timestamp `stamp` set to
      `now` and no other timestamp touched, terms kept, and `ev` appended. */
  ghost predicate Stepped(a: Booking, b: Booking, s: BookingStatus, stamp: Stamp, now: Instant, ev: Event) {
    && b.status == s
    && StampOf(b, stamp) == Some(now)
    && (forall t :: t != stamp ==> StampOf(b, t) == StampOf(a, t))
    && SameTerms(a, b)
    && Appended(GetDomainEvents(a.entity), GetDomainEvents(b.entity), ev)
  }

  /** Reserve: a new booking in Reserved with one BookingReserved event; the
      apartment records the booking time. `bookingId` stands for the freshly
      generated Guid and `pricing` for the pricing collaborator's answer. */
  function Reserve(apartment: Apartment, userId: Guid, duration: DateRange, utcNow: Instant,
                   pricing: PricingDetails, bookingId: Guid): (out: (Booking, Apartment))
    ensures out.0.entity.id == bookingId
    ensures out.0.status == Reserved && out.0.createdOnUtc == utcNow
    ensures GetDomainEvents(out.0.entity) == [BookingReserved(bookingId)]
    ensures out.0.apartmentId == apartment.entity.id && out.0.userId == userId
    ensures out.0.duration == duration
    ensures out.0.priceForPeriod == pricing.priceForPeriod && out.0.cleaningFee == pricing.cleaningFee
    ensures out.0.amenitiesUpCharge == pricing.amenitiesUpCharge && out.0.totalPrice == pricing.totalPrice
    ensures forall t :: StampOf(out.0, t).None?
    ensures out.1.lastBookedOnUtc == Some(utcNow) && out.1.entity == apartment.entity
  {
    var booking := Booking(New(bookingId), apartment.entity.id, userId, duration,
                           pricing.priceForPeriod, pricing.cleaningFee,
                           pricing.amenitiesUpCharge, pricing.totalPrice,
                           Reserved, utcNow, None, None, None, None);
    var booking' := booking.(entity := RaiseDomainEvent(booking.entity, BookingReserved(booking.entity.id)));
    assert GetDomainEvents(booking'.entity) == [BookingReserved(bookingId)];
    (booking', apartment.(lastBookedOnUtc := Some(utcNow)))
  }

  /** The failed result for a booking error; none of them is Error.None. */
  function Fail(e: Errors.Error): (r: Result)
    requires e in BookingErrors.All
    ensures r.IsFailure() && r.error == e && r.Valid()
  {
    BookingErrors.AllAreFailures();
    Failure(e).value
  }

  /** Confirm: only from Reserved. */
  function Confirm(b: Booking, utcNow: Instant): (out: (Result, Booking))
    ensures out.0.Valid()
    ensures out.0.isSuccess <==> b.status == Reserved
    ensures out.0.IsFailure() ==> out.0.error == BookingErrors.NotReserved && out.1 == b
    ensures out.0.isSuccess ==> Stepped(b, out.1, Confirmed, ConfirmedAt, utcNow, BookingConfirmed(b.entity.id))
  {
    if b.status != Reserved then
      (Fail(BookingErrors.NotReserved), b)
    else
      (Success(),
       b.(status := Confirmed,
          confirmedOnUtc := Some(utcNow),
          entity := RaiseDomainEvent(b.entity, BookingConfirmed(b.entity.id))))
  }

  /** Reject: only from Reserved. */
  function Reject(b: Booking, utcNow: Instant): (out: (Result, Booking))
    ensures out.0.Valid()
    ensures out.0.isSuccess <==> b.status == Reserved
    ensures out.0.IsFailure() ==> out.0.error == BookingErrors.NotReserved && out.1 == b
    ensures out.0.isSuccess ==> Stepped(b, out.1, Rejected, RejectedAt, utcNow, BookingRejected(b.entity.id))
  {
    if b.status != Reserved then
      (Fail(BookingErrors.NotReserved), b)
    else
      (Success(),
       b.(status := Rejected,
          rejectedOnUtc := Some(utcNow),
          entity := RaiseDomainEvent(b.entity, BookingRejected(b.entity.id))))
  }

  /** Complete: only from Confirmed. As written it stamps the rejection
      time, and never the completion time. */
  function Complete(b: Booking, utcNow: Instant): (out: (Result, Booking))
    ensures out.0.Valid()
    ensures out.0.isSuccess <==> b.status == Confirmed
    ensures out.0.IsFailure() ==> out.0.error == BookingErrors.NotConfirmed && out.1 == b
    ensures out.0.isSuccess ==> Stepped(b, out.1, Completed, RejectedAt, utcNow, BookingCompleted(b.entity.id))
    ensures out.1.completedOnUtc == b.completedOnUtc
  {
    if b.status != Confirmed then
      (Fail(BookingErrors.NotConfirmed), b)
    else
      (Success(),
       b.(status := Completed,
          rejectedOnUtc := Some(utcNow),
          entity := RaiseDomainEvent(b.entity, BookingCompleted(b.entity.id))))
  }

  /** Cancel: only from Confirmed, and only while the current day is not
      after the start day. The status is checked before the date. */
  function Cancel(b: Booking, utcNow: Instant): (out: (Result, Booking))
    ensures out.0.Valid()
    ensures out.0.isSuccess <==> b.status == Confirmed && DateOf(utcNow) <= b.duration.start
    ensures b.status != Confirmed ==> out.0.error == BookingErrors.NotConfirmed
    ensures b.status == Confirmed && DateOf(utcNow) > b.duration.start ==>
              out.0.error == BookingErrors.AlreadyStarted
    ensures out.0.IsFailure() ==> out.1 == b
    ensures out.0.isSuccess ==> Stepped(b, out.1, Cancelled, CancelledAt, utcNow, BookingCancelled(b.entity.id))
  {
    if b.status != Confirmed then
      (Fail(BookingErrors.NotConfirmed), b)
    else
      var currentDate := DateOf(utcNow);
      if currentDate > b.duration.start then
        (Fail(BookingErrors.AlreadyStarted), b)
      else
        (Success(),
         b.(status := Cancelled,
            cancelledOnUtc := Some(utcNow),
            entity := RaiseDomainEvent(b.entity, BookingCancelled(b.entity.id))))
  }

  /** A confirmed booking can be cancelled up to the last tick of its start
      day, and from the first tick of the next day it has already started. */
  lemma CancelDeadline(b: Booking, utcNow: Instant)
    requires b.status == Confirmed
    ensures Cancel(b, utcNow).0.isSuccess <==> utcNow < (b.duration.start + 1) * TicksPerDay
    ensures Cancel(b, utcNow).0.IsFailure() ==> Cancel(b, utcNow).0.error == BookingErrors.AlreadyStarted
  {
  }
}
