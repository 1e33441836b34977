/** The domain events raised by the modelled entities. Each carries only the
    id of the entity it concerns. */
module DomainEvents {
  import opened Entities

  datatype Event =
    | BookingReserved(bookingId: Guid)
    | BookingConfirmed(bookingId: Guid)
    | BookingRejected(bookingId: Guid)
    | BookingCompleted(bookingId: Guid)
    | BookingCancelled(bookingId: Guid)
    | UserCreated(userId: Guid)
}
