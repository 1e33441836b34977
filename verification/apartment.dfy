/** The apartment, reduced to what booking touches: its entity part and the
    time it was last booked. */
module Apartments {
  import opened Wrappers
  import opened Entities
  import opened Time
  import opened DomainEvents

  datatype Apartment = Apartment(entity: Entity<Event>, lastBookedOnUtc: Option<Instant>)
}
