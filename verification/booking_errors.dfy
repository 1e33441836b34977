/** The errors booking operations report. */
module BookingErrors {
  import Errors
  import Results

  const NotFound: Errors.Error :=
    Errors.Error("Booking.NotFound", "The booking with the given id was not found.")
  const Overlap: Errors.Error :=
    Errors.Error("Booking.Overlap", "The booking overlaps with an existing booking.")
  const NotReserved: Errors.Error :=
    Errors.Error("Booking.NotReserved", "The booking is not reserved.")
  const NotConfirmed: Errors.Error :=
    Errors.Error("Booking.NotConfirmed", "The booking is not confirmed.")
  const AlreadyStarted: Errors.Error :=
    Errors.Error("Booking.AlreadyStarted", "The booking has already started.")

  /** The whole table, in declaration order. */
  const All: seq<Errors.Error> := [NotFound, Overlap, NotReserved, NotConfirmed, AlreadyStarted]

  const Prefix: string := "Booking."

  /** No two booking errors share a code, so a caller can always tell which
      rule failed (in particular NotReserved from NotConfirmed). */
  lemma CodesAreDistinct()
    ensures forall i, j :: 0 <= i < j < |All| ==> All[i].code != All[j].code
    ensures NotReserved != NotConfirmed
  {
  }

  /** Every code is namespaced by "Booking." and none of the errors is the
      success marker, so Result.Failure accepts each of them. */
  lemma AllAreFailures()
    ensures forall e :: e in All ==> |e.code| >= |Prefix| && e.code[..|Prefix|] == Prefix
    ensures forall e :: e in All ==> e != Errors.None
    ensures forall e :: e in All ==> Results.Failure(e).Returns?
  {
  }
}
