/** The booking status diagram as a reference table, and what any sequence
    of transitions does to a booking that was made by Reserve. */
module BookingLifecycle {
  import opened Wrappers
  import opened Entities
  import opened Time
  import opened DomainEvents
  import opened Results
  import BookingErrors
  import opened Apartments
  import opened Bookings

  /** A transition request together with the instant it is made at. */
  datatype Action = ConfirmAt(now: Instant) | RejectAt(now: Instant) | CompleteAt(now: Instant) | CancelAt(now: Instant)

  function Apply(b: Booking, a: Action): (out: (Result, Booking)) {
    match a
    case ConfirmAt(now) => Confirm(b, now)
    case RejectAt(now) => Reject(b, now)
    case CompleteAt(now) => Complete(b, now)
    case CancelAt(now) => Cancel(b, now)
  }

  /** The status diagram: Reserved goes to Confirmed or Rejected, Confirmed
      goes to Completed or Cancelled, and nothing else is an edge. */
  function Target(s: BookingStatus, a: Action): (t: Option<BookingStatus>) {
    match (s, a)
    case (Reserved, ConfirmAt(_)) => Some(Confirmed)
    case (Reserved, RejectAt(_)) => Some(Rejected)
    case (Confirmed, CompleteAt(_)) => Some(Completed)
    case (Confirmed, CancelAt(_)) => Some(Cancelled)
    case _ => None
  }

  predicate Terminal(s: BookingStatus) {
    s == Rejected || s == Completed || s == Cancelled
  }

  /** Every transition follows the diagram: it succeeds exactly on an edge
      (for Cancel, also not after the start day) and then lands on the edge's
      target; otherwise it reports one of the three guard errors and returns
      the booking untouched. */
  lemma ApplyFollowsTable(b: Booking, a: Action)
    ensures Apply(b, a).0.isSuccess <==>
              Target(b.status, a).Some? && (a.CancelAt? ==> DateOf(a.now) <= b.duration.start)
    ensures Apply(b, a).0.isSuccess ==> Apply(b, a).1.status == Target(b.status, a).value
    ensures Apply(b, a).0.IsFailure() ==>
              && Apply(b, a).1 == b
              && Apply(b, a).0.error in {BookingErrors.NotReserved, BookingErrors.NotConfirmed, BookingErrors.AlreadyStarted}
  {
  }

  /** Rejected, Completed and Cancelled have no way out: every transition
      fails on them and changes nothing. */
  lemma TerminalStatesAbsorb(b: Booking, a: Action)
    requires Terminal(b.status)
    ensures forall s :: Target(b.status, a) != Some(s)
    ensures Apply(b, a).0.IsFailure() && Apply(b, a).1 == b
  {
  }

  /** The events a booking in status `s` has raised since its reservation. */
  function Trail(s: BookingStatus, id: Guid): (evs: seq<Event>) {
    match s
    case Reserved => []
    case Confirmed => [BookingConfirmed(id)]
    case Rejected => [BookingRejected(id)]
    case Completed => [BookingConfirmed(id), BookingCompleted(id)]
    case Cancelled => [BookingConfirmed(id), BookingCancelled(id)]
  }

  /** The timestamps a booking in status `s` has set. Completion sets the
      rejection stamp, as the source does. */
  function StampsFor(s: BookingStatus): (stamps: set<Stamp>) {
    match s
    case Reserved => {}
    case Confirmed => {ConfirmedAt}
    case Rejected => {RejectedAt}
    case Completed => {ConfirmedAt, RejectedAt}
    case Cancelled => {ConfirmedAt, CancelledAt}
  }

  /** The events a booking in status `s` has raised since it was made. */
  function Path(s: BookingStatus, id: Guid): (evs: seq<Event>) {
    [BookingReserved(id)] + Trail(s, id)
  }

  /** The set timestamps are exactly the ones the status calls for. */
  ghost predicate StampsMatchStatus(b: Booking) {
    forall t :: StampOf(b, t).Some? <==> t in StampsFor(b.status)
  }

  /** The pending events are the booking's whole path so far. */
  ghost predicate EventsTellPath(b: Booking) {
    GetDomainEvents(b.entity) == Path(b.status, b.entity.id)
  }

  /** What holds of a booking made by Reserve, then only transitioned and
      never cleared: its events tell its path through the diagram and its
      timestamps match its status. */
  ghost predicate Historical(b: Booking) {
    EventsTellPath(b) && StampsMatchStatus(b)
  }

  lemma ReserveIsHistorical(apartment: Apartment, userId: Guid, duration: DateRange, utcNow: Instant,
                            pricing: PricingDetails, bookingId: Guid)
    ensures Historical(Reserve(apartment, userId, duration, utcNow, pricing, bookingId).0)
  {
  }

  /** A successful transition appends to the events exactly the event by
      which the new status's path extends the old one, and moves the
      timestamps along with the status; a failed one changes nothing. */
  lemma SuccessExtendsPath(b: Booking, a: Action)
    ensures var (r, b') := Apply(b, a);
            && SameTerms(b, b')
            && (r.isSuccess ==>
                  exists ev :: && Path(b'.status, b.entity.id) == Path(b.status, b.entity.id) + [ev]
                               && GetDomainEvents(b'.entity) == GetDomainEvents(b.entity) + [ev])
            && (r.isSuccess && StampsMatchStatus(b) ==> StampsMatchStatus(b'))
            && (r.IsFailure() ==> b' == b)
  {
    var (r, b') := Apply(b, a);
    var id := b.entity.id;
    if r.isSuccess {
      var ev := match a
        case ConfirmAt(_) => BookingConfirmed(id)
        case RejectAt(_) => BookingRejected(id)
        case CompleteAt(_) => BookingCompleted(id)
        case CancelAt(_) => BookingCancelled(id);
      assert Path(b'.status, id) == Path(b.status, id) + [ev];
      assert GetDomainEvents(b'.entity) == GetDomainEvents(b.entity) + [ev];
    }
  }

  /** One transition keeps a booking historical, keeps its terms and only
      adds events after the ones it had. */
  lemma ApplyKeepsHistorical(b: Booking, a: Action)
    requires Historical(b)
    ensures Historical(Apply(b, a).1)
    ensures SameTerms(b, Apply(b, a).1)
    ensures GetDomainEvents(b.entity) <= GetDomainEvents(Apply(b, a).1.entity)
  {
    SuccessExtendsPath(b, a);
  }

  /** Performs the actions in order, ignoring their results. */
  function Run(b: Booking, actions: seq<Action>): (r: Booking)
    decreases |actions|
  {
    if |actions| == 0 then b else Run(Apply(b, actions[0]).1, actions[1..])
  }

  /** Any sequence of transitions keeps a booking historical, never alters
      its terms, and only ever appends events. */
  lemma {:induction false} RunKeepsHistorical(b: Booking, actions: seq<Action>)
    requires Historical(b)
    ensures Historical(Run(b, actions))
    ensures SameTerms(b, Run(b, actions))
    ensures GetDomainEvents(b.entity) <= GetDomainEvents(Run(b, actions).entity)
    decreases |actions|
  {
    if |actions| > 0 {
      ApplyKeepsHistorical(b, actions[0]);
      RunKeepsHistorical(Apply(b, actions[0]).1, actions[1..]);
    }
  }

  /** Whatever happens after Reserve, the booking's events begin with its
      BookingReserved, number at most three, and agree with its status;
      the terms Reserve fixed never change. */
  lemma LifecycleAfterReserve(apartment: Apartment, userId: Guid, duration: DateRange, utcNow: Instant,
                              pricing: PricingDetails, bookingId: Guid, actions: seq<Action>)
    ensures var b := Run(Reserve(apartment, userId, duration, utcNow, pricing, bookingId).0, actions);
            && GetDomainEvents(b.entity) == [BookingReserved(bookingId)] + Trail(b.status, bookingId)
            && |GetDomainEvents(b.entity)| <= 3
            && b.entity.id == bookingId && b.duration == duration && b.totalPrice == pricing.totalPrice
            && b.createdOnUtc == utcNow
  {
    var b0 := Reserve(apartment, userId, duration, utcNow, pricing, bookingId).0;
    ReserveIsHistorical(apartment, userId, duration, utcNow, pricing, bookingId);
    RunKeepsHistorical(b0, actions);
  }

  /** As written, a completed booking carries a rejection time and never a
      completion time, so RejectedOnUtc alone does not tell a rejected
      booking from a completed one. */
  lemma CompletedLooksRejected(b: Booking)
    requires Historical(b) && b.status == Completed
    ensures b.rejectedOnUtc.Some? && b.completedOnUtc.None?
  {
    assert StampOf(b, RejectedAt).Some?;
    assert StampOf(b, CompletedAt).None?;
  }

  /** One unit of work on a booking: a transition, or the dispatcher
      draining the pending events. */
  datatype Step = Do(action: Action) | Dispatch

  function Perform(b: Booking, st: Step): (r: Booking) {
    match st
    case Do(a) => Apply(b, a).1
    case Dispatch => b.(entity := ClearDomainEvents(b.entity))
  }

  function RunSteps(b: Booking, steps: seq<Step>): (r: Booking)
    decreases |steps|
  {
    if |steps| == 0 then b else RunSteps(Perform(b, steps[0]), steps[1..])
  }

  /** The pending events are the most recent part of the booking's path:
      whatever was drained came before them. */
  ghost predicate PendingIsRecent(b: Booking) {
    var path := Path(b.status, b.entity.id);
    var pending := GetDomainEvents(b.entity);
    |pending| <= |path| && pending == path[|path| - |pending|..]
  }

  /** Draining the events of a historical booking loses its history, so
      Historical only describes bookings whose events were never cleared. */
  lemma ClearLosesHistory(b: Booking)
    requires Historical(b)
    ensures !Historical(b.(entity := ClearDomainEvents(b.entity)))
    ensures PendingIsRecent(b.(entity := ClearDomainEvents(b.entity)))
  {
  }

  /** One step, transition or dispatch, keeps the timestamps matching the
      status, keeps the pending events a recent part of the path, and keeps
      the terms. */
  lemma PerformKeepsRecent(b: Booking, st: Step)
    requires StampsMatchStatus(b) && PendingIsRecent(b)
    ensures StampsMatchStatus(Perform(b, st)) && PendingIsRecent(Perform(b, st))
    ensures SameTerms(b, Perform(b, st))
  {
    if st.Do? {
      SuccessExtendsPath(b, st.action);
    }
  }

  /** Across any interleaving of transitions and dispatches, the timestamps
      keep matching the status, the pending events are always the latest
      part of the path, and the terms never change. */
  lemma {:induction false} RunStepsKeepsRecent(b: Booking, steps: seq<Step>)
    requires StampsMatchStatus(b) && PendingIsRecent(b)
    ensures StampsMatchStatus(RunSteps(b, steps)) && PendingIsRecent(RunSteps(b, steps))
    ensures SameTerms(b, RunSteps(b, steps))
    decreases |steps|
  {
    if |steps| > 0 {
      PerformKeepsRecent(b, steps[0]);
      RunStepsKeepsRecent(Perform(b, steps[0]), steps[1..]);
    }
  }
}
