# Bookify domain core in Dafny

This project models the domain layer of Bookify, a short-term-rental booking
application. It covers the following pieces:

- the outcome type: `Error`, `Result` and `Result<TValue>`, with the
  constructor's consistency check;
- the entity base: an identity plus a buffer of pending domain events;
- the booking lifecycle state machine: `Reserve`, `Confirm`, `Reject`,
  `Complete` and `Cancel`;
- the booking error table;
- the `Currency.FromCode` lookup;
- the `User.Create` factory.

Everything is an immutable datatype with pure functions. A method that
mutates an entity in the source becomes a function. It returns the C#
return value together with the entity as it is after the call. A thrown
exception becomes the `Throws` case of `Wrappers.Outcome`.

Representation choices:

- `Guid` is `bv128`.
- A `DateTime` is its tick count, a `nat` of 100-nanosecond ticks.
- `DateOnly.FromDateTime` is the day number, `ticks / 864_000_000_000`.
- `DateOnly` comparison compares day numbers.
- The freshly generated Guid of `Reserve` and `User.Create` is a parameter.
- The pricing collaborator's answer is also a parameter.

The model keeps the code's own behaviour in two places where it looks odd.
Both are stated as lemmas:

- `Complete` stamps `RejectedOnUtc` and never `CompletedOnUtc`.
  See `Bookings.Complete` and `BookingLifecycle.CompletedLooksRejected`.
- The `EUR` currency constant has the code `"IDR"`. So `FromCode("IDR")` gives
  `EUR` and `FromCode("EUR")` throws. See `Currencies.FromCodeAsWritten`.

The model uses the `Currency` record of
`src/Bookify.Domain/Apartments/Currency.cs`.

Module layout, one file each:

- `wrappers.dfy`: `Option` and `Outcome`
- `error.dfy`: `Errors`
- `result.dfy`: `Results`
- `entity.dfy`: `Entities`
- `time.dfy`: `Time`
- `domain_events.dfy`: `DomainEvents`
- `booking_errors.dfy`: `BookingErrors`
- `currency.dfy`: `Currencies`
- `apartment.dfy`: `Apartments`
- `booking.dfy`: `Bookings`
- `booking_lifecycle.dfy`: `BookingLifecycle`. It holds the status diagram as a reference table and lemmas about any sequence of transitions.
- `user.dfy`: `Users`

## Model

| member | source | states |
|---|---|---|
| Errors.NullValueIsNotNone | src/Bookify.Domain/Abstractions/Error.cs:8-18 | `None` has an empty code and an empty message. `NullValue` differs from `None`, so a failure may carry it. |
| Results.Make | src/Bookify.Domain/Abstractions/Result.cs:18-28 | The constructor returns exactly when success comes with `Error.None` or failure with another error. Otherwise it throws `InvalidOperationException`. When it returns, the result holds the given flag and error. |
| Results.ValidIsConstructible | src/Bookify.Domain/Abstractions/Result.cs:18-39 | The valid results are exactly the ones the constructor accepts. For a valid result, `IsFailure` holds exactly when its error is not `None`. |
| Results.Success | src/Bookify.Domain/Abstractions/Result.cs:50-51 | `Success()` is a valid success carrying `Error.None`. |
| Results.Failure | src/Bookify.Domain/Abstractions/Result.cs:58-59 | `Failure(e)` throws exactly when `e` is `None`. Otherwise it is a valid failure carrying `e`. |
| Results.MakeOf | src/Bookify.Domain/Abstractions/Result.cs:105-106 | The typed constructor applies the base check first. It throws on the same inputs and otherwise stores the payload. |
| Results.SuccessOf | src/Bookify.Domain/Abstractions/Result.cs:67-68 | `Success(v)` is a success with `Error.None` holding `v`. |
| Results.FailureOf | src/Bookify.Domain/Abstractions/Result.cs:76-77 | `Failure<T>(e)` throws exactly when `e` is `None`. Otherwise it is a failure with `e` and no payload. |
| Results.Value | src/Bookify.Domain/Abstractions/Result.cs:113-116 | `Value` returns the payload exactly on a success. On a failure it throws "Cannot get value of failed result." |
| Results.Create | src/Bookify.Domain/Abstractions/Result.cs:85-88 | `Create(null)` is a failure with `NullValue`. `Create(v)` is a success whose `Value` is `v`. It never throws and its result is always valid. |
| Results.Implicit | src/Bookify.Domain/Abstractions/Result.cs:122-123 | The implicit conversion has the same null and non-null behaviour as `Create`. |
| Results.CreateRoundTrip | src/Bookify.Domain/Abstractions/Result.cs:85-123 | Reading `Value` back from `Create(v)` gives `v`. For null it throws. The implicit conversion equals `Create`. |
| Entities.New | src/Bookify.Domain/Abstractions/Entity.cs:6-13 | A new entity has the given id and no pending events. |
| Entities.ClearDomainEvents | src/Bookify.Domain/Abstractions/Entity.cs:25-26 | Clearing leaves no events and keeps the id. |
| Entities.RaiseDomainEvent | src/Bookify.Domain/Abstractions/Entity.cs:32-33 | Raising adds the event at the end. Earlier events keep their order and the id is kept. |
| Entities.RaiseAll | src/Bookify.Domain/Abstractions/Entity.cs:19-33 | After a sequence of raises, `GetDomainEvents` returns the earlier events followed by the raised ones, in raise order. The id is kept. |
| Entities.NewThenRaiseAll | src/Bookify.Domain/Abstractions/Entity.cs:8-20 | A fresh entity that raises `evs` reads back exactly `evs`, and its id is unchanged. |
| Entities.RaiseCountsOnce | src/Bookify.Domain/Abstractions/Entity.cs:32-33 | A raise adds exactly one occurrence of the event to the buffer. |
| Entities.ClearIsIdempotent | src/Bookify.Domain/Abstractions/Entity.cs:25-26 | Clearing twice is the same as clearing once. |
| Time.DateOf | src/Bookify.Domain/Bookings/Booking.cs:213 | `DateOnly.FromDateTime` gives the day whose tick interval contains the instant. |
| Time.DateOfMonotone | src/Bookify.Domain/Bookings/Booking.cs:213 | A later instant never falls on an earlier day. |
| Time.AfterDateIff | src/Bookify.Domain/Bookings/Booking.cs:213-215 | An instant's day is after day `d` exactly when the instant is at or past the first tick of day `d + 1`. |
| BookingErrors.CodesAreDistinct | src/Bookify.Domain/Bookings/BookingErrors.cs:13-33 | The five booking errors have pairwise distinct codes. In particular `NotReserved` differs from `NotConfirmed`. |
| BookingErrors.AllAreFailures | src/Bookify.Domain/Bookings/BookingErrors.cs:13-33 | Every code starts with "Booking.". No booking error is `Error.None`, so `Result.Failure` never throws on one. |
| Currencies.FirstWithCode | src/Bookify.Domain/Apartments/Currency.cs:17 | The search finds the first index whose code matches. It finds nothing exactly when no element matches. |
| Currencies.FromCode | src/Bookify.Domain/Apartments/Currency.cs:16-18 | `FromCode(c)` returns exactly when some element of `All` has code `c`. It then returns the first such element. Otherwise it throws an `InvalidOperationException` naming the code. |
| Currencies.FromCodeRoundTrip | src/Bookify.Domain/Apartments/Currency.cs:6-17 | Looking up the code of a listed currency gives that currency back. |
| Currencies.FromCodeAsWritten | src/Bookify.Domain/Apartments/Currency.cs:5-18 | `"USD"` gives `USD` and `"IDR"` gives `EUR`. `"EUR"` throws. `None` is not listed, so its empty code also throws. |
| Bookings.Reserve | src/Bookify.Domain/Bookings/Booking.cs:122-147 | The new booking has the given id and status Reserved. It was created at `utcNow` and has no other timestamp. Its only event is `BookingReserved` with its own id. It carries the apartment's id, the user, the duration and the four prices. The apartment's last-booked time becomes `utcNow` and its entity is unchanged. |
| Bookings.Confirm | src/Bookify.Domain/Bookings/Booking.cs:154-165 | Confirm succeeds exactly from Reserved. On success the status becomes Confirmed and only the confirmation time is set, to `utcNow`. `BookingConfirmed` is appended and the terms are kept. On failure it reports `NotReserved` and returns the booking unchanged. |
| Bookings.Reject | src/Bookify.Domain/Bookings/Booking.cs:172-183 | Reject succeeds exactly from Reserved. On success the status becomes Rejected, only the rejection time is set and `BookingRejected` is appended. On failure it reports `NotReserved` and changes nothing. |
| Bookings.Complete | src/Bookify.Domain/Bookings/Booking.cs:190-201 | Complete succeeds exactly from Confirmed. On success the status becomes Completed and `BookingCompleted` is appended. The rejection time is set and the completion time is never touched. On failure it reports `NotConfirmed` and changes nothing. |
| Bookings.Cancel | src/Bookify.Domain/Bookings/Booking.cs:208-224 | Cancel succeeds exactly when the booking is Confirmed and today is not after the start day. A booking that is not Confirmed reports `NotConfirmed`, whatever the date. A Confirmed booking past its start day reports `AlreadyStarted`. A failure changes nothing. A success sets only the cancellation time and appends `BookingCancelled`. |
| Bookings.CancelDeadline | src/Bookify.Domain/Bookings/Booking.cs:208-216 | A confirmed booking can be cancelled up to the last tick of its start day, the start day itself included. From the next day on it fails with `AlreadyStarted`. |
| BookingLifecycle.ApplyFollowsTable | src/Bookify.Domain/Bookings/Booking.cs:154-224 | Every transition follows the status diagram. It succeeds exactly on an edge of the diagram, and for Cancel only when not after the start day. It then lands on the edge's target. A failure reports `NotReserved`, `NotConfirmed` or `AlreadyStarted` and leaves the booking untouched. |
| BookingLifecycle.TerminalStatesAbsorb | src/Bookify.Domain/Bookings/Booking.cs:154-224 | Rejected, Completed and Cancelled have no outgoing edge. Every transition on them fails and changes nothing. |
| BookingLifecycle.ReserveIsHistorical | src/Bookify.Domain/Bookings/Booking.cs:122-147 | A reserved booking's events and timestamps agree with its status. |
| BookingLifecycle.SuccessExtendsPath | src/Bookify.Domain/Bookings/Booking.cs:154-224 | A successful transition appends exactly the event that extends the status path, and moves the set timestamps along with the status. A failed one changes nothing. Either way the terms are kept. |
| BookingLifecycle.ApplyKeepsHistorical | src/Bookify.Domain/Bookings/Booking.cs:154-224 | For a booking whose events were never cleared, one transition keeps events and timestamps in agreement with the status. It keeps the terms and only appends events. |
| BookingLifecycle.RunKeepsHistorical | src/Bookify.Domain/Bookings/Booking.cs:154-224 | With no clearing in between, any sequence of transitions keeps that agreement. It never alters the id, parties, duration, prices or creation time, and earlier events stay as a prefix. |
| BookingLifecycle.LifecycleAfterReserve | src/Bookify.Domain/Bookings/Booking.cs:122-224 | After Reserve and any transitions, with no clearing, the events are `BookingReserved` followed by the events of the path taken to the current status. That is at most three events, and the terms fixed by Reserve are unchanged. |
| BookingLifecycle.CompletedLooksRejected | src/Bookify.Domain/Bookings/Booking.cs:190-201 | A completed booking carries a rejection time and no completion time. |
| BookingLifecycle.ClearLosesHistory | src/Bookify.Domain/Abstractions/Entity.cs:25-26 | Clearing a booking's events breaks the full-history agreement. The cleared booking still has its pending events as a recent part of its path. |
| BookingLifecycle.PerformKeepsRecent | src/Bookify.Domain/Bookings/Booking.cs:154-224 | A transition or a clear keeps the timestamps matching the status and the terms unchanged. The pending events stay the most recent part of the path. |
| BookingLifecycle.RunStepsKeepsRecent | src/Bookify.Domain/Bookings/Booking.cs:154-224 | The same holds across any interleaving of transitions and clears. |
| Users.Create | src/Bookify.Domain/Users/User.cs:47-54 | The new user has the given id, names and e-mail. Its only event is `UserCreated` naming its own id. |
| Users.CreateDependsOnIdOnlyThroughIdentity | src/Bookify.Domain/Users/User.cs:47-54 | Two users created from the same details have the same names and e-mail. They hold the same state, and the same events, exactly when their ids are equal. |

## Left out

- `Guid.NewGuid()` is nondeterministic. The generated id is a parameter of `Bookings.Reserve` and `Users.Create`.
- `PricingService.CalculatePrice` is not part of this model. Its answer is the `pricing` parameter of `Bookings.Reserve`.
- `Money`, `DateRange`, `FirstName`, `LastName` and `Email` are opaque records. Their validation and arithmetic are not part of this model. `DateRange` keeps only start and end day numbers.
- The apartment is only its entity part and `LastBookedOnUtc`. Its name, description, address, prices and amenities are plain data that booking never touches.
- `Time.Instant` has no upper bound. `DateTime.MaxValue` is not modelled because no modelled operation does arithmetic on instants.
- The unused `BookingReserveDomainEvent` record is left out. `BookingReservedDomainEvent` is the event `Reserve` raises.
- Results.Value: the requires asks that a success hold a payload. This is the `[NotNull]` promise. C# can break it in two ways, and then `Value` returns null: a success built through the internal constructor with a null value, or `Success<TValue>` called with a null argument, which it stores without a check. Only `Create` and the implicit conversion test for null. The model does not cover a success holding null.
- `Error.None`, `Error.NullValue` and the five `BookingErrors` are `public static` fields without `readonly`, so any code could reassign them. The model treats them as constants. No code in the modelled files reassigns them. `Errors.NullValueIsNotNone`, `BookingErrors.AllAreFailures` and `Result.Valid` rely on their declared values.
- Equality of users and bookings is Dafny value equality of the modelled state. The C# classes compare by reference.
- `GetDomainEvents` returning a fresh copy is not modelled. Values are immutable here, so a snapshot and the buffer cannot diverge.
- The `IDomainEvent` interface and the class hierarchy are not modelled. Events are constructors of one `DomainEvents.Event` datatype, and each entity holds an `Entities.Entity` value.
- Event dispatch, persistence and concurrency are not modelled. None of them appears in the modelled code.
