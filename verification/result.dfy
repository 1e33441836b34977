/** The outcome type: `Result` (success or failure with an `Error`) and the
    value-carrying `ResultOf<T>`, with the constructor's consistency check. */
module Results {
  import opened Wrappers
  import Errors

  /** A non-generic result. Any value of this datatype can be written down,
      but only the `Valid` ones can be built through `Make`. */
  datatype Result = Result(isSuccess: bool, error: Errors.Error) {
    predicate IsFailure() {
      !isSuccess
    }

    /** The construction invariant: success carries exactly Error.None. */
    predicate Valid() {
      isSuccess <==> error == Errors.None
    }
  }

  /** A result with a payload. `payload` is the nullable backing field:
      None stands for the `default` a failure stores. */
  datatype ResultOf<T> = ResultOf(payload: Option<T>, isSuccess: bool, error: Errors.Error) {
    predicate IsFailure() {
      !isSuccess
    }

    /** The base-class part of the result. */
    function AsResult(): (r: Result) {
      Result(isSuccess, error)
    }
  }

  /** The protected constructor: throws when success comes with an error or
      failure comes without one. */
  function Make(isSuccess: bool, error: Errors.Error): (r: Outcome<Result>)
    ensures r.Returns? <==> (isSuccess <==> error == Errors.None)
    ensures r.Returns? ==> r.value.isSuccess == isSuccess && r.value.error == error
    ensures r.Throws? ==> r.exception == InvalidOperation(DefaultInvalidOperationMessage)
  {
    if isSuccess && error != Errors.None then
      Throws(InvalidOperation(DefaultInvalidOperationMessage))
    else if !isSuccess && error == Errors.None then
      Throws(InvalidOperation(DefaultInvalidOperationMessage))
    else
      Returns(Result(isSuccess, error))
  }

  /** The valid results are exactly the ones the constructor accepts, and
      for them IsFailure holds exactly when an error other than None is set. */
  lemma ValidIsConstructible(r: Result)
    ensures r.Valid() <==> Make(r.isSuccess, r.error) == Returns(r)
    ensures r.Valid() ==> (r.IsFailure() <==> r.error != Errors.None)
  {
  }

  function Success(): (r: Result)
    ensures r.isSuccess && !r.IsFailure()
    ensures r.error == Errors.None
    ensures r.Valid()
  {
    Make(true, Errors.None).value
  }

  /** Failure(Error.None) throws; any other error gives a valid failure. */
  function Failure(error: Errors.Error): (r: Outcome<Result>)
    ensures r.Returns? <==> error != Errors.None
    ensures r.Returns? ==> r.value.IsFailure() && r.value.error == error && r.value.Valid()
  {
    Make(false, error)
  }

  /** The constructor of ResultOf<T>: the base check runs first, then the
      payload is stored. */
  function MakeOf<T>(value: Option<T>, isSuccess: bool, error: Errors.Error): (r: Outcome<ResultOf<T>>)
    ensures r.Returns? <==> (isSuccess <==> error == Errors.None)
    ensures r.Returns? ==> r.value == ResultOf(value, isSuccess, error) && r.value.AsResult().Valid()
    ensures r.Throws? ==> r.exception == InvalidOperation(DefaultInvalidOperationMessage)
  {
    match Make(isSuccess, error)
    case Throws(x) => Throws(x)
    case Returns(b) => Returns(ResultOf(value, b.isSuccess, b.error))
  }

  function SuccessOf<T>(value: T): (r: ResultOf<T>)
    ensures r.isSuccess && r.error == Errors.None
    ensures r.payload == Some(value)
  {
    MakeOf(Some(value), true, Errors.None).value
  }

  /** Failure<TValue>(Error.None) throws; otherwise a failure with no payload. */
  function FailureOf<T>(error: Errors.Error): (r: Outcome<ResultOf<T>>)
    ensures r.Returns? <==> error != Errors.None
    ensures r.Returns? ==> r.value.IsFailure() && r.value.error == error && r.value.payload.None?
  {
    MakeOf(None, false, error)
  }

  /** The Value accessor: throws on a failure. The requires is the
      [NotNull] promise: a success holds a payload. */
  function Value<T>(r: ResultOf<T>): (v: Outcome<T>)
    requires r.isSuccess ==> r.payload.Some?
    ensures v.Returns? <==> r.isSuccess
    ensures v.Returns? ==> r.payload == Some(v.value)
    ensures v.Throws? ==> v.exception == InvalidOperation("Cannot get value of failed result.")
  {
    if r.isSuccess then Returns(r.payload.value)
    else Throws(InvalidOperation("Cannot get value of failed result."))
  }

  /** Create: a null value gives Failure(NullValue), anything else a success
      whose Value is that value. It never throws. */
  function Create<T>(value: Option<T>): (r: ResultOf<T>)
    ensures r.AsResult().Valid()
    ensures value.None? <==> r.IsFailure()
    ensures value.None? ==> r.error == Errors.NullValue
    ensures r.payload == value
    ensures value.Some? ==> r.isSuccess && Value(r) == Returns(value.value)
  {
    if value.None? then
      Errors.NullValueIsNotNone();
      FailureOf<T>(Errors.NullValue).value
    else
      SuccessOf(value.value)
  }

  /** The implicit conversion from a nullable value. */
  function Implicit<T>(value: Option<T>): (r: ResultOf<T>)
    ensures r.AsResult().Valid()
    ensures value.None? <==> r.IsFailure()
    ensures value.None? ==> r.error == Errors.NullValue
    ensures r.payload == value
    ensures value.Some? ==> r.isSuccess && Value(r) == Returns(value.value)
  {
    Create(value)
  }

  /** A Create round trip: reading the value back gives what was put in,
      and a failure always throws on read. */
  lemma CreateRoundTrip<T>(value: Option<T>)
    ensures Value(Create(value)) == (match value
                                     case Some(v) => Returns(v)
                                     case None => Throws(InvalidOperation("Cannot get value of failed result.")))
    ensures Implicit(value) == Create(value)
  {
  }
}
