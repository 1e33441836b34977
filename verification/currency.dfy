/** The currency value object and its lookup by code. The EUR constant
    carries the code "IDR"; the model keeps that as it is. */
module Currencies {
  import Wrappers

  datatype Currency = Currency(code: string)

  /** An internal placeholder; it is not one of the listed currencies. */
  const None: Currency := Currency("")
  const USD: Currency := Currency("USD")
  const EUR: Currency := Currency("IDR")

  /** The listed currencies, in order. */
  const All: seq<Currency> := [USD, EUR]

  /** The index of the first currency of `cs` with code `code`, if any. */
  function FirstWithCode(cs: seq<Currency>, code: string): (r: Wrappers.Option<nat>)
    ensures r.Some? ==> r.value < |cs| && cs[r.value].code == code
    ensures r.Some? ==> forall j :: 0 <= j < r.value ==> cs[j].code != code
    ensures r.None? <==> forall j :: 0 <= j < |cs| ==> cs[j].code != code
    decreases |cs|
  {
    if |cs| == 0 then Wrappers.None
    else if cs[0].code == code then Wrappers.Some(0)
    else
      match FirstWithCode(cs[1..], code)
      case None => Wrappers.None
      case Some(i) => Wrappers.Some(i + 1)
  }

  /** FromCode: the first listed currency with the code, or an
      InvalidOperationException naming the code. */
  function FromCode(code: string): (r: Wrappers.Outcome<Currency>)
    ensures r.Returns? <==> exists i :: 0 <= i < |All| && All[i].code == code
    ensures r.Returns? ==> exists i :: 0 <= i < |All| && All[i] == r.value && r.value.code == code
                                       && forall j :: 0 <= j < i ==> All[j].code != code
    ensures r.Throws? ==>
              r.exception == Wrappers.InvalidOperation("Currency with code " + code + " not found")
  {
    match FirstWithCode(All, code)
    case Some(i) => Wrappers.Returns(All[i])
    case None => Wrappers.Throws(Wrappers.InvalidOperation("Currency with code " + code + " not found"))
  }

  /** Looking up the code of a listed currency gives that currency back. */
  lemma FromCodeRoundTrip(c: Currency)
    requires c in All
    ensures FromCode(c.code) == Wrappers.Returns(c)
  {
  }

  /** The lookup as written: "USD" and "IDR" resolve, while "EUR" and the
      placeholder's empty code both throw. */
  lemma FromCodeAsWritten()
    ensures FromCode("USD") == Wrappers.Returns(USD)
    ensures FromCode("IDR") == Wrappers.Returns(EUR)
    ensures FromCode("EUR").Throws?
    ensures None !in All && FromCode(None.code).Throws?
  {
    FromCodeRoundTrip(USD);
    FromCodeRoundTrip(EUR);
    assert "EUR" != USD.code && "EUR" != EUR.code by {
      assert "EUR"[0] != USD.code[0] && "EUR"[0] != EUR.code[0];
    }
    assert None.code != USD.code && None.code != EUR.code;
  }
}
