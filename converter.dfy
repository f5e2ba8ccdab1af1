/** The currency converter screen: swapping the pair, checking the amount
    and the pair before asking the service, and the visible result. The
    amount field's text is parsed by `parseFloat`, which is not modelled: the
    submit handler takes the parsed number, None for NaN. */
module Converter {
  import opened Types
  import Gemini

  const InvalidAmount := "Please enter a valid amount."
  const SameCurrencies := "Please select different currencies."

  datatype ConverterState = ConverterState(
    fromCurrency: string,
    toCurrency: string,
    result: Option<ConversionResult>,
    isLoading: bool,
    error: Option<string>)

  /** The arguments of the `convertCurrency` call a submit makes. */
  datatype ConversionRequest = ConversionRequest(amount: real, fromCurrency: string, toCurrency: string)

  const Initial := ConverterState("USD", "EUR", None, false, None)

  /** The state `handleSwapCurrencies` leaves. */
  function Swapped(s: ConverterState): (r: ConverterState)
    ensures r.fromCurrency == s.toCurrency && r.toCurrency == s.fromCurrency
    ensures r.result == s.result && r.isLoading == s.isLoading && r.error == s.error
  {
    s.(fromCurrency := s.toCurrency, toCurrency := s.fromCurrency)
  }

  /** The first check `handleSubmit` fails, None when it sends a request. */
  function SubmitError(s: ConverterState, amount: Option<real>): (r: Option<string>)
    ensures r.None? <==> amount.Some? && amount.value > 0.0 && s.fromCurrency != s.toCurrency
    ensures r.Some? ==> r.value == InvalidAmount || r.value == SameCurrencies
  {
    if amount.None? || amount.value <= 0.0 then Some(InvalidAmount)
    else if s.fromCurrency == s.toCurrency then Some(SameCurrencies)
    else None
  }

  function SubmitRequest(s: ConverterState, amount: Option<real>): Option<ConversionRequest>
  {
    if SubmitError(s, amount).None? then Some(ConversionRequest(amount.value, s.fromCurrency, s.toCurrency))
    else None
  }

  /** The state `handleSubmit` leaves; `outcome` is the settled service call
      and is not looked at when a check fails. */
  function Submitted(s: ConverterState, amount: Option<real>, outcome: Result<ConversionResult, string>): (r: ConverterState)
    ensures r.fromCurrency == s.fromCurrency && r.toCurrency == s.toCurrency
    ensures r.error.Some? ==> r.error.value != ""
    ensures SubmitError(s, amount).None? ==> !r.isLoading && (r.result.Some? <==> outcome.Success?)
    ensures SubmitError(s, amount).None? ==> (r.error.None? <==> outcome.Success?)
  {
    match SubmitError(s, amount)
    case Some(message) => s.(error := Some(message))
    case None =>
      match outcome
      case Success(c) => s.(isLoading := false, error := None, result := Some(c))
      case Failure(m) => s.(isLoading := false, error := Some(if m == "" then UnexpectedError else m), result := None)
  }

  /** The result panel is on display: there is a result and no request is
      in flight. */
  predicate ResultVisible(s: ConverterState): (b: bool)
    ensures b ==> s.result.Some?
    ensures s.isLoading ==> !b
  {
    s.result.Some? && !s.isLoading
  }

  /** Swapping exchanges the two currencies, and swapping twice restores them. */
  lemma SwapExchanges(s: ConverterState)
    ensures Swapped(s).fromCurrency == s.toCurrency && Swapped(s).toCurrency == s.fromCurrency
    ensures Swapped(Swapped(s)) == s
  {
  }

  /** A missing or non-positive amount is reported before a currency clash,
      and a failed check sends nothing and keeps the loading flag and any
      earlier result. */
  lemma SubmitChecks(s: ConverterState, amount: Option<real>, outcome: Result<ConversionResult, string>)
    ensures (amount.None? || amount.value <= 0.0) ==> SubmitError(s, amount) == Some(InvalidAmount)
    ensures amount.Some? && amount.value > 0.0 && s.fromCurrency == s.toCurrency ==>
              SubmitError(s, amount) == Some(SameCurrencies)
    ensures SubmitRequest(s, amount).None? <==> SubmitError(s, amount).Some?
    ensures SubmitError(s, amount).Some? ==>
              var r := Submitted(s, amount, outcome);
              r.error == SubmitError(s, amount) && r.isLoading == s.isLoading && r.result == s.result
              && r.fromCurrency == s.fromCurrency && r.toCurrency == s.toCurrency
  {
  }

  /** After a request the loading flag is off; a success shows exactly the
      service's result with no error, a failure shows no result and the
      message (the generic one when the message is empty). */
  lemma SubmitOutcome(s: ConverterState, amount: Option<real>, outcome: Result<ConversionResult, string>)
    requires SubmitError(s, amount).None?
    ensures var r := Submitted(s, amount, outcome);
            && !r.isLoading
            && (outcome.Success? ==> ResultVisible(r) && r.result == Some(outcome.value) && r.error == None)
            && (outcome.Failure? ==> !ResultVisible(r) && r.error == Some(if outcome.error == "" then UnexpectedError else outcome.error))
  {
  }

  /** With the service's own outcome a failed request always shows the
      service's one conversion message. */
  lemma ServiceFailureMessage(s: ConverterState, amount: Option<real>,
                              respond: Gemini.ConversionPrompt -> Option<string>,
                              parse: string -> Option<ConversionResult>)
    requires SubmitError(s, amount).None?
    requires Gemini.ConvertCurrency(amount.value, s.fromCurrency, s.toCurrency, respond, parse).Failure?
    ensures Submitted(s, amount, Gemini.ConvertCurrency(amount.value, s.fromCurrency, s.toCurrency, respond, parse)).error
            == Some(Gemini.ConvertFailedMessage)
  {
  }

  class CurrencyConverter {
    var fromCurrency: string
    var toCurrency: string
    var result: Option<ConversionResult>
    var isLoading: bool
    var error: Option<string>

    function State(): ConverterState
      reads this
    {
      ConverterState(fromCurrency, toCurrency, result, isLoading, error)
    }

    constructor ()
      ensures State() == Initial
    {
      fromCurrency, toCurrency := "USD", "EUR";
      result := None;
      isLoading := false;
      error := None;
    }

    method HandleSwapCurrencies()
      modifies this
      ensures State() == Swapped(old(State()))
    {
      var from, to := fromCurrency, toCurrency;
      fromCurrency := to;
      toCurrency := from;
    }

    /** `handleSubmit`, with `parseFloat(amount)` as `amount` and the settled
        service call as `outcome`; `request` is the call made, if any. */
    method HandleSubmit(amount: Option<real>, outcome: Result<ConversionResult, string>)
      returns (request: Option<ConversionRequest>)
      modifies this
      ensures request == SubmitRequest(old(State()), amount)
      ensures State() == Submitted(old(State()), amount, outcome)
    {
      if amount.None? || amount.value <= 0.0 {
        error := Some(InvalidAmount);
        return None;
      }
      if fromCurrency == toCurrency {
        error := Some(SameCurrencies);
        return None;
      }
      request := Some(ConversionRequest(amount.value, fromCurrency, toCurrency));
      isLoading := true;
      error := None;
      result := None;
      match outcome {
        case Success(conversion) =>
          result := Some(conversion);
        case Failure(message) =>
          error := Some(if message == "" then UnexpectedError else message);
      }
      isLoading := false;
    }
  }
}
