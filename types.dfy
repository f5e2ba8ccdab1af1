/** The record shapes shared by the whole application: the traveller's
    preferences, the generated itinerary with its day plans and activities,
    and the result of a currency conversion. Costs are JavaScript numbers and
    are modelled as reals; calendar dates are the millisecond timestamps the
    browser's date parser gives them. */
module Types {

  datatype Option<+T> = None | Some(value: T)

  datatype Result<+T, +E> = Success(value: T) | Failure(error: E)

  /** The message shown for a failure that carries no message of its own. */
  const UnexpectedError := "An unexpected error occurred."

  datatype TravelerPreferences = TravelerPreferences(
    destination: string,
    startDate: int,          // milliseconds of the parsed start date
    endDate: int,            // milliseconds of the parsed end date
    budget: int,
    interests: seq<string>)

  datatype Activity = Activity(
    time: string,
    description: string,
    location: string,
    estimatedCost: real,
    category: string)

  datatype DayPlan = DayPlan(
    day: int,
    title: string,
    activities: seq<Activity>,
    dailyCost: real)

  datatype Itinerary = Itinerary(
    id: string,
    tripTitle: string,
    totalEstimatedCost: real,
    currency: string,
    itinerary: seq<DayPlan>)

  datatype ConversionResult = ConversionResult(
    convertedAmount: real,
    exchangeRate: real,
    targetCurrency: string)
}

/** The browser's `window.location`, of which the application reads and
    assigns only the fragment (`hash`). Assigning a different fragment makes
    the browser fire a `hashchange` event; the model leaves the dispatch of
    that event to its caller. */
module Browser {

  class Location {
    var hash: string

    constructor (initial: string)
      ensures hash == initial
    {
      hash := initial;
    }
  }
}
