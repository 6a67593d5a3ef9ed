/**
 The two button handlers of weather_location.py, seen from outside: which
 requests they send, what they put on the page and whether they end in an
 uncaught IndexError. The geocoder's answer and the forecast service's
 response are inputs; the page is a list of displayed items.
 */
module ForecastPage {
  import opened Wrappers
  import opened ForecastCards

  /** The geocoder's client identifiers, one per handler. */
  const CardLayoutAgent: string := "weather-forecast-app"
  const ColumnLayoutAgent: string := "weather-forecast-app-v2"

  /** What both handlers ask the forecast service for. */
  const DailyFields: seq<string> := ["temperature_2m_max", "temperature_2m_min", "weathercode"]
  const ForecastTimezone: string := "auto"

  const NotFoundMessage: string :=
    "\U{26A0}\U{FE0F} Could not find that location. Please enter a valid city, district, or country."
  const FetchFailedMessage: string := "\U{274C} Failed to fetch weather data. Please try again later."

  /** A geocoding match: the address and the coordinates of the first candidate. */
  datatype Location = Location(address: string, latitude: real, longitude: real)

  /** The network requests a handler sends. */
  datatype Request =
    | Geocode(query: string, userAgent: string)
    | Forecast(latitude: real, longitude: real, daily: seq<string>, timezone: string)

  /** The forecast service's answer: an HTTP status and the decoded "daily" arrays. */
  datatype Response = Response(status: int, daily: Daily)

  /** The items a handler puts on the page. */
  datatype Display =
    | LocationFound(address: string, latitude: real, longitude: real)
    | ForecastHeading
    | CardCss
    | CardRowShown(cards: seq<Card>)
    | ColumnsShown(columns: seq<Option<Card>>)
    | Error(message: string)

  /** One button press: requests sent, items shown, and the IndexError it ended with, if any. */
  datatype Run = Run(requests: seq<Request>, shown: seq<Display>, crash: Option<Fault>)

  function ForecastRequest(loc: Location): Request {
    Forecast(loc.latitude, loc.longitude, DailyFields, ForecastTimezone)
  }

  predicate ForecastRequested(run: Run) {
    exists q :: q in run.requests && q.Forecast?
  }

  /**
   The "Get Forecast" handler (HTML-card layout). Only a failed geocode shows
   the not-found error, and then no forecast is requested; a found location
   with a status other than 200 shows the fetch error and no cards; cards are
   shown exactly when the location is found, the status is 200 and all arrays
   hold seven days, and a shorter array ends the run with its IndexError.
   */
  function CardLayoutRun(input: string, found: Option<Location>, response: Response): (run: Run)
    ensures |run.requests| >= 1 && run.requests[0] == Geocode(input, CardLayoutAgent)
    ensures ForecastRequested(run) <==> found.Some?
    ensures found.Some? ==> run.requests == [Geocode(input, CardLayoutAgent), ForecastRequest(found.value)]
    ensures found.Some? ==> LocationFound(found.value.address, found.value.latitude, found.value.longitude) in run.shown
    ensures Error(NotFoundMessage) in run.shown <==> found.None?
    ensures Error(FetchFailedMessage) in run.shown <==> found.Some? && response.status != 200
    ensures forall cards :: CardRowShown(cards) in run.shown <==>
      found.Some? && response.status == 200 && CardRow(response.daily) == Success(cards)
    ensures run.crash.Some? <==> found.Some? && response.status == 200 && CardRow(response.daily).Failure?
    ensures run.crash.Some? ==> run.crash == Some(Shortfall(response.daily))
  {
    var geocode := Geocode(input, CardLayoutAgent);
    match found
    case None => Run([geocode], [Error(NotFoundMessage)], None)
    case Some(loc) =>
      var requests := [geocode, ForecastRequest(loc)];
      assert requests[1] in requests;
      var located := LocationFound(loc.address, loc.latitude, loc.longitude);
      if response.status == 200 then
        match CardRow(response.daily)
        case Success(cards) => Run(requests, [located, ForecastHeading, CardCss, CardRowShown(cards)], None)
        case Failure(fault) => Run(requests, [located, ForecastHeading, CardCss], Some(fault))
      else
        Run(requests, [located, Error(FetchFailedMessage)], None)
  }

  /**
   The "Get Forecast (Column Layout)" handler. It has no error branches: a
   failed geocode or a status other than 200 leaves the page empty. Otherwise
   the seven columns are shown, filled up to the first missing day.
   */
  function ColumnLayoutRun(input: string, found: Option<Location>, response: Response): (run: Run)
    ensures |run.requests| >= 1 && run.requests[0] == Geocode(input, ColumnLayoutAgent)
    ensures ForecastRequested(run) <==> found.Some?
    ensures found.Some? ==> run.requests == [Geocode(input, ColumnLayoutAgent), ForecastRequest(found.value)]
    ensures forall x :: x in run.shown ==> !x.Error?
    ensures run.shown != [] <==> found.Some? && response.status == 200
    ensures run.shown != [] ==> run.shown == [ColumnsShown(ColumnGrid(response.daily))]
    ensures run.crash.Some? <==> found.Some? && response.status == 200 && CardRow(response.daily).Failure?
    ensures run.crash.Some? ==> run.crash == Some(Shortfall(response.daily))
  {
    var geocode := Geocode(input, ColumnLayoutAgent);
    match found
    case None => Run([geocode], [], None)
    case Some(loc) =>
      var requests := [geocode, ForecastRequest(loc)];
      assert requests[1] in requests;
      if response.status == 200 then
        Run(requests, [ColumnsShown(ColumnGrid(response.daily))], ColumnFault(response.daily))
      else
        Run(requests, [], None)
  }

  /**
   Pressed on the same input with the same answers, the two handlers send the
   same forecast request, differ only in the geocoder's client identifier, and
   either both end in the same IndexError or both complete.
   */
  lemma HandlersSendSameForecastRequest(input: string, found: Option<Location>, response: Response)
    ensures var a := CardLayoutRun(input, found, response);
      var b := ColumnLayoutRun(input, found, response);
      |a.requests| == |b.requests| &&
      a.requests[1..] == b.requests[1..] &&
      a.requests[0] == Geocode(input, CardLayoutAgent) &&
      b.requests[0] == Geocode(input, ColumnLayoutAgent) &&
      CardLayoutAgent != ColumnLayoutAgent &&
      a.crash == b.crash
  {
  }
}
