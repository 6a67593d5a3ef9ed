/**
 The seven-day loops of weather_location.py. Each button handler reads day i
 of the four parallel "daily" arrays of the forecast response, classifies it
 and emits one card, for i = 0 .. 6. The HTML-card layout accumulates the cards
 and shows them together; the column layout writes card i into column i as it
 goes. A day missing from any array ends the loop with an IndexError.
 */
module ForecastCards {
  import opened Wrappers
  import opened WeatherClassifier

  /** Both loops run over range(7). */
  const ForecastDays: nat := 7

  /** The date formats the two layouts hand to strftime. */
  const CardDatePattern: string := "%a, %b %d"
  const ColumnDatePattern: string := "%a\n%b %d"

  /** The "daily" part of a forecast response: four arrays meant to be index-aligned. */
  datatype Daily = Daily(time: seq<string>, maxTemps: seq<real>, minTemps: seq<real>, codes: seq<int>)

  /** The four arrays, in the order the loop body reads them. */
  datatype Field = Time | MaxTemps | MinTemps | Codes

  /** The IndexError raised when day `day` is missing from `field`. */
  datatype Fault = IndexError(day: nat, field: Field)

  /** An ISO date re-rendered with a strftime pattern; the rendering itself is not modelled. */
  datatype DateText = DateText(iso: string, pattern: string)

  /** What one card shows: the date, the icon, the description and the two temperatures. */
  datatype Card = Card(date: DateText, icon: string, desc: string, maxTemp: real, minTemp: real)

  /** How many leading days all four arrays hold. */
  function Available(d: Daily): (n: nat)
    ensures n <= |d.time| && n <= |d.maxTemps| && n <= |d.minTemps| && n <= |d.codes|
    ensures n == |d.time| || n == |d.maxTemps| || n == |d.minTemps| || n == |d.codes|
  {
    var a := if |d.time| <= |d.maxTemps| then |d.time| else |d.maxTemps|;
    var b := if |d.minTemps| <= |d.codes| then |d.minTemps| else |d.codes|;
    if a <= b then a else b
  }

  /**
   The four reads of the loop body for day i, in source order: the first
   array too short for index i raises.
   */
  function ReadDay(d: Daily, i: nat): (r: Result<(string, real, real, int), Fault>)
    ensures r.Success? <==> i < Available(d)
    ensures r.Success? ==> r.value == (d.time[i], d.maxTemps[i], d.minTemps[i], d.codes[i])
    ensures r.Failure? ==> r.error.day == i
  {
    if i >= |d.time| then Failure(IndexError(i, Time))
    else if i >= |d.maxTemps| then Failure(IndexError(i, MaxTemps))
    else if i >= |d.minTemps| then Failure(IndexError(i, MinTemps))
    else if i >= |d.codes| then Failure(IndexError(i, Codes))
    else Success((d.time[i], d.maxTemps[i], d.minTemps[i], d.codes[i]))
  }

  /** The IndexError of a response that runs short: the first missing day, in the first array missing it. */
  function Shortfall(d: Daily): (f: Fault)
    ensures f.day == Available(d)
    ensures f.field ==
      if |d.time| == Available(d) then Time
      else if |d.maxTemps| == Available(d) then MaxTemps
      else if |d.minTemps| == Available(d) then MinTemps
      else Codes
  {
    ReadDay(d, Available(d)).error
  }

  /** The HTML card the loop builds for day i. */
  function CardFor(d: Daily, i: nat): Card
    requires i < Available(d)
  {
    var style := CardStyle(d.codes[i], d.maxTemps[i]);
    Card(DateText(d.time[i], CardDatePattern), style.icon, style.desc, d.maxTemps[i], d.minTemps[i])
  }

  /** The card the column loop writes into column i. */
  function ColumnCardFor(d: Daily, i: nat): Card
    requires i < Available(d)
  {
    var style := ColumnStyle(d.codes[i], d.maxTemps[i]);
    Card(DateText(d.time[i], ColumnDatePattern), style.icon, style.desc, d.maxTemps[i], d.minTemps[i])
  }

  /** The outcome of the card loop: seven cards, or the IndexError that ends it. */
  function CardRow(d: Daily): Result<seq<Card>, Fault> {
    if Available(d) >= ForecastDays
    then Success(seq(ForecastDays, k requires 0 <= k < ForecastDays => CardFor(d, k)))
    else Failure(Shortfall(d))
  }

  /** What the seven columns hold once the column loop has finished or raised. */
  function ColumnGrid(d: Daily): seq<Option<Card>> {
    seq(ForecastDays, k requires 0 <= k < ForecastDays =>
      if k < Available(d) then Some(ColumnCardFor(d, k)) else None)
  }

  /** The IndexError that ends the column loop, if any. */
  function ColumnFault(d: Daily): Option<Fault> {
    if Available(d) >= ForecastDays then None else Some(Shortfall(d))
  }

  /** The HTML-card loop: appends one card per day, in day order. */
  method BuildCardRow(d: Daily) returns (r: Result<seq<Card>, Fault>)
    ensures r == CardRow(d)
  {
    var cards: seq<Card> := [];
    var i := 0;
    while i < ForecastDays
      invariant i <= ForecastDays && i <= Available(d)
      invariant cards == seq(i, k requires 0 <= k < i => CardFor(d, k))
    {
      var read := ReadDay(d, i);
      if read.Failure? {
        return Failure(read.error);
      }
      var (date, maxTemp, minTemp, code) := read.value;
      var style := CardStyle(code, maxTemp);
      cards := cards + [Card(DateText(date, CardDatePattern), style.icon, style.desc, maxTemp, minTemp)];
      i := i + 1;
    }
    return Success(cards);
  }

  /** The column loop: fills the seven columns one by one; a raise leaves the later ones empty. */
  method FillColumns(d: Daily) returns (cols: array<Option<Card>>, fault: Option<Fault>)
    ensures fresh(cols)
    ensures cols[..] == ColumnGrid(d)
    ensures fault == ColumnFault(d)
  {
    cols := new Option<Card>[ForecastDays](_ => None);
    var i := 0;
    while i < ForecastDays
      invariant i <= ForecastDays && i <= Available(d)
      invariant forall k :: 0 <= k < ForecastDays ==>
        cols[k] == if k < i then Some(ColumnCardFor(d, k)) else None
    {
      var read := ReadDay(d, i);
      if read.Failure? {
        fault := Some(read.error);
        return;
      }
      var (date, maxTemp, minTemp, code) := read.value;
      var style := ColumnStyle(code, maxTemp);
      cols[i] := Some(Card(DateText(date, ColumnDatePattern), style.icon, style.desc, maxTemp, minTemp));
      i := i + 1;
    }
    fault := None;
  }

  /**
   Arrays of seven days or more give exactly seven cards; card k carries day
   k's date, both temperatures and the classification of (code, maximum).
   */
  lemma CardRowContents(d: Daily, k: nat)
    requires Available(d) >= ForecastDays && k < ForecastDays
    ensures CardRow(d).Success? && |CardRow(d).value| == ForecastDays
    ensures CardRow(d).value[k].date == DateText(d.time[k], CardDatePattern)
    ensures CardRow(d).value[k].maxTemp == d.maxTemps[k] && CardRow(d).value[k].minTemp == d.minTemps[k]
    ensures CardCategory(CardRow(d).value[k].desc) == Some(Classify(d.codes[k], d.maxTemps[k]))
  {
    LayoutsAgree(d.codes[k], d.maxTemps[k]);
  }

  /** The card loop fails exactly when some array holds fewer than seven days. */
  lemma CardRowFailsWhenShort(d: Daily)
    ensures CardRow(d).Failure? <==>
      |d.time| < ForecastDays || |d.maxTemps| < ForecastDays || |d.minTemps| < ForecastDays || |d.codes| < ForecastDays
    ensures CardRow(d).Failure? ==> CardRow(d).error.day < ForecastDays
  {
  }

  /** Only the first seven entries of each array matter: what lies beyond them is ignored. */
  lemma CardRowIgnoresTail(d: Daily, e: Daily)
    requires Available(d) >= ForecastDays && Available(e) >= ForecastDays
    requires d.time[..ForecastDays] == e.time[..ForecastDays]
    requires d.maxTemps[..ForecastDays] == e.maxTemps[..ForecastDays]
    requires d.minTemps[..ForecastDays] == e.minTemps[..ForecastDays]
    requires d.codes[..ForecastDays] == e.codes[..ForecastDays]
    ensures CardRow(d) == CardRow(e) && ColumnGrid(d) == ColumnGrid(e)
  {
    forall k | 0 <= k < ForecastDays
      ensures CardFor(d, k) == CardFor(e, k) && ColumnCardFor(d, k) == ColumnCardFor(e, k)
    {
      assert d.time[k] == d.time[..ForecastDays][k];
      assert d.maxTemps[k] == d.maxTemps[..ForecastDays][k];
      assert d.minTemps[k] == d.minTemps[..ForecastDays][k];
      assert d.codes[k] == d.codes[..ForecastDays][k];
    }
    assert CardRow(d).value == CardRow(e).value;
    assert forall k | 0 <= k < ForecastDays :: ColumnGrid(d)[k] == ColumnGrid(e)[k];
  }

  /** The minimum temperature is shown on a card but never changes its icon or description. */
  lemma MinTempDoesNotClassify(d: Daily, k: nat, low: real)
    requires k < Available(d)
    ensures var e := d.(minTemps := d.minTemps[k := low]);
      CardFor(e, k).icon == CardFor(d, k).icon && CardFor(e, k).desc == CardFor(d, k).desc &&
      ColumnCardFor(e, k).icon == ColumnCardFor(d, k).icon && ColumnCardFor(e, k).desc == ColumnCardFor(d, k).desc
  {
  }

  /**
   The column grid holds a card exactly for the days read before the loop
   stopped; on a complete response all seven columns are filled, and column k
   shows the same category as card k of the HTML layout.
   */
  lemma ColumnGridMatchesCardRow(d: Daily, k: nat)
    requires k < ForecastDays
    ensures ColumnGrid(d)[k].Some? <==> k < Available(d)
    ensures ColumnFault(d).None? <==> CardRow(d).Success?
    ensures CardRow(d).Success? ==>
      && ColumnGrid(d)[k].Some?
      && ColumnCategory(ColumnGrid(d)[k].value.desc) == CardCategory(CardRow(d).value[k].desc)
      && ColumnGrid(d)[k].value.icon == CardRow(d).value[k].icon
  {
    if k < Available(d) {
      LayoutsAgree(d.codes[k], d.maxTemps[k]);
    }
  }
}
