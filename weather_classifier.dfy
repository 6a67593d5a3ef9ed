/**
 The weather classifier of weather_location.py: the if/elif chain that turns a
 day's weather code and maximum temperature into an icon and a description.
 The chain is written out twice in the source, once for the HTML-card layout
 and once for the column layout; both are modelled as written and related to a
 single category-level classifier.
 */
module WeatherClassifier {
  import opened Wrappers

  /** The six kinds of day the chains tell apart. */
  datatype Category = Rainy | Snow | Thunderstorm | VeryHot | Cold | Mild

  /** What one branch of a chain produces: the emoji and the text of a card. */
  datatype Style = Style(icon: string, desc: string)

  const RainCodes: set<int> := {61, 63, 65, 80, 81, 82}
  const SnowCodes: set<int> := {71, 73, 75, 85, 86}
  const StormCodes: set<int> := {95, 96, 99}

  /** Temperatures are compared strictly with these two constants (degrees Celsius). */
  const HotAbove: real := 35.0
  const ColdBelow: real := 10.0

  /** A code that one of the three weather-code tests recognises. */
  predicate IsWeatherCode(code: int) {
    code in RainCodes || code in SnowCodes || code in StormCodes
  }

  /**
   When a day belongs to category `c`, stated without any order between the
   tests: the weather-code sets decide first, the thresholds only for a code
   outside all three sets.
   */
  predicate Describes(c: Category, code: int, maxTemp: real) {
    match c
    case Rainy => code in RainCodes
    case Snow => code in SnowCodes
    case Thunderstorm => code in StormCodes
    case VeryHot => !IsWeatherCode(code) && maxTemp > HotAbove
    case Cold => !IsWeatherCode(code) && maxTemp < ColdBelow
    case Mild => !IsWeatherCode(code) && ColdBelow <= maxTemp <= HotAbove
  }

  /**
   The category both chains compute. Exactly one category describes every
   (code, maximum temperature) pair, and it is the one returned.
   */
  function Classify(code: int, maxTemp: real): (c: Category)
    ensures forall k :: Describes(k, code, maxTemp) <==> k == c
  {
    if code in RainCodes then Rainy
    else if code in SnowCodes then Snow
    else if code in StormCodes then Thunderstorm
    else if maxTemp > HotAbove then VeryHot
    else if maxTemp < ColdBelow then Cold
    else Mild
  }

  /** The emoji of each category; both layouts use the same ones. */
  function Icon(c: Category): string {
    match c
    case Rainy => "\U{1F327}\U{FE0F}"
    case Snow => "\U{2744}\U{FE0F}"
    case Thunderstorm => "\U{26C8}\U{FE0F}"
    case VeryHot => "\U{1F975}"
    case Cold => "\U{1F9CA}"
    case Mild => "\U{1F324}\U{FE0F}"
  }

  /** The descriptions written on the HTML cards. */
  function CardLabel(c: Category): string {
    match c
    case Rainy => "Rainy"
    case Snow => "Snow"
    case Thunderstorm => "Thunderstorm"
    case VeryHot => "Very Hot"
    case Cold => "Cold"
    case Mild => "Mild"
  }

  /** The descriptions written in the columns. */
  function ColumnLabel(c: Category): string {
    match c
    case Rainy => "Rainy"
    case Snow => "Snow"
    case Thunderstorm => "Storm"
    case VeryHot => "Hot"
    case Cold => "Cold"
    case Mild => "Mild"
  }

  /** Reads a card description back as its category. */
  function CardCategory(desc: string): (r: Option<Category>)
    ensures forall c :: r == Some(c) <==> CardLabel(c) == desc
  {
    if desc == "Rainy" then Some(Rainy)
    else if desc == "Snow" then Some(Snow)
    else if desc == "Thunderstorm" then Some(Thunderstorm)
    else if desc == "Very Hot" then Some(VeryHot)
    else if desc == "Cold" then Some(Cold)
    else if desc == "Mild" then Some(Mild)
    else None
  }

  /** Reads a column description back as its category. */
  function ColumnCategory(desc: string): (r: Option<Category>)
    ensures forall c :: r == Some(c) <==> ColumnLabel(c) == desc
  {
    if desc == "Rainy" then Some(Rainy)
    else if desc == "Snow" then Some(Snow)
    else if desc == "Storm" then Some(Thunderstorm)
    else if desc == "Hot" then Some(VeryHot)
    else if desc == "Cold" then Some(Cold)
    else if desc == "Mild" then Some(Mild)
    else None
  }

  /** The chain of the HTML-card layout, branch for branch. */
  function CardStyle(code: int, maxTemp: real): (s: Style)
    ensures s == Style(Icon(Classify(code, maxTemp)), CardLabel(Classify(code, maxTemp)))
  {
    if code in [61, 63, 65, 80, 81, 82] then Style("\U{1F327}\U{FE0F}", "Rainy")
    else if code in [71, 73, 75, 85, 86] then Style("\U{2744}\U{FE0F}", "Snow")
    else if code in [95, 96, 99] then Style("\U{26C8}\U{FE0F}", "Thunderstorm")
    else if maxTemp > 35.0 then Style("\U{1F975}", "Very Hot")
    else if maxTemp < 10.0 then Style("\U{1F9CA}", "Cold")
    else Style("\U{1F324}\U{FE0F}", "Mild")
  }

  /** The chain of the column layout, branch for branch. */
  function ColumnStyle(code: int, maxTemp: real): (s: Style)
    ensures s == Style(Icon(Classify(code, maxTemp)), ColumnLabel(Classify(code, maxTemp)))
  {
    if code in [61, 63, 65, 80, 81, 82] then Style("\U{1F327}\U{FE0F}", "Rainy")
    else if code in [71, 73, 75, 85, 86] then Style("\U{2744}\U{FE0F}", "Snow")
    else if code in [95, 96, 99] then Style("\U{26C8}\U{FE0F}", "Storm")
    else if maxTemp > 35.0 then Style("\U{1F975}", "Hot")
    else if maxTemp < 10.0 then Style("\U{1F9CA}", "Cold")
    else Style("\U{1F324}\U{FE0F}", "Mild")
  }

  /** A rain code gives Rainy whatever the temperature, above 35 or below 10 included. */
  lemma RainCodesWin(code: int, maxTemp: real)
    requires code in RainCodes
    ensures Classify(code, maxTemp) == Rainy
    ensures CardStyle(code, maxTemp).desc == "Rainy" && ColumnStyle(code, maxTemp).desc == "Rainy"
  {
  }

  /** A snow code gives Snow whatever the temperature. */
  lemma SnowCodesWin(code: int, maxTemp: real)
    requires code in SnowCodes
    ensures Classify(code, maxTemp) == Snow
    ensures CardStyle(code, maxTemp).desc == "Snow" && ColumnStyle(code, maxTemp).desc == "Snow"
  {
  }

  /** A thunderstorm code gives Thunderstorm whatever the temperature. */
  lemma StormCodesWin(code: int, maxTemp: real)
    requires code in StormCodes
    ensures Classify(code, maxTemp) == Thunderstorm
    ensures CardStyle(code, maxTemp).desc == "Thunderstorm" && ColumnStyle(code, maxTemp).desc == "Storm"
  {
  }

  /** Code 95 on a 40-degree day is a thunderstorm, not a very hot day. */
  lemma StormOnHotDay()
    ensures Classify(95, 40.0) == Thunderstorm
    ensures CardStyle(95, 40.0).desc == "Thunderstorm"
  {
  }

  /**
   Outside the three code sets the temperature alone decides, with strict
   thresholds: the boundaries 35 and 10 are Mild.
   */
  lemma ThresholdsDecide(code: int, maxTemp: real)
    requires !IsWeatherCode(code)
    ensures Classify(code, maxTemp) == VeryHot <==> maxTemp > 35.0
    ensures Classify(code, maxTemp) == Cold <==> maxTemp < 10.0
    ensures Classify(code, maxTemp) == Mild <==> 10.0 <= maxTemp <= 35.0
    ensures Classify(code, 35.0) == Mild && Classify(code, 10.0) == Mild
  {
  }

  /**
   The two chains agree: the same icon, and descriptions that read back as the
   same category, the one Classify gives.
   */
  lemma LayoutsAgree(code: int, maxTemp: real)
    ensures CardStyle(code, maxTemp).icon == ColumnStyle(code, maxTemp).icon
    ensures CardCategory(CardStyle(code, maxTemp).desc) == Some(Classify(code, maxTemp))
    ensures ColumnCategory(ColumnStyle(code, maxTemp).desc) == Some(Classify(code, maxTemp))
  {
  }

  /** The two layouts word only Thunderstorm and VeryHot differently. */
  lemma LabelsDifferOnlyForStormAndHeat(c: Category)
    ensures CardLabel(c) != ColumnLabel(c) <==> c == Thunderstorm || c == VeryHot
  {
  }
}
