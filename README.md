# Weather forecast page: classifier, seven-day cards and outcome gating

`weather_location.py` is a Streamlit page. A place name is sent to a geocoder,
the coordinates are sent to a forecast service, and the daily answer is shown as
seven cards. The page has two buttons with near-identical handlers. The first
builds one HTML row of cards. The second writes each card into one of seven
columns.

This project models the logic inside that page:

- **WeatherClassifier** (`weather_classifier.dfy`). This is the if/elif chain
  that maps a weather code and a day's maximum temperature to an icon and a
  description. Each of the two handlers has its own copy. Both copies are
  modelled as written, as `CardStyle` and `ColumnStyle`. Both are proved equal
  to one category-level classifier, `Classify`. `Classify` is specified by an
  unordered table, `Describes`: exactly one category fits each input.
- **ForecastCards** (`forecast_cards.dfy`). These are the two `for i in range(7)`
  loops. Both read index `i` of the four parallel `daily` arrays. The card loop
  appends to a sequence. The column loop writes into a seven-slot array. Each
  loop is a method proved against a specification function: `CardRow`, or
  `ColumnGrid` with `ColumnFault`. A day missing from any array is an
  `IndexError` for the first array, in source order, that lacks it.
- **ForecastPage** (`forecast_page.dfy`). These are the two button handlers seen
  from outside: the requests they send, what they show, and whether they end in
  an uncaught `IndexError`.
- **Wrappers** (`wrappers.dfy`). `Option` and `Result`.

Temperatures are `real`. The source only compares them with the constants 35
and 10, so exact comparison matches Python's float comparison.

Behaviour of the handlers worth knowing:

- The column handler has no `else` branches. A failed geocode or a non-200
  status shows nothing, with no error message.
- Only the HTML-card handler shows "location found" and the two error messages.
- Arrays of unequal length are not rejected. Arrays shorter than seven days end
  the handler with an `IndexError`. Longer arrays are cut to seven days.

## Model

| member | source | states |
|---|---|---|
| WeatherClassifier.Classify | weather_location.py:124-141 | exactly one category fits every (code, maximum) pair under the unordered table `Describes`, and it is the one returned; code sets win over the thresholds |
| WeatherClassifier.CardStyle | weather_location.py:124-141 | the card chain, branch for branch, yields the icon and card label of `Classify`'s category |
| WeatherClassifier.ColumnStyle | weather_location.py:201-218 | the column chain, branch for branch, yields the icon and column label of `Classify`'s category |
| WeatherClassifier.RainCodesWin | weather_location.py:124-126 | a code in {61, 63, 65, 80, 81, 82} is Rainy at every temperature, in both layouts |
| WeatherClassifier.SnowCodesWin | weather_location.py:127-129 | a code in {71, 73, 75, 85, 86} is Snow at every temperature, in both layouts |
| WeatherClassifier.StormCodesWin | weather_location.py:130-132 | a code in {95, 96, 99} is Thunderstorm at every temperature ("Storm" in the columns) |
| WeatherClassifier.StormOnHotDay | weather_location.py:130-135 | code 95 at 40 degrees is Thunderstorm, not Very Hot |
| WeatherClassifier.ThresholdsDecide | weather_location.py:133-141 | outside the code sets: Very Hot iff max > 35, Cold iff max < 10, Mild iff 10 <= max <= 35; 35 and 10 are Mild |
| WeatherClassifier.LayoutsAgree | weather_location.py:201-218 | the two chains give the same icon, and their labels read back as the same category |
| WeatherClassifier.LabelsDifferOnlyForStormAndHeat | weather_location.py:207-212 | the layouts word a category differently exactly for Thunderstorm/Storm and Very Hot/Hot |
| WeatherClassifier.CardCategory | weather_location.py:124-141 | a description reads back as category c exactly when it is c's card label |
| WeatherClassifier.ColumnCategory | weather_location.py:201-218 | a description reads back as category c exactly when it is c's column label |
| ForecastCards.Available | weather_location.py:117-121 | the number of days all four arrays hold: at most each length, equal to one of them |
| ForecastCards.ReadDay | weather_location.py:118-121 | the four reads of day i succeed exactly when i is below every length, and return the four aligned entries |
| ForecastCards.Shortfall | weather_location.py:117-121 | a short response raises at the first missing day, in the first array (in read order) lacking it |
| ForecastCards.BuildCardRow | weather_location.py:114-153 | the card loop returns `CardRow`: seven cards in day order, or the IndexError that stops it |
| ForecastCards.FillColumns | weather_location.py:192-220 | the column loop fills column k with day k's card for every day read before it stops; the rest stay empty |
| ForecastCards.CardRowContents | weather_location.py:144-151 | with seven days available there are exactly seven cards; card k has day k's date, max, min and the category of (code k, max k) |
| ForecastCards.CardRowFailsWhenShort | weather_location.py:117-121 | the card loop fails exactly when some array has fewer than seven entries, at a day below seven |
| ForecastCards.CardRowIgnoresTail | weather_location.py:117 | entries past index 6 do not change the cards or the columns |
| ForecastCards.MinTempDoesNotClassify | weather_location.py:120-141 | changing day k's minimum never changes its icon or description |
| ForecastCards.ColumnGridMatchesCardRow | weather_location.py:194-218 | column k is filled iff day k was read; the column loop completes iff the card loop does, with the same icon and category per day |
| ForecastPage.CardLayoutRun | weather_location.py:15-161 | a found location is announced with its address and coordinates; only a failed geocode shows the not-found error, and then no forecast is requested; non-200 shows the fetch error and no cards; cards shown iff found, 200 and seven days; short arrays crash with the first missing day's IndexError |
| ForecastPage.ColumnLayoutRun | weather_location.py:167-242 | never shows an error; shows the seven-column grid iff found and 200; forecast requested iff found; short arrays crash with the first missing day's IndexError |
| ForecastPage.HandlersSendSameForecastRequest | weather_location.py:168-182 | both handlers send the same forecast request, differ only in the geocoder's client identifier, and crash alike |

## Left out

- Streamlit page set-up, titles, text input, buttons and the CSS block (lines 7-12, 43-111) are presentation. The CSS appears only as the `CardCss` display item.
- The HTML templates (lines 144-153, 221-242) are left out. A card is the record `(date, icon, desc, maxTemp, minTemp)`.
- `Nominatim(...).geocode` (lines 16-17, 168-169) is a foreign network call. It becomes the optional `Location` input, and only its client identifier is kept. Exceptions it raises (time-outs, service errors), which end a handler before anything is shown, are not modelled.
- `requests.get` and `response.json()` (lines 31-34, 182-185) are network I/O. They become the `Response` input (status and decoded arrays). Network exceptions, JSON decoding errors and missing keys are not modelled.
- `datetime.strptime(...).strftime(...)` (lines 118, 195) is library behaviour. The card keeps the ISO string and the layout's pattern as `DateText`. A malformed date raising `ValueError` is not modelled.
- The `:.1f` and `:.4f` float formatting (lines 22, 149, 238-239) is not modelled. Temperatures and coordinates are exact reals.
- JSON `null` entries are not modelled; every temperature is a number and every code an integer. In Python a `null` maximum for a code outside the three sets raises at `max_temp > 35` (line 133). For a code inside them, a `null` maximum or minimum raises only at the `:.1f` format (lines 149, 238-239). A `null` weather code raises nothing: it matches none of the three lists, so the day is classified by temperature, the same result the model gives for any integer outside the sets.
- Streamlit's rerun-per-interaction execution and session state are not modelled. Each handler is one independent function of its inputs.
