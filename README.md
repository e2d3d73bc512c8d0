# Weather widget: mood caption and weather state, modelled in Dafny

The weather widget fetches the current conditions for a city, shows them over a
background image chosen from the condition and the time of day, and prints a short
"tiny funny" caption next to an animated avatar. This project models the two pieces
of that program that carry rules rather than markup:

- **The mood caption** (`src/components/WeatherCard.tsx`, `pick` and
  `buildGreetingTinyFunny`), module `Caption` in `caption.dfy`. It is modelled as pure
  functions. The condition is classified by case-insensitive substring tests, first
  match wins. The feels-like temperature and the humidity are bucketed against fixed
  thresholds. A joke and a greeting are picked from fixed pools. The parts are then
  joined into one string. The two `Math.random()` draws are parameters in `[0, 1)`, and
  the pick is `Math.floor(r * length)`, as in the source.
- **The weather state** (`src/App.tsx`), module `Controller` in `controller.dfy`. The
  four state cells (`weather`, `bgImage`, `location`, `error`) are the fields of the
  class `WeatherApp`. Its methods are the request's success and failure handlers, the
  run without an API key, `saveChanges`, and `RunEffect`, which dispatches one run of
  the fetch effect. Each method is specified by the pure transition function `Next`
  over `AppState`. The network request is not modelled: what it returned is a
  parameter. The day/night test and the choice of background image are pure functions.

`text.dfy` (module `Text`) models the JavaScript built-ins the two pieces use:
`toLowerCase`, `includes`, `endsWith`, `Math.round`, and the rendering of an integer in
a template literal. `wrappers.dfy` holds `Option`, which stands for `null`/`undefined`.

Quirks of the code that the model keeps:

- The temperature phrase starts with its own space and is joined to the condition phrase
  by another one, so the caption has two spaces before "Feels like"
  (`Caption.CaptionReportsTemperature`).
- The condition phrase tests rain > storm/thunder > snow > cloud > clear/sun > fog/mist.
  The joke pool tests rain > cloud > clear/sun > storm/thunder > fog/mist > snow. So
  "snow clouds" reads "Snowy." and gets a cloud joke (`Caption.SnowCloudsQuirk`).
  `Caption.PhraseAndJokeDisagree` states exactly when the two orders disagree.
- A successful response sets the error to the empty string; `saveChanges` sets it to
  `null`.
- The background is `""` while the "Loading..." placeholder snapshot is shown. A
  response with an empty `weather` list throws inside the success handler after the
  snapshot was stored. The failure handler then runs: the new snapshot stays, the old
  background stays, and the error becomes the failure message
  (`Controller.StaleBackgrounds`).
- A response without a report time (`dt`) counts as night: `undefined` compared with a
  number is false.
- The diagnostic for a missing API key is logged on every run of the fetch effect.

## Model

| member | source | states |
|---|---|---|
| `Text.ToLower` | src/components/WeatherCard.tsx:39 | lower-casing keeps the length, maps each character on its own, and leaves no ASCII upper-case letter |
| `Text.Includes` | src/components/WeatherCard.tsx:44-51 | `includes`: the left-to-right scan holds exactly when the word occurs at some position of the text |
| `Text.IncludesToLower` | src/components/WeatherCard.tsx:39-51 | after lower-casing both sides, the word is found exactly when it occurs in the raw text up to letter case ("Rain" and "RAIN" for "rain") |
| `Text.EndsWithSpec` | src/components/WeatherCard.tsx:40 | `endsWith` holds exactly when the text is some string followed by the suffix |
| `Text.IntToString` | src/components/WeatherCard.tsx:55-58 | `${n}` for an integer is a '-' exactly when the integer is negative, followed by at least one decimal digit with no leading zero |
| `Text.Round` | src/components/WeatherCard.tsx:55-58 | `Math.round` gives the nearest integer, with halves rounded up |
| `Text.ParseIntToString` | src/components/WeatherCard.tsx:55-58 | the rendered rounded value reads back as the same integer, so the caption reports it exactly |
| `Caption.IsNight` | src/components/WeatherCard.tsx:40 | night iff the icon code is non-empty and its last character is 'n'; an empty or absent icon is day |
| `Caption.PhraseSky` | src/components/WeatherCard.tsx:44-51 | the phrase class is rain whenever "rain" occurs, and falls back only when none of the nine words occurs |
| `Caption.JokeSky` | src/components/WeatherCard.tsx:70-119 | the joke class is rain whenever "rain" occurs, cloud whenever "cloud" occurs without "rain", and falls back only when none of the nine words occurs |
| `Caption.FirstMatch` | src/components/WeatherCard.tsx:44-51 | reading an ordered rule table gives the class of the first rule the condition triggers, or the fallback when none is triggered |
| `Caption.PhraseSkyIsFirstMatch` | src/components/WeatherCard.tsx:44-51 | the condition-phrase chain is first-match-wins over rain, storm/thunder, snow, cloud, clear/sun, fog/mist |
| `Caption.JokeSkyIsFirstMatch` | src/components/WeatherCard.tsx:70-119 | the joke-pool chain is first-match-wins over rain, cloud, clear/sun, storm/thunder, fog/mist, snow |
| `Caption.SameRulesDifferentOrder` | src/components/WeatherCard.tsx:44-119 | both chains use the same six rules, in different orders |
| `Caption.PhraseAndJokeDisagree` | src/components/WeatherCard.tsx:44-119 | the phrase class and the joke class differ exactly when there is no "rain" and a storm word meets cloud/clear/sun, or "snow" meets cloud/clear/sun/fog/mist without a storm word |
| `Caption.SnowyPhraseCloudJoke` | src/components/WeatherCard.tsx:44-119 | snow and cloud without rain or storm words give the phrase "Snowy." but the cloud joke pool |
| `Caption.SnowCloudsQuirk` | src/components/WeatherCard.tsx:44-119 | "snow clouds" gives "Snowy." and a cloud joke |
| `Caption.ConditionPhrase` | src/components/WeatherCard.tsx:43-51 | the phrase is never empty; clear/sun reads "Clear night." at night and "Sunny." otherwise; the fallback echoes the raw, un-lowered condition, or "Weather update." when it is empty |
| `Caption.FeelOf` | src/components/WeatherCard.tsx:54-58 | exactly one bucket: hot iff at least 30, warm iff in [20, 30), cool iff in [10, 20), cold iff below 10 |
| `Caption.FeelMonotone` | src/components/WeatherCard.tsx:54-58 | a warmer feels-like value never gets a colder bucket |
| `Caption.FeelBoundaries` | src/components/WeatherCard.tsx:54-58 | 30 is hot, 29.99 warm, 20 warm, 19.99 cool, 10 cool, 9.99 cold |
| `Caption.Degrees` | src/components/WeatherCard.tsx:55-58 | the rendering ends in "°C" and what precedes it reads back as the rounded feels-like value |
| `Caption.TempPhrase` | src/components/WeatherCard.tsx:54-58 | the phrase is " Feels like ", then the rounded value with "°C", then ", " with the bucket's name and "." |
| `Caption.DampnessOf` | src/components/WeatherCard.tsx:61-64 | humid iff at least 70, normal iff in [40, 70), dry iff below 40 |
| `Caption.HumidityPhrase` | src/components/WeatherCard.tsx:61-64 | "Humid." iff at least 70, "Normal humidity." iff in [40, 70), "Dry air." iff below 40 |
| `Caption.JokePool` | src/components/WeatherCard.tsx:68-119 | every joke pool, including both clear-sky pools, is non-empty |
| `Caption.Greetings` | src/components/WeatherCard.tsx:122 | the night and day greeting pools are non-empty |
| `Caption.DrawIndex` | src/components/WeatherCard.tsx:31 | `Math.floor(r * n)` for a draw `r` in [0, 1) is an index in [0, n) |
| `Caption.DrawReachesEveryIndex` | src/components/WeatherCard.tsx:31 | every index of the pool is the outcome of some draw |
| `Caption.Pick` | src/components/WeatherCard.tsx:31 | `pick` returns a member of the pool |
| `Caption.BuildCaption` | src/components/WeatherCard.tsx:33-125 | the caption is non-empty and is a greeting from the pool for the time of day, the condition phrase, the temperature phrase, the humidity phrase and a joke from the pool for the joke class, joined by spaces |
| `Caption.CaptionReportsTemperature` | src/components/WeatherCard.tsx:122-124 | the caption contains the rounded feels-like value followed by "°C", and two spaces before "Feels like" |
| `Caption.RainyDayCaption` | src/components/WeatherCard.tsx:33-124 | "Rain", 25.4, 80, "10d": day, "Rainy.", rain jokes, warm, humid, and "25°C" in the caption |
| `Caption.ClearNightCaption` | src/components/WeatherCard.tsx:33-124 | "Clear", 5, 30, "01n": night, "Clear night.", the night clear-sky jokes, cold, dry |
| `Controller.DayBoundaries` | src/App.tsx:101-102 | the report time equal to sunrise is day, equal to sunset is night, and a missing report time is night |
| `Controller.IsDay` | src/App.tsx:101-102 | day iff there is a report time in the half-open interval [sunrise, sunset): a report at sunset is night, one at sunrise is day whenever sunrise precedes sunset, and a missing report time is night |
| `Controller.BackdropOf` | src/App.tsx:105-112 | rainy iff "rain" occurs; cloudy iff "cloud" occurs without "rain"; sunny iff neither occurs |
| `Controller.BackgroundFor` | src/App.tsx:106-114 | each time of day and backdrop names one of the six images, and that image reads back as the same pair |
| `Controller.BackgroundPath` | src/App.tsx:95-114 | the background is one of the six images, and it shows the day/night flag and the rain > cloud > sunny backdrop of the lowered condition |
| `Controller.BackgroundPathDetermines` | src/App.tsx:101-114 | two conditions with the same image have the same day/night flag and the same backdrop |
| `Controller.BackdropMatchesJokePool` | src/App.tsx:105-112 | the backdrop is rainy iff the caption uses rain jokes, and cloudy iff it uses cloud jokes |
| `Controller.RainyDayBackground` | src/App.tsx:95-114 | "Rain" between sunrise and sunset gives "/day-rainy.png" |
| `Controller.ClearNightBackground` | src/App.tsx:95-114 | "Clear" at or after sunset gives "/night-sunny.png" |
| `Controller.Next` | src/App.tsx:82-144 | a response replaces the snapshot and sets the error to "" and the background from its first condition (or, with no condition, the failure message and the old background); a failure only sets the error to the failure message; a missing key changes nothing; saving sets the location from the input if present and the error to `null` |
| `Controller.EffectEvent` | src/App.tsx:82-120 | nothing is requested iff the key is absent or empty; with a key, a failed request runs the failure handler and a returned response runs the success handler on that response |
| `Controller.InitialWellFormed` | src/App.tsx:39-71 | the initial state ("Loading..." placeholder, background "", location "tamilnadu", error `null`) is well formed |
| `Controller.NextWellFormed` | src/App.tsx:91-142 | every transition keeps the background unset or one of the six images, and the error `null`, "" or the failure message |
| `Controller.RunWellFormed` | src/App.tsx:82-144 | every sequence of events keeps the state well formed |
| `Controller.SuccessAfterFailure` | src/App.tsx:91-119 | a failure followed by a response leaves the same state as the response alone, so the earlier failure leaves no trace |
| `Controller.MissingKeyChangesNothing` | src/App.tsx:83-86 | without a key, or with an empty key, the effect leaves the state unchanged whatever the request would have returned |
| `Controller.NoResponseKeepsSnapshot` | src/App.tsx:116-119 | failures, missing keys and saves never change the snapshot or the background |
| `Controller.StaleBackgrounds` | src/App.tsx:91-114 | the initial background is none of the six images; a response with no condition stores the snapshot but keeps the old background |
| `Controller.WeatherApp.constructor` | src/App.tsx:39-71 | the component starts in the initial state |
| `Controller.WeatherApp.OnSuccess` | src/App.tsx:91-115 | the success handler's new state is `Next` for the response, and it stays well formed |
| `Controller.WeatherApp.OnFailure` | src/App.tsx:116-119 | the failure handler changes only the error, to the failure message |
| `Controller.WeatherApp.OnMissingKey` | src/App.tsx:83-86 | without a key nothing changes |
| `Controller.WeatherApp.SaveChanges` | src/App.tsx:123-144 | the new state is `Next` for the save; it reports a refetch iff the location changed |
| `Controller.WeatherApp.RunEffect` | src/App.tsx:82-120 | one run of the effect moves to `Next` of the event the key and the request's outcome produce |

## Left out

- The HTTP request and its URL (`src/App.tsx:88-90`) are left out because they are network I/O. What the request returned is a parameter of `RunEffect`.
- Overlapping requests that resolve out of order are left out: the code does not guard against them.
- `console.log` and `console.error` diagnostics are left out.
- React hooks, rendering, the card's own caption state and `useMemo`, and JSX markup are left out as UI plumbing.
- The Bootstrap modal handling, the DOM clean-up in `saveChanges` and the Spline script injection are left out because they are DOM calls.
- The wind-speed formatting (`toFixed(1)`, `Number.isFinite`) is left out as display formatting.
- Numbers are modelled as exact `real` values and report times as `int`. IEEE rounding of `r * n` in `pick` is left out, and so are `NaN` and infinities. `NaN` would fail every threshold, and `Math.round(NaN)` would render as "NaN".
- `Text.ToLower`: maps only the ASCII letters A-Z. JavaScript's `toLowerCase` covers all of Unicode. Every word the code tests for is ASCII.
- `Text.IntToString`: does not model JavaScript's exponent notation for magnitudes of 10^21 and above.
- An absent condition or icon is modelled as the empty string, which is what `condition || ""` and `icon || ""` make of it.
- Of the ways a malformed response can throw inside the success handler, only an empty `weather` list is modelled. A missing `sys` or `weather[0].main` would take the same path into the failure handler.
- A response with an empty `weather` list would also make the card's render fail when it reads `weather[0]`. That is rendering and is left out.
