# Weather dashboard: a Dafny model of its query logic

The dashboard looks up the current weather and a five-day forecast for a city,
either by name or from the browser's coordinates. It also keeps a short list of
recent searches. This project models the two parts of the code that carry logic:

- **The weather hook** (`useWeather.ts`). It has four observable fields:
  `currentWeather`, `forecast`, `loading` and `error`.
  - `fetchWeatherByCity` and `fetchWeatherByLocation` move these fields between states.
  - Each query is modelled as one atomic step. The provider's replies are inputs:
    `Fetch<T> = Reply(status, body) | NetworkError(message?)`. A body is
    `Json(value)`; or `Malformed(readError?)` when it parses but an object the
    hook dereferences is missing, so the read throws; or `ParseError(message?)`
    when `json()` itself throws.
  - Each query returns the requests it would issue.
  - `WeatherClient.CityOutcome` and `WeatherClient.LocationOutcome` are pure
    specifications. The class `WeatherClient.WeatherHook` updates its fields in
    place the way the source does, and each of its methods is proved to reach the
    state its specification gives.
- **The forecast reduction** (`useWeather.ts`, lines 55-74). It walks the 3-hourly
  feed and keeps the first entry of each day not seen before, up to five days.
  - `Forecast.FirstOfEachDay` is a reference definition written as recursion.
  - `Forecast.ReduceForecast` is the source's loop, with its set of processed
    days. It is proved equal to the reference definition.
  - Each entry's day is an opaque `dayKey`. In the source it is
    `new Date(dt * 1000).toDateString()`, which depends on the viewer's time zone.
  - The emitted `date` is a separate value: the part of `dt_txt` before the first space.
- **The recent-search list** (`page.tsx`). `RecentSearches.UpdateRecent` is the
  one-line update at line 43. `RecentSearches.RecentSearchList` is the page state
  that `handleSearch` and `handleClearRecent` replace.
- **Supporting modules.** `Js` models the built-ins used: `Math.round`,
  `String.prototype.trim`'s whitespace set, `slice(0, n)` and an ASCII
  `toLowerCase`. `WeatherTypes` mirrors `types/weather.ts`.

Where the design description of the dashboard differs from the code, the model follows the code:

- **Location failure.** The design says no result is ever shown beside an error.
  The city query keeps to that. A failed location query does not: it sets the
  error and leaves the previous `currentWeather` and `forecast` in place
  (`useWeather.ts:105-108`). `WeatherClient.LocationFailureShowsStaleResult`
  gives a concrete case.
- **Day key.** The design says days are told apart by the date text on each entry.
  The code tells them apart by the local-time day of `dt` and emits `dt_txt`'s UTC
  date. As a result, two emitted days can carry the same `date`. The model proves
  that `dayKey`s are distinct. It does not claim distinct `date`s.

## Model

| member | source | states |
|---|---|---|
| `Js.Round` | weather-dashboard/src/hooks/useWeather.ts:43 | `Math.round` gives an integer within half a degree of its argument, with halves rounded up |
| `Js.TrimStart` | weather-dashboard/src/hooks/useWeather.ts:14 | the leading part removed is all whitespace, what is left is a suffix of the text, and it does not start with whitespace |
| `Js.TrimEnd` | weather-dashboard/src/hooks/useWeather.ts:14 | the trailing part removed is all whitespace, what is left is a prefix of the text, and it does not end with whitespace |
| `Js.Trim` | weather-dashboard/src/hooks/useWeather.ts:14 | `trim()` gives the part of the text left once the whitespace runs at both ends are removed: a contiguous slice with only whitespace before and after it, and no whitespace at either of its own ends |
| `Js.BlankIffTrimEmpty` | weather-dashboard/src/hooks/useWeather.ts:14 | `Js.IsBlank`, the guard `!city.trim()`, holds exactly when trimming gives the empty string |
| `Js.Take` | weather-dashboard/src/app/page.tsx:43 | `slice(0, n)` gives the first `n` elements, or all of them when there are fewer |
| `Js.Lower` | weather-dashboard/src/app/page.tsx:43 | `toLowerCase()` keeps the length, leaves no ASCII capital, turns each capital into its own small letter, and keeps every other character |
| `Forecast.DatePart` | weather-dashboard/src/hooks/useWeather.ts:64 | `dt_txt.split(' ')[0]` is a prefix of the text, holds no space, and is followed by a space unless it is the whole text |
| `Forecast.ToDay` | weather-dashboard/src/hooks/useWeather.ts:63-72 | an emitted day takes the date part of `dt_txt`, the min and max rounded to the nearest integer, and the entry's own description, icon and humidity |
| `Forecast.FirstOfEachDay` | weather-dashboard/src/hooks/useWeather.ts:56-62 | the reference reduction keeps no more entries than the feed has, and always keeps the feed's first entry |
| `Forecast.DailyForecasts` | weather-dashboard/src/hooks/useWeather.ts:61 | the reduction never emits more than five days |
| `Forecast.FirstOfEachDayKeys` | weather-dashboard/src/hooks/useWeather.ts:56-62 | the kept entries cover every day of the input, and no two of them share a day key |
| `Forecast.FirstIndicesSpec` | weather-dashboard/src/hooks/useWeather.ts:58-62 | the kept entries sit at strictly increasing input positions, so they form a subsequence; each is the first entry of its day; every first-of-day position is kept |
| `Forecast.DailyForecastsCount` | weather-dashboard/src/hooks/useWeather.ts:58-74 | exactly five days are emitted when the input has at least five distinct days, otherwise one per distinct day |
| `Forecast.DailyForecastsFromFirstEntries` | weather-dashboard/src/hooks/useWeather.ts:61-72 | each emitted day copies only the first entry of its day: rounded min and max, description, icon, humidity, and the date part of `dt_txt`; days are in input order with pairwise distinct day keys |
| `Forecast.ReduceForecast` | weather-dashboard/src/hooks/useWeather.ts:55-74 | the `forEach` loop with its processed-days set and the five-day cap computes exactly the reference reduction |
| `WeatherClient.StatusMessage` | weather-dashboard/src/hooks/useWeather.ts:24-30 | the thrown message is the not-found text exactly for status 404, and the generic retry text otherwise |
| `WeatherClient.CaughtMessage` | weather-dashboard/src/hooks/useWeather.ts:78-80 | the catch shows the error's own message when it carries one, and the fallback otherwise |
| `WeatherClient.Normalize` | weather-dashboard/src/hooks/useWeather.ts:40-53 | normalisation copies every field of the body, rounds both temperatures to the nearest integer, and gives visibility in kilometres (times 1000 equals the metres) |
| `WeatherClient.CityQuery` | weather-dashboard/src/hooks/useWeather.ts:19-77 | the guarded body issues the current-conditions request alone or followed by the forecast request; the forecast is left unrequested exactly when the first fetch throws, its status is not ok, or its `json()` throws; it succeeds exactly when both replies parse with every dereferenced object present |
| `WeatherClient.CityOutcome` | weather-dashboard/src/hooks/useWeather.ts:13-87 | an empty or all-whitespace city changes no field and issues no request; any other city issues at least one request and ends with loading false and exactly one of a result or an error; an error always comes with an empty forecast |
| `WeatherClient.CityStatusFailure` | weather-dashboard/src/hooks/useWeather.ts:24-30 | a non-ok current-conditions reply gives the not-found message for 404 and the generic retry message for every other status; the forecast is not requested; the result is cleared and loading ends |
| `WeatherClient.CityThrownFailure` | weather-dashboard/src/hooks/useWeather.ts:20-38 | a failure thrown by either fetch or either `json()` shows its own message, or "An unexpected error occurred" when it has none; the result is cleared and loading ends; only the current-conditions request is issued when that fetch or its `json()` throws, and both requests otherwise |
| `WeatherClient.CityMalformedBody` | weather-dashboard/src/hooks/useWeather.ts:38-58 | a parsed body with a missing dereferenced object fails only after both requests; the current body is read before the forecast list, so its error wins; the result is cleared and loading ends |
| `WeatherClient.CitySuccess` | weather-dashboard/src/hooks/useWeather.ts:17-77 | when both replies parse with every field present, the error is cleared, loading is false, and the fields hold the normalised conditions and the reduced forecast after exactly the two requests for that city |
| `WeatherClient.ForecastStatusIgnored` | weather-dashboard/src/hooks/useWeather.ts:34-38 | the forecast reply's status has no effect on the outcome |
| `WeatherClient.CityOutcomeForgetsState` | weather-dashboard/src/hooks/useWeather.ts:16-17 | a non-blank city query ends in the same state whatever state it starts from |
| `WeatherClient.NormalizeVisibilityExample` | weather-dashboard/src/hooks/useWeather.ts:49 | a visibility of 10000 m becomes 10 km |
| `WeatherClient.LocationOutcome` | weather-dashboard/src/hooks/useWeather.ts:89-112 | the location query always ends with loading false; it issues the coordinate lookup first and at most three requests; it issues more than the lookup only when the lookup's reply is ok and parses |
| `WeatherClient.LocationFailureKeepsResult` | weather-dashboard/src/hooks/useWeather.ts:98-108 | a failed coordinate lookup issues one request and sets "Failed to fetch weather data for your location." for a non-ok status, or the thrown message with its fallback; the previous result is left in place and loading ends |
| `WeatherClient.LocationDelegatesToCity` | weather-dashboard/src/hooks/useWeather.ts:102-110 | after a resolved lookup, a non-blank name gives exactly the state of the city query on that name, from any state; the requests are the lookup followed by the city query's; a blank name only clears the error and loading |
| `WeatherClient.LocationFailureShowsStaleResult` | weather-dashboard/src/hooks/useWeather.ts:105-108 | a failed location query can leave a previous result beside the new error |
| `WeatherClient.WeatherHook.constructor` | weather-dashboard/src/hooks/useWeather.ts:8-11 | the hook starts with no weather, an empty forecast, not loading and no error |
| `WeatherClient.WeatherHook.FetchWeatherByCity` | weather-dashboard/src/hooks/useWeather.ts:13-87 | the setter sequence of `fetchWeatherByCity` leaves exactly the fields and requests that `CityOutcome` specifies |
| `WeatherClient.WeatherHook.FetchWeatherByLocation` | weather-dashboard/src/hooks/useWeather.ts:89-112 | `fetchWeatherByLocation`, calling the city method in place, leaves exactly the fields and requests that `LocationOutcome` specifies |
| `RecentSearches.Without` | weather-dashboard/src/app/page.tsx:43 | the filter keeps exactly the entries that do not match the city case-insensitively, and never grows the list |
| `RecentSearches.UpdateRecent` | weather-dashboard/src/app/page.tsx:43 | the updated list has one to five entries; its first entry is the searched city as typed; no later entry matches that city case-insensitively |
| `RecentSearches.WithoutAppend` | weather-dashboard/src/app/page.tsx:43 | the filter works element by element and keeps order |
| `RecentSearches.WithoutNoMatch` | weather-dashboard/src/app/page.tsx:43 | the filter leaves a list unchanged when none of its entries matches |
| `RecentSearches.WithoutNoCaseDuplicates` | weather-dashboard/src/app/page.tsx:43 | filtering a list without case-insensitive duplicates leaves a list without any |
| `RecentSearches.UpdateRecentKeepsOrder` | weather-dashboard/src/app/page.tsx:43 | after the first entry come the non-matching old entries, in their old order, cut to four |
| `RecentSearches.UpdateRecentNoCaseDuplicates` | weather-dashboard/src/app/page.tsx:43 | when the old list has no case-insensitive duplicates, the new list has none either |
| `RecentSearches.UpdateRecentIdempotent` | weather-dashboard/src/app/page.tsx:43 | searching the same city twice in a row gives the same list as searching once |
| `RecentSearches.UpdateRecentExample` | weather-dashboard/src/app/page.tsx:43 | `["Paris","Tokyo"]` updated with `"paris"` gives `["paris","Tokyo"]` |
| `RecentSearches.RecentSearchList.constructor` | weather-dashboard/src/app/page.tsx:22 | the list starts empty, which satisfies the invariant: at most five entries, no case-insensitive duplicates |
| `RecentSearches.RecentSearchList.Search` | weather-dashboard/src/app/page.tsx:40-46 | the list becomes the update of the old one and has at most five entries; the invariant is kept |
| `RecentSearches.RecentSearchList.Clear` | weather-dashboard/src/app/page.tsx:61-64 | clearing empties the list, whatever it held |

## Left out

- The network is not modelled. There are no URLs, query strings or API key; the replies are inputs and the issued requests are outputs.
- `localStorage` is not modelled: neither the restore at page.tsx:33-38 nor the writes at lines 45 and 63. A restored list can be any list, so `RecentSearchList.Search` keeps the invariant only when it already holds, and bounds the length in every case.
- `handleSearch` also starts `fetchWeatherByCity`. The model keeps that call apart from the list update, which does not depend on it.
- Geolocation (`navigator.geolocation`, page.tsx:48-59) is not modelled; the coordinates are inputs.
- Time zones are not modelled. `toDateString` is the opaque `dayKey` of each entry.
- Floating point is not modelled. Temperatures and wind are Dafny `real`s, and `Math.round` is `Floor(x + 0.5)`. Visibility is integer metres divided by 1000 as a `real`. IEEE effects such as `-0` and `NaN` are not modelled.
- The engine's TypeError message is not modelled. A body in which the hook dereferences a missing object is `Malformed` and carries that message as an input. For the current conditions that object is `sys`, `main`, `wind` or `weather[0]`. For the forecast it is `list`, a `null` entry, or the `dt_txt`, `main` or `weather[0]` of an entry the loop emits. Where the message is thrown, after the forecast request, is modelled. Malformation is not tracked entry by entry: such a list is a `Malformed` forecast body. An entry the loop skips is never read, so inside `Json` its other fields may hold anything.
- Missing leaf fields are not modelled. A missing `visibility`, `temp` or `name`, for example, gives `NaN` or `undefined` in the result and the query still succeeds. The model's bodies always carry every leaf as a number or a string.
- For the coordinate lookup, a `Malformed` body stands for one whose `name` cannot be read at all, for example JSON `null`. The model treats it as a thrown lookup failure.
- If the location lookup returns no `name` at all, `city.trim()` throws outside the city query's `try`. The model always has a string name, so this case is not modelled.
- Asynchronous interleaving is not modelled: no overlapping queries and no last-response-wins races. The intermediate state while a query is loading is not observable in the model; only each query's end state is.
- `Js.Lower`: it lowers ASCII letters only. JavaScript's `toLowerCase` follows full Unicode case mapping.
- The UI components (`WeatherCard`, `ForecastCard`, `SearchBar`, `layout`) are not modelled. They are rendering, locale-dependent formatting and icon URLs. `SearchBar`'s trim guard is the same rule as the hook's blank-city guard.
