# Weather Now: search orchestration, recent searches and card helpers

A Dafny model of the logic inside the Weather Now front end, a Next.js page that
turns a city name into a forecast from Open-Meteo. Three parts are modelled.

- **The home page** (`src/app/page.js`, module `Home`). The component is the class
  `Home.Page`. Its fields are the page's state hooks: `weather`, `forecast`,
  `loading`, `error`, `suggestions`, `recentSearches` and `cityInput`. A
  `storage` map stands for local storage. `HandleSearch` is one sequential run of
  `handleSearch`, and it starts with `BeginSearch`, the synchronous part before
  the first `await`. The search target is resolved in one of three ways: free
  text goes to the geocoder, a recent entry is used as it is, and a raw
  suggestion gets "Unknown City"/"Unknown" when its name or country is missing.
  A response with no `current` block is rejected. The snapshot is assembled from
  the current block, the place, and the first sunrise and sunset (or none). A
  place with a known name is recorded in the recent list and in storage. Any
  failure shows its message and clears `weather` and `forecast`. `loading` always
  ends false. The geocoder's answer and the forecast response are parameters:
  a value, or the message of the error the call threw. Each method is proved
  against a pure function of the old state (`Begin`, `AfterSearch`, `Load`,
  `Clear`, `SuggestionsAfter`). The properties are proved about those functions.
- **The recent-search list** (`src/app/page.js:103`, module `RecentSearches`).
  The list update `[new, ...old.filter(name ≠)].slice(0, 5)` is the function
  `Record`. Lemmas cover its length, its front entry, one entry per name,
  preserved order, eviction of the oldest entry and idempotence.
- **The weather card** (`src/components/WeatherCard.jsx`, module `WeatherCard`).
  This part is pure. It covers `getDirection`, the two weather-code tables, the
  `Cloud` icon fallback, the chart series cut to 7 days or 24 hours and zipped
  by index, and the placeholder for missing data.
- **The search bar** (`src/components/SearchBar.jsx`, module `SearchBar`). The
  component is the class `SearchBar.Component`, with the `city` prop and the
  `showDropdown` flag. It models the submit guard on `city.trim()`, the dropdown
  effect, the list's render condition and suggestion clicks. `Trim` follows
  `String.prototype.trim`'s set of white-space characters.

Behaviour of the code that the model keeps as it is:
- A failed search leaves `cityInput` as it was. Only a successful search clears
  the input (page.js:107).
- An error is kept only as its message text (page.js:109). No error kind is
  recorded.
- There is no request token, so the model claims no "latest search wins"
  property.
- The startup load does not catch a JSON parse error (page.js:23).
- The suggestion list is `data.results` as returned. The code never truncates
  it; only the `count=5` request parameter limits it (page.js:41, 44).

One detail of the search bar: clicking a suggestion closes the dropdown
(`HandleSuggestionClick`). The `[city]` effect (`SyncDropdown`) runs again only
when the click actually changed `city`, that is, when the suggestion's name
differs from the typed text. It then reopens the dropdown if the name has at
least two characters. A successful search then clears the input (page.js:107),
and the effect closes the dropdown again.

## Model

| member | source | states |
|---|---|---|
| RecentSearches.WithoutName | src/app/page.js:103 | the filter drops exactly the entries with the given name and keeps every other entry as many times as it occurred |
| RecentSearches.WithoutNameKeepsOrder | src/app/page.js:103 | the filtered list is a subsequence of the old list: survivors keep their relative order |
| RecentSearches.WithoutNameKeepsDistinct | src/app/page.js:103 | filtering a list with one entry per name gives such a list |
| RecentSearches.Record | src/app/page.js:101-105 | the new list has 1 to 5 entries; the new entry is first; no later entry has its name; every later entry came from the old list |
| RecentSearches.RecordKeepsOrder | src/app/page.js:103 | the entries kept from the old list appear in their old order |
| RecentSearches.RecordKeepsDistinct | src/app/page.js:103 | if the old list had one entry per name, so does the new one |
| RecentSearches.RecordMovesToFront | src/app/page.js:103 | searching a name already in a list of at most five moves it to the front: the result is the new entry followed by every other old entry in order, and the list does not grow |
| RecentSearches.RecordNewName | src/app/page.js:103 | a new name is prepended; when the list already held five, the oldest entry is evicted |
| RecentSearches.RecordKeepsOthers | src/app/page.js:103 | while the list has room, every old entry with another name is kept |
| RecentSearches.RecordIdempotent | src/app/page.js:101-105 | recording the same entry twice in a row gives the list that recording it once gave |
| Home.Initial | src/app/page.js:12-18 | the first render: no weather, not loading, no error, empty lists and input |
| Home.Load | src/app/page.js:20-25 | a saved list under "recentSearches" replaces the recent list; without one nothing changes |
| Home.LoadSyncs | src/app/page.js:20-25 | after the startup load, the shown list and the stored list agree |
| Home.Clear | src/app/page.js:121-124 | clearing empties the list and removes the storage key; other keys and fields are unchanged |
| Home.ClearThenRestart | src/app/page.js:121-124 | clearing and then reloading the page shows an empty list |
| Home.SuggestionsAfter | src/app/page.js:27-49 | short input, a failed request or a response without results all give an empty list; otherwise the results |
| Home.ErrorText | src/app/page.js:109 | the shown message is the error's own message, or "Failed to fetch weather data" when that is empty; never empty |
| Home.ResolveTarget | src/app/page.js:58-71 | text resolves iff the geocoder answered, to its name, country and coordinates; a recent entry resolves to itself; a suggestion always resolves, to its coordinates, to "Unknown City" exactly when its name is empty or that sentinel, and to its country or "Unknown" when the country is missing or empty |
| Home.BuildSnapshot | src/app/page.js:87-96 | the snapshot carries the current block and the resolved city and country; sunrise and sunset are the first daily values exactly when those arrays are non-empty |
| Home.Search | src/app/page.js:58-96 | the search succeeds iff the target resolves, the fetch succeeds and `current` is present; each failure gives its message, and a missing `current` gives "Invalid weather data received" |
| Home.Begin | src/app/page.js:52-54 | the start of a search turns loading on and clears the error, changing nothing else |
| Home.Finish | src/app/page.js:98-114 | loading ends off; a failure shows its message and clears weather and forecast, keeping list, storage and input; a success sets them and clears the input; a known name is recorded first in the list and in storage; "Unknown City" leaves both unchanged; the list stays within 5 and in step with storage |
| Home.AfterSearch | src/app/page.js:51-115 | after a whole search, loading is off, and the error is empty iff weather and forecast are shown iff the search succeeded |
| Home.SearchKeepsDistinct | src/app/page.js:101-106 | a search keeps the recent list at one entry per name |
| Home.SearchIdempotent | src/app/page.js:51-115 | repeating a search with the same answers leaves the page exactly as the first search left it |
| Home.InvalidResponseRejected | src/app/page.js:81-83 | a response with no `current` block ends with "Invalid weather data received", no weather or forecast, loading off, and the list and storage unchanged |
| Home.GeocodeFailureKeepsList | src/app/page.js:58-62 | when the geocoder throws for typed text, its message is shown, and the list, storage and input are unchanged |
| Home.PuneScenario | src/app/page.js:51-107 | searching "Pune" on a fresh page shows Pune, India at 24 degrees and lists exactly that place, also in storage |
| Home.Page.constructor | src/app/page.js:12-18 | the component starts in the initial state over the given storage |
| Home.Page.LoadSaved | src/app/page.js:20-25 | the mount effect performs `Load` |
| Home.Page.SetCityInput | src/app/page.js:18 | only `cityInput` changes |
| Home.Page.RunSuggestionEffect | src/app/page.js:27-49 | the effect requests suggestions only for input of 2 or more characters and sets the list to `SuggestionsAfter`; nothing else changes |
| Home.Page.BeginSearch | src/app/page.js:52-54 | the state becomes `Begin` of the old state |
| Home.Page.HandleSearch | src/app/page.js:51-115 | the step-by-step search ends in `AfterSearch` of the old state |
| Home.Page.ClearRecentSearches | src/app/page.js:121-124 | the state becomes `Clear` of the old state |
| WeatherCard.GetDirection | src/components/WeatherCard.jsx:39-49 | the result is one of the eight compass points; "N" exactly when deg < 22.5 or deg >= 337.5; the k-th of NE..NW exactly when 22.5+45(k-1) <= deg < 22.5+45k |
| WeatherCard.DirectionBySector | src/components/WeatherCard.jsx:39-49 | on [0, 360) the point is the 45-degree sector around it, floor((deg+22.5)/45) mod 8 |
| WeatherCard.TablesShareCodes | src/components/WeatherCard.jsx:5-37 | the icon table and the description table have the same codes |
| WeatherCard.IconFor | src/components/WeatherCard.jsx:242 | an unknown or missing code gives Cloud; Sun exactly for codes 0 and 1; CloudRain exactly for the known codes from 51 up |
| WeatherCard.TemperatureChartData | src/components/WeatherCard.jsx:87-91 | min(7, days) points; point i has day i and the max and min at index i (missing past the array's end) |
| WeatherCard.PrecipitationData | src/components/WeatherCard.jsx:93-96 | min(7, days) points; point i has day i and the precipitation probability at index i |
| WeatherCard.HourlyData | src/components/WeatherCard.jsx:98-102 | min(24, hours) points; point i has hour i and the temperature and precipitation probability at index i |
| WeatherCard.DailyIcons | src/components/WeatherCard.jsx:240-242 | one icon per shown day, the icon of that day's weather code |
| WeatherCard.AlignedSeriesComplete | src/components/WeatherCard.jsx:87-102 | when the parallel arrays have equal lengths, no chart point lacks a value |
| WeatherCard.Render | src/components/WeatherCard.jsx:54-61 | the loading placeholder exactly when data or forecast is missing; otherwise the card with the series above, or a render error when a block is missing |
| SearchBar.TrimEmptyIff | src/components/SearchBar.jsx:19 | the trimmed text is empty exactly when every character is white space |
| SearchBar.TrimKeepsContent | src/components/SearchBar.jsx:19 | non-empty trimmed text starts and ends with a non-space character |
| SearchBar.Component.constructor | src/components/SearchBar.jsx:6-7 | the dropdown starts hidden |
| SearchBar.Component.SetCity | src/components/SearchBar.jsx:38 | typing sets `city` and leaves the dropdown flag alone |
| SearchBar.Component.SyncDropdown | src/components/SearchBar.jsx:9-15 | after the effect, the dropdown shows iff the text has at least 2 characters, and the suggestion list renders exactly when also there are suggestions |
| SearchBar.Component.SubmitDisabled | src/components/SearchBar.jsx:43 | the button is disabled exactly when the text is all white space |
| SearchBar.Component.HandleSubmit | src/components/SearchBar.jsx:17-23 | the untrimmed text is passed to `onSearch` exactly when the button is enabled; then the dropdown and the suggestion list are hidden; otherwise nothing changes |
| SearchBar.Component.HandleSuggestionClick | src/components/SearchBar.jsx:25-29 | the text becomes the suggestion's name, that same suggestion is forwarded, and the dropdown and the suggestion list are hidden |

## Left out

- The HTTP calls to the geocoding and forecast endpoints, and `getCoordinates`. `src/lib/weatherService` is not part of this model. Their answers are parameters: a value, or the thrown error's message.
- Asynchrony. One search is one sequential step. Overlapping searches, and the stale `recentSearches` that `handleSearch` closes over, are not modelled.
- The 300 ms suggestion debounce and the 50 ms reveal timer in `RecentlySearched.jsx`. These are scheduling, not logic.
- JSON serialisation of storage. Storage holds lists directly. So an unparsable saved value, which the source does not catch on load, cannot occur in the model.
- Date and time formatting (`toLocaleTimeString`, `toLocaleDateString`). Chart points carry the raw time string that the label is made from.
- `Math.round` and the randomly generated monthly series. These are floating point and randomness.
- All markup and the charts. Also the hard-coded hero values and the `activeTab` switch.
- The files `layout.js`, `WeatherCardSkeleton.jsx`, `ErrorMessage.jsx` and `RecentlySearched.jsx`. They are presentation only.
- GetDirection: a NaN or undefined degree value is not modelled. All comparisons are false for it, so the source returns "N". Degrees here are reals.
- Storage access is assumed not to throw. In the code, `localStorage.setItem` (page.js:105) can throw after `setRecentSearches` has already run; the catch then shows the error while the shown list and storage disagree. The model has no storage failure, so `Finish` keeps them in step.
- Home.SuggestionRequest: JavaScript's `length` counts UTF-16 code units, and the model counts characters. The two differ for characters outside the Basic Multilingual Plane. The same holds for SearchBar.Component.SyncDropdown.
- Home.ResolveTarget: a suggestion or geocoder result with an undefined name is not modelled. The empty string stands for a falsy name. A `null` search input is not modelled either, because no caller passes one.
- WeatherCard.Render: inside a present `daily` or `hourly` block, every array except `sunrise` and `sunset` is taken to be present. A missing one would throw during render.
