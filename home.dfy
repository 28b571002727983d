/**
 * The home page: a search orchestrator over the page's state. The geocoder's
 * answer and the forecast response are inputs (a value, or the message of the
 * error the call threw), so one search is one sequential step.
 */
module Home {
  import opened Wrappers
  import opened WeatherTypes
  import opened RecentSearches

  /** The browser's local storage: key to stored list. */
  type Storage = map<string, seq<Entry>>

  const StorageKey := "recentSearches"
  const UnknownCity := "Unknown City"
  const UnknownCountry := "Unknown"
  const InvalidData := "Invalid weather data received"
  const FetchFailed := "Failed to fetch weather data"
  /** Shortest input that asks the geocoder for suggestions. */
  const SuggestionThreshold := 2

  /** What `handleSearch` is called with: typed text, a recent entry, or a raw suggestion. */
  datatype SearchInput =
    | Text(text: string)
    | Saved(entry: Entry)
    | Picked(suggestion: Suggestion)

  /** How the awaited part of a search ends. */
  datatype Outcome =
    | Loaded(weather: Snapshot, response: ForecastResponse, target: Entry)
    | Failed(message: string)

  /** The page's state hooks, plus local storage. */
  datatype PageState = PageState(
    weather: Option<Snapshot>,
    forecast: Option<ForecastResponse>,
    loading: bool,
    error: string,
    suggestions: seq<Suggestion>,
    recent: seq<Entry>,
    cityInput: string,
    storage: Storage)

  /** The recent list and storage agree: the stored list is the shown one, and no key means an empty list. */
  predicate Synced(s: PageState)
  {
    if StorageKey in s.storage then s.storage[StorageKey] == s.recent else s.recent == []
  }

  /** The page as first rendered. */
  function Initial(storage: Storage): (s: PageState)
    ensures s.weather.None? && s.forecast.None? && !s.loading && s.error == ""
    ensures s.suggestions == [] && s.recent == [] && s.cityInput == "" && s.storage == storage
  {
    PageState(None, None, false, "", [], [], "", storage)
  }

  /** The mount effect: a saved list replaces the (empty) recent list. */
  function Load(s: PageState): (t: PageState)
    ensures StorageKey in s.storage ==> t.recent == s.storage[StorageKey]
    ensures StorageKey !in s.storage ==> t.recent == s.recent
    ensures t.(recent := s.recent) == s
  {
    if StorageKey in s.storage then s.(recent := s.storage[StorageKey]) else s
  }

  /** After loading at startup the recent list and storage agree. */
  lemma LoadSyncs(storage: Storage)
    ensures Synced(Load(Initial(storage)))
  {
  }

  /** `clearRecentSearches`: empty list, key removed, other keys untouched. */
  function Clear(s: PageState): (t: PageState)
    ensures t.recent == [] && StorageKey !in t.storage
    ensures forall k :: k != StorageKey ==> (k in t.storage <==> k in s.storage)
    ensures forall k :: k in t.storage ==> t.storage[k] == s.storage[k]
    ensures Synced(t)
    ensures t.(recent := s.recent, storage := s.storage) == s
  {
    s.(recent := [], storage := s.storage - {StorageKey})
  }

  /** Clearing and then restarting the page shows an empty recent list. */
  lemma ClearThenRestart(s: PageState)
    ensures Load(Initial(Clear(s).storage)).recent == []
  {
  }

  /** Whether the suggestion effect asks the geocoder, and for which text. */
  function SuggestionRequest(input: string): Option<string>
  {
    if |input| >= SuggestionThreshold then Some(input) else None
  }

  /**
   * The suggestion list after the effect: empty for short input; otherwise the
   * response's `results`, or empty when it has none or the request failed.
   */
  function SuggestionsAfter(input: string, answer: Result<Option<seq<Suggestion>>, string>): (r: seq<Suggestion>)
    ensures SuggestionRequest(input).None? ==> r == []
    ensures answer.Failure? ==> r == []
    ensures answer.Success? && answer.value.None? ==> r == []
    ensures SuggestionRequest(input).Some? && answer.Success? && answer.value.Some? ==> r == answer.value.value
  {
    if |input| < SuggestionThreshold then []
    else match answer
      case Failure(_) => []
      case Success(results) => if results.Some? then results.value else []
  }

  /** `err.message || "Failed to fetch weather data"`. */
  function ErrorText(message: string): (r: string)
    ensures r != ""
    ensures message != "" ==> r == message
    ensures message == "" ==> r == FetchFailed
  {
    if message == "" then FetchFailed else message
  }

  /** `value || fallback` for an optional string. */
  function OrElse(value: Option<string>, fallback: string): string
  {
    if value.Some? && value.value != "" then value.value else fallback
  }

  /**
   * The place a search is for: the geocoder's match for text, a recent entry as
   * it is, or a raw suggestion with "Unknown City"/"Unknown" for a missing name/country.
   */
  function ResolveTarget(input: SearchInput, geocoded: Result<GeoMatch, string>): (r: Result<Entry, string>)
    ensures input.Text? ==> (r.Success? <==> geocoded.Success?)
    ensures input.Text? && geocoded.Failure? ==> r.error == geocoded.error
    ensures input.Text? && geocoded.Success? ==>
      r.value == Entry(geocoded.value.name, geocoded.value.country, Coords(geocoded.value.latitude, geocoded.value.longitude))
    ensures input.Saved? ==> r == Success(input.entry)
    ensures input.Picked? ==>
      && r.Success?
      && r.value.coords == Coords(input.suggestion.latitude, input.suggestion.longitude)
      && r.value.name != "" && r.value.country != ""
      && (r.value.name == UnknownCity <==> input.suggestion.name in {"", UnknownCity})
      && (input.suggestion.name != "" ==> r.value.name == input.suggestion.name)
    ensures input.Picked? && input.suggestion.country.Some? && input.suggestion.country.value != "" ==>
      r.value.country == input.suggestion.country.value
    ensures input.Picked? && (input.suggestion.country.None? || input.suggestion.country.value == "") ==>
      r.value.country == UnknownCountry
  {
    match input
    case Text(_) =>
      (match geocoded
       case Failure(m) => Failure(m)
       case Success(g) => Success(Entry(g.name, g.country, Coords(g.latitude, g.longitude))))
    case Saved(e) => Success(e)
    case Picked(s) =>
      var name := if s.name == "" then UnknownCity else s.name;
      Success(Entry(name, OrElse(s.country, UnknownCountry), Coords(s.latitude, s.longitude)))
  }

  /** `array[0]` when the value is a non-empty array, otherwise `null`. */
  function FirstOf(times: Option<seq<string>>): Option<string>
  {
    if times.Some? && |times.value| > 0 then Some(times.value[0]) else None
  }

  /** The `weather` value: the current block, the resolved place and the first day's sunrise and sunset. */
  function BuildSnapshot(current: Current, target: Entry, daily: Option<Daily>): (w: Snapshot)
    ensures w.current == current && w.city == target.name && w.country == target.country
    ensures w.sunrise.Some? <==> daily.Some? && daily.value.sunrise.Some? && |daily.value.sunrise.value| > 0
    ensures w.sunrise.Some? ==> w.sunrise.value == daily.value.sunrise.value[0]
    ensures w.sunset.Some? <==> daily.Some? && daily.value.sunset.Some? && |daily.value.sunset.value| > 0
    ensures w.sunset.Some? ==> w.sunset.value == daily.value.sunset.value[0]
  {
    Snapshot(
      current, target.name, target.country,
      if daily.Some? then FirstOf(daily.value.sunrise) else None,
      if daily.Some? then FirstOf(daily.value.sunset) else None)
  }

  /**
   * The awaited part of `handleSearch`: resolve, fetch, validate, assemble.
   * The forecast response is consulted only when the target resolved.
   */
  function Search(input: SearchInput, geocoded: Result<GeoMatch, string>, fetched: Result<ForecastResponse, string>): (o: Outcome)
    ensures o.Failed? ==> o.message != ""
    ensures o.Loaded? <==> ResolveTarget(input, geocoded).Success? && fetched.Success? && fetched.value.current.Some?
    ensures o.Loaded? ==>
      o.target == ResolveTarget(input, geocoded).value && o.response == fetched.value
      && o.weather == BuildSnapshot(fetched.value.current.value, o.target, fetched.value.daily)
    ensures ResolveTarget(input, geocoded).Failure? ==> o == Failed(ErrorText(ResolveTarget(input, geocoded).error))
    ensures ResolveTarget(input, geocoded).Success? && fetched.Failure? ==> o == Failed(ErrorText(fetched.error))
    ensures ResolveTarget(input, geocoded).Success? && fetched.Success? && fetched.value.current.None? ==> o == Failed(InvalidData)
  {
    match ResolveTarget(input, geocoded)
    case Failure(m) => Failed(ErrorText(m))
    case Success(target) =>
      match fetched
      case Failure(m) => Failed(ErrorText(m))
      case Success(response) =>
        if response.current.None? then Failed(InvalidData)
        else Loaded(BuildSnapshot(response.current.value, target, response.daily), response, target)
  }

  /** The synchronous start of `handleSearch`: loading on, error cleared. */
  function Begin(s: PageState): (t: PageState)
    ensures t.loading && t.error == ""
    ensures t.(loading := s.loading, error := s.error) == s
  {
    s.(loading := true, error := "")
  }

  /**
   * The end of `handleSearch`. On an error: the message shown, weather and
   * forecast cleared. On success: weather and forecast set, a known place
   * recorded in the list and in storage, the input cleared. Loading off on both.
   */
  function Finish(s: PageState, o: Outcome): (t: PageState)
    ensures !t.loading && t.suggestions == s.suggestions
    ensures t.weather.Some? <==> o.Loaded?
    ensures t.forecast.Some? <==> o.Loaded?
    ensures o.Failed? ==> t.error == o.message && t.recent == s.recent && t.storage == s.storage && t.cityInput == s.cityInput
    ensures o.Loaded? ==> t.weather == Some(o.weather) && t.forecast == Some(o.response) && t.error == s.error && t.cityInput == ""
    ensures o.Loaded? && o.target.name != UnknownCity ==>
      t.recent == Record(s.recent, o.target) && t.storage == s.storage[StorageKey := t.recent]
    ensures o.Loaded? && o.target.name != UnknownCity ==> t.recent[0] == o.target && t.storage[StorageKey] == t.recent
    ensures (o.Loaded? ==> o.target.name == UnknownCity) ==> t.recent == s.recent && t.storage == s.storage
    ensures |s.recent| <= Capacity ==> |t.recent| <= Capacity
    ensures Synced(s) ==> Synced(t)
  {
    match o
    case Failed(m) => s.(loading := false, error := m, weather := None, forecast := None)
    case Loaded(w, response, target) =>
      var shown := s.(weather := Some(w), forecast := Some(response));
      var recorded :=
        if target.name != UnknownCity then
          var updated := Record(s.recent, target);
          shown.(recent := updated, storage := s.storage[StorageKey := updated])
        else shown;
      recorded.(cityInput := "", loading := false)
  }

  /** The page after one whole `handleSearch` call. */
  function AfterSearch(s: PageState, input: SearchInput, geocoded: Result<GeoMatch, string>, fetched: Result<ForecastResponse, string>): (t: PageState)
    ensures !t.loading
    ensures t.error == "" <==> Search(input, geocoded, fetched).Loaded?
    ensures t.weather.Some? <==> t.error == ""
    ensures t.forecast.Some? <==> t.error == ""
  {
    Finish(Begin(s), Search(input, geocoded, fetched))
  }

  /** A list with one entry per name keeps that property across a search. */
  lemma SearchKeepsDistinct(s: PageState, input: SearchInput, geocoded: Result<GeoMatch, string>, fetched: Result<ForecastResponse, string>)
    requires DistinctNames(s.recent)
    ensures DistinctNames(AfterSearch(s, input, geocoded, fetched).recent)
  {
    var o := Search(input, geocoded, fetched);
    if o.Loaded? && o.target.name != UnknownCity {
      RecordKeepsDistinct(s.recent, o.target);
    }
  }

  /** Repeating a search with the same answers leaves the page as the first one did. */
  lemma SearchIdempotent(s: PageState, input: SearchInput, geocoded: Result<GeoMatch, string>, fetched: Result<ForecastResponse, string>)
    ensures AfterSearch(AfterSearch(s, input, geocoded, fetched), input, geocoded, fetched) == AfterSearch(s, input, geocoded, fetched)
  {
    var o := Search(input, geocoded, fetched);
    if o.Loaded? && o.target.name != UnknownCity {
      RecordIdempotent(s.recent, o.target);
    }
  }

  /** A response without a `current` block is rejected and nothing is recorded. */
  lemma InvalidResponseRejected(s: PageState, input: SearchInput, geocoded: Result<GeoMatch, string>, response: ForecastResponse)
    requires ResolveTarget(input, geocoded).Success? && response.current.None?
    ensures var t := AfterSearch(s, input, geocoded, Success(response));
      t.error == InvalidData && t.weather.None? && t.forecast.None? && !t.loading
      && t.recent == s.recent && t.storage == s.storage
  {
  }

  /** Text the geocoder cannot place fails the search; the list and the input stay as they were. */
  lemma GeocodeFailureKeepsList(s: PageState, text: string, message: string, fetched: Result<ForecastResponse, string>)
    ensures var t := AfterSearch(s, Text(text), Failure(message), fetched);
      t.error == ErrorText(message) && t.weather.None? && t.recent == s.recent
      && t.storage == s.storage && t.cityInput == s.cityInput
  {
  }

  /** A search for "Pune" on a fresh page shows Pune and lists it. */
  lemma PuneScenario(current: Current, storage: Storage)
    requires current.temperature == 24.0
    ensures var pune := GeoMatch("Pune", "India", 18.52, 73.85);
      var t := AfterSearch(Initial(storage), Text("Pune"), Success(pune), Success(ForecastResponse(Some(current), None, None)));
      t.weather.Some? && t.weather.value.city == "Pune" && t.weather.value.country == "India"
      && t.weather.value.current.temperature == 24.0
      && t.recent == [Entry("Pune", "India", Coords(18.52, 73.85))]
      && t.storage[StorageKey] == t.recent
  {
  }

  /** The home page component. */
  class Page {
    var weather: Option<Snapshot>
    var forecast: Option<ForecastResponse>
    var loading: bool
    var error: string
    var suggestions: seq<Suggestion>
    var recentSearches: seq<Entry>
    var cityInput: string
    var storage: Storage

    function State(): PageState
      reads this
    {
      PageState(weather, forecast, loading, error, suggestions, recentSearches, cityInput, storage)
    }

    constructor (storage: Storage)
      ensures State() == Initial(storage)
    {
      weather, forecast, loading, error := None, None, false, "";
      suggestions, recentSearches, cityInput := [], [], "";
      this.storage := storage;
    }

    /** The mount effect that restores the saved list. */
    method LoadSaved()
      modifies this
      ensures State() == Load(old(State()))
    {
      if StorageKey in storage {
        recentSearches := storage[StorageKey];
      }
    }

    /** `setCityInput`, as the search bar calls it. */
    method SetCityInput(text: string)
      modifies this
      ensures State() == old(State()).(cityInput := text)
    {
      cityInput := text;
    }

    /**
     * The suggestion effect once its timer fires; `answer` is what the geocoder
     * would answer. Returns the text a request is issued for, if any.
     */
    method RunSuggestionEffect(answer: Result<Option<seq<Suggestion>>, string>) returns (requested: Option<string>)
      modifies this
      ensures requested == SuggestionRequest(cityInput)
      ensures State() == old(State()).(suggestions := SuggestionsAfter(cityInput, answer))
    {
      if |cityInput| >= SuggestionThreshold {
        requested := Some(cityInput);
        match answer {
          case Failure(_) =>
            suggestions := [];
          case Success(results) =>
            suggestions := if results.Some? then results.value else [];
        }
      } else {
        requested := None;
        suggestions := [];
      }
    }

    /** The synchronous start of `handleSearch`. */
    method BeginSearch()
      modifies this
      ensures State() == Begin(old(State()))
    {
      loading := true;
      error := "";
    }

    /**
     * `handleSearch`: resolve the target, fetch, validate, show, record; any
     * failure shows its message and clears the result; loading ends off.
     */
    method HandleSearch(input: SearchInput, geocoded: Result<GeoMatch, string>, fetched: Result<ForecastResponse, string>)
      modifies this
      ensures State() == AfterSearch(old(State()), input, geocoded, fetched)
    {
      BeginSearch();
      var resolved := ResolveTarget(input, geocoded);
      if resolved.Failure? {
        error := ErrorText(resolved.error);
        weather, forecast := None, None;
      } else if fetched.Failure? {
        error := ErrorText(fetched.error);
        weather, forecast := None, None;
      } else if fetched.value.current.None? {
        error := InvalidData;
        weather, forecast := None, None;
      } else {
        var target := resolved.value;
        var response := fetched.value;
        weather := Some(BuildSnapshot(response.current.value, target, response.daily));
        forecast := Some(response);
        if target.name != UnknownCity {
          var updated := Record(recentSearches, target);
          recentSearches := updated;
          storage := storage[StorageKey := updated];
        }
        cityInput := "";
      }
      loading := false;
    }

    /** `clearRecentSearches`. */
    method ClearRecentSearches()
      modifies this
      ensures State() == Clear(old(State()))
    {
      recentSearches := [];
      storage := storage - {StorageKey};
    }
  }
}
