/** The session state of the dashboard's root component (the `App`
    function of src/App.js) and the events that change it: the geolocation
    outcome, a weather fetch settling, a city being picked, the search box
    changing, a search answering, a click outside the suggestions and the
    unit toggle.

    React's setters become field assignments. The network and the browser
    stay outside: a handler that starts fetches returns the coordinates it
    fetches at, and what the fetches produced comes back later as the
    argument of `Settle`; a search's answer comes back through
    `ResolveSearch`. */
module Session {
  import opened Wrappers
  import opened Api
  import opened Display

  datatype Coords = Coords(latitude: real, longitude: real)

  /** Where the dashboard fetches when geolocation is unavailable or fails. */
  const FallbackCoords := Coords(13.0827, 80.2707)

  /** The header title before any city is picked. */
  const InitialTitle := "Mevalurkuppam"

  /** How a `Promise.all` of the weather and air-quality fetches settled:
      the forecast payload and the air-quality response (`None` for a non-ok
      one), or the error it rejected with (a non-ok weather response rejects
      with "Failed to fetch weather"). */
  datatype FetchOutcome =
    | Loaded(forecast: RawForecast, air: Option<RawAirQuality>)
    | Failed(reason: string)

  /** What one run of the search effect captured: its query, and the
      generation whose `active` flag guards it. */
  datatype SearchTicket = SearchTicket(generation: nat, query: string)

  /** The coordinates the geolocation effect fetches at: the reported position
      (`onPosition`), or the fallback when the position is unavailable, denied
      or unsupported (`onError`). */
  function StartCoords(position: Option<Coords>): (c: Coords)
    ensures position.Some? ==> c == position.value
    ensures position.None? ==> c == FallbackCoords
  {
    position.GetOr(FallbackCoords)
  }

  class Session {
    var data: Option<Weather>
    var error: Option<string>
    var loading: bool
    var query: string
    var suggestions: seq<CitySuggestion>
    var title: string
    var unit: TempUnit
    var aqi: Option<AirQuality>
    var theme: Outlook
    /** The one search effect run whose `active` flag is still true; the
        cleanup of every earlier run has set its flag to false. */
    var generation: nat
    /** The query each search effect run captured. */
    ghost var issued: map<nat, string>

    /** The live search run is the one for the current query, no run is newer
        than it, the stored snapshot is a normalised one (at most twelve hours
        and seven days), and the theme always follows it. */
    ghost predicate Valid()
      reads this
    {
      && generation in issued && issued[generation] == query
      && (forall g :: g in issued ==> g <= generation)
      && (data.Some? ==> |data.value.hourly| <= HourlyLimit && |data.value.daily| <= DailyLimit)
      && (data.Some? ==> theme == ThemeOf(data.value))
    }

    /** The state on mount: nothing loaded, loading, the initial title, unit
        'C', the mild theme, and the mount run of the search effect (for the
        empty query) live. */
    constructor ()
      ensures Valid()
      ensures data == None && error == None && loading && aqi == None
      ensures query == "" && suggestions == [] && title == InitialTitle
      ensures unit == Celsius && theme == Mild
      ensures generation == 0 && issued == map[0 := ""]
    {
      data, error, loading, aqi := None, None, true, None;
      query, suggestions, title := "", [], InitialTitle;
      unit, theme := Celsius, Mild;
      generation, issued := 0, map[0 := ""];
    }

    /** A weather fetch pair settled. On success the snapshot becomes the
        normalised forecast, the air quality is extracted from its response,
        and the theme is recomputed; on failure
        the error is recorded and the previous snapshot kept. Loading ends
        either way. An earlier error is not cleared by a later success. */
    method Settle(outcome: FetchOutcome)
      requires Valid()
      modifies this
      ensures Valid()
      ensures !loading
      ensures outcome.Loaded? ==>
        && data == Some(Normalize(outcome.forecast)) && aqi == AirQualityFrom(outcome.air)
        && theme == ThemeOf(data.value) && error == old(error)
      ensures outcome.Failed? ==>
        && error == Some(outcome.reason)
        && data == old(data) && aqi == old(aqi) && theme == old(theme)
      ensures query == old(query) && suggestions == old(suggestions) && title == old(title)
      ensures unit == old(unit) && generation == old(generation) && issued == old(issued)
    {
      loading := false;
      match outcome
      case Loaded(raw, air) =>
        var w := Normalize(raw);
        data, aqi := Some(w), AirQualityFrom(air);
        theme := ThemeOf(w);
      case Failed(reason) =>
        error := Some(reason);
    }

    /** The search box changed to `q`. React re-runs the search effect only
        when the query actually changes: the previous run's cleanup clears
        its `active` flag and a new run starts for `q`, whose ticket is
        returned. */
    method SetQuery(q: string) returns (search: Option<SearchTicket>)
      requires Valid()
      modifies this
      ensures Valid()
      ensures query == q
      ensures q == old(query) ==> search == None && generation == old(generation) && issued == old(issued)
      ensures q != old(query) ==>
        && generation == old(generation) + 1 && issued == old(issued)[generation := q]
        && search == Some(SearchTicket(generation, q))
      ensures data == old(data) && error == old(error) && loading == old(loading) && aqi == old(aqi)
      ensures suggestions == old(suggestions) && title == old(title) && unit == old(unit)
      ensures theme == old(theme)
    {
      if q == query {
        search := None;
      } else {
        query := q;
        generation := generation + 1;
        issued := issued[generation := q];
        search := Some(SearchTicket(generation, q));
      }
    }

    /** A search effect run answered with `searchCities(ticket.query)`. Its
        suggestions are shown only if the run is still active, that is, only
        if its query is still the current one; a stale answer changes
        nothing. */
    method ResolveSearch(ticket: SearchTicket, response: Option<GeoPayload>, show: real -> string)
      requires Valid()
      requires ticket.generation in issued && issued[ticket.generation] == ticket.query
      modifies this
      ensures Valid()
      ensures ticket.generation == generation ==> suggestions == SearchCities(ticket.query, response, show)
      ensures ticket.generation != generation ==> suggestions == old(suggestions)
      ensures suggestions != old(suggestions) ==> ticket.query == query
      ensures data == old(data) && error == old(error) && loading == old(loading) && aqi == old(aqi)
      ensures query == old(query) && title == old(title) && unit == old(unit) && theme == old(theme)
      ensures generation == old(generation) && issued == old(issued)
    {
      if ticket.generation == generation {
        suggestions := SearchCities(ticket.query, response, show);
      }
    }

    /** A click outside the search box hides the suggestions. */
    method DismissSuggestions()
      requires Valid()
      modifies this`suggestions
      ensures Valid()
      ensures suggestions == []
    {
      suggestions := [];
    }

    /** `onPick`: the title becomes the city's name, region and country; the
        suggestions and the query are cleared (which retires the live search
        run when the query was not already empty); loading starts, and the
        fetch pair is issued at the city's coordinates. */
    method Pick(city: CitySuggestion) returns (target: Coords, search: Option<SearchTicket>)
      requires Valid()
      modifies this
      ensures Valid()
      ensures title == PickTitle(city) && suggestions == [] && query == "" && loading
      ensures target == Coords(city.latitude, city.longitude)
      ensures old(query) == "" ==> search == None && generation == old(generation) && issued == old(issued)
      ensures old(query) != "" ==>
        && generation == old(generation) + 1 && issued == old(issued)[generation := ""]
        && search == Some(SearchTicket(generation, ""))
      ensures data == old(data) && error == old(error) && aqi == old(aqi)
      ensures unit == old(unit) && theme == old(theme)
    {
      title := PickTitle(city);
      suggestions := [];
      search := SetQuery("");
      loading := true;
      target := Coords(city.latitude, city.longitude);
    }

    /** The unit toggle: only the unit changes, the stored snapshot stays in
        Celsius. */
    method SetUnit(u: TempUnit)
      requires Valid()
      modifies this`unit
      ensures Valid()
      ensures unit == u
    {
      unit := u;
    }

    /** What the current-conditions card is handed. */
    function CurrentCard(): (card: Option<Weather>)
      reads this
      ensures card.Some? <==> data.Some?
      ensures data.Some? ==> card.value == CurrentCardCopy(data.value, unit)
    {
      if data.Some? then Some(CurrentCardCopy(data.value, unit)) else None
    }

    /** The mascot the page shows: the condition of the card's copy, so its
        thresholds meet Fahrenheit values when the unit is 'F'. In 'C' it is
        the corrected mascot. */
    function Mascot(): (o: Outlook)
      reads this
      ensures o == MascotCondition(CurrentCard())
      ensures unit == Celsius ==> o == CorrectedMascot(data)
    {
      ShownMascot(data, unit)
    }
  }

  /** Geolocation denied at start-up: the fetch pair goes to the fallback
      coordinates, and when it settles loading has gone from true to false
      whatever the outcome, with the data or the error recorded. */
  method StartWithoutGeolocation(outcome: FetchOutcome) returns (s: Session, target: Coords)
    ensures fresh(s) && s.Valid()
    ensures target == FallbackCoords
    ensures !s.loading
    ensures outcome.Loaded? ==> s.data == Some(Normalize(outcome.forecast)) && s.error == None
    ensures outcome.Failed? ==> s.data == None && s.error == Some(outcome.reason)
  {
    s := new Session();
    assert s.loading;
    target := StartCoords(None);
    s.Settle(outcome);
  }

  /** Toggling the unit to 'F' and back shows exactly what was shown before:
      the cards are always derived from the unchanged Celsius snapshot. */
  method ToggleUnitTwice(s: Session)
    requires s.Valid() && s.unit == Celsius
    modifies s
    ensures s.Valid()
    ensures s.CurrentCard() == old(s.CurrentCard())
  {
    s.SetUnit(Fahrenheit);
    s.SetUnit(Celsius);
  }

  /** A search answer that arrives after the user typed on is dropped: the
      suggestions stay as they were. */
  method StaleSearchIsIgnored(s: Session, response: Option<GeoPayload>, show: real -> string)
    requires s.Valid() && s.query == "be"
    modifies s
    ensures s.Valid() && s.query == "ber"
    ensures s.suggestions == old(s.suggestions)
  {
    var first := s.SetQuery("bern");
    assert first.Some?;
    var second := s.SetQuery("ber");
    s.ResolveSearch(first.value, response, show);
  }
}
