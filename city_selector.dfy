/** The city-or-custom-area selector: a city search backed by the server
    with a local, case-insensitive substring filter as fallback, and city
    selection where id 0 marks a geocoding result that must be created on
    the server before it can be selected. */
module CitySelector {
  import opened Wrappers
  import opened JsStrings
  import opened Backend

  /** `searchError`: empty, or one of the two messages the selector sets. */
  datatype SelectorError = NoError | SearchFailed | CreateFailed

  function ErrorText(e: SelectorError): string {
    match e
    case NoError => ""
    case SearchFailed => "Failed to search cities. Please try again."
    case CreateFailed => "Failed to create city. Please try again."
  }

  /** `city.name.toLowerCase().includes(q) || city.country_code.toLowerCase().includes(q)`
      with `q = query.toLowerCase()`. */
  predicate Matches(city: City, query: string) {
    Contains(ToLower(city.name), ToLower(query)) || Contains(ToLower(city.countryCode), ToLower(query))
  }

  /** The fallback `initialCities.filter(...)`. */
  function FallbackFilter(cities: seq<City>, query: string): (r: seq<City>)
    ensures |r| <= |cities|
    ensures forall c :: c in r ==> c in cities && Matches(c, query)
    ensures forall c :: c in cities && Matches(c, query) ==> c in r
  {
    if |cities| == 0 then []
    else (if Matches(cities[0], query) then [cities[0]] else []) + FallbackFilter(cities[1..], query)
  }

  /** Filtering preserves order: filtering a concatenation concatenates the
      filtered parts. */
  lemma {:induction false} FallbackFilterAppend(xs: seq<City>, ys: seq<City>, query: string)
    ensures FallbackFilter(xs + ys, query) == FallbackFilter(xs, query) + FallbackFilter(ys, query)
  {
    if |xs| > 0 {
      assert (xs + ys)[1..] == xs[1..] + ys;
      FallbackFilterAppend(xs[1..], ys, query);
    } else {
      assert xs + ys == ys;
    }
  }

  /** The filter ignores the case of the query. */
  lemma MatchesIgnoresQueryCase(city: City, query: string)
    ensures Matches(city, query) <==> Matches(city, ToLower(query))
  {
    ToLowerIdempotent(query);
  }

  /** A blank query (`!query.trim()`) does not search. */
  predicate BlankQuery(query: string) {
    Trim(query) == ""
  }

  lemma BlankQueryIffAllSpace(query: string)
    ensures BlankQuery(query) <==> AllSpace(query)
  {
    TrimEmptyIffAllSpace(query);
  }

  /** A JavaScript number is truthy when present and non-zero (NaN is not modelled). */
  predicate TruthyNumber(x: Option<real>) {
    x.Some? && x.value != 0.0
  }

  /** The branch of `handleCitySelect` that creates the city first. */
  predicate NeedsCreate(city: City) {
    city.id == 0 && TruthyNumber(city.latitude) && TruthyNumber(city.longitude)
  }

  /** The id `onCitySelected` receives, given the outcome of the create
      request (only consulted when the city must be created); `None` when
      `onCitySelected` is not called. */
  function SelectedId(city: City, created: Result<int>): (r: Option<int>)
    ensures r.None? <==> NeedsCreate(city) && created.Err?
    ensures !NeedsCreate(city) ==> r == Some(city.id)
    ensures NeedsCreate(city) && created.Ok? ==> r == Some(created.value)
  {
    if !NeedsCreate(city) then Some(city.id)
    else if created.Ok? then Some(created.value)
    else None
  }

  /** A stored city (non-zero id) is selected by its own id, whatever the
      create request would have answered. */
  lemma StoredCitySelectedDirectly(city: City, c1: Result<int>, c2: Result<int>)
    requires city.id != 0
    ensures SelectedId(city, c1) == SelectedId(city, c2) == Some(city.id)
  {
  }

  datatype Mode = CityMode | CustomMode

  /** The callbacks the selector invokes. */
  datatype SelectorEvent = CitySelected(cityId: int) | CustomAreaModeSelected

  class Selector {
    const initialCities: seq<City>
    var selectedMode: Option<Mode>
    var searchResults: seq<City>
    var isSearching: bool
    var searchError: SelectorError
    var events: seq<SelectorEvent>
    var calls: seq<ApiCall>

    constructor(cities: seq<City>)
      ensures initialCities == cities && searchResults == cities
      ensures selectedMode == None && !isSearching && searchError == NoError
      ensures events == [] && calls == []
    {
      initialCities := cities;
      selectedMode := None;
      searchResults := cities;
      isSearching := false;
      searchError := NoError;
      events := [];
      calls := [];
    }

    /** `searchCities(query)`; `response` is the outcome of the search
        request. A blank query is one that is all white space
        (`BlankQueryIffAllSpace`). */
    method SearchCities(query: string, response: Result<Option<seq<City>>>)
      modifies this`searchResults, this`isSearching, this`searchError, this`calls
      ensures BlankQuery(query) ==>
                searchResults == initialCities && calls == old(calls)
                && isSearching == old(isSearching) && searchError == old(searchError)
      ensures !BlankQuery(query) ==> calls == old(calls) + [ApiCall.SearchCities(query)] && !isSearching
      ensures !BlankQuery(query) && response.Ok? ==>
                searchResults == response.value.GetOr([]) && searchError == NoError
      ensures !BlankQuery(query) && response.Err? ==>
                searchResults == FallbackFilter(initialCities, query) && searchError == SearchFailed
    {
      if BlankQuery(query) {
        searchResults := initialCities;
        return;
      }
      isSearching := true;
      searchError := NoError;
      calls := calls + [ApiCall.SearchCities(query)];
      match response {
        case Ok(found) =>
          searchResults := found.GetOr([]);
        case Err(_) =>
          searchError := SearchFailed;
          searchResults := FallbackFilter(initialCities, query);
      }
      isSearching := false;
    }

    /** `handleCitySelect(city)`; `created` is the outcome of the create
        request, issued only for an id-0 city with truthy coordinates. */
    method HandleCitySelect(city: City, created: Result<int>)
      modifies this
      ensures selectedMode == old(selectedMode) && searchResults == old(searchResults)
      ensures SelectedId(city, created).Some? ==>
                events == old(events) + [CitySelected(SelectedId(city, created).value)]
      ensures SelectedId(city, created).None? ==> events == old(events)
      ensures NeedsCreate(city) ==>
                calls == old(calls) + [CreateCity(city.name, city.countryCode, city.latitude.value, city.longitude.value)]
                && !isSearching
                && searchError == (if created.Err? then CreateFailed else old(searchError))
      ensures !NeedsCreate(city) ==>
                calls == old(calls) && isSearching == old(isSearching) && searchError == old(searchError)
    {
      if NeedsCreate(city) {
        isSearching := true;
        calls := calls + [CreateCity(city.name, city.countryCode, city.latitude.value, city.longitude.value)];
        if created.Ok? {
          events := events + [CitySelected(created.value)];
        } else {
          searchError := CreateFailed;
        }
        isSearching := false;
      } else {
        events := events + [CitySelected(city.id)];
      }
    }

    /** `handleCustomAreaSelect` */
    method HandleCustomAreaSelect()
      modifies this
      ensures selectedMode == Some(CustomMode) && events == old(events) + [CustomAreaModeSelected]
      ensures searchResults == old(searchResults) && isSearching == old(isSearching)
      ensures searchError == old(searchError) && calls == old(calls)
    {
      selectedMode := Some(CustomMode);
      events := events + [CustomAreaModeSelected];
    }

    /** The city-mode button. */
    method SelectCityMode()
      modifies this
      ensures selectedMode == Some(CityMode) && events == old(events)
      ensures searchResults == old(searchResults) && isSearching == old(isSearching)
      ensures searchError == old(searchError) && calls == old(calls)
    {
      selectedMode := Some(CityMode);
    }
  }
}
