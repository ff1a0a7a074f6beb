/** The maps page: three layer switches, a city selection that can come
    from the `city` URL parameter, and the lookup of a city together with
    its coverage entry. A selected id of 0 is falsy and counts as no
    selection wherever the page tests the selection for truthiness. */
module Maps {
  import opened Wrappers
  import opened JsStrings
  import opened JsNumbers
  import opened Backend

  /** `showLayers` */
  datatype Layers = Layers(cities: bool, activities: bool, coverage: bool)

  const InitialLayers: Layers := Layers(true, true, false)

  datatype Layer = CitiesLayer | ActivitiesLayer | CoverageLayer

  function LayerFlag(l: Layers, k: Layer): bool {
    match k
    case CitiesLayer => l.cities
    case ActivitiesLayer => l.activities
    case CoverageLayer => l.coverage
  }

  /** `setShowLayers(prev => ({ ...prev, [k]: checked }))` */
  function SetLayer(l: Layers, k: Layer, checked: bool): (r: Layers)
    ensures LayerFlag(r, k) == checked
    ensures forall k' :: k' != k ==> LayerFlag(r, k') == LayerFlag(l, k')
  {
    match k
    case CitiesLayer => l.(cities := checked)
    case ActivitiesLayer => l.(activities := checked)
    case CoverageLayer => l.(coverage := checked)
  }

  /** The index of the first city with the given id (`cities.find`). */
  function FindCityIndex(cities: seq<City>, id: int): (r: Option<nat>)
    ensures r.Some? ==> r.value < |cities| && cities[r.value].id == id
    ensures r.Some? ==> forall j :: 0 <= j < r.value ==> cities[j].id != id
    ensures r.None? <==> forall j :: 0 <= j < |cities| ==> cities[j].id != id
  {
    if |cities| == 0 then None
    else if cities[0].id == id then Some(0)
    else match FindCityIndex(cities[1..], id)
      case None => None
      case Some(i) => Some(i + 1)
  }

  /** The first city with the given id. */
  function FindCity(cities: seq<City>, id: int): (r: Option<City>)
    ensures r.None? <==> forall c :: c in cities ==> c.id != id
    ensures r.Some? ==> exists i :: 0 <= i < |cities| && cities[i] == r.value && r.value.id == id
                                    && forall j :: 0 <= j < i ==> cities[j].id != id
  {
    match FindCityIndex(cities, id)
    case None => None
    case Some(i) => Some(cities[i])
  }

  /** The index of the first coverage entry for the given city id
      (`city_coverage.find`). */
  function FindCoverageIndex(entries: seq<CityCoverage>, cityId: int): (r: Option<nat>)
    ensures r.Some? ==> r.value < |entries| && entries[r.value].cityId == cityId
    ensures r.Some? ==> forall j :: 0 <= j < r.value ==> entries[j].cityId != cityId
    ensures r.None? <==> forall j :: 0 <= j < |entries| ==> entries[j].cityId != cityId
  {
    if |entries| == 0 then None
    else if entries[0].cityId == cityId then Some(0)
    else match FindCoverageIndex(entries[1..], cityId)
      case None => None
      case Some(i) => Some(i + 1)
  }

  /** The first coverage entry for the given city id. */
  function FindCoverage(entries: seq<CityCoverage>, cityId: int): (r: Option<CityCoverage>)
    ensures r.None? <==> forall e :: e in entries ==> e.cityId != cityId
    ensures r.Some? ==> exists i :: 0 <= i < |entries| && entries[i] == r.value && r.value.cityId == cityId
                                    && forall j :: 0 <= j < i ==> entries[j].cityId != cityId
  {
    match FindCoverageIndex(entries, cityId)
    case None => None
    case Some(i) => Some(entries[i])
  }

  datatype CityWithCoverage = CityWithCoverage(city: Option<City>, coverage: Option<CityCoverage>)

  /** `getCityWithCoverage(cityId)`; either part may be missing, and a
      summary without `city_coverage` has no entry for any city. */
  function GetCityWithCoverage(cities: seq<City>, summary: Option<CoverageSummary>, cityId: int): (r: CityWithCoverage)
    ensures r.city == FindCity(cities, cityId)
    ensures summary.None? || summary.value.cityCoverage.None? ==> r.coverage.None?
    ensures summary.Some? && summary.value.cityCoverage.Some? ==>
              r.coverage == FindCoverage(summary.value.cityCoverage.value, cityId)
  {
    CityWithCoverage(
      FindCity(cities, cityId),
      if summary.Some? && summary.value.cityCoverage.Some? then FindCoverage(summary.value.cityCoverage.value, cityId)
      else None)
  }

  /** `selectedCityId || undefined`: the id the map receives. */
  function MapCityId(selected: Option<int>): (r: Option<int>)
    ensures r.Some? <==> selected.Some? && selected.value != 0
    ensures r.Some? ==> r == selected
  {
    if selected.Some? && selected.value != 0 then selected else None
  }

  /** `disabled={!selectedCityId}` on the coverage switch. */
  predicate CoverageSwitchDisabled(selected: Option<int>)
    ensures CoverageSwitchDisabled(selected) <==> selected.None? || selected.value == 0
  {
    MapCityId(selected).None?
  }

  /** `showLayers.coverage && selectedCityId`: the coverage legend. */
  predicate LegendVisible(layers: Layers, selected: Option<int>)
    ensures LegendVisible(layers, selected) <==> layers.coverage && selected.Some? && selected.value != 0
  {
    layers.coverage && MapCityId(selected).Some?
  }

  /** The city the `city` URL parameter selects: a non-empty value that
      `parseInt` reads as a number. */
  function CityParamSelection(param: Option<string>): (r: Option<int>)
    ensures param.None? || param.value == "" ==> r.None?
    ensures r.Some? ==> param.Some? && ParseInt(param.value) == r
    ensures param.Some? && param.value != "" ==> r == ParseInt(param.value)
  {
    if param.Some? && param.value != "" then ParseInt(param.value) else None
  }

  /** The dashboard's links `/maps?city=${id}` select exactly that city. */
  lemma DashboardLinkSelectsCity(id: int)
    ensures CityParamSelection(Some(IntToString(id))) == Some(id)
  {
    ParseIntOfIntToString(id);
  }

  /** `parseInt` reads only the leading digits, so trailing text after the
      id is ignored. */
  lemma TrailingTextIgnored(id: nat, suffix: string)
    requires id > 0
    requires |suffix| > 0 && DigitValue(suffix[0], 10).None?
    ensures CityParamSelection(Some(IntToString(id) + suffix)) == Some(id)
  {
    LeadingDigitNotZero(id);
    ParseIntOfDigitsThen(NatToString(id), suffix);
    NatToStringValue(id);
  }

  lemma LeadingDigitNotZero(n: nat)
    requires n > 0
    ensures NatToString(n)[0] != '0'
  {
    if n < 10 {
      assert NatToString(n) == [DecimalDigit(n)];
    }
  }

  /** Digits without a leading zero, followed by a non-digit, read as the
      value of the digits. */
  lemma ParseIntOfDigitsThen(d: string, suffix: string)
    requires |d| > 0 && AllDigits(d, 10) && d[0] != '0'
    requires |suffix| > 0 && DigitValue(suffix[0], 10).None?
    ensures ParseInt(d + suffix) == Some(DigitsValue(d, 10))
  {
    assert (d + suffix)[0] == d[0] && DigitValue(d[0], 10).Some?;
    ParseIntLeadingDigit(d + suffix);
    DigitPrefixOfDigitsThen(d, suffix);
    assert ParseDigits(d + suffix, 10) == Some(DigitsValue(d, 10));
  }

  lemma {:induction false} DigitPrefixOfDigitsThen(d: string, suffix: string)
    requires AllDigits(d, 10)
    requires |suffix| > 0 && DigitValue(suffix[0], 10).None?
    ensures DigitPrefix(d + suffix, 10) == d
  {
    if |d| > 0 {
      assert (d + suffix)[0] == d[0] && (d + suffix)[1..] == d[1..] + suffix;
      DigitPrefixOfDigitsThen(d[1..], suffix);
    } else {
      assert d + suffix == suffix;
    }
  }

  class MapsPage {
    const userId: Option<int>
    var cities: seq<City>
    var selectedCityId: Option<int>
    var coverageSummary: Option<CoverageSummary>
    var showLayers: Layers
    var calls: seq<ApiCall>

    constructor(user: Option<int>)
      ensures userId == user && cities == [] && selectedCityId == None && coverageSummary == None
      ensures showLayers == InitialLayers && calls == []
    {
      userId := user;
      cities := [];
      selectedCityId := None;
      coverageSummary := None;
      showLayers := InitialLayers;
      calls := [];
    }

    /** The URL-parameter part of the page's effect, run once a user is present. */
    method ApplyCityParam(param: Option<string>)
      modifies this
      ensures userId.None? || CityParamSelection(param).None? ==>
                selectedCityId == old(selectedCityId) && showLayers == old(showLayers)
      ensures userId.Some? && CityParamSelection(param).Some? ==>
                selectedCityId == CityParamSelection(param) && showLayers == old(showLayers).(coverage := true)
      ensures cities == old(cities) && coverageSummary == old(coverageSummary) && calls == old(calls)
    {
      if userId.None? {
        return;
      }
      var selection := CityParamSelection(param);
      if selection.Some? {
        selectedCityId := selection;
        showLayers := showLayers.(coverage := true);
      }
    }

    /** `loadCities`; a failed request leaves the list as it was. */
    method LoadCities(response: Result<seq<City>>)
      modifies this
      ensures cities == (if response.Ok? then response.value else old(cities))
      ensures calls == old(calls) + [ListCities]
      ensures selectedCityId == old(selectedCityId) && coverageSummary == old(coverageSummary)
      ensures showLayers == old(showLayers)
    {
      calls := calls + [ListCities];
      if response.Ok? {
        cities := response.value;
      }
    }

    /** `loadCoverageSummary`; nothing without a user, and a failed request
        leaves the summary as it was. */
    method LoadCoverageSummary(response: Result<CoverageSummary>)
      modifies this
      ensures userId.None? ==> coverageSummary == old(coverageSummary) && calls == old(calls)
      ensures userId.Some? ==>
                calls == old(calls) + [GetSummary(userId.value)]
                && coverageSummary == (if response.Ok? then Some(response.value) else old(coverageSummary))
      ensures cities == old(cities) && selectedCityId == old(selectedCityId) && showLayers == old(showLayers)
    {
      if userId.None? {
        return;
      }
      calls := calls + [GetSummary(userId.value)];
      if response.Ok? {
        coverageSummary := Some(response.value);
      }
    }

    /** A layer checkbox; the coverage one only responds while a city is selected. */
    method ToggleLayer(k: Layer, checked: bool)
      requires k == CoverageLayer ==> !CoverageSwitchDisabled(selectedCityId)
      modifies this
      ensures showLayers == SetLayer(old(showLayers), k, checked)
      ensures cities == old(cities) && selectedCityId == old(selectedCityId)
      ensures coverageSummary == old(coverageSummary) && calls == old(calls)
    {
      showLayers := SetLayer(showLayers, k, checked);
    }

    /** The "All Cities" button. */
    method SelectAllCities()
      modifies this
      ensures selectedCityId == None && CoverageSwitchDisabled(selectedCityId)
      ensures !LegendVisible(showLayers, selectedCityId)
      ensures showLayers == old(showLayers) && cities == old(cities)
      ensures coverageSummary == old(coverageSummary) && calls == old(calls)
    {
      selectedCityId := None;
    }

    /** A city button. */
    method SelectCity(id: int)
      modifies this
      ensures selectedCityId == Some(id)
      ensures showLayers == old(showLayers) && cities == old(cities)
      ensures coverageSummary == old(coverageSummary) && calls == old(calls)
    {
      selectedCityId := Some(id);
    }
  }
}
