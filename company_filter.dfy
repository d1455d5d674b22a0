/** The list and map view of the index page (src/pages/Index.tsx:20-69): which companies are
    listed for a search and a geographic scope, and where and how close the map looks.
    The country-code lists and the table of country centres belong to the data module and
    are parameters here. */
module CompanyFilter {
  import opened Wrappers
  import opened Text
  import opened Lists
  import opened Companies

  datatype ViewType = CountryView | EuropeView | WorldView

  datatype AreaFilter = EuArea | EuropeanContinentArea | IntercontinentalArea | AllAreas

  /** `euCountries`, `europeanContinent` and `intercontinentalEurope`: lists of country codes. */
  datatype AreaSets = AreaSets(eu: seq<string>, europeanContinent: seq<string>, intercontinental: seq<string>)

  /** The page's controls: the search box, the view, the selected country and the area. */
  datatype Settings = Settings(searchQuery: string, viewType: ViewType, selectedCountry: string, areaFilter: AreaFilter)

  /** A longitude/latitude pair, as the map takes it. */
  datatype LngLat = LngLat(lng: real, lat: real)

  /** An entry of the `countries` table. */
  datatype CountryInfo = CountryInfo(code: string, center: LngLat)

  // ---------------------------------------------------------------------------------------
  // filteredCompanies (src/pages/Index.tsx:20-50)

  /** The search test on one record; `query` is already lower-cased. Description, street
      and the other fields are not searched, and the test is a plain substring test. */
  predicate MatchesQuery(c: Company, query: string) {
    || Contains(Lower(c.name), query)
    || Contains(Lower(c.category), query)
    || Contains(Lower(c.city), query)
    || Contains(Lower(c.country), query)
  }

  /** The first stage: no filtering when the search box is empty. */
  function SearchStage(cs: seq<Company>, searchQuery: string): seq<Company> {
    if searchQuery == "" then cs
    else Filter(cs, (c: Company) => MatchesQuery(c, Lower(searchQuery)))
  }

  /** The code list an area selects, or `None` for all areas. */
  function AreaCodes(area: AreaFilter, sets: AreaSets): Option<seq<string>> {
    match area
    case EuArea => Some(sets.eu)
    case EuropeanContinentArea => Some(sets.europeanContinent)
    case IntercontinentalArea => Some(sets.intercontinental)
    case AllAreas => None
  }

  /** The second stage: the selected country in the country view, the area in the Europe
      view, and nothing in the world view. */
  function ScopeStage(cs: seq<Company>, s: Settings, sets: AreaSets): seq<Company> {
    if s.viewType == CountryView then Filter(cs, (c: Company) => c.countryCode == s.selectedCountry)
    else if s.viewType != WorldView then
      match AreaCodes(s.areaFilter, sets)
      case Some(codes) => Filter(cs, (c: Company) => c.countryCode in codes)
      case None => cs
    else cs
  }

  /** `filteredCompanies` */
  function FilteredCompanies(all: seq<Company>, s: Settings, sets: AreaSets): seq<Company> {
    ScopeStage(SearchStage(all, s.searchQuery), s, sets)
  }

  /** The reference condition, record by record: the search passes (trivially for an empty
      query) and the record lies in the chosen scope. */
  predicate PassesSearch(c: Company, searchQuery: string) {
    searchQuery == "" || MatchesQuery(c, Lower(searchQuery))
  }

  predicate InScope(c: Company, s: Settings, sets: AreaSets) {
    match s.viewType
    case CountryView => c.countryCode == s.selectedCountry
    case WorldView => true
    case EuropeView =>
      match s.areaFilter
      case EuArea => c.countryCode in sets.eu
      case EuropeanContinentArea => c.countryCode in sets.europeanContinent
      case IntercontinentalArea => c.countryCode in sets.intercontinental
      case AllAreas => true
  }

  predicate Kept(c: Company, s: Settings, sets: AreaSets) {
    PassesSearch(c, s.searchQuery) && InScope(c, s, sets)
  }

  /** The three record tests as values, so that every lemma names the same function. */
  function SearchTest(searchQuery: string): Company -> bool {
    c => PassesSearch(c, searchQuery)
  }

  function ScopeTest(s: Settings, sets: AreaSets): Company -> bool {
    c => InScope(c, s, sets)
  }

  function KeepTest(s: Settings, sets: AreaSets): Company -> bool {
    c => Kept(c, s, sets)
  }

  /** The search stage is the filter by `PassesSearch`. */
  lemma SearchStageIsFilter(cs: seq<Company>, searchQuery: string)
    ensures SearchStage(cs, searchQuery) == Filter(cs, SearchTest(searchQuery))
  {
    if searchQuery == "" {
      FilterKeepsAll(cs, SearchTest(searchQuery));
    } else {
      FilterCongruent(cs, (c: Company) => MatchesQuery(c, Lower(searchQuery)), SearchTest(searchQuery));
    }
  }

  /** The scope stage is the filter by `InScope`. */
  lemma ScopeStageIsFilter(cs: seq<Company>, s: Settings, sets: AreaSets)
    ensures ScopeStage(cs, s, sets) == Filter(cs, ScopeTest(s, sets))
  {
    if s.viewType == CountryView {
      FilterCongruent(cs, (c: Company) => c.countryCode == s.selectedCountry, ScopeTest(s, sets));
    } else if s.viewType == WorldView || s.areaFilter == AllAreas {
      FilterKeepsAll(cs, ScopeTest(s, sets));
    } else {
      var codes := AreaCodes(s.areaFilter, sets).value;
      FilterCongruent(cs, (c: Company) => c.countryCode in codes, ScopeTest(s, sets));
    }
  }

  /** The two stages together are one filter by `Kept`. */
  lemma FilteredIsOneFilter(all: seq<Company>, s: Settings, sets: AreaSets)
    ensures FilteredCompanies(all, s, sets) == Filter(all, KeepTest(s, sets))
  {
    SearchStageIsFilter(all, s.searchQuery);
    ScopeStageIsFilter(SearchStage(all, s.searchQuery), s, sets);
    FilterFilter(all, SearchTest(s.searchQuery), ScopeTest(s, sets), KeepTest(s, sets));
  }

  /** The listed companies are the order-preserving sub-list of all companies made of the
      records that pass the search and lie in the scope. */
  lemma FilteredSelects(all: seq<Company>, s: Settings, sets: AreaSets) returns (idx: seq<nat>)
    ensures SelectedBy(FilteredCompanies(all, s, sets), all, KeepTest(s, sets), idx)
  {
    FilteredIsOneFilter(all, s, sets);
    idx := FilterSelects(all, KeepTest(s, sets));
  }

  /** A company is listed exactly when it is one of all companies and passes both stages. */
  lemma FilteredMembership(all: seq<Company>, s: Settings, sets: AreaSets, c: Company)
    ensures c in FilteredCompanies(all, s, sets) <==> c in all && Kept(c, s, sets)
  {
    FilteredIsOneFilter(all, s, sets);
    FilterMembership(all, KeepTest(s, sets), c);
  }

  /** With a search, every listed record has the lower-cased query in its lower-cased name,
      category, city or country. */
  lemma ListedMatchSearch(all: seq<Company>, s: Settings, sets: AreaSets)
    requires s.searchQuery != ""
    ensures forall c :: c in FilteredCompanies(all, s, sets) ==> MatchesQuery(c, Lower(s.searchQuery))
  {
    forall c | c in FilteredCompanies(all, s, sets) ensures MatchesQuery(c, Lower(s.searchQuery)) {
      FilteredMembership(all, s, sets, c);
    }
  }

  /** An empty search box filters nothing: only the scope applies. */
  lemma EmptySearchFiltersNothing(all: seq<Company>, s: Settings, sets: AreaSets)
    requires s.searchQuery == ""
    ensures FilteredCompanies(all, s, sets) == Filter(all, ScopeTest(s, sets))
  {
    ScopeStageIsFilter(all, s, sets);
  }

  /** In the country view a record is listed exactly when it passes the search and has the
      selected country code; the area filter plays no part. */
  lemma CountryViewKeeps(all: seq<Company>, s: Settings, sets: AreaSets, area: AreaFilter)
    requires s.viewType == CountryView
    ensures forall c :: c in FilteredCompanies(all, s, sets) <==>
      c in all && PassesSearch(c, s.searchQuery) && c.countryCode == s.selectedCountry
    ensures FilteredCompanies(all, s.(areaFilter := area), sets) == FilteredCompanies(all, s, sets)
  {
    forall c ensures c in FilteredCompanies(all, s, sets) <==>
      c in all && PassesSearch(c, s.searchQuery) && c.countryCode == s.selectedCountry {
      FilteredMembership(all, s, sets, c);
    }
  }

  /** The world view, and the Europe view with all areas, restrict nothing geographically:
      the list is the search result. */
  lemma NoGeographicRestriction(all: seq<Company>, s: Settings, sets: AreaSets)
    requires s.viewType == WorldView || (s.viewType == EuropeView && s.areaFilter == AllAreas)
    ensures FilteredCompanies(all, s, sets) == SearchStage(all, s.searchQuery)
  {
  }

  /** In the Europe view with an area chosen, a record is listed exactly when it passes the
      search and its country code is in that area's list. */
  lemma AreaViewKeeps(all: seq<Company>, s: Settings, sets: AreaSets)
    requires s.viewType == EuropeView && s.areaFilter != AllAreas
    ensures forall c :: c in FilteredCompanies(all, s, sets) <==>
      c in all && PassesSearch(c, s.searchQuery) && c.countryCode in AreaCodes(s.areaFilter, sets).value
  {
    forall c ensures c in FilteredCompanies(all, s, sets) <==>
      c in all && PassesSearch(c, s.searchQuery) && c.countryCode in AreaCodes(s.areaFilter, sets).value {
      FilteredMembership(all, s, sets, c);
    }
  }

  /** `d` is `c` with at most its description changed. */
  predicate SameButDescription(c: Company, d: Company) {
    c.(description := d.description) == d
  }

  /** The search looks at name, category, city and country only: lists that differ in
      nothing but descriptions give listings that differ in nothing but descriptions, the
      same records at the same positions. */
  lemma DescriptionNotSearched(all: seq<Company>, other: seq<Company>, s: Settings, sets: AreaSets)
    requires |all| == |other|
    requires forall i :: 0 <= i < |all| ==> SameButDescription(all[i], other[i])
    ensures |FilteredCompanies(all, s, sets)| == |FilteredCompanies(other, s, sets)|
    ensures forall i :: 0 <= i < |FilteredCompanies(all, s, sets)| ==>
      SameButDescription(FilteredCompanies(all, s, sets)[i], FilteredCompanies(other, s, sets)[i])
  {
    FilteredIsOneFilter(all, s, sets);
    FilteredIsOneFilter(other, s, sets);
    var keep := KeepTest(s, sets);
    forall i | 0 <= i < |all| ensures keep(all[i]) == keep(other[i]) {
      assert other[i] == all[i].(description := other[i].description);
    }
    FilterPointwise(all, other, keep, SameButDescription);
  }

  // ---------------------------------------------------------------------------------------
  // viewCenter and viewZoom (src/pages/Index.tsx:52-69)

  const DefaultCenter: LngLat := LngLat(4.9, 52.37)
  const EuropeCenter: LngLat := LngLat(10.0, 50.0)
  const WorldCenter: LngLat := LngLat(0.0, 30.0)

  /** `countries.find(c => c.code === code)` */
  function FindCountry(countries: seq<CountryInfo>, code: string): (r: Option<CountryInfo>)
    ensures r.Some? ==> r.value in countries && r.value.code == code
    ensures r.None? <==> forall i :: 0 <= i < |countries| ==> countries[i].code != code
    decreases |countries|
  {
    if countries == [] then None
    else if countries[0].code == code then Some(countries[0])
    else FindCountry(countries[1..], code)
  }

  /** `find` returns the first entry with the code. */
  lemma {:induction false} FindCountryFirst(countries: seq<CountryInfo>, code: string, i: nat)
    requires i < |countries| && countries[i].code == code
    requires forall j :: 0 <= j < i ==> countries[j].code != code
    ensures FindCountry(countries, code) == Some(countries[i])
    decreases i
  {
    if i > 0 {
      FindCountryFirst(countries[1..], code, i - 1);
    }
  }

  /** `viewCenter` */
  function ViewCenter(viewType: ViewType, selectedCountry: string, countries: seq<CountryInfo>): LngLat {
    if viewType == CountryView then
      match FindCountry(countries, selectedCountry)
      case Some(country) => country.center
      case None => DefaultCenter
    else if viewType == EuropeView then EuropeCenter
    else WorldCenter
  }

  /** `viewZoom` */
  function ViewZoom(viewType: ViewType): int {
    if viewType == CountryView then 7
    else if viewType == EuropeView then 4
    else 2
  }

  /** The country view centres on the first table entry with the selected code, or on the
      default point when the code is not in the table; the other views have fixed centres. */
  lemma ViewCenterChoice(viewType: ViewType, selectedCountry: string, countries: seq<CountryInfo>)
    ensures viewType == CountryView && (forall i :: 0 <= i < |countries| ==> countries[i].code != selectedCountry) ==>
      ViewCenter(viewType, selectedCountry, countries) == DefaultCenter
    ensures viewType == CountryView ==> forall i ::
      (0 <= i < |countries| && countries[i].code == selectedCountry
       && forall j :: 0 <= j < i ==> countries[j].code != selectedCountry) ==>
        ViewCenter(viewType, selectedCountry, countries) == countries[i].center
    ensures viewType == EuropeView ==> ViewCenter(viewType, selectedCountry, countries) == EuropeCenter
    ensures viewType == WorldView ==> ViewCenter(viewType, selectedCountry, countries) == WorldCenter
  {
    forall i | 0 <= i < |countries| && countries[i].code == selectedCountry
      && (forall j :: 0 <= j < i ==> countries[j].code != selectedCountry)
      ensures FindCountry(countries, selectedCountry) == Some(countries[i])
    {
      FindCountryFirst(countries, selectedCountry, i);
    }
  }

  /** The map zooms in from world to Europe to a single country. */
  lemma ZoomOrder()
    ensures ViewZoom(WorldView) < ViewZoom(EuropeView) < ViewZoom(CountryView)
    ensures ViewZoom(CountryView) == 7 && ViewZoom(EuropeView) == 4 && ViewZoom(WorldView) == 2
  {
  }
}
