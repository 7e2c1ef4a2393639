/** The seller's listing page (`AllPropertiesShow`): the filter controls,
    the district options that follow the selected division, the request
    built from the non-empty filters, and the reaction to the listing
    endpoint's three messages, including the delayed retry without
    filters after "no match".

    Each React state cell is a field of `Page` and each handler a method.
    A `fetch` is replaced by its outcome, given as a parameter (the
    endpoint's `Response`, or a thrown error); each 3000 ms retry timer is
    counted as pending until `RetryTimerFires` consumes it.

    Line numbers in this module refer to
    app/components/AllProperties.jsx. */
module AllPropertiesPage {
  import opened Wrappers
  import opened RefData
  import LQ = ListingQuery

  const ListPath := "/api/seller/allproperties"

  /** The parameter for one filter: present only when its value is
      non-empty. */
  function Optional(name: string, value: string): seq<(string, string)>
  {
    if value != "" then [(name, value)] else []
  }

  /** The query parameters of a filtered fetch: the non-empty filters, in
      the order `sortOrder`, `propertyType`, `district`, `division`. */
  function FilterParams(sortOrder: string, propertyType: string, district: string, division: string)
    : seq<(string, string)>
  {
    Optional("sortOrder", sortOrder) + Optional("propertyType", propertyType)
    + Optional("district", district) + Optional("division", division)
  }

  lemma ParamOfOptional(name: string, value: string, rest: seq<(string, string)>, key: string)
    ensures LQ.Param(Optional(name, value) + rest, key)
            == if name == key && value != "" then Some(value) else LQ.Param(rest, key)
  {
    if value != "" {
      assert (Optional(name, value) + rest)[1..] == rest;
    } else {
      assert Optional(name, value) + rest == rest;
    }
  }

  /** The endpoint reads back exactly the filters the page sent: a
      parameter is present, with the page's value, precisely when that
      filter is non-empty. */
  lemma ServerReadsFilters(sortOrder: string, propertyType: string, district: string, division: string)
    ensures var params := FilterParams(sortOrder, propertyType, district, division);
      && LQ.Param(params, "sortOrder") == (if sortOrder != "" then Some(sortOrder) else None)
      && LQ.Param(params, "propertyType") == (if propertyType != "" then Some(propertyType) else None)
      && LQ.Param(params, "district") == (if district != "" then Some(district) else None)
      && LQ.Param(params, "division") == (if division != "" then Some(division) else None)
  {
    var p4 := Optional("division", division);
    var p3 := Optional("district", district) + p4;
    var p2 := Optional("propertyType", propertyType) + p3;
    var p1 := Optional("sortOrder", sortOrder) + p2;
    assert FilterParams(sortOrder, propertyType, district, division) == p1;
    ParamsOfFour(sortOrder, propertyType, district, division, p2, p3, p4, "sortOrder");
    ParamsOfFour(sortOrder, propertyType, district, division, p2, p3, p4, "propertyType");
    ParamsOfFour(sortOrder, propertyType, district, division, p2, p3, p4, "district");
    ParamsOfFour(sortOrder, propertyType, district, division, p2, p3, p4, "division");
  }

  lemma ParamsOfFour(sortOrder: string, propertyType: string, district: string, division: string,
                     p2: seq<(string, string)>, p3: seq<(string, string)>, p4: seq<(string, string)>,
                     key: string)
    requires p4 == Optional("division", division)
    requires p3 == Optional("district", district) + p4
    requires p2 == Optional("propertyType", propertyType) + p3
    ensures LQ.Param(Optional("sortOrder", sortOrder) + p2, key)
      == if key == "sortOrder" && sortOrder != "" then Some(sortOrder)
         else if key == "propertyType" && propertyType != "" then Some(propertyType)
         else if key == "district" && district != "" then Some(district)
         else if key == "division" && division != "" then Some(division)
         else None
  {
    ParamOfOptional("sortOrder", sortOrder, p2, key);
    ParamOfOptional("propertyType", propertyType, p3, key);
    ParamOfOptional("district", district, p4, key);
    ParamOfOptional("division", division, [], key);
  }

  /** `params.toString()`: `name=value` pairs joined by `&`
      (percent-encoding is not modelled). */
  function QueryString(params: seq<(string, string)>): string
  {
    if params == [] then ""
    else params[0].0 + "=" + params[0].1 + (if |params| > 1 then "&" else "")
         + QueryString(params[1..])
  }

  /** The URL of a fetch: `'?'` and the query string only when there is at
      least one parameter. */
  function Url(params: seq<(string, string)>): string
  {
    if params == [] then ListPath else ListPath + "?" + QueryString(params)
  }

  datatype FetchOutcome = Threw | Answered(response: LQ.Response)

  predicate OkStatus(status: int)
  {
    200 <= status < 300
  }

  /** The four state cells a fetch writes besides the loading flag;
      `pendingRetries` counts the 3000 ms retry timers scheduled and not
      yet fired (the page never cancels one, so several can be
      pending). */
  datatype ListState = ListState(
    properties: seq<LQ.Detailed>, error: string, noFilteredResults: bool, pendingRetries: nat)

  /** Lines 67-99: how a fetch's outcome changes the list state. */
  function Handle(s: ListState, outcome: FetchOutcome): ListState
  {
    match outcome
    case Threw => s.(properties := [])
    case Answered(response) =>
      if !OkStatus(response.status) then s.(properties := [])
      else if response.message == LQ.NoProperties then
        s.(properties := [], error := LQ.NoProperties, noFilteredResults := false)
      else if response.message == LQ.NoFilterMatch then
        s.(properties := [], noFilteredResults := true, pendingRetries := s.pendingRetries + 1)
      else s.(properties := response.properties.GetOr([]), error := "", noFilteredResults := false)
  }

  /** The list state after each kind of outcome: a thrown error or a
      refusal only empties the list; "No properties found" also sets the
      error and clears the no-match flag; the no-match message sets the
      flag and adds one pending retry; any other accepted answer shows its
      list and clears error and flag. */
  lemma HandleCases(s: ListState, outcome: FetchOutcome)
    ensures outcome.Threw? || !OkStatus(outcome.response.status) ==>
      Handle(s, outcome) == s.(properties := [])
    ensures outcome.Answered? && OkStatus(outcome.response.status) ==>
      var message := outcome.response.message;
      var r := Handle(s, outcome);
      && (message == LQ.NoProperties ==>
            r == s.(properties := [], error := LQ.NoProperties, noFilteredResults := false))
      && (message == LQ.NoFilterMatch ==>
            r == s.(properties := [], noFilteredResults := true,
                    pendingRetries := s.pendingRetries + 1))
      && (message != LQ.NoProperties && message != LQ.NoFilterMatch ==>
            r == s.(properties := outcome.response.properties.GetOr([]), error := "",
                    noFilteredResults := false))
  {
  }

  /** What the page shows. */
  datatype View = Spinner | NoMatchNotice | Notice(text: string) | Listing(items: seq<LQ.Detailed>)

  /** Lines 118-132: loading first, then the no-match notice, then the
      error text for an empty list, then the list. */
  function ViewOf(isLoading: bool, s: ListState): (v: View)
    ensures v.Spinner? <==> isLoading
    ensures v.NoMatchNotice? <==> !isLoading && s.noFilteredResults
    ensures v.Notice? <==> !isLoading && !s.noFilteredResults && s.properties == []
    ensures v.Notice? ==> v.text == s.error
    ensures v.Listing? ==> v.items == s.properties && v.items != []
  {
    if isLoading then Spinner
    else if s.noFilteredResults then NoMatchNotice
    else if |s.properties| == 0 then Notice(s.error)
    else Listing(s.properties)
  }

  /** How each answer of the listing endpoint is shown once loading is
      over: the fetched list itself, "No properties found" as the notice,
      the no-match notice (with a retry scheduled), and, for a refused or
      failed request, an emptied list under whatever notice was showing. */
  lemma ShowsEndpointAnswer(s: ListState, r: LQ.Response)
    ensures r.status == 200 && r.message == LQ.Fetched && r.properties.Some?
            && r.properties.value != [] ==>
      ViewOf(false, Handle(s, Answered(r))) == Listing(r.properties.value)
    ensures r.status == 200 && r.message == LQ.NoProperties ==>
      ViewOf(false, Handle(s, Answered(r))) == Notice(LQ.NoProperties)
    ensures r.status == 200 && r.message == LQ.NoFilterMatch ==>
      ViewOf(false, Handle(s, Answered(r))) == NoMatchNotice
      && Handle(s, Answered(r)).pendingRetries == s.pendingRetries + 1
    ensures r.status in {401, 500} ==>
      ViewOf(false, Handle(s, Answered(r)))
      == if s.noFilteredResults then NoMatchNotice else Notice(s.error)
  {
  }

  class Page {
    var properties: seq<LQ.Detailed>
    var sortOrder: string
    var propertyType: string
    var district: string
    var division: string
    var divisions: seq<Division>
    var allDistricts: seq<District>
    var filteredDistricts: seq<District>
    var error: string
    var isLoading: bool
    var noFilteredResults: bool
    var pendingRetries: nat

    /** Lines 42-51: with a division selected, its districts; otherwise
        every district. */
    function DistrictOptions(): (r: seq<District>)
      reads this`division, this`allDistricts
      ensures division != "" ==> forall d :: d in r <==> d in allDistricts && d.division == division
      ensures division != "" ==>
        forall d :: multiset(r)[d] == (if d.division == division then multiset(allDistricts)[d] else 0)
      ensures division == "" ==> r == allDistricts
    {
      if division != "" then DistrictsOf(allDistricts, division) else allDistricts
    }

    /** The district effect has run for the current division and table. */
    predicate Valid()
      reads this`filteredDistricts, this`division, this`allDistricts
    {
      filteredDistricts == DistrictOptions()
    }

    function List(): ListState
      reads this`properties, this`error, this`noFilteredResults, this`pendingRetries
    {
      ListState(properties, error, noFilteredResults, pendingRetries)
    }

    function Shown(): View
      reads this
    {
      ViewOf(isLoading, List())
    }

    constructor ()
      ensures Valid()
      ensures properties == [] && error == "" && !isLoading && !noFilteredResults && pendingRetries == 0
      ensures sortOrder == "" && propertyType == "" && district == "" && division == ""
      ensures divisions == [] && allDistricts == [] && filteredDistricts == []
    {
      properties := [];
      sortOrder, propertyType, district, division := "", "", "", "";
      divisions, allDistricts, filteredDistricts := [], [], [];
      error := "";
      isLoading, noFilteredResults, pendingRetries := false, false, 0;
    }

    /** The district effect. */
    method SyncDistricts()
      modifies this`filteredDistricts
      ensures Valid()
    {
      if division != "" {
        filteredDistricts := DistrictsOf(allDistricts, division);
      } else {
        filteredDistricts := allDistricts;
      }
    }

    /** Lines 158-161: a new division clears the selected district; the
        district options follow. */
    method ChangeDivision(value: string)
      modifies this`division, this`district, this`filteredDistricts
      ensures division == value && district == "" && Valid()
    {
      division := value;
      district := "";
      SyncDistricts();
    }

    method ChangeSortOrder(value: string)
      modifies this`sortOrder
      ensures sortOrder == value
    {
      sortOrder := value;
    }

    method ChangePropertyType(value: string)
      modifies this`propertyType
      ensures propertyType == value
    {
      propertyType := value;
    }

    method ChangeDistrict(value: string)
      modifies this`district
      ensures district == value
    {
      district := value;
    }

    /** Lines 104-108: all four filters back to `''`; the district options
        become the whole table. */
    method ResetFilters()
      modifies this`sortOrder, this`propertyType, this`district, this`division,
               this`filteredDistricts
      ensures sortOrder == "" && propertyType == "" && district == "" && division == ""
      ensures Valid() && filteredDistricts == allDistricts
    {
      sortOrder := "";
      propertyType := "";
      district := "";
      division := "";
      SyncDistricts();
    }

    /** Lines 56-61: one `append` per non-empty filter. */
    method SearchParams() returns (params: seq<(string, string)>)
      ensures params == FilterParams(sortOrder, propertyType, district, division)
    {
      params := [];
      if sortOrder != "" { params := params + [("sortOrder", sortOrder)]; }
      if propertyType != "" { params := params + [("propertyType", propertyType)]; }
      if district != "" { params := params + [("district", district)]; }
      if division != "" { params := params + [("division", division)]; }
    }

    /** Lines 53-102: builds the URL from the non-empty filters (or the
        bare path when `useFilters` is false), then applies the outcome. */
    method FetchProperties(useFilters: bool, outcome: FetchOutcome) returns (url: string)
      modifies this`properties, this`error, this`noFilteredResults, this`isLoading,
               this`pendingRetries
      ensures url == if useFilters then Url(FilterParams(sortOrder, propertyType, district, division))
                     else ListPath
      ensures List() == Handle(old(List()), outcome)
      ensures !isLoading
    {
      isLoading := true;
      url := ListPath;
      if useFilters {
        var params := SearchParams();
        if params != [] {
          url := url + "?" + QueryString(params);
        }
      }
      match outcome {
        case Threw =>
          properties := [];
        case Answered(response) =>
          if !OkStatus(response.status) {
            properties := [];
          } else if response.message == LQ.NoProperties {
            properties := [];
            error := LQ.NoProperties;
            noFilteredResults := false;
          } else if response.message == LQ.NoFilterMatch {
            properties := [];
            noFilteredResults := true;
            pendingRetries := pendingRetries + 1;
          } else {
            properties := response.properties.GetOr([]);
            error := "";
            noFilteredResults := false;
          }
      }
      isLoading := false;
    }

    /** Lines 82-85: one pending 3000 ms timer fires; it clears the
        no-match flag and fetches again without filters. Nothing happens
        when no retry is pending. */
    method RetryTimerFires(outcome: FetchOutcome) returns (url: Option<string>)
      modifies this`properties, this`error, this`noFilteredResults, this`isLoading,
               this`pendingRetries
      ensures old(pendingRetries) == 0 ==>
        url == None && List() == old(List()) && isLoading == old(isLoading)
      ensures old(pendingRetries) > 0 ==>
        && url == Some(ListPath) && !isLoading
        && List() == Handle(old(List()).(noFilteredResults := false,
                                         pendingRetries := old(pendingRetries) - 1), outcome)
    {
      if pendingRetries == 0 {
        return None;
      }
      pendingRetries := pendingRetries - 1;
      noFilteredResults := false;
      var u := FetchProperties(false, outcome);
      url := Some(u);
    }

    /** Lines 24-30: the division table, then the district table; a
        failing load sets `error` and leaves the later table unloaded.
        `loaded` says both tables arrived. */
    method LoadTables(divisionsLoad: Result<seq<Division>, string>,
                      districtsLoad: Result<seq<District>, string>)
      returns (loaded: bool)
      modifies this`divisions, this`allDistricts, this`error
      ensures loaded <==> divisionsLoad.Ok? && districtsLoad.Ok?
      ensures divisionsLoad.Err? ==>
        error == divisionsLoad.error && divisions == old(divisions) && allDistricts == old(allDistricts)
      ensures divisionsLoad.Ok? ==> divisions == divisionsLoad.value
      ensures divisionsLoad.Ok? && districtsLoad.Err? ==>
        error == districtsLoad.error && allDistricts == old(allDistricts)
      ensures loaded ==> allDistricts == districtsLoad.value && error == old(error)
    {
      loaded := false;
      if divisionsLoad.Err? {
        error := divisionsLoad.error;
        return;
      }
      divisions := divisionsLoad.value;
      if districtsLoad.Err? {
        error := districtsLoad.error;
        return;
      }
      allDistricts := districtsLoad.value;
      loaded := true;
    }

    /** Lines 21-37, `fetchData`: loads the division and district tables,
        then fetches with the current filters; a failing table load sets
        `error` and skips the fetch, leaving the list state as it was. */
    method FetchData(divisionsLoad: Result<seq<Division>, string>,
                     districtsLoad: Result<seq<District>, string>, outcome: FetchOutcome)
      returns (url: Option<string>)
      modifies this`isLoading, this`error, this`divisions, this`allDistricts, this`properties,
               this`noFilteredResults, this`pendingRetries
      ensures !isLoading
      ensures divisionsLoad.Err? ==>
        && url == None && divisions == old(divisions) && allDistricts == old(allDistricts)
        && List() == old(List()).(error := divisionsLoad.error)
      ensures divisionsLoad.Ok? ==> divisions == divisionsLoad.value
      ensures divisionsLoad.Ok? && districtsLoad.Err? ==>
        && url == None && allDistricts == old(allDistricts)
        && List() == old(List()).(error := districtsLoad.error)
      ensures divisionsLoad.Ok? && districtsLoad.Ok? ==>
        && allDistricts == districtsLoad.value
        && url == Some(Url(FilterParams(sortOrder, propertyType, district, division)))
        && List() == Handle(old(List()), outcome)
    {
      isLoading := true;
      var loaded := LoadTables(divisionsLoad, districtsLoad);
      if !loaded {
        isLoading := false;
        return None;
      }
      var u := FetchProperties(true, outcome);
      isLoading := false;
      url := Some(u);
    }

    /** Lines 19-51: the mount effect runs `fetchData`, and the district
        effect then follows the table it loaded. */
    method Mount(divisionsLoad: Result<seq<Division>, string>,
                 districtsLoad: Result<seq<District>, string>, outcome: FetchOutcome)
      returns (url: Option<string>)
      modifies this`isLoading, this`error, this`divisions, this`allDistricts, this`properties,
               this`noFilteredResults, this`pendingRetries, this`filteredDistricts
      ensures Valid() && !isLoading
      ensures divisionsLoad.Err? ==>
        && url == None && divisions == old(divisions) && allDistricts == old(allDistricts)
        && List() == old(List()).(error := divisionsLoad.error)
      ensures divisionsLoad.Ok? ==> divisions == divisionsLoad.value
      ensures divisionsLoad.Ok? && districtsLoad.Err? ==>
        && url == None && allDistricts == old(allDistricts)
        && List() == old(List()).(error := districtsLoad.error)
      ensures divisionsLoad.Ok? && districtsLoad.Ok? ==>
        && allDistricts == districtsLoad.value
        && filteredDistricts == (if division != "" then DistrictsOf(districtsLoad.value, division)
                                 else districtsLoad.value)
        && url == Some(Url(FilterParams(sortOrder, propertyType, district, division)))
        && List() == Handle(old(List()), outcome)
    {
      url := FetchData(divisionsLoad, districtsLoad, outcome);
      SyncDistricts();
    }
  }
}
