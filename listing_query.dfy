/** The seller's listing query, `GET /api/seller/allproperties`.

    The handler restricts every query to the session's email, adds an
    equality on `propertyType`, `district` and `division` for each of those
    parameters that is non-empty, tells "the seller has no listings" apart
    from "no listing matches these filters", optionally sorts the matches
    by price, and replaces each listing's division and district ids by
    their names, with `'N/A'` for a reference that resolves to nothing.

    The store is a sequence of listings in natural order; `find` keeps that
    order. Each of the three store calls that can throw (the base `find`,
    the filtered `find` and the division `find`) may fail with a message,
    given as a parameter; the session is the signed-in email, if any.

    Line numbers in this module refer to
    app/api/seller/allproperties/route.js. */
module ListingQuery {
  import opened Wrappers
  import opened RefData
  import opened PropertySchema

  const NotAuthenticated := "User not authenticated"
  const NoProperties := "No properties found"
  const NoFilterMatch := "No properties found in this filter criteria"
  const Fetched := "Properties fetched successfully"
  const NotAvailable := "N/A"

  /** The request's query string as name/value pairs, in order. */
  type SearchParams = seq<(string, string)>

  /** `searchParams.get(key)`: the first value given for `key`, or null. */
  function Param(params: SearchParams, key: string): (r: Option<string>)
    ensures r.Some? <==> exists i :: 0 <= i < |params| && params[i].0 == key
    ensures r.Some? ==> exists i :: FirstParamAt(params, key, i) && params[i].1 == r.value
  {
    if params == [] then None
    else if params[0].0 == key then Some(params[0].1)
    else Param(params[1..], key)
  }

  /** `params[i]` is the first pair named `key`. */
  predicate FirstParamAt(params: SearchParams, key: string, i: int)
  {
    0 <= i < |params| && params[i].0 == key && forall j :: 0 <= j < i ==> params[j].0 != key
  }

  /** The truthiness test the handler applies to a parameter. */
  predicate Supplied(o: Option<string>)
  {
    o.Some? && o.value != ""
  }

  /** A Mongo filter document: equality on the owner email and, when
      present, on the property type, the district id and the division id. */
  datatype Query = Query(email: string, propertyType: Option<string>, district: Option<Id>,
                         division: Option<Id>)

  predicate Matches(q: Query, p: Property)
  {
    p.email == q.email
    && (q.propertyType.Some? ==> TypeName(p.propertyType) == q.propertyType.value)
    && (q.district.Some? ==> p.district == q.district.value)
    && (q.division.Some? ==> p.division == q.division.value)
  }

  /** What the seller asked for: listings owned by `email` that agree with
      every non-empty filter parameter. */
  predicate Selected(email: string, params: SearchParams, p: Property)
  {
    var propertyType, district, division :=
      Param(params, "propertyType"), Param(params, "district"), Param(params, "division");
    p.email == email
    && (Supplied(propertyType) ==> TypeName(p.propertyType) == propertyType.value)
    && (Supplied(district) ==> p.district == district.value)
    && (Supplied(division) ==> p.division == division.value)
  }

  /** The elements of `s` that satisfy `keep`, in their order in `s`
      (a store `find`). */
  function Filter(s: seq<Property>, keep: Property -> bool): (r: seq<Property>)
    ensures |r| <= |s|
    ensures forall p :: p in r <==> p in s && keep(p)
  {
    if s == [] then []
    else if keep(s[0]) then [s[0]] + Filter(s[1..], keep)
    else Filter(s[1..], keep)
  }

  /** A `find` returns every kept record as many times as the store holds
      it, and no other. */
  lemma {:induction false} FilterCounts(s: seq<Property>, keep: Property -> bool)
    ensures forall p :: multiset(Filter(s, keep))[p] == if keep(p) then multiset(s)[p] else 0
  {
    if s != [] {
      FilterCounts(s[1..], keep);
      assert s == [s[0]] + s[1..];
    }
  }

  /** A `find` keeps the store order of what it returns. */
  lemma {:induction false} FilterKeepsOrder(s: seq<Property>, keep: Property -> bool)
    ensures Subsequence(Filter(s, keep), s)
  {
    if s != [] {
      FilterKeepsOrder(s[1..], keep);
    }
  }

  /** `find` with two predicates that agree on every listing returns the
      same sequence. */
  lemma {:induction false} FilterAgrees(s: seq<Property>, f: Property -> bool, g: Property -> bool)
    requires forall p :: f(p) == g(p)
    ensures Filter(s, f) == Filter(s, g)
  {
    if s != [] {
      FilterAgrees(s[1..], f, g);
    }
  }

  /** Lines 27-32: the base query is the owner email alone; the filter
      query starts as a copy of it and gains one field per non-empty
      parameter. The filter then selects exactly the listings the seller
      asked for, all of which the base query also selects. */
  method BuildQueries(email: string, params: SearchParams) returns (base: Query, filter: Query)
    ensures base == Query(email, None, None, None)
    ensures forall p :: Matches(filter, p) <==> Selected(email, params, p)
    ensures forall p :: Matches(filter, p) ==> Matches(base, p)
  {
    base := Query(email, None, None, None);
    filter := base;
    var propertyType := Param(params, "propertyType");
    var district := Param(params, "district");
    var division := Param(params, "division");
    if Supplied(propertyType) {
      filter := filter.(propertyType := Some(propertyType.value));
    }
    if Supplied(district) {
      filter := filter.(district := Some(district.value));
    }
    if Supplied(division) {
      filter := filter.(division := Some(division.value));
    }
  }

  /** The sort comparator: `a.price - b.price` for `'asc'`, else
      `b.price - a.price`; a positive value puts `a` after `b`. */
  function Compare(ascending: bool, a: Property, b: Property): int
  {
    if ascending then a.price - b.price else b.price - a.price
  }

  /** Prices in non-decreasing (`ascending`) or non-increasing order. */
  predicate Ordered(s: seq<Property>, ascending: bool)
  {
    forall i, j :: 0 <= i < j < |s| ==>
      if ascending then s[i].price <= s[j].price else s[i].price >= s[j].price
  }

  /** Inserts `x` after the last element that the comparator does not put
      after it. */
  function InsertByPrice(s: seq<Property>, x: Property, ascending: bool): seq<Property>
  {
    if s == [] then [x]
    else if Compare(ascending, s[|s| - 1], x) > 0 then
      InsertByPrice(s[..|s| - 1], x, ascending) + [s[|s| - 1]]
    else s + [x]
  }

  /** `Array.prototype.sort` with the price comparator. That sort is
      stable, so its result is the one a stable insertion sort gives:
      listings with equal prices keep their store order. */
  function SortByPrice(s: seq<Property>, ascending: bool): seq<Property>
  {
    if s == [] then []
    else InsertByPrice(SortByPrice(s[..|s| - 1], ascending), s[|s| - 1], ascending)
  }

  lemma {:induction false} InsertByPricePermutes(s: seq<Property>, x: Property, ascending: bool)
    ensures multiset(InsertByPrice(s, x, ascending)) == multiset(s) + multiset{x}
  {
    if s != [] && Compare(ascending, s[|s| - 1], x) > 0 {
      var init := s[..|s| - 1];
      InsertByPricePermutes(init, x, ascending);
      assert s == init + [s[|s| - 1]];
    }
  }

  /** Every listing of `s` is placed no later than `p` by the comparator. */
  predicate Below(s: seq<Property>, p: Property, ascending: bool)
  {
    forall i :: 0 <= i < |s| ==> if ascending then s[i].price <= p.price else s[i].price >= p.price
  }

  /** Inserting a listing that sorts no later than `p` into listings that
      all sort no later than `p` keeps them so. */
  lemma {:induction false} InsertByPriceBelow(s: seq<Property>, x: Property, ascending: bool, p: Property)
    requires Below(s, p, ascending) && Below([x], p, ascending)
    ensures Below(InsertByPrice(s, x, ascending), p, ascending)
  {
    if s != [] && Compare(ascending, s[|s| - 1], x) > 0 {
      InsertByPriceBelow(s[..|s| - 1], x, ascending, p);
    }
  }

  lemma {:induction false} InsertByPriceOrdered(s: seq<Property>, x: Property, ascending: bool)
    requires Ordered(s, ascending)
    ensures Ordered(InsertByPrice(s, x, ascending), ascending)
  {
    if s != [] && Compare(ascending, s[|s| - 1], x) > 0 {
      var init, last := s[..|s| - 1], s[|s| - 1];
      InsertByPriceOrdered(init, x, ascending);
      assert Below(init, last, ascending) by {
        forall i | 0 <= i < |init|
          ensures if ascending then init[i].price <= last.price else init[i].price >= last.price
        {
          assert init[i] == s[i];
        }
      }
      InsertByPriceBelow(init, x, ascending, last);
    }
  }

  /** The sort is a permutation of the filtered listings. */
  lemma {:induction false} SortByPricePermutes(s: seq<Property>, ascending: bool)
    ensures multiset(SortByPrice(s, ascending)) == multiset(s)
  {
    if s != [] {
      var init := s[..|s| - 1];
      SortByPricePermutes(init, ascending);
      InsertByPricePermutes(SortByPrice(init, ascending), s[|s| - 1], ascending);
      assert s == init + [s[|s| - 1]];
    }
  }

  /** The sort orders by price: non-decreasing for `'asc'`, non-increasing
      otherwise. */
  lemma {:induction false} SortByPriceOrdered(s: seq<Property>, ascending: bool)
    ensures Ordered(SortByPrice(s, ascending), ascending)
  {
    if s != [] {
      SortByPriceOrdered(s[..|s| - 1], ascending);
      InsertByPriceOrdered(SortByPrice(s[..|s| - 1], ascending), s[|s| - 1], ascending);
    }
  }

  /** `find` over a concatenation is the concatenation of the two finds. */
  lemma {:induction false} FilterAppend(a: seq<Property>, b: seq<Property>, keep: Property -> bool)
    ensures Filter(a + b, keep) == Filter(a, keep) + Filter(b, keep)
  {
    if a == [] {
      assert a + b == b;
    } else {
      var ab := a + b;
      assert ab[0] == a[0] && ab[1..] == a[1..] + b;
      FilterAppend(a[1..], b, keep);
      if keep(a[0]) {
        calc {
          Filter(ab, keep);
          [a[0]] + Filter(a[1..] + b, keep);
          [a[0]] + (Filter(a[1..], keep) + Filter(b, keep));
          ([a[0]] + Filter(a[1..], keep)) + Filter(b, keep);
        }
      } else {
        calc {
          Filter(ab, keep);
          Filter(a[1..] + b, keep);
        }
      }
    }
  }

  /** Among the listings of one price, an insertion places `x` after all
      of those already there. */
  lemma {:induction false} InsertByPriceSamePrice(s: seq<Property>, x: Property, ascending: bool,
                                                  price: int, samePrice: Property -> bool)
    requires forall p :: samePrice(p) <==> p.price == price
    ensures Filter(InsertByPrice(s, x, ascending), samePrice)
            == Filter(s, samePrice) + Filter([x], samePrice)
  {
    if s == [] {
    } else if Compare(ascending, s[|s| - 1], x) > 0 {
      var init, last := s[..|s| - 1], s[|s| - 1];
      InsertByPriceSamePrice(init, x, ascending, price, samePrice);
      assert s == init + [last];
      MovedPastLast(InsertByPrice(init, x, ascending), init, last, x, price, samePrice);
    } else {
      FilterAppend(s, [x], samePrice);
    }
  }

  /** The step of `InsertByPriceSamePrice` where `x` moves left past a
      listing `last` of another price: `t` is the insertion into `init`. */
  lemma MovedPastLast(t: seq<Property>, init: seq<Property>, last: Property, x: Property,
                      price: int, samePrice: Property -> bool)
    requires forall p :: samePrice(p) <==> p.price == price
    requires last.price != x.price
    requires Filter(t, samePrice) == Filter(init, samePrice) + Filter([x], samePrice)
    ensures Filter(t + [last], samePrice) == Filter(init + [last], samePrice) + Filter([x], samePrice)
  {
    FilterAppend(t, [last], samePrice);
    FilterAppend(init, [last], samePrice);
    if samePrice(last) {
      FilterSingle(x, samePrice);
      var kept := Filter([x], samePrice);
      assert kept == [];
      assert Filter(t, samePrice) == Filter(init, samePrice) + kept == Filter(init, samePrice);
    } else {
      FilterSingle(last, samePrice);
      var kept := Filter([last], samePrice);
      assert kept == [];
      assert Filter(t + [last], samePrice) == Filter(t, samePrice) + kept == Filter(t, samePrice);
      assert Filter(init + [last], samePrice) == Filter(init, samePrice) + kept
             == Filter(init, samePrice);
    }
  }

  /** `find` over one record. */
  lemma FilterSingle(x: Property, keep: Property -> bool)
    ensures Filter([x], keep) == if keep(x) then [x] else []
  {
    assert [x][1..] == [];
  }

  /** The price sort is stable: the listings of any one price come out in
      their store order. */
  lemma {:induction false} SortByPriceStable(s: seq<Property>, ascending: bool,
                                             price: int, samePrice: Property -> bool)
    requires forall p :: samePrice(p) <==> p.price == price
    ensures Filter(SortByPrice(s, ascending), samePrice) == Filter(s, samePrice)
  {
    if s != [] {
      var init, last := s[..|s| - 1], s[|s| - 1];
      SortByPriceStable(init, ascending, price, samePrice);
      InsertByPriceSamePrice(SortByPrice(init, ascending), last, ascending, price, samePrice);
      FilterSnoc(s, samePrice);
    }
  }

  /** `find` over a non-empty sequence, split before its last record. */
  lemma FilterSnoc(s: seq<Property>, keep: Property -> bool)
    requires s != []
    ensures Filter(s, keep) == Filter(s[..|s| - 1], keep) + Filter([s[|s| - 1]], keep)
  {
    FilterAppend(s[..|s| - 1], [s[|s| - 1]], keep);
    assert s == s[..|s| - 1] + [s[|s| - 1]];
  }

  /** Inserting `x` at the position an insertion sort's inner loop stops at
      gives `InsertByPrice`. */
  lemma {:induction false} InsertByPriceAt(s: seq<Property>, x: Property, ascending: bool, j: nat)
    requires j <= |s|
    requires j > 0 ==> Compare(ascending, s[j - 1], x) <= 0
    requires forall k :: j <= k < |s| ==> Compare(ascending, s[k], x) > 0
    ensures InsertByPrice(s, x, ascending) == s[..j] + [x] + s[j..]
    decreases |s|
  {
    if j < |s| {
      var init := s[..|s| - 1];
      InsertByPriceAt(init, x, ascending, j);
      assert init[..j] == s[..j];
      assert init[j..] + [s[|s| - 1]] == s[j..];
    }
  }

  /** One pass of the insertion sort: the element at `i` moves left past
      every element the comparator puts after it. */
  method InsertStep(a: array<Property>, i: nat, ascending: bool)
    requires i < a.Length
    modifies a
    ensures a[..i + 1] == InsertByPrice(old(a[..i]), old(a[i]), ascending)
    ensures a[i + 1..] == old(a[i + 1..])
  {
    ghost var sorted := a[..i];
    ghost var rest := a[i + 1..];
    var x := a[i];
    var j := i;
    while j > 0 && Compare(ascending, a[j - 1], x) > 0
      invariant 0 <= j <= i
      invariant forall k :: 0 <= k < j ==> a[k] == sorted[k]
      invariant forall k :: j < k <= i ==> a[k] == sorted[k - 1]
      invariant forall k :: j <= k < i ==> Compare(ascending, sorted[k], x) > 0
      invariant a[i + 1..] == rest
    {
      a[j] := a[j - 1];
      j := j - 1;
    }
    a[j] := x;
    InsertByPriceAt(sorted, x, ascending, j);
    ShiftedIsInserted(sorted, x, j, a[..i + 1]);
  }

  /** The array prefix the inner loop leaves behind: `x` at `j`, the
      elements before `j` in place and those after it shifted right by
      one. */
  lemma ShiftedIsInserted(sorted: seq<Property>, x: Property, j: nat, after: seq<Property>)
    requires j <= |sorted| && |after| == |sorted| + 1
    requires forall k :: 0 <= k < j ==> after[k] == sorted[k]
    requires after[j] == x
    requires forall k :: j < k < |after| ==> after[k] == sorted[k - 1]
    ensures after == sorted[..j] + [x] + sorted[j..]
  {
    var inserted := sorted[..j] + [x] + sorted[j..];
    forall k | 0 <= k < |after|
      ensures after[k] == inserted[k]
    {
      if k < j {
        assert inserted[k] == sorted[k];
      } else if k > j {
        assert inserted[k] == sorted[k - 1];
      }
    }
  }

  /** Lines 58-62: `filteredProperties.sort(...)`, an in-place stable sort,
      written as an insertion sort on the array. */
  method SortInPlace(a: array<Property>, ascending: bool)
    modifies a
    ensures a[..] == SortByPrice(old(a[..]), ascending)
  {
    ghost var original := a[..];
    var i := 0;
    while i < a.Length
      invariant 0 <= i <= a.Length
      invariant a[..i] == SortByPrice(original[..i], ascending)
      invariant a[i..] == original[i..]
    {
      InsertStep(a, i, ascending);
      assert original[..i + 1][..i] == original[..i];
      i := i + 1;
    }
    assert original[..a.Length] == original;
  }

  /** One listing of the response: `{ ...property, division: { name },
      district: { name } }`. The record's other fields are `property`'s;
      in the JSON the two ids are replaced by the name objects. */
  datatype Detailed = Detailed(property: Property, divisionName: string, districtName: string)

  /** Lines 66-78: the first division whose id is the listing's division
      gives its name, the populated district gives the other, and either
      falls back to `'N/A'`. Order, length and every other field are kept. */
  function Resolve(ps: seq<Property>, divisions: seq<Division>, districts: seq<District>)
    : (r: seq<Detailed>)
    ensures |r| == |ps|
    ensures forall i :: 0 <= i < |ps| ==> r[i].property == ps[i]
    ensures forall i :: 0 <= i < |ps| ==>
      if exists d :: d in divisions && d.id == ps[i].division
      then exists k :: FirstDivisionAt(divisions, ps[i].division, k)
                       && r[i].divisionName == divisions[k].name
      else r[i].divisionName == NotAvailable
    ensures forall i :: 0 <= i < |ps| ==>
      if exists d :: d in districts && d.id == ps[i].district
      then exists d :: d in districts && d.id == ps[i].district && r[i].districtName == d.name
      else r[i].districtName == NotAvailable
  {
    if ps == [] then []
    else [Named(ps[0], divisions, districts)] + Resolve(ps[1..], divisions, districts)
  }

  /** One listing with its division and district names. */
  function Named(p: Property, divisions: seq<Division>, districts: seq<District>): (r: Detailed)
    ensures r.property == p
    ensures if exists d :: d in divisions && d.id == p.division
            then exists k :: FirstDivisionAt(divisions, p.division, k)
                             && r.divisionName == divisions[k].name
            else r.divisionName == NotAvailable
    ensures if exists d :: d in districts && d.id == p.district
            then exists d :: d in districts && d.id == p.district && r.districtName == d.name
            else r.districtName == NotAvailable
  {
    var division := FindDivision(divisions, p.division);
    var district := FindDistrict(districts, p.district);
    Detailed(p,
             if division.Some? then division.value.name else NotAvailable,
             if district.Some? then district.value.name else NotAvailable)
  }

  function Records(ds: seq<Detailed>): (r: seq<Property>)
    ensures |r| == |ds| && forall i :: 0 <= i < |ds| ==> r[i] == ds[i].property
  {
    seq(|ds|, i requires 0 <= i < |ds| => ds[i].property)
  }

  /** The three collections the handler reads. */
  datatype Db = Db(properties: seq<Property>, divisions: seq<Division>, districts: seq<District>)

  /** The message each store call throws, if it fails. */
  datatype Faults = Faults(base: Option<string>, filtered: Option<string>, divisions: Option<string>)

  /** Status, message and, when the body has one, its `properties` list. */
  datatype Response = Response(status: int, message: string, properties: Option<seq<Detailed>>)

  /** The listings of `email` (the base set). */
  function Owned(store: seq<Property>, email: string): seq<Property>
  {
    Filter(store, (p: Property) => p.email == email)
  }

  /** The listings of `email` that match the request's filters. */
  function Wanted(store: seq<Property>, email: string, params: SearchParams): seq<Property>
  {
    Filter(store, p => Selected(email, params, p))
  }

  /** The whole handler. Without a session the answer is 401 and no store
      call is made. A failing store call answers 500 with its message. An
      empty base set answers "No properties found" before the filter
      result is looked at; a non-empty base set with no match answers the
      filter-criteria message; both with status 200 and an empty list.
      Otherwise the answer lists exactly the requested listings, sorted by
      price when `sortOrder` is non-empty, with their names resolved. */
  method Get(session: Option<string>, params: SearchParams, db: Db, faults: Faults)
    returns (r: Response)
    ensures session.None? ==> r == Response(401, NotAuthenticated, None)
    ensures session.Some? && faults.base.Some? ==> r == Response(500, faults.base.value, None)
    ensures session.Some? && faults.base.None? && faults.filtered.Some? ==>
      r == Response(500, faults.filtered.value, None)
    ensures session.Some? && faults.base.None? && faults.filtered.None? ==>
      var base, wanted := Owned(db.properties, session.value),
                          Wanted(db.properties, session.value, params);
      && (base == [] ==> r == Response(200, NoProperties, Some([])))
      && (base != [] && wanted == [] ==> r == Response(200, NoFilterMatch, Some([])))
      && (wanted != [] && faults.divisions.Some? ==> r == Response(500, faults.divisions.value, None))
      && (wanted != [] && faults.divisions.None? ==>
            var sortOrder := Param(params, "sortOrder");
            && r.status == 200 && r.message == Fetched && r.properties.Some?
            && Records(r.properties.value)
               == (if Supplied(sortOrder) then SortByPrice(wanted, sortOrder.value == "asc")
                   else wanted)
            && r.properties.value
               == Resolve(Records(r.properties.value), db.divisions, db.districts))
  {
    if session.None? {
      return Response(401, NotAuthenticated, None);
    }
    var email := session.value;
    var base, filter := BuildQueries(email, params);
    if faults.base.Some? {
      return Response(500, faults.base.value, None);
    }
    var allProperties := Filter(db.properties, p => Matches(base, p));
    FilterAgrees(db.properties, p => Matches(base, p), (p: Property) => p.email == email);
    if faults.filtered.Some? {
      return Response(500, faults.filtered.value, None);
    }
    var filteredProperties := Filter(db.properties, p => Matches(filter, p));
    FilterAgrees(db.properties, p => Matches(filter, p), p => Selected(email, params, p));
    WantedWithinOwned(db.properties, email, params);
    if |allProperties| == 0 {
      return Response(200, NoProperties, Some([]));
    }
    if |filteredProperties| == 0 {
      return Response(200, NoFilterMatch, Some([]));
    }
    var sortOrder := Param(params, "sortOrder");
    if Supplied(sortOrder) {
      var a := new Property[|filteredProperties|](i requires 0 <= i < |filteredProperties| =>
                                                   filteredProperties[i]);
      assert a[..] == filteredProperties;
      SortInPlace(a, sortOrder.value == "asc");
      filteredProperties := a[..];
    }
    if faults.divisions.Some? {
      return Response(500, faults.divisions.value, None);
    }
    var details := Resolve(filteredProperties, db.divisions, db.districts);
    assert Records(details) == filteredProperties;
    return Response(200, Fetched, Some(details));
  }

  /** Every listing of a successful answer belongs to the session's email
      and agrees with every non-empty filter; the answer is a permutation
      of the requested listings, and it is in price order when a sort was
      asked for. */
  lemma FetchedListings(session: Option<string>, params: SearchParams, db: Db, r: Response)
    requires session.Some?
    requires var wanted := Wanted(db.properties, session.value, params);
      var sortOrder := Param(params, "sortOrder");
      && r.properties.Some?
      && Records(r.properties.value)
         == (if Supplied(sortOrder) then SortByPrice(wanted, sortOrder.value == "asc") else wanted)
    ensures forall d :: d in r.properties.value ==>
      d.property in db.properties && Selected(session.value, params, d.property)
    ensures multiset(Records(r.properties.value))
            == multiset(Wanted(db.properties, session.value, params))
    ensures var sortOrder := Param(params, "sortOrder");
      Supplied(sortOrder) ==> Ordered(Records(r.properties.value), sortOrder.value == "asc")
  {
    var wanted := Wanted(db.properties, session.value, params);
    var sortOrder := Param(params, "sortOrder");
    var out := Records(r.properties.value);
    if Supplied(sortOrder) {
      SortByPricePermutes(wanted, sortOrder.value == "asc");
      SortByPriceOrdered(wanted, sortOrder.value == "asc");
    }
    forall d | d in r.properties.value
      ensures d.property in db.properties && Selected(session.value, params, d.property)
    {
      var i :| 0 <= i < |r.properties.value| && r.properties.value[i] == d;
      assert out[i] == d.property;
      assert d.property in multiset(out);
      assert d.property in wanted;
    }
  }

  /** The filtered set never has a listing the base set lacks, so an empty
      base set always means no match either. */
  lemma WantedWithinOwned(store: seq<Property>, email: string, params: SearchParams)
    ensures forall p :: p in Wanted(store, email, params) ==> p in Owned(store, email)
    ensures Owned(store, email) == [] ==> Wanted(store, email, params) == []
  {
    if Wanted(store, email, params) != [] {
      assert Wanted(store, email, params)[0] in Wanted(store, email, params);
    }
  }
}
