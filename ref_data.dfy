/** The two lookup tables: administrative divisions, and districts that
    each name the division they belong to. Document ids are opaque
    strings (a Mongo ObjectId compared through `toString()`). */
module RefData {
  import opened Wrappers
  import opened JsObject

  type Id = string

  datatype Division = Division(id: Id, name: string)

  datatype District = District(id: Id, name: string, division: Id)

  /** The districts whose `division` equals `division`, in table order
      (`allDistricts.filter((d) => d.division === division)`). */
  function DistrictsOf(all: seq<District>, division: Id): (r: seq<District>)
    ensures |r| <= |all|
    ensures forall d :: d in r <==> d in all && d.division == division
    ensures forall d :: multiset(r)[d] == if d.division == division then multiset(all)[d] else 0
  {
    if all == [] then []
    else
      assert all == [all[0]] + all[1..];
      if all[0].division == division then [all[0]] + DistrictsOf(all[1..], division)
      else DistrictsOf(all[1..], division)
  }

  /** `allDistricts.filter((d) => d.division === v)` where `v` is a value
      read from a form's state: only a string can equal a district's
      division id. */
  function DistrictsMatching(all: seq<District>, v: Option<Value>): (r: seq<District>)
    ensures |r| <= |all|
    ensures forall d :: d in r <==> d in all && v == Some(Str(d.division))
    ensures forall d :: multiset(r)[d] == if v == Some(Str(d.division)) then multiset(all)[d] else 0
  {
    if v.Some? && v.value.Str? then DistrictsOf(all, v.value.s) else []
  }

  /** The districts of a division keep their table order. */
  lemma {:induction false} DistrictsOfKeepsOrder(all: seq<District>, division: Id)
    ensures Subsequence(DistrictsOf(all, division), all)
  {
    if all != [] {
      DistrictsOfKeepsOrder(all[1..], division);
    }
  }

  /** `divisions[k]` is the first division whose id is `id`. */
  predicate FirstDivisionAt(divisions: seq<Division>, id: Id, k: int)
  {
    0 <= k < |divisions| && divisions[k].id == id
    && forall j :: 0 <= j < k ==> divisions[j].id != id
  }

  /** `divisions.find((d) => d._id === id)`: the first division with that
      id. */
  function FindDivision(divisions: seq<Division>, id: Id): (r: Option<Division>)
    ensures r.Some? <==> exists d :: d in divisions && d.id == id
    ensures r.Some? ==> exists k :: FirstDivisionAt(divisions, id, k) && divisions[k] == r.value
  {
    if divisions == [] then None
    else if divisions[0].id == id then Some(divisions[0])
    else FindDivision(divisions[1..], id)
  }

  /** Mongoose `populate('district')`: the referenced district document,
      or `null` when no district has that id. */
  function FindDistrict(districts: seq<District>, id: Id): (r: Option<District>)
    ensures r.Some? <==> exists d :: d in districts && d.id == id
    ensures r.Some? ==> r.value in districts && r.value.id == id
  {
    if districts == [] then None
    else if districts[0].id == id then Some(districts[0])
    else FindDistrict(districts[1..], id)
  }
}
