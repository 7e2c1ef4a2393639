/** The edit modal (`EditModal`): it loads the two lookup tables, keeps
    the district options in step with the form's `division`, shows the
    form only while open, and forwards every edit to the owning page as a
    `(name, value)` change. The form record itself belongs to the page
    (`SellerListings.Listings.formData`); here it is a parameter.

    Line numbers in this module refer to
    app/components/EditModel.jsx. */
module EditModal {
  import opened Wrappers
  import opened JsObject
  import opened RefData

  /** The text and select fields, in the order the form shows them. */
  const TextFields: seq<string> := [
    "propertyTitle", "propertyType", "price", "bedrooms", "bathrooms", "totalArea",
    "address", "division", "district", "zipPostalCode", "yearBuilt", "description",
    "parkingAvailability"]

  const AmenityKeys: seq<string> := ["cctv", "gym", "security", "pool"]

  /** `formData.x || ''`: a falsy value, `0` included, is shown empty. */
  function Display(v: Option<Value>): (r: Value)
    ensures Truthy(v) ==> r == v.value
    ensures !Truthy(v) ==> r == Str("")
  {
    if Truthy(v) then v.value else Str("")
  }

  /** `formData.amenities?.[key] || false`: a checkbox reads the nested
      `amenities` object. */
  function Checked(formData: Object, key: string): (r: Value)
    ensures Get(formData, "amenities").Some? && Get(formData, "amenities").value.Obj?
            && Truthy(Get(Get(formData, "amenities").value.fields, key)) ==>
      r == Get(Get(formData, "amenities").value.fields, key).value
    ensures !(Get(formData, "amenities").Some? && Get(formData, "amenities").value.Obj?
              && Truthy(Get(Get(formData, "amenities").value.fields, key))) ==>
      r == Bool(false)
  {
    match Get(formData, "amenities")
    case Some(Obj(fields)) =>
      var v := Get(fields, key);
      if Truthy(v) then v.value else Bool(false)
    case _ => Bool(false)
  }

  /** Lines 27-36: with a truthy `division` in the form, the districts whose
      division equals it; otherwise none at all. */
  function DistrictOptions(all: seq<District>, formData: Object): (r: seq<District>)
    ensures !Truthy(Get(formData, "division")) ==> r == []
    ensures forall d :: d in r <==>
      d in all && Truthy(Get(formData, "division")) && Get(formData, "division") == Some(Str(d.division))
    ensures forall d ::
      multiset(r)[d]
      == (if Truthy(Get(formData, "division")) && Get(formData, "division") == Some(Str(d.division))
          then multiset(all)[d] else 0)
  {
    if Truthy(Get(formData, "division")) then DistrictsMatching(all, Get(formData, "division")) else []
  }

  /** A form opened on a listing whose `division` is the resolved
      `{ name }` object, as the seller's listing endpoint returns it, offers
      no district until a division is picked. */
  lemma ResolvedDivisionOffersNoDistricts(all: seq<District>, formData: Object, resolved: Object)
    requires Get(formData, "division") == Some(Obj(resolved))
    ensures DistrictOptions(all, formData) == []
  {
  }

  /** A change the modal forwards to the page's `onInputChange`. */
  datatype Change = Change(name: string, value: Value)

  /** Plain inputs forward the browser event: the field's name and its
      string value. The division and district selects (lines 153-160 and
      180-187) rebuild the same event with their fixed name, so they
      forward `FieldChange("division", value)` and
      `FieldChange("district", value)`; `district` is left as it was when
      a division is picked. */
  function FieldChange(name: string, value: string): (c: Change)
    ensures c.name == name && c.value == Str(value)
  {
    Change(name, Str(value))
  }

  /** Lines 251-258 and the three like it: a checkbox forwards the flat
      name `amenities.<key>` with its checked state. */
  function AmenityChange(key: string, checked: bool): (c: Change)
    ensures c.name == "amenities." + key && c.value == Bool(checked)
    ensures c.name != "amenities"
  {
    Change("amenities." + key, Bool(checked))
  }

  /** The page applies a change as `{ ...formData, [name]: value }`. */
  function Apply(formData: Object, c: Change): Object
  {
    Set(formData, c.name, c.value)
  }

  /** Picking a division in the modal leaves the chosen district in the
      form, even when it belongs to another division. */
  lemma DivisionChangeKeepsDistrict(formData: Object, value: string)
    ensures Get(Apply(formData, FieldChange("division", value)), "district") == Get(formData, "district")
    ensures Get(Apply(formData, FieldChange("division", value)), "division") == Some(Str(value))
  {
    GetAfterSet(formData, "division", Str(value), "district");
    GetAfterSet(formData, "division", Str(value), "division");
  }

  /** A plain input sets exactly its own field of the page's form. */
  lemma FieldChangeSetsField(formData: Object, name: string, value: string, k: string)
    ensures Get(Apply(formData, FieldChange(name, value)), k)
            == if k == name then Some(Str(value)) else Get(formData, k)
  {
    GetAfterSet(formData, name, Str(value), k);
  }

  /** Picking a district sets it and leaves the division, and so the
      offered districts, as they were. */
  lemma DistrictChangeKeepsOptions(all: seq<District>, formData: Object, value: string)
    ensures Get(Apply(formData, FieldChange("district", value)), "district") == Some(Str(value))
    ensures DistrictOptions(all, Apply(formData, FieldChange("district", value))) == DistrictOptions(all, formData)
  {
    GetAfterSet(formData, "district", Str(value), "district");
    GetAfterSet(formData, "district", Str(value), "division");
  }

  /** Ticking an amenity box adds a flat `amenities.<key>` property and
      leaves the nested `amenities` object, which every checkbox displays,
      as it was: no checkbox changes what it shows. */
  lemma AmenityChangeNotShown(formData: Object, key: string, checked: bool, shown: string)
    ensures Get(Apply(formData, AmenityChange(key, checked)), "amenities") == Get(formData, "amenities")
    ensures Checked(Apply(formData, AmenityChange(key, checked)), shown) == Checked(formData, shown)
  {
    GetAfterSet(formData, "amenities." + key, Bool(checked), "amenities");
  }

  /** The shown value of each named field. */
  function DisplayAll(formData: Object, names: seq<string>): (r: seq<(string, Value)>)
    ensures |r| == |names|
    ensures forall i :: 0 <= i < |names| ==> r[i].0 == names[i]
    ensures forall i :: 0 <= i < |names| && Truthy(Get(formData, names[i])) ==>
      r[i].1 == Get(formData, names[i]).value
    ensures forall i :: 0 <= i < |names| && !Truthy(Get(formData, names[i])) ==> r[i].1 == Str("")
  {
    if names == [] then []
    else [(names[0], Display(Get(formData, names[0])))] + DisplayAll(formData, names[1..])
  }

  /** The state of each amenity checkbox. */
  function CheckAll(formData: Object, keys: seq<string>): (r: seq<(string, Value)>)
    ensures |r| == |keys|
    ensures forall i :: 0 <= i < |keys| ==> r[i] == (keys[i], Checked(formData, keys[i]))
  {
    if keys == [] then []
    else [(keys[0], Checked(formData, keys[0]))] + CheckAll(formData, keys[1..])
  }

  /** The open form: the shown field values, the checkbox states and the
      two option lists. */
  datatype Form = Form(
    values: seq<(string, Value)>, checks: seq<(string, Value)>,
    divisionOptions: seq<Division>, districtOptions: seq<District>)

  class Modal {
    var divisions: seq<Division>
    var allDistricts: seq<District>
    var filteredDistricts: seq<District>
    var error: string

    /** The district effect has run for this form and table. */
    predicate Valid(formData: Object)
      reads this
    {
      filteredDistricts == DistrictOptions(allDistricts, formData)
    }

    constructor ()
      ensures divisions == [] && allDistricts == [] && filteredDistricts == [] && error == ""
    {
      divisions, allDistricts, filteredDistricts := [], [], [];
      error := "";
    }

    /** Lines 9-25: the division table first, then the district table; a
        failure sets `error` and leaves the later table unloaded. */
    method Load(divisionsLoad: Result<seq<Division>, string>,
                districtsLoad: Result<seq<District>, string>)
      modifies this`divisions, this`allDistricts, this`error
      ensures divisionsLoad.Err? ==>
        error == divisionsLoad.error && divisions == old(divisions) && allDistricts == old(allDistricts)
      ensures divisionsLoad.Ok? ==> divisions == divisionsLoad.value
      ensures divisionsLoad.Ok? && districtsLoad.Err? ==>
        error == districtsLoad.error && allDistricts == old(allDistricts)
      ensures divisionsLoad.Ok? && districtsLoad.Ok? ==>
        allDistricts == districtsLoad.value && error == old(error)
    {
      if divisionsLoad.Err? {
        error := divisionsLoad.error;
        return;
      }
      divisions := divisionsLoad.value;
      if districtsLoad.Err? {
        error := districtsLoad.error;
        return;
      }
      allDistricts := districtsLoad.value;
    }

    /** Lines 27-36, run whenever the form's division or the table
        changes. */
    method SyncDistricts(formData: Object)
      modifies this`filteredDistricts
      ensures Valid(formData)
    {
      if Truthy(Get(formData, "division")) {
        filteredDistricts := DistrictsMatching(allDistricts, Get(formData, "division"));
      } else {
        filteredDistricts := [];
      }
    }

    /** Lines 38-352: nothing while closed; otherwise each field shows its
        value or `''`, each checkbox its nested amenity, and the district
        select offers the current options. */
    function Render(isOpen: bool, formData: Object): (r: Option<Form>)
      reads this
      ensures r.None? <==> !isOpen
      ensures r.Some? ==>
        && r.value.values == DisplayAll(formData, TextFields)
        && r.value.checks == CheckAll(formData, AmenityKeys)
        && r.value.divisionOptions == divisions
        && r.value.districtOptions == filteredDistricts
    {
      if !isOpen then None
      else Some(Form(DisplayAll(formData, TextFields), CheckAll(formData, AmenityKeys),
                     divisions, filteredDistricts))
    }
  }

  /** With the district effect run, the open modal offers exactly the
      districts of the form's division, and a numeric field holding `0`
      shows as empty. */
  lemma OpenModalShows(m: Modal, formData: Object, field: nat)
    requires m.Valid(formData) && field < |TextFields|
    ensures forall d :: d in m.Render(true, formData).value.districtOptions <==>
      d in m.allDistricts && Truthy(Get(formData, "division"))
      && Get(formData, "division") == Some(Str(d.division))
    ensures Get(formData, TextFields[field]) == Some(Num(0)) ==>
      m.Render(true, formData).value.values[field] == (TextFields[field], Str(""))
  {
  }
}
