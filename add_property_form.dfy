/** The add-listing form (`AddNewProperty`): the form record and its
    initial values, the district options of the selected division, the
    field, checkbox, division, district and image handlers, the seller's
    contact details filled in from the seller record, and the submit
    handler with its division/district precheck and the `FormData` it
    builds.

    The form record is a `JsObject.Object`, the fetches are replaced by
    their outcomes, and `router.push` is the returned navigation target.

    Line numbers in this module refer to
    app/components/SellerPropertyInputFrom.jsx. */
module AddPropertyForm {
  import opened Wrappers
  import opened JsObject
  import opened RefData

  const PrecheckMessage := "Please select both division and district."
  const UploadFailedMessage := "Failed to add property"
  const UploadPath := "/api/upload"
  const DashboardPath := "/seller/dashboard"
  const SellerInfoPrefix := "/api/seller/info?email="

  /** The nested amenities record, all unticked. */
  const NoAmenities: Object :=
    [("cctv", Bool(false)), ("gym", Bool(false)), ("security", Bool(false)), ("pool", Bool(false))]

  /** Lines 7-31: the initial form. */
  const Initial: Object := [
    ("propertyTitle", Str("")), ("propertyType", Str("House")), ("price", Str("")),
    ("bedrooms", Str("")), ("bathrooms", Str("")), ("totalArea", Str("")),
    ("address", Str("")), ("division", Str("")), ("district", Str("")),
    ("zipPostalCode", Str("")), ("description", Str("")), ("yearBuilt", Str("")),
    ("amenities", Obj(NoAmenities)), ("parkingAvailability", Str("Yes")),
    ("contactName", Str("")), ("email", Str("")), ("phone", Str("")), ("image", Null)]

  /** The form record has no key twice and its `amenities` is an object
      with no key twice. */
  predicate Shaped(formData: Object)
  {
    && WellFormed(formData)
    && Get(formData, "amenities").Some? && Get(formData, "amenities").value.Obj?
    && WellFormed(Get(formData, "amenities").value.fields)
  }

  /** The keys of the initial form, in order. */
  const InitialNames: seq<string> := [
    "propertyTitle", "propertyType", "price", "bedrooms", "bathrooms", "totalArea",
    "address", "division", "district", "zipPostalCode", "description", "yearBuilt",
    "amenities", "parkingAvailability", "contactName", "email", "phone", "image"]

  lemma InitialNamesDistinct()
    ensures Distinct(InitialNames)
  {
    assert InitialNames == [
      "propertyTitle", "propertyType", "price", "bedrooms", "bathrooms", "totalArea",
      "address", "division", "district", "zipPostalCode", "description", "yearBuilt",
      "amenities", "parkingAvailability", "contactName", "email", "phone", "image"];
    forall i, j | 0 <= i < j < |InitialNames|
      ensures InitialNames[i] != InitialNames[j]
    {
      assert |InitialNames[i]| != |InitialNames[j]| || InitialNames[i][0] != InitialNames[j][0]
             || InitialNames[i][1] != InitialNames[j][1] || InitialNames[i][4] != InitialNames[j][4];
    }
  }

  /** No key of the initial form occurs twice. */
  lemma InitialKeys()
    ensures Keys(Initial) == InitialNames
    ensures WellFormed(Initial)
  {
    KeysLength(Initial);
    InitialNamesDistinct();
  }

  /** The initial form is well shaped and holds the documented defaults. */
  lemma InitialForm()
    ensures Shaped(Initial)
    ensures Get(Initial, "propertyType") == Some(Str("House"))
    ensures Get(Initial, "parkingAvailability") == Some(Str("Yes"))
    ensures Get(Initial, "amenities") == Some(Obj(NoAmenities))
    ensures forall k :: k in Keys(NoAmenities) ==> Get(NoAmenities, k) == Some(Bool(false))
    ensures Get(Initial, "division") == Some(Str("")) && Get(Initial, "district") == Some(Str(""))
    ensures Get(Initial, "image") == Some(Null)
  {
    InitialKeys();
    KeysLength(NoAmenities);
    GetAt(Initial, 1);
    GetAt(Initial, 7);
    GetAt(Initial, 8);
    GetAt(Initial, 12);
    GetAt(Initial, 13);
    GetAt(Initial, 17);
    forall k | k in Keys(NoAmenities)
      ensures Get(NoAmenities, k) == Some(Bool(false))
    {
      assert k in ["cctv", "gym", "security", "pool"];
    }
  }

  /** What one `for…in` step appends: `amenities` as its JSON text, any
      other value as `FormData.append` stores it (the two `image` branches
      append the same thing). */
  function Encoding(key: string, v: Value): Entry
  {
    if key == "amenities" then Text(Json(v)) else FormValue(v)
  }

  /** Lines 118-127: one `append` per property of the form, in order. */
  method Encode(formData: Object) returns (entries: seq<(string, Entry)>)
    ensures |entries| == |formData|
    ensures forall i :: 0 <= i < |formData| ==>
      entries[i] == (formData[i].0, Encoding(formData[i].0, formData[i].1))
  {
    entries := [];
    for i := 0 to |formData|
      invariant |entries| == i
      invariant forall j :: 0 <= j < i ==>
        entries[j] == (formData[j].0, Encoding(formData[j].0, formData[j].1))
    {
      var key := formData[i].0;
      if key == "amenities" {
        entries := entries + [(key, Text(Json(formData[i].1)))];
      } else {
        entries := entries + [(key, FormValue(formData[i].1))];
      }
    }
  }

  /** An encoding of a well-formed form appends every key exactly once, in
      the form's order, and each value reads back as the form holds it. */
  lemma EncodingAppendsEachKeyOnce(formData: Object, entries: seq<(string, Entry)>, key: string)
    requires WellFormed(formData)
    requires |entries| == |formData|
    requires forall i :: 0 <= i < |formData| ==>
      entries[i] == (formData[i].0, Encoding(formData[i].0, formData[i].1))
    ensures Names(entries) == Keys(formData)
    ensures Distinct(Names(entries))
    ensures key != "amenities" && Get(formData, key).Some? ==>
      exists i :: 0 <= i < |entries| && entries[i] == (key, FormValue(Get(formData, key).value))
  {
    NamesMatchKeys(formData, entries);
    if key != "amenities" && Get(formData, key).Some? {
      var i := IndexOf(formData, key);
      assert entries[i] == (key, FormValue(Get(formData, key).value));
    }
  }

  datatype UploadOutcome = Accepted | Rejected | Threw(message: string)

  datatype SellerOutcome = Found(seller: Object) | NotFound | Failed

  class PropertyForm {
    var formData: Object
    var divisions: seq<Division>
    var allDistricts: seq<District>
    var loading: bool
    var error: Option<string>

    predicate Valid()
      reads this
    {
      Shaped(formData) && !loading
    }

    constructor ()
      ensures Valid() && formData == Initial && error == None
      ensures divisions == [] && allDistricts == []
    {
      formData := Initial;
      divisions, allDistricts := [], [];
      loading := false;
      error := None;
      InitialForm();
    }

    /** Lines 87-89: the districts whose division equals the selected
        one. */
    function FilteredDistricts(): (r: seq<District>)
      reads this
      ensures forall d :: d in r <==> d in allDistricts && Get(formData, "division") == Some(Str(d.division))
      ensures forall d ::
        multiset(r)[d]
        == (if Get(formData, "division") == Some(Str(d.division)) then multiset(allDistricts)[d] else 0)
    {
      DistrictsMatching(allDistricts, Get(formData, "division"))
    }

    /** Lines 42-58: the division table first, then the district table; a
        failure sets `error` and leaves the later table unloaded. */
    method Load(divisionsLoad: Result<seq<Division>, string>,
                districtsLoad: Result<seq<District>, string>)
      modifies this`divisions, this`allDistricts, this`error
      ensures divisionsLoad.Err? ==>
        error == Some(divisionsLoad.error) && divisions == old(divisions)
        && allDistricts == old(allDistricts)
      ensures divisionsLoad.Ok? ==> divisions == divisionsLoad.value
      ensures divisionsLoad.Ok? && districtsLoad.Err? ==>
        error == Some(districtsLoad.error) && allDistricts == old(allDistricts)
      ensures divisionsLoad.Ok? && districtsLoad.Ok? ==>
        allDistricts == districtsLoad.value && error == old(error)
    {
      if divisionsLoad.Err? {
        error := Some(divisionsLoad.error);
        return;
      }
      divisions := divisionsLoad.value;
      if districtsLoad.Err? {
        error := Some(districtsLoad.error);
        return;
      }
      allDistricts := districtsLoad.value;
    }

    /** Lines 91-101: a checkbox sets only `amenities[name]`; any other
        input sets only `formData[name]`. No text input or select of the
        form is named `amenities`. */
    method HandleChange(name: string, value: string, isCheckbox: bool, checked: bool)
      modifies this`formData
      requires Valid()
      requires !isCheckbox ==> name != "amenities"
      ensures Valid()
      ensures isCheckbox ==>
        && Get(formData, "amenities")
           == Some(Obj(Set(Get(old(formData), "amenities").value.fields, name, Bool(checked))))
        && Keys(formData) == Keys(old(formData))
        && forall k :: k != "amenities" ==> Get(formData, k) == Get(old(formData), k)
      ensures !isCheckbox ==>
        forall k :: Get(formData, k) == if k == name then Some(Str(value)) else Get(old(formData), k)
    {
      var before := formData;
      if isCheckbox {
        var amenities := Get(before, "amenities").value.fields;
        var updated := Obj(Set(amenities, name, Bool(checked)));
        SetWellFormed(amenities, name, Bool(checked));
        SetPreserves(before, "amenities", updated);
        GetDefined(before, "amenities");
        formData := Set(before, "amenities", updated);
      } else {
        SetPreserves(before, name, Str(value));
        formData := Set(before, name, Str(value));
      }
    }

    /** Lines 273-278: a new division clears the district. */
    method ChangeDivision(value: string)
      modifies this`formData
      requires Valid()
      ensures Valid()
      ensures Get(formData, "division") == Some(Str(value))
      ensures Get(formData, "district") == Some(Str(""))
      ensures forall k :: k != "division" && k != "district" ==> Get(formData, k) == Get(old(formData), k)
      ensures Keys(formData) == AddKey(AddKey(Keys(old(formData)), "division"), "district")
    {
      var before := formData;
      SetPreserves(before, "division", Str(value));
      var mid := Set(before, "division", Str(value));
      SetPreserves(mid, "district", Str(""));
      formData := Set(mid, "district", Str(""));
    }

    /** Lines 300-305. */
    method ChangeDistrict(value: string)
      modifies this`formData
      requires Valid()
      ensures Valid()
      ensures forall k :: Get(formData, k) == if k == "district" then Some(Str(value)) else Get(old(formData), k)
      ensures Keys(formData) == AddKey(Keys(old(formData)), "district")
    {
      SetPreserves(formData, "district", Str(value));
      formData := Set(formData, "district", Str(value));
    }

    /** Lines 103-105: `files[0]`, `undefined` when no file was picked. */
    method ImageChange(file: Option<string>)
      modifies this`formData
      requires Valid()
      ensures Valid()
      ensures Get(formData, "image") == Some(if file.Some? then File(file.value) else Undefined)
      ensures forall k :: k != "image" ==> Get(formData, k) == Get(old(formData), k)
      ensures Keys(formData) == AddKey(Keys(old(formData)), "image")
    {
      var v := if file.Some? then File(file.value) else Undefined;
      SetPreserves(formData, "image", v);
      formData := Set(formData, "image", v);
    }

    /** Lines 60-85: with a signed-in seller, the seller record's
        `fullname`, `email` and `phone` become the contact fields. */
    method FillSellerDetails(session: Option<string>, outcome: SellerOutcome)
      returns (url: Option<string>)
      modifies this`formData
      requires Valid()
      ensures Valid()
      ensures session.None? || session.value == "" ==> url == None && formData == old(formData)
      ensures session.Some? && session.value != "" ==> url == Some(SellerInfoPrefix + session.value)
      ensures !outcome.Found? ==> formData == old(formData)
      ensures session.Some? && session.value != "" && outcome.Found? ==>
        && Get(formData, "contactName") == Some(Get(outcome.seller, "fullname").GetOr(Undefined))
        && Get(formData, "email") == Some(Get(outcome.seller, "email").GetOr(Undefined))
        && Get(formData, "phone") == Some(Get(outcome.seller, "phone").GetOr(Undefined))
        && (forall k :: k !in ["contactName", "email", "phone"] ==> Get(formData, k) == Get(old(formData), k))
        && Keys(formData) == AddKey(AddKey(AddKey(Keys(old(formData)), "contactName"), "email"), "phone")
    {
      if session.None? || session.value == "" {
        return None;
      }
      url := Some(SellerInfoPrefix + session.value);
      if outcome.Found? {
        WithContactEffect(formData, outcome.seller);
        formData := WithContact(formData, outcome.seller);
      }
    }

    /** Lines 107-141: without a truthy division and district nothing is
        sent; otherwise the encoded form is posted, an accepted upload
        navigates to the dashboard and a refused or failed one sets the
        error. Loading is off again in every case. */
    method Submit(outcome: UploadOutcome)
      returns (sent: Option<seq<(string, Entry)>>, navigate: Option<string>)
      modifies this`loading, this`error
      requires Valid()
      ensures Valid()
      ensures !Truthy(Get(formData, "division")) || !Truthy(Get(formData, "district")) ==>
        sent == None && navigate == None && error == Some(PrecheckMessage)
      ensures Truthy(Get(formData, "division")) && Truthy(Get(formData, "district")) ==>
        && sent.Some? && |sent.value| == |formData|
        && (forall i :: 0 <= i < |formData| ==>
              sent.value[i] == (formData[i].0, Encoding(formData[i].0, formData[i].1)))
        && (outcome.Accepted? ==> navigate == Some(DashboardPath) && error == None)
        && (outcome.Rejected? ==> navigate == None && error == Some(UploadFailedMessage))
        && (outcome.Threw? ==> navigate == None && error == Some(outcome.message))
    {
      loading := true;
      error := None;
      sent, navigate := None, None;
      if !Truthy(Get(formData, "division")) || !Truthy(Get(formData, "district")) {
        error := Some(PrecheckMessage);
        loading := false;
        return;
      }
      var entries := Encode(formData);
      sent := Some(entries);
      match outcome {
        case Accepted =>
          navigate := Some(DashboardPath);
        case Rejected =>
          error := Some(UploadFailedMessage);
        case Threw(message) =>
          error := Some(message);
      }
      loading := false;
    }
  }

  /** The form with the seller record's `fullname`, `email` and `phone`
      spread in as the three contact fields (lines 69-74). */
  function WithContact(formData: Object, seller: Object): Object
  {
    var a := Set(formData, "contactName", Get(seller, "fullname").GetOr(Undefined));
    var b := Set(a, "email", Get(seller, "email").GetOr(Undefined));
    Set(b, "phone", Get(seller, "phone").GetOr(Undefined))
  }

  /** Filling in the contact fields sets exactly those three, keeps the
      form well shaped and appends only the contact keys it lacked. */
  lemma WithContactEffect(formData: Object, seller: Object)
    requires Shaped(formData)
    ensures Shaped(WithContact(formData, seller))
    ensures Get(WithContact(formData, seller), "contactName")
            == Some(Get(seller, "fullname").GetOr(Undefined))
    ensures Get(WithContact(formData, seller), "email") == Some(Get(seller, "email").GetOr(Undefined))
    ensures Get(WithContact(formData, seller), "phone") == Some(Get(seller, "phone").GetOr(Undefined))
    ensures forall k :: k !in ["contactName", "email", "phone"] ==>
      Get(WithContact(formData, seller), k) == Get(formData, k)
    ensures Keys(WithContact(formData, seller))
            == AddKey(AddKey(AddKey(Keys(formData), "contactName"), "email"), "phone")
  {
    var a := Set(formData, "contactName", Get(seller, "fullname").GetOr(Undefined));
    var b := Set(a, "email", Get(seller, "email").GetOr(Undefined));
    SetPreserves(formData, "contactName", Get(seller, "fullname").GetOr(Undefined));
    SetPreserves(a, "email", Get(seller, "email").GetOr(Undefined));
    SetPreserves(b, "phone", Get(seller, "phone").GetOr(Undefined));
  }

  /** A spread update of a well-shaped form reads back as the update says
      and stays well shaped when `amenities` remains an object with no key
      twice. */
  lemma SetPreserves(o: Object, k: string, v: Value)
    requires Shaped(o)
    requires k == "amenities" ==> v.Obj? && WellFormed(v.fields)
    ensures forall k2 :: Get(Set(o, k, v), k2) == if k2 == k then Some(v) else Get(o, k2)
    ensures k != "amenities" ==> Get(Set(o, k, v), "amenities") == Get(o, "amenities")
    ensures Shaped(Set(o, k, v))
    ensures Keys(Set(o, k, v)) == AddKey(Keys(o), k)
  {
    KeysAfterSet(o, k, v);
    forall k2
      ensures Get(Set(o, k, v), k2) == if k2 == k then Some(v) else Get(o, k2)
    {
      GetAfterSet(o, k, v, k2);
    }
    SetWellFormed(o, k, v);
  }
}
