/** The listing schema (`PropertySchema`): which fields a stored listing
    must have, the two string enumerations and the amenity defaults.
    Validation takes a submitted document, whose every field may be
    missing, to either a stored listing or the list of failing paths, in
    schema order, as a Mongoose `ValidationError` reports them.

    Mongoose's `required` check rejects a missing value and, for a string,
    also the empty string; a required number accepts any number; a required
    reference accepts any id that is present (ids are opaque strings here,
    and the empty string stands for the unselected option). */
module PropertySchema {
  import opened Wrappers
  import opened RefData

  datatype PropertyType = House | Apartment

  datatype Parking = Yes | No

  datatype Amenities = Amenities(cctv: bool, gym: bool, security: bool, pool: bool)

  /** A stored listing document; `id` is the `_id` the store generates.
      Timestamps are not modelled. */
  datatype Property = Property(
    id: Id,
    propertyTitle: string,
    propertyType: PropertyType,
    price: int,
    bedrooms: int,
    bathrooms: int,
    totalArea: int,
    address: string,
    division: Id,
    district: Id,
    zipPostalCode: string,
    description: string,
    yearBuilt: int,
    amenities: Amenities,
    parkingAvailability: Parking,
    contactName: string,
    email: string,
    phone: string,
    image: string)

  datatype AmenitiesInput = AmenitiesInput(
    cctv: Option<bool>, gym: Option<bool>, security: Option<bool>, pool: Option<bool>)

  /** A submitted listing document, before validation. */
  datatype PropertyInput = PropertyInput(
    propertyTitle: Option<string>,
    propertyType: Option<string>,
    price: Option<int>,
    bedrooms: Option<int>,
    bathrooms: Option<int>,
    totalArea: Option<int>,
    address: Option<string>,
    division: Option<Id>,
    district: Option<Id>,
    zipPostalCode: Option<string>,
    description: Option<string>,
    yearBuilt: Option<int>,
    amenities: AmenitiesInput,
    parkingAvailability: Option<string>,
    contactName: Option<string>,
    email: Option<string>,
    phone: Option<string>,
    image: Option<string>)

  function TypeName(t: PropertyType): string
  {
    match t
    case House => "House"
    case Apartment => "Apartment"
  }

  function ParkingName(p: Parking): string
  {
    match p
    case Yes => "Yes"
    case No => "No"
  }

  /** The `enum: ['House', 'Apartment']` check. */
  function ParseType(s: string): (r: Option<PropertyType>)
    ensures r.Some? <==> s == "House" || s == "Apartment"
    ensures r.Some? ==> TypeName(r.value) == s
  {
    if s == "House" then Some(House)
    else if s == "Apartment" then Some(Apartment)
    else None
  }

  /** The `enum: ['Yes', 'No']` check. */
  function ParseParking(s: string): (r: Option<Parking>)
    ensures r.Some? <==> s == "Yes" || s == "No"
    ensures r.Some? ==> ParkingName(r.value) == s
  {
    if s == "Yes" then Some(Yes)
    else if s == "No" then Some(No)
    else None
  }

  predicate Filled(s: Option<string>)
  {
    s.Some? && s.value != ""
  }

  /** The schema's constraints on a stored listing: every required string
      and reference is non-empty. Numbers carry no range constraint and the
      enumerations hold by construction of the datatypes. */
  predicate Valid(p: Property)
  {
    p.propertyTitle != "" && p.address != "" && p.division != "" && p.district != ""
    && p.zipPostalCode != "" && p.description != "" && p.contactName != ""
    && p.email != "" && p.phone != "" && p.image != ""
  }

  /** The conditions under which a submitted document is accepted, stated
      field by field. */
  predicate Complete(d: PropertyInput)
  {
    d.propertyTitle.Some? && d.propertyTitle.value != ""
    && (d.propertyType == Some("House") || d.propertyType == Some("Apartment"))
    && d.price.Some? && d.bedrooms.Some? && d.bathrooms.Some? && d.totalArea.Some?
    && d.address.Some? && d.address.value != ""
    && d.division.Some? && d.division.value != ""
    && d.district.Some? && d.district.value != ""
    && d.zipPostalCode.Some? && d.zipPostalCode.value != ""
    && d.description.Some? && d.description.value != ""
    && d.yearBuilt.Some?
    && (d.parkingAvailability == Some("Yes") || d.parkingAvailability == Some("No"))
    && d.contactName.Some? && d.contactName.value != ""
    && d.email.Some? && d.email.value != ""
    && d.phone.Some? && d.phone.value != ""
    && d.image.Some? && d.image.value != ""
  }

  /** Field `path` of a submitted document breaks its schema rule: a
      required value is missing, a required string is empty, or an
      enumerated string is outside its values. */
  predicate Fails(d: PropertyInput, path: string)
  {
    || (path == "propertyTitle" && (d.propertyTitle.None? || d.propertyTitle.value == ""))
    || (path == "propertyType" && d.propertyType != Some("House") && d.propertyType != Some("Apartment"))
    || (path == "price" && d.price.None?)
    || (path == "bedrooms" && d.bedrooms.None?)
    || (path == "bathrooms" && d.bathrooms.None?)
    || (path == "totalArea" && d.totalArea.None?)
    || (path == "address" && (d.address.None? || d.address.value == ""))
    || (path == "division" && (d.division.None? || d.division.value == ""))
    || (path == "district" && (d.district.None? || d.district.value == ""))
    || (path == "zipPostalCode" && (d.zipPostalCode.None? || d.zipPostalCode.value == ""))
    || (path == "description" && (d.description.None? || d.description.value == ""))
    || (path == "yearBuilt" && d.yearBuilt.None?)
    || (path == "parkingAvailability"
        && d.parkingAvailability != Some("Yes") && d.parkingAvailability != Some("No"))
    || (path == "contactName" && (d.contactName.None? || d.contactName.value == ""))
    || (path == "email" && (d.email.None? || d.email.value == ""))
    || (path == "phone" && (d.phone.None? || d.phone.value == ""))
    || (path == "image" && (d.image.None? || d.image.value == ""))
  }

  /** The paths that fail validation, in schema order. */
  function Failures(d: PropertyInput): seq<string>
  {
    ListingFailures(d) + ContactFailures(d)
  }

  /** The failing paths among the listing's own fields. */
  function ListingFailures(d: PropertyInput): seq<string>
  {
    (if Filled(d.propertyTitle) then [] else ["propertyTitle"])
    + (if d.propertyType.Some? && ParseType(d.propertyType.value).Some? then [] else ["propertyType"])
    + (if d.price.Some? then [] else ["price"])
    + (if d.bedrooms.Some? then [] else ["bedrooms"])
    + (if d.bathrooms.Some? then [] else ["bathrooms"])
    + (if d.totalArea.Some? then [] else ["totalArea"])
    + (if Filled(d.address) then [] else ["address"])
    + (if Filled(d.division) then [] else ["division"])
    + (if Filled(d.district) then [] else ["district"])
  }

  /** The failing paths among the remaining fields. */
  function ContactFailures(d: PropertyInput): seq<string>
  {
    (if Filled(d.zipPostalCode) then [] else ["zipPostalCode"])
    + (if Filled(d.description) then [] else ["description"])
    + (if d.yearBuilt.Some? then [] else ["yearBuilt"])
    + (if d.parkingAvailability.Some? && ParseParking(d.parkingAvailability.value).Some? then []
       else ["parkingAvailability"])
    + (if Filled(d.contactName) then [] else ["contactName"])
    + (if Filled(d.email) then [] else ["email"])
    + (if Filled(d.phone) then [] else ["phone"])
    + (if Filled(d.image) then [] else ["image"])
  }

  /** The rejection list names every failing path and nothing else. */
  lemma FailuresAreFailing(d: PropertyInput)
    ensures forall path :: path in Failures(d) <==> Fails(d, path)
  {
    ListingFailuresFail(d);
    ContactFailuresFail(d);
    FailingListed(d);
  }

  lemma ListingFailuresFail(d: PropertyInput)
    ensures forall path :: path in ListingFailures(d) ==> Fails(d, path)
  {
  }

  lemma ContactFailuresFail(d: PropertyInput)
    ensures forall path :: path in ContactFailures(d) ==> Fails(d, path)
  {
  }

  lemma FailingListed(d: PropertyInput)
    ensures forall path :: Fails(d, path) ==> path in Failures(d)
  {
  }

  /** The submitted document with the amenity defaults applied. */
  function WithDefaults(d: PropertyInput): PropertyInput
  {
    d.(amenities := AmenitiesInput(
      Some(d.amenities.cctv.GetOr(false)), Some(d.amenities.gym.GetOr(false)),
      Some(d.amenities.security.GetOr(false)), Some(d.amenities.pool.GetOr(false))))
  }

  /** The document a stored listing was created from. */
  function ToInput(p: Property): PropertyInput
  {
    PropertyInput(
      Some(p.propertyTitle), Some(TypeName(p.propertyType)), Some(p.price), Some(p.bedrooms),
      Some(p.bathrooms), Some(p.totalArea), Some(p.address), Some(p.division), Some(p.district),
      Some(p.zipPostalCode), Some(p.description), Some(p.yearBuilt),
      AmenitiesInput(Some(p.amenities.cctv), Some(p.amenities.gym),
                     Some(p.amenities.security), Some(p.amenities.pool)),
      Some(ParkingName(p.parkingAvailability)), Some(p.contactName), Some(p.email), Some(p.phone),
      Some(p.image))
  }

  /** Validation and casting of a submitted document into a listing with
      the generated id `id`. An accepted document keeps every value it
      supplied and gets `false` for each omitted amenity; a rejected one
      reports exactly the failing paths, at least one. */
  function Validate(id: Id, d: PropertyInput): (r: Result<Property, seq<string>>)
    ensures r.Ok? <==> Complete(d)
    ensures r.Ok? ==> Valid(r.value) && r.value.id == id && ToInput(r.value) == WithDefaults(d)
    ensures r.Ok? ==> r.value.amenities == Amenities(
      d.amenities.cctv.GetOr(false), d.amenities.gym.GetOr(false),
      d.amenities.security.GetOr(false), d.amenities.pool.GetOr(false))
    ensures r.Err? ==> r.error != []
    ensures r.Err? ==> forall path :: path in r.error <==> Fails(d, path)
  {
    FailuresAreFailing(d);
    var failures := Failures(d);
    if failures != [] then Err(failures)
    else
      Ok(Property(
        id, d.propertyTitle.value, ParseType(d.propertyType.value).value, d.price.value,
        d.bedrooms.value, d.bathrooms.value, d.totalArea.value, d.address.value,
        d.division.value, d.district.value, d.zipPostalCode.value, d.description.value,
        d.yearBuilt.value,
        Amenities(d.amenities.cctv.GetOr(false), d.amenities.gym.GetOr(false),
                  d.amenities.security.GetOr(false), d.amenities.pool.GetOr(false)),
        ParseParking(d.parkingAvailability.value).value, d.contactName.value, d.email.value,
        d.phone.value, d.image.value))
  }

  /** Every valid stored listing is accepted again when resubmitted, and
      comes back unchanged. */
  lemma ValidRoundTrip(p: Property)
    requires Valid(p)
    ensures Validate(p.id, ToInput(p)) == Ok(p)
  {
    var d := ToInput(p);
    assert Complete(d) by {
      match p.propertyType { case House => case Apartment => }
      match p.parkingAvailability { case Yes => case No => }
    }
    var r := Validate(p.id, d);
    assert ToInput(r.value) == ToInput(p);
    match p.propertyType { case House => case Apartment => }
    match p.parkingAvailability { case Yes => case No => }
  }

  /** No range is imposed on the numeric fields: replacing any of them by
      an arbitrary number (negative included) keeps an accepted document
      accepted. */
  lemma NumbersUnconstrained(id: Id, d: PropertyInput, price: int, bedrooms: int,
                             bathrooms: int, totalArea: int, yearBuilt: int)
    requires Validate(id, d).Ok?
    ensures Validate(id, d.(price := Some(price), bedrooms := Some(bedrooms),
                            bathrooms := Some(bathrooms), totalArea := Some(totalArea),
                            yearBuilt := Some(yearBuilt))).Ok?
  {
  }

  /** Nothing in the schema ties the district to the division: any present
      district id is accepted with any present division id. */
  lemma DistrictNotTiedToDivision(id: Id, d: PropertyInput, division: Id, district: Id)
    requires Validate(id, d).Ok? && division != "" && district != ""
    ensures Validate(id, d.(division := Some(division), district := Some(district))).Ok?
  {
  }
}
