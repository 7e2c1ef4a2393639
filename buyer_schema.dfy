/** The buyer schema (`BuyerSchema`): required fields, the `gender` and
    `country` enumerations, an optional image, and the unique indexes on
    `username` and `email`, which make uniqueness an invariant of the
    whole buyer collection rather than of one document. As for listings,
    a required string must be non-empty. */
module BuyerSchema {
  import opened Wrappers
  import opened RefData

  datatype Gender = Male | Female | Others

  datatype Country = Bangladesh | India | Pakistan | Nepal

  datatype Buyer = Buyer(
    id: Id,
    fullname: string,
    username: string,
    email: string,
    phone: string,
    password: string,
    address: string,
    gender: Gender,
    country: Country,
    image: Option<string>)

  /** A submitted buyer document, before validation. */
  datatype BuyerInput = BuyerInput(
    fullname: Option<string>,
    username: Option<string>,
    email: Option<string>,
    phone: Option<string>,
    password: Option<string>,
    address: Option<string>,
    gender: Option<string>,
    country: Option<string>,
    image: Option<string>)

  datatype BuyerError =
    | ValidationFailed(paths: seq<string>)
    | DuplicateKey(field: string)

  /** The string the schema stores for each gender. */
  function GenderName(g: Gender): string
  {
    match g
    case Male => "Male"
    case Female => "Female"
    case Others => "Others"
  }

  /** The string the schema stores for each country. */
  function CountryName(c: Country): string
  {
    match c
    case Bangladesh => "Bangladesh"
    case India => "India"
    case Pakistan => "Pakistan"
    case Nepal => "Nepal"
  }

  function ParseGender(s: string): (r: Option<Gender>)
    ensures r.Some? <==> s in ["Male", "Female", "Others"]
    ensures r.Some? ==> GenderName(r.value) == s
  {
    if s == "Male" then Some(Male)
    else if s == "Female" then Some(Female)
    else if s == "Others" then Some(Others)
    else None
  }

  function ParseCountry(s: string): (r: Option<Country>)
    ensures r.Some? <==> s in ["Bangladesh", "India", "Pakistan", "Nepal"]
    ensures r.Some? ==> CountryName(r.value) == s
  {
    if s == "Bangladesh" then Some(Bangladesh)
    else if s == "India" then Some(India)
    else if s == "Pakistan" then Some(Pakistan)
    else if s == "Nepal" then Some(Nepal)
    else None
  }

  /** Parsing inverts the stored names of the two enumerations. */
  lemma NamesParse(g: Gender, c: Country)
    ensures ParseGender(GenderName(g)) == Some(g)
    ensures ParseCountry(CountryName(c)) == Some(c)
  {
  }

  predicate Filled(s: Option<string>)
  {
    s.Some? && s.value != ""
  }

  /** The schema's constraints on one stored buyer. */
  predicate Valid(b: Buyer)
  {
    b.fullname != "" && b.username != "" && b.email != "" && b.phone != ""
    && b.password != "" && b.address != ""
  }

  /** The unique indexes: no two stored buyers share a username or an
      email. */
  predicate Unique(store: seq<Buyer>)
  {
    forall i, j :: 0 <= i < j < |store| ==>
      store[i].username != store[j].username && store[i].email != store[j].email
  }

  /** Field `path` of a submitted buyer breaks its schema rule: a required
      string is missing or empty, or an enumerated string is missing or
      outside its values. */
  predicate Fails(d: BuyerInput, path: string)
  {
    || (path == "fullname" && !Filled(d.fullname))
    || (path == "username" && !Filled(d.username))
    || (path == "email" && !Filled(d.email))
    || (path == "phone" && !Filled(d.phone))
    || (path == "password" && !Filled(d.password))
    || (path == "address" && !Filled(d.address))
    || (path == "gender" && (d.gender.None? || d.gender.value !in ["Male", "Female", "Others"]))
    || (path == "country"
        && (d.country.None? || d.country.value !in ["Bangladesh", "India", "Pakistan", "Nepal"]))
  }

  /** The paths that fail validation, in schema order. */
  function Failures(d: BuyerInput): seq<string>
  {
    (if Filled(d.fullname) then [] else ["fullname"])
    + (if Filled(d.username) then [] else ["username"])
    + (if Filled(d.email) then [] else ["email"])
    + (if Filled(d.phone) then [] else ["phone"])
    + (if Filled(d.password) then [] else ["password"])
    + (if Filled(d.address) then [] else ["address"])
    + (if d.gender.Some? && ParseGender(d.gender.value).Some? then [] else ["gender"])
    + (if d.country.Some? && ParseCountry(d.country.value).Some? then [] else ["country"])
  }

  /** Validation and casting of a submitted buyer document. The six
      strings are required, `gender` and `country` must be among their
      listed values and `image` is optional. An accepted document keeps
      every value it supplied; a rejected one reports exactly the failing
      paths. */
  function Validate(id: Id, d: BuyerInput): (r: Result<Buyer, seq<string>>)
    ensures r.Ok? <==>
      Filled(d.fullname) && Filled(d.username) && Filled(d.email) && Filled(d.phone)
      && Filled(d.password) && Filled(d.address)
      && d.gender.Some? && d.gender.value in ["Male", "Female", "Others"]
      && d.country.Some? && d.country.value in ["Bangladesh", "India", "Pakistan", "Nepal"]
    ensures r.Ok? ==>
      && Valid(r.value) && r.value.id == id && r.value.image == d.image
      && Some(r.value.fullname) == d.fullname && Some(r.value.username) == d.username
      && Some(r.value.email) == d.email && Some(r.value.phone) == d.phone
      && Some(r.value.password) == d.password && Some(r.value.address) == d.address
      && Some(GenderName(r.value.gender)) == d.gender
      && Some(CountryName(r.value.country)) == d.country
    ensures r.Err? ==> r.error != []
    ensures r.Err? ==> forall path :: path in r.error <==> Fails(d, path)
  {
    var failures := Failures(d);
    if failures != [] then Err(failures)
    else
      Ok(Buyer(id, d.fullname.value, d.username.value, d.email.value, d.phone.value,
               d.password.value, d.address.value, ParseGender(d.gender.value).value,
               ParseCountry(d.country.value).value, d.image))
  }

  /** `Buyer.create(d)` against a collection that satisfies the unique
      indexes: validation runs first, then the insert is refused with a
      duplicate-key error when the username or the email is taken. */
  function Insert(store: seq<Buyer>, id: Id, d: BuyerInput): (r: Result<seq<Buyer>, BuyerError>)
    requires Unique(store)
    ensures r.Ok? ==> Unique(r.value)
    ensures r.Ok? <==>
      && Validate(id, d).Ok?
      && forall b :: b in store ==> Some(b.username) != d.username && Some(b.email) != d.email
    ensures r.Ok? ==> r.value == store + [Validate(id, d).value]
    ensures r.Err? && r.error.DuplicateKey? ==>
      exists b :: b in store && (Some(b.username) == d.username || Some(b.email) == d.email)
    ensures Validate(id, d).Err? ==> r == Err(ValidationFailed(Validate(id, d).error))
    ensures Validate(id, d).Ok? && r.Err? ==> r.error.DuplicateKey?
  {
    match Validate(id, d)
    case Err(paths) => Err(ValidationFailed(paths))
    case Ok(b) =>
      if exists o :: o in store && o.username == b.username then Err(DuplicateKey("username"))
      else if exists o :: o in store && o.email == b.email then Err(DuplicateKey("email"))
      else Ok(store + [b])
  }

  /** A collection built by successive inserts keeps the unique indexes. */
  lemma {:induction false} InsertAllUnique(store: seq<Buyer>, ids: seq<Id>, docs: seq<BuyerInput>)
    requires Unique(store) && |ids| == |docs|
    ensures Unique(InsertAll(store, ids, docs))
    decreases |docs|
  {
    if docs != [] {
      var r := Insert(store, ids[0], docs[0]);
      InsertAllUnique(if r.Ok? then r.value else store, ids[1..], docs[1..]);
    }
  }

  /** Successive inserts, each one kept only if it succeeds. */
  function InsertAll(store: seq<Buyer>, ids: seq<Id>, docs: seq<BuyerInput>): seq<Buyer>
    requires Unique(store) && |ids| == |docs|
    decreases |docs|
  {
    if docs == [] then store
    else
      var r := Insert(store, ids[0], docs[0]);
      InsertAll(if r.Ok? then r.value else store, ids[1..], docs[1..])
  }
}
