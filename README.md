# Real-estate listings: a Dafny model

This project models the logic of a small real-estate marketplace. Sellers
list properties, each placed in an administrative division and one of its
districts. Buyers and sellers register through a form. A seller can filter
and sort their listings, and can edit or delete them.

The model covers:

- **The seller's listing query** (`ListingQuery`, the `GET` handler of
  `/api/seller/allproperties`):
  - the session check;
  - the base query (owner email) and the filter query (one equality per
    non-empty parameter);
  - the three-way answer: no listings, no match for the filters, or the
    listings;
  - the optional stable price sort, written as an in-place insertion sort
    on an array and proved equal to a functional specification;
  - division and district name resolution with `'N/A'` as the fallback;
  - the 500 answer of each store call that can fail.
- **The two schemas.** `PropertySchema` covers required fields, the
  `propertyType` and `parkingAvailability` enumerations and the amenity
  defaults. `BuyerSchema` covers required fields, the `gender` and
  `country` enumerations, and the unique `username`/`email` indexes as an
  invariant of the buyer collection. `RefData` holds the division and
  district tables.
- **The seller's filter page** (`AllPropertiesPage.Page`):
  - the district options that follow the division;
  - the URL built from the non-empty filters;
  - the state changes each server answer causes;
  - the delayed retry without filters;
  - the view precedence.
- **The seller's own listing page** (`SellerListings.Listings`): the
  delete dialog, delete-by-id, the edit modal's form record, replace-by-id
  after an update, and the status banner.
- **The edit modal** (`EditModal`): its district effect, the `isOpen`
  guard, and the changes it forwards.
- **The add-listing form** (`AddPropertyForm.PropertyForm`):
  - the initial record;
  - the field, checkbox, division, district and image handlers;
  - the seller-contact fill;
  - the division/district precheck;
  - the `FormData` encoding.
- **The registration form** (`RegisterForm.Registration`): the
  required-field precheck, the "user exists" branch, the `FormData`
  encoding and the reset after success.

Client state is modelled as classes:

- Each React state cell is a field.
- Each handler is a method with a `modifies` clause.
- Each `fetch` is replaced by its outcome, passed in as a parameter.
- A `setTimeout` callback is a method that stands for "the timer fired".
- `router.push` targets and request URLs are returned values.

A plain JavaScript object is an ordered list of `(key, value)` pairs
(`JsObject.Object`). Reading returns the first pair with the key. A spread
update `{ ...o, [k]: v }` replaces the value in place, or appends the key
when it is new. This keeps the `for…in` order that the `FormData` loops
rely on, for string keys that do not look like array indexes. JavaScript
lists integer-like keys first, in ascending order; no form in the modelled
code has such a key, and the model does not reorder them.

Behaviours of the code worth stating:

- The price sort is `Array.prototype.sort`, which is stable. Listings
  with equal prices therefore keep their store order; they are not left
  unordered.
- Any non-empty `sortOrder` other than `'asc'` sorts descending, not only
  `'desc'`.
- The update and delete routes answer 404 'Property not found' for an
  unknown id (app/api/seller/update-property/[id]/route.js:16-20 and
  app/api/seller/delete-property/[id]/route.js:12-16) and check no
  ownership. The pages only tell an OK answer from any other, so a 404 is
  one of the refused outcomes of `SellerListings.Listings.Delete` and
  `SellerListings.Listings.Update`.

Other behaviours the model makes explicit:

- The edit modal's division change leaves the district in place.
- The edit modal offers no district at all while the form's `division` is
  falsy or is the resolved `{ name }` object the listing arrived with.
- The modal's amenity checkboxes emit flat `amenities.<key>` properties.
  These never change the nested `amenities` object the checkboxes display.

## Model

| member | source | states |
|---|---|---|
| JsObject.GetAfterSet | app/components/SellerPropertyShow.jsx:100-103 | after a spread update, the updated key reads the new value and every other key reads what it read before |
| JsObject.KeysAfterSet | app/components/SellerPropertyShow.jsx:100-103 | a spread update keeps the key order and appends the key only when it is new |
| JsObject.SetWellFormed | app/components/SellerPropertyShow.jsx:100-103 | a spread update never creates a duplicate key |
| JsObject.NamesMatchKeys | app/components/RegisterFormPage.jsx:69-72 | an encoding with one entry per property, in order, names exactly the object's keys, each once |
| RefData.DistrictsOf | app/components/AllProperties.jsx:44-46 | a district is kept exactly when its division is the selected one, as many times as the table holds it |
| RefData.DistrictsOfKeepsOrder | app/components/AllProperties.jsx:44-46 | the kept districts keep their table order |
| RefData.DistrictsMatching | app/components/SellerPropertyInputFrom.jsx:87-89 | a district is kept exactly when the form's division value is the string equal to its division id, as many times as the table holds it, and never more districts than the table |
| RefData.FindDivision | app/api/seller/allproperties/route.js:67-69 | finds a division exactly when one with the id exists, and the one found is the first in table order |
| RefData.FindDistrict | app/api/seller/allproperties/route.js:74-76 | the populated district exists exactly when a district with that id exists, and carries that id |
| PropertySchema.ParseType | app/models/properties.js:6-10 | accepts exactly 'House' and 'Apartment', and the parsed value prints back as the input |
| PropertySchema.ParseParking | app/models/properties.js:35 | accepts exactly 'Yes' and 'No', and the parsed value prints back as the input |
| PropertySchema.Validate | app/models/properties.js:3-45 | a document is accepted exactly when every required field is present (strings non-empty) and both enumerations hold; the stored listing is valid, keeps every supplied value and defaults each omitted amenity to false; a rejection lists exactly the paths that are missing, empty or outside their enumeration, at least one |
| PropertySchema.ValidRoundTrip | app/models/properties.js:3-45 | every valid stored listing, resubmitted, is accepted and comes back unchanged |
| PropertySchema.NumbersUnconstrained | app/models/properties.js:11-14 | any values of the five numeric fields, negative included, keep an accepted document accepted |
| PropertySchema.DistrictNotTiedToDivision | app/models/properties.js:16-25 | any present division and district ids are accepted together |
| BuyerSchema.ParseGender | app/models/buyer.js:31-35 | accepts exactly 'Male', 'Female' and 'Others', and the parsed gender's stored name is the input |
| BuyerSchema.ParseCountry | app/models/buyer.js:36-40 | accepts exactly 'Bangladesh', 'India', 'Pakistan' and 'Nepal', and the parsed country's stored name is the input |
| BuyerSchema.NamesParse | app/models/buyer.js:31-40 | parsing the stored name of any gender or country gives it back |
| BuyerSchema.Validate | app/models/buyer.js:3-46 | accepted exactly when the six strings are non-empty and both enumerations hold; the buyer keeps every supplied value, gender, country and the optional image; a rejection lists exactly the failing paths |
| BuyerSchema.Insert | app/models/buyer.js:9-18 | an insert succeeds exactly when the document is valid and neither its username nor its email is taken; an invalid document is refused as a validation failure carrying exactly the failing paths, and a valid one only as a duplicate key; success appends the buyer and keeps both indexes unique; a duplicate-key refusal names a real clash |
| BuyerSchema.InsertAllUnique | app/models/buyer.js:9-18 | any sequence of inserts keeps username and email unique across the collection |
| ListingQuery.Param | app/api/seller/allproperties/route.js:19-22 | a parameter is present exactly when the query string names it, and its value is the one given at its first occurrence |
| ListingQuery.Filter | app/api/seller/allproperties/route.js:34-39 | a store `find` returns only records satisfying the query and never more than the store holds |
| ListingQuery.FilterCounts | app/api/seller/allproperties/route.js:34-39 | a record is returned exactly when it satisfies the query, as many times as the store holds it |
| ListingQuery.FilterKeepsOrder | app/api/seller/allproperties/route.js:34-39 | the returned records keep their store order |
| ListingQuery.BuildQueries | app/api/seller/allproperties/route.js:27-32 | the base query is the owner email alone; the filter query matches exactly the owner's listings that agree with every non-empty filter, and each of them also matches the base query |
| ListingQuery.SortByPricePermutes | app/api/seller/allproperties/route.js:58-62 | the price sort is a permutation of its input |
| ListingQuery.SortByPriceOrdered | app/api/seller/allproperties/route.js:58-62 | the price sort is non-decreasing for 'asc' and non-increasing otherwise |
| ListingQuery.InsertByPricePermutes | app/api/seller/allproperties/route.js:59-61 | one insertion adds exactly the inserted listing |
| ListingQuery.InsertByPriceOrdered | app/api/seller/allproperties/route.js:59-61 | inserting into a price-ordered list keeps it ordered |
| ListingQuery.InsertStep | app/api/seller/allproperties/route.js:59-61 | one pass of the in-place sort turns the prefix through `i` into the sorted insertion of element `i` and leaves the rest of the array alone |
| ListingQuery.SortByPriceStable | app/api/seller/allproperties/route.js:58-62 | listings of any one price come out of the sort in their store order |
| ListingQuery.InsertByPriceSamePrice | app/api/seller/allproperties/route.js:59-61 | one insertion places the new listing after every listing of its price and keeps their order |
| ListingQuery.SortInPlace | app/api/seller/allproperties/route.js:58-62 | the in-place sort leaves exactly the stable price order of the original array |
| ListingQuery.Resolve | app/api/seller/allproperties/route.js:66-78 | same length and order, every listing kept, division name from the first division with the listing's id or 'N/A' when none exists, and the district name from a district with that id or 'N/A' |
| ListingQuery.Named | app/api/seller/allproperties/route.js:66-78 | one listing keeps its record and gets the name of the first division with its division id, or 'N/A' when none exists, and the name of a district with its district id, or 'N/A' |
| ListingQuery.Get | app/api/seller/allproperties/route.js:8-92 | 401 without a session; 500 with the message of the first failing store call; 'No properties found' for an empty base set, taking precedence; the filter-criteria message when only the filtered set is empty; otherwise 200 with exactly the requested listings, sorted when `sortOrder` is non-empty, names resolved |
| ListingQuery.FetchedListings | app/api/seller/allproperties/route.js:27-62 | every listing of a successful answer is in the store, belongs to the session's email and agrees with every non-empty filter; the answer is a permutation of the requested listings, in price order when a sort was asked for |
| ListingQuery.WantedWithinOwned | app/api/seller/allproperties/route.js:34-46 | the filtered set lies within the base set, so an empty base set means an empty filtered set |
| AllPropertiesPage.ServerReadsFilters | app/components/AllProperties.jsx:56-64 | the endpoint reads each filter back with the page's value exactly when that filter is non-empty |
| AllPropertiesPage.HandleCases | app/components/AllProperties.jsx:67-99 | 'No properties found' empties the list, sets the error and clears the no-match flag; the filter-criteria message empties the list, sets the flag and adds one pending retry; any other OK answer shows its list and clears error and flag; a refusal or an exception only empties the list |
| AllPropertiesPage.ViewOf | app/components/AllProperties.jsx:118-132 | loading first, then the no-match notice, then the error for an empty list, then the non-empty list |
| AllPropertiesPage.ShowsEndpointAnswer | app/components/AllProperties.jsx:67-132 | each answer of the listing endpoint is shown as the fetched list, the 'No properties found' notice or the no-match notice with a retry; a 401 or 500 shows an emptied list under the previous notice |
| AllPropertiesPage.Page.constructor | app/components/AllProperties.jsx:6-18 | every state cell starts empty, false or `''` |
| AllPropertiesPage.Page.DistrictOptions | app/components/AllProperties.jsx:42-51 | with a division selected, exactly its districts, each as many times as the table holds it; with none, every district |
| AllPropertiesPage.Page.SyncDistricts | app/components/AllProperties.jsx:42-51 | after the effect, the district options are those of the current division |
| AllPropertiesPage.Page.ChangeDivision | app/components/AllProperties.jsx:158-161 | a new division clears the selected district and the options follow it |
| AllPropertiesPage.Page.ChangeSortOrder | app/components/AllProperties.jsx:137 | the sort select sets only the sort order |
| AllPropertiesPage.Page.ChangePropertyType | app/components/AllProperties.jsx:147 | the type select sets only the property type |
| AllPropertiesPage.Page.ChangeDistrict | app/components/AllProperties.jsx:176 | the district select sets only the district |
| AllPropertiesPage.Page.ResetFilters | app/components/AllProperties.jsx:104-108 | all four filters become `''` and the options become every district |
| AllPropertiesPage.Page.SearchParams | app/components/AllProperties.jsx:56-64 | the parameters are the non-empty filters, in the order sortOrder, propertyType, district, division |
| AllPropertiesPage.Page.FetchProperties | app/components/AllProperties.jsx:53-102 | the URL carries `?` and the non-empty filters only when there is one, or is the bare path without filters; the list state changes as `Handle` says; loading ends |
| AllPropertiesPage.Page.LoadTables | app/components/AllProperties.jsx:24-30 | both tables load exactly when both loads succeed; a failing load sets its error and leaves that table and every later one as they were |
| AllPropertiesPage.Page.FetchData | app/components/AllProperties.jsx:21-37 | the division and district tables load in turn; a failing load sets the error, keeps every later table and the list state otherwise as before, and skips the fetch; otherwise the filtered fetch runs and the list state changes as `Handle` says; loading ends |
| AllPropertiesPage.Page.RetryTimerFires | app/components/AllProperties.jsx:82-85 | a pending retry is consumed, clears the no-match flag and fetches the bare path, the list state changing as `Handle` says; without one nothing changes |
| AllPropertiesPage.Page.Mount | app/components/AllProperties.jsx:19-51 | after mounting, loading is over; a failing division load sets the error and keeps both tables, the list state and no listing request; a failing district load keeps the district table and likewise sends no request; with both tables loaded, both are stored, the district options are those of the current division, the listing request carries the four filters, and the list state changes as `Handle` says |
| SellerListings.Without | app/components/SellerPropertyShow.jsx:61 | a listing remains exactly when its `_id` differs from the deleted one, as many times as it was there |
| SellerListings.WithoutKeepsOrder | app/components/SellerPropertyShow.jsx:61 | the remaining listings keep their order |
| SellerListings.WithoutIdempotent | app/components/SellerPropertyShow.jsx:61 | removing the same id again removes nothing more |
| SellerListings.ReplaceById | app/components/SellerPropertyShow.jsx:123-127 | same length; every listing with the returned `_id` becomes the returned object and every other listing is unchanged |
| SellerListings.ReplaceByIdStable | app/components/SellerPropertyShow.jsx:123-127 | every position keeps its `_id`, and replacing again changes nothing |
| SellerListings.ReplaceByIdAbsent | app/components/SellerPropertyShow.jsx:123-127 | with no listing carrying the returned `_id`, the list is unchanged |
| SellerListings.ScreenOf | app/components/SellerPropertyShow.jsx:138-163 | an empty list shows only the add-property link; otherwise one card per listing and, for a non-empty message, a banner in the success style exactly when the message contains "success" |
| SellerListings.SuccessMessagesStyled | app/components/SellerPropertyShow.jsx:153-159 | the delete and update success messages are shown in the success style |
| SellerListings.FailureMessagesStyled | app/components/SellerPropertyShow.jsx:153-159 | the three failure messages are shown in the failure style |
| SellerListings.DeleteShows | app/components/SellerPropertyShow.jsx:60-64 | after a confirmed delete the deleted id is gone, the other listings are shown in order, and the banner is green |
| SellerListings.Listings.constructor | app/components/SellerPropertyShow.jsx:11-18 | empty list, empty form and message, dialog and modal closed |
| SellerListings.Listings.Load | app/components/SellerPropertyShow.jsx:20-45 | with a session, fetches the seller's listings by email and only an OK answer replaces the list; without one nothing is fetched |
| SellerListings.Listings.OpenDialog | app/components/SellerPropertyShow.jsx:75-78 | selects the listing and opens the dialog |
| SellerListings.Listings.CloseDialog | app/components/SellerPropertyShow.jsx:80-83 | closes the dialog and clears the selection |
| SellerListings.Listings.Delete | app/components/SellerPropertyShow.jsx:47-73 | nothing happens without a selection; a confirmed delete removes exactly the listings with the selected `_id`, closes the dialog, clears the selection and sets the success message; a refusal or an exception keeps list and dialog and sets the matching failure message; no delete is left in flight |
| SellerListings.Listings.OpenEditModal | app/components/SellerPropertyShow.jsx:85-89 | the form becomes a copy of the listing and the modal opens on it |
| SellerListings.Listings.CloseEditModal | app/components/SellerPropertyShow.jsx:91-96 | closes the modal, clears the selection, empties the form and clears the message |
| SellerListings.Listings.InputChange | app/components/SellerPropertyShow.jsx:98-104 | exactly the key `name`, dotted or not, takes the new value; every other key and the key order are kept |
| SellerListings.Listings.Update | app/components/SellerPropertyShow.jsx:106-136 | nothing happens when nothing is edited; the form is sent as JSON to the listing's update path; success replaces the listings with the returned `_id`, closes the modal and sets the success message; a refusal or an exception keeps everything and sets the failure message |
| SellerListings.Listings.MessageTimerFires | app/components/SellerPropertyShow.jsx:26-31 | the timer clears the message |
| EditModal.Display | app/components/EditModel.jsx:53 | a truthy value is shown as is and a falsy one, `0` included, as `''` |
| EditModal.Checked | app/components/EditModel.jsx:250 | a checkbox shows the nested amenity value when truthy, and exactly `false` when the value, or the `amenities` object, is missing or falsy |
| EditModal.DistrictOptions | app/components/EditModel.jsx:27-36 | with a truthy division, exactly the districts whose division id is that string, as many times as the table holds them; otherwise none |
| EditModal.ResolvedDivisionOffersNoDistricts | app/components/EditModel.jsx:27-36 | a form whose division is the resolved `{ name }` object offers no district |
| EditModal.FieldChange | app/components/EditModel.jsx:54 | a text input forwards its own name and string value; the division and district selects forward the same change under their fixed names |
| EditModal.FieldChangeSetsField | app/components/EditModel.jsx:54 | after a text input's change, its field reads the typed string and every other field reads what it read before |
| EditModal.DistrictChangeKeepsOptions | app/components/EditModel.jsx:180-187 | after a district change, the district reads the chosen id and the offered districts stay the same |
| EditModal.AmenityChange | app/components/EditModel.jsx:251-258 | a checkbox forwards the flat name `amenities.<key>` with its checked state, never `amenities` itself |
| EditModal.DivisionChangeKeepsDistrict | app/components/EditModel.jsx:153-160 | applying a division change sets the division and leaves the district as it was |
| EditModal.AmenityChangeNotShown | app/components/EditModel.jsx:246-313 | applying a checkbox change leaves the nested `amenities` object, and so every checkbox's display, unchanged |
| EditModal.DisplayAll | app/components/EditModel.jsx:53-323 | each field shows its own value, or `''` for a falsy one |
| EditModal.CheckAll | app/components/EditModel.jsx:246-313 | each checkbox shows its own amenity state |
| EditModal.Modal.constructor | app/components/EditModel.jsx:4-7 | both tables, the options and the error start empty |
| EditModal.Modal.Load | app/components/EditModel.jsx:9-25 | the division table loads, then the district table; a failure sets the error and leaves the later table unloaded |
| EditModal.Modal.SyncDistricts | app/components/EditModel.jsx:27-36 | after the effect, the options are those of the form's division |
| EditModal.Modal.Render | app/components/EditModel.jsx:38-352 | nothing while closed; when open, every field's shown value, every checkbox state and both option lists |
| EditModal.OpenModalShows | app/components/EditModel.jsx:38-352 | the open modal offers exactly the districts of the form's division, and a field holding `0` shows as empty |
| AddPropertyForm.InitialKeys | app/components/SellerPropertyInputFrom.jsx:7-31 | the initial form has its eighteen keys, each once |
| AddPropertyForm.InitialForm | app/components/SellerPropertyInputFrom.jsx:7-31 | the initial form has type 'House', parking 'Yes', every amenity false, empty division and district, and a null image |
| AddPropertyForm.Encode | app/components/SellerPropertyInputFrom.jsx:118-127 | one entry per property, in order; `amenities` as its JSON text and every other value as `FormData.append` stores it |
| AddPropertyForm.EncodingAppendsEachKeyOnce | app/components/SellerPropertyInputFrom.jsx:118-127 | the encoding names every key of the form exactly once, and each non-amenity field appears with its own value |
| AddPropertyForm.PropertyForm.constructor | app/components/SellerPropertyInputFrom.jsx:7-40 | starts from the initial form, with empty tables and no error |
| AddPropertyForm.PropertyForm.FilteredDistricts | app/components/SellerPropertyInputFrom.jsx:87-89 | exactly the districts whose division id equals the selected division, as many times as the table holds them |
| AddPropertyForm.PropertyForm.Load | app/components/SellerPropertyInputFrom.jsx:42-58 | the division table loads, then the district table; a failure sets the error and leaves the later table unloaded |
| AddPropertyForm.PropertyForm.HandleChange | app/components/SellerPropertyInputFrom.jsx:91-101 | a checkbox sets only `amenities[name]`, with key order kept; any other input sets only `formData[name]` |
| AddPropertyForm.PropertyForm.ChangeDivision | app/components/SellerPropertyInputFrom.jsx:273-278 | a new division resets the district to `''` and changes nothing else; the form's keys keep their order, with `division` and `district` appended only if missing |
| AddPropertyForm.PropertyForm.ChangeDistrict | app/components/SellerPropertyInputFrom.jsx:300-305 | sets only the district; the keys keep their order, with `district` appended only if missing |
| AddPropertyForm.PropertyForm.ImageChange | app/components/SellerPropertyInputFrom.jsx:103-105 | sets only the image, to the picked file or `undefined`; the keys keep their order, with `image` appended only if missing |
| AddPropertyForm.PropertyForm.FillSellerDetails | app/components/SellerPropertyInputFrom.jsx:60-85 | with a signed-in email, the seller record's fullname, email and phone become the contact fields and nothing else changes, the keys keeping their order with the missing contact keys appended; otherwise nothing is fetched |
| AddPropertyForm.WithContactEffect | app/components/SellerPropertyInputFrom.jsx:69-74 | spreading the seller's contact into a form sets exactly the three contact fields and appends only the contact keys it lacked |
| AddPropertyForm.PropertyForm.Submit | app/components/SellerPropertyInputFrom.jsx:107-141 | without a truthy division and district nothing is sent and the precheck message is set; otherwise the encoded form is sent, acceptance navigates to the dashboard, a refusal or an exception sets its error; loading is off again in every case |
| RegisterForm.InitialForm | app/components/RegisterFormPage.jsx:9-19 | the initial form has gender 'Male', an empty country, a null image and empty required fields |
| RegisterForm.InitialKeys | app/components/RegisterFormPage.jsx:9-19 | the initial form has its nine keys, each once |
| RegisterForm.InitialIncomplete | app/components/RegisterFormPage.jsx:36-46 | the initial form fails the precheck |
| RegisterForm.CompleteIgnoresOptional | app/components/RegisterFormPage.jsx:36-43 | changing country, gender or image never changes the precheck's verdict |
| RegisterForm.Encode | app/components/RegisterFormPage.jsx:69-72 | one entry per property, in order, each value as `FormData.append` stores it |
| RegisterForm.EncodingAppendsEachKeyOnce | app/components/RegisterFormPage.jsx:69-72 | the encoding names every key of the form exactly once, each with its own value |
| RegisterForm.Registration.constructor | app/components/RegisterFormPage.jsx:9-20 | starts from the initial form and an empty message |
| RegisterForm.Registration.HandleChange | app/components/RegisterFormPage.jsx:24-30 | a file input stores the picked file, or `undefined`, and any other input its value; nothing else changes, and the keys keep their order with the input's name appended only if missing |
| RegisterForm.Registration.Submit | app/components/RegisterFormPage.jsx:32-101 | an incomplete form sends nothing and sets 'All fields are necessary.'; otherwise the exists check is sent first and an existing user stops there; then the encoded form is sent, success restores the initial form, clears the message and goes to `/{role}/login`, and failure or an exception sets its message |
| RegisterForm.Registration.MessageTimerFires | app/components/RegisterFormPage.jsx:103-108 | the timer clears the message |

## Left out

- Database access: `connectToMongoDB`, `find`, `populate`, `lean` and
  `exec` are sequence filters over an in-memory store. The failure of a
  store call is an input. Connection failure before the `try` is not
  modelled.
- ObjectId casting: ids are opaque strings compared by value, and
  `timestamps` are not stored.
- Sessions and sign-in: the session is an optional email parameter. The
  login form and the page guards that redirect on a missing session are not
  part of this model.
- The upload, update, delete, seller-info, seller-listing, user-exists and
  register endpoints are not part of this model. Their answers are outcome
  parameters, so server-side not-found and ownership checks do not appear.
- Reading a response body: a failing `res.json()` is folded into the
  "threw" outcome. A 200 answer of the listing endpoint with no
  `properties` field stores `undefined` in the page
  (app/components/AllProperties.jsx:89), and reading its `length` while
  rendering (line 128) throws; the model reads the missing field as an
  empty list and shows that instead.
- Timers: the 3000 ms retry and the 1500 ms message clear are discrete
  "timer fired" methods, fired in any order the caller chooses. The retry
  timer is never cancelled, so the page counts its pending retries; the
  message timers' cancellation on a new message is not modelled, so a
  fired message timer always clears the message.
- Loading the division and district tables (app/components/AllProperties.jsx:24-30,
  app/components/EditModel.jsx:12-18, app/components/SellerPropertyInputFrom.jsx:45-51)
  never checks `res.ok`, so an error answer's JSON body would become the
  table. The load outcome is a table or a thrown error and cannot express
  that case.
- Browser form validation: the fourteen `required` attributes of the
  add-listing form (app/components/SellerPropertyInputFrom.jsx:169-488)
  let the browser block a submission with an empty required field before
  `handleSubmit` runs. `AddPropertyForm.PropertyForm.Submit` assumes the
  browser let the submission through and checks only what the handler
  checks.
- React batching: state updates take effect immediately.
  - AllPropertiesPage.Page.ResetFilters: only clears the four filters. The
    fetch that `resetFilters` starts with the stale filter values is not
    modelled.
- AllPropertiesPage.QueryString: parameters are joined as `name=value`
  pairs without percent-encoding.
- JsObject.Json: string values are written without JSON escapes.
- AddPropertyForm.PropertyForm.HandleChange: requires that a non-checkbox
  change is not named `amenities`. No input of the form has that name, and
  a string there would break the form's nested amenity record.
- Prices and the other numbers are integers. The comparator's
  floating-point subtraction and `toLocaleString` formatting are not
  modelled.
- Presentation: markup, styling, the image slider, the dashboard shell and
  the delete confirmation dialog's markup are not modelled.
