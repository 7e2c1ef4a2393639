/** The seller's own listing page (`SellerPropertiesShow`): the fetched
    list, the delete dialog, the edit modal's form record and the status
    banner. Each React state cell is a field of `Listings` and each handler
    a method; the outcome of every `fetch` is a parameter, and the 1500 ms
    timer that clears the banner is `MessageTimerFires`.

    A listing is the plain object the page received as JSON, so it is a
    `JsObject.Object`; listings are matched by their `_id` property with
    value equality, which is what `===` does on the string ids of parsed
    JSON.

    Line numbers in this module refer to
    app/components/SellerPropertyShow.jsx. */
module SellerListings {
  import opened Wrappers
  import opened JsObject

  const DeletedMessage := "Property deleted successfully!"
  const DeleteFailedMessage := "Failed to delete property. Please try again."
  const ErrorMessage := "An error occurred. Please try again."
  const UpdatedMessage := "Property updated successfully!"
  const UpdateFailedMessage := "Failed to update property. Please try again."

  const ListPrefix := "/api/seller/property/"
  const DeletePrefix := "/api/seller/delete-property/"
  const UpdatePrefix := "/api/seller/update-property/"

  /** `p._id` (`None` is `undefined`). */
  function IdOf(p: Object): Option<Value>
  {
    Get(p, "_id")
  }

  /** `${p._id}` inside a URL template. */
  function IdText(p: Object): string
  {
    ToJsString(IdOf(p).GetOr(Undefined))
  }

  /** `properties.filter((p) => p._id !== id)`. */
  function Without(ps: seq<Object>, id: Option<Value>): (r: seq<Object>)
    ensures |r| <= |ps|
    ensures forall p :: p in r <==> p in ps && IdOf(p) != id
    ensures forall p :: multiset(r)[p] == if IdOf(p) != id then multiset(ps)[p] else 0
  {
    if ps == [] then []
    else
      assert ps == [ps[0]] + ps[1..];
      if IdOf(ps[0]) != id then [ps[0]] + Without(ps[1..], id)
      else Without(ps[1..], id)
  }

  /** The listings that remain after a delete keep their order. */
  lemma {:induction false} WithoutKeepsOrder(ps: seq<Object>, id: Option<Value>)
    ensures Subsequence(Without(ps, id), ps)
  {
    if ps != [] {
      WithoutKeepsOrder(ps[1..], id);
    }
  }

  /** Deleting the same id twice removes nothing more. */
  lemma {:induction false} WithoutIdempotent(ps: seq<Object>, id: Option<Value>)
    ensures Without(Without(ps, id), id) == Without(ps, id)
  {
    if ps != [] {
      WithoutIdempotent(ps[1..], id);
      if IdOf(ps[0]) != id {
        assert ([ps[0]] + Without(ps[1..], id))[1..] == Without(ps[1..], id);
      }
    }
  }

  /** `properties.map((p) => p._id === u._id ? u : p)`. */
  function ReplaceById(ps: seq<Object>, u: Object): (r: seq<Object>)
    ensures |r| == |ps|
    ensures forall i :: 0 <= i < |ps| && IdOf(ps[i]) == IdOf(u) ==> r[i] == u
    ensures forall i :: 0 <= i < |ps| && IdOf(ps[i]) != IdOf(u) ==> r[i] == ps[i]
  {
    if ps == [] then []
    else [if IdOf(ps[0]) == IdOf(u) then u else ps[0]] + ReplaceById(ps[1..], u)
  }

  /** A replace keeps every position's id, so the page's list keys are
      unchanged, and replacing again with the same object changes
      nothing. */
  lemma ReplaceByIdStable(ps: seq<Object>, u: Object)
    ensures forall i :: 0 <= i < |ps| ==> IdOf(ReplaceById(ps, u)[i]) == IdOf(ps[i])
    ensures ReplaceById(ReplaceById(ps, u), u) == ReplaceById(ps, u)
  {
    var r := ReplaceById(ps, u);
    var rr := ReplaceById(r, u);
    assert |rr| == |r|;
    forall i | 0 <= i < |r|
      ensures rr[i] == r[i]
    {
      if IdOf(ps[i]) == IdOf(u) {
        assert r[i] == u;
      }
    }
  }

  /** When no listing carries the new object's id, a replace is the
      identity: an update never adds a listing. */
  lemma ReplaceByIdAbsent(ps: seq<Object>, u: Object)
    requires forall p :: p in ps ==> IdOf(p) != IdOf(u)
    ensures ReplaceById(ps, u) == ps
  {
    var r := ReplaceById(ps, u);
    forall i | 0 <= i < |ps|
      ensures r[i] == ps[i]
    {
      assert ps[i] in ps;
    }
  }

  /** `part` occurs in `message` starting at index `i`. */
  predicate OccursAt(message: string, part: string, i: int)
  {
    0 <= i <= |message| - |part| && message[i..i + |part|] == part
  }

  /** `message.includes(part)`. */
  predicate Includes(message: string, part: string)
  {
    exists i :: 0 <= i <= |message| - |part| && OccursAt(message, part, i)
  }

  datatype Banner = Banner(text: string, success: bool)

  /** What the page shows: only the add-property link for an empty list;
      otherwise the banner (green when the message mentions "success") and
      one card per listing. */
  datatype Screen = AddPropertyLink | Cards(banner: Option<Banner>, items: seq<Object>)

  function ScreenOf(properties: seq<Object>, message: string): (r: Screen)
    ensures r.AddPropertyLink? <==> properties == []
    ensures r.Cards? ==> r.items == properties
    ensures r.Cards? ==> (r.banner.Some? <==> message != "")
    ensures r.Cards? && r.banner.Some? ==>
      r.banner.value.text == message && (r.banner.value.success <==> Includes(message, "success"))
  {
    if |properties| == 0 then AddPropertyLink
    else if message == "" then Cards(None, properties)
    else Cards(Some(Banner(message, Includes(message, "success"))), properties)
  }

  /** The two success messages are shown in the success style. */
  lemma SuccessMessagesStyled()
    ensures Includes(DeletedMessage, "success")
    ensures Includes(UpdatedMessage, "success")
  {
    assert OccursAt(DeletedMessage, "success", 17);
    assert OccursAt(UpdatedMessage, "success", 17);
  }

  /** A message with no "su" in it does not mention "success". */
  lemma {:induction false} NoSuccessWithoutSu(m: string)
    requires forall j :: 0 <= j < |m| - 1 ==> !(m[j] == 's' && m[j + 1] == 'u')
    ensures !Includes(m, "success")
  {
    forall i | 0 <= i <= |m| - 7
      ensures !OccursAt(m, "success", i)
    {
      assert !(m[i] == 's' && m[i + 1] == 'u');
      assert m[i..i + 7][0] == m[i] && m[i..i + 7][1] == m[i + 1];
    }
  }

  /** The three failure messages are shown in the failure style. */
  lemma FailureMessagesStyled()
    ensures !Includes(DeleteFailedMessage, "success")
    ensures !Includes(UpdateFailedMessage, "success")
    ensures !Includes(ErrorMessage, "success")
  {
    NoSuccessWithoutSu(DeleteFailedMessage);
    NoSuccessWithoutSu(UpdateFailedMessage);
    NoSuccessWithoutSu(ErrorMessage);
  }

  datatype LoadOutcome = Loaded(data: seq<Object>) | Refused | Threw

  datatype DeleteOutcome = Deleted | DeleteRefused | DeleteThrew

  datatype UpdateOutcome = Updated(updated: Object) | UpdateRefused | UpdateThrew

  class Listings {
    var properties: seq<Object>
    var dialogOpen: bool
    var propertyToDelete: Option<Object>
    var isDeleting: bool
    var editModalOpen: bool
    var propertyToEdit: Option<Object>
    var formData: Object
    var message: string

    /** The delete dialog is open exactly while a listing is selected for
        deletion, the edit modal exactly while one is being edited, and no
        delete request is in flight between handlers. */
    predicate Valid()
      reads this
    {
      && (dialogOpen <==> propertyToDelete.Some?)
      && (editModalOpen <==> propertyToEdit.Some?)
      && !isDeleting
    }

    function Shown(): Screen
      reads this
    {
      ScreenOf(properties, message)
    }

    constructor ()
      ensures Valid()
      ensures properties == [] && formData == [] && message == ""
      ensures !dialogOpen && !editModalOpen
    {
      properties := [];
      dialogOpen, propertyToDelete, isDeleting := false, None, false;
      editModalOpen, propertyToEdit := false, None;
      formData := [];
      message := "";
    }

    /** Lines 20-24 and 33-45: with a session, fetches the seller's
        listings; only an OK answer replaces the list. */
    method Load(session: Option<string>, outcome: LoadOutcome) returns (url: Option<string>)
      modifies this`properties
      ensures session.None? ==> url == None && properties == old(properties)
      ensures session.Some? ==> url == Some(ListPrefix + session.value)
      ensures session.Some? && outcome.Loaded? ==> properties == outcome.data
      ensures !outcome.Loaded? ==> properties == old(properties)
    {
      if session.None? {
        return None;
      }
      url := Some(ListPrefix + session.value);
      if outcome.Loaded? {
        properties := outcome.data;
      }
    }

    /** Lines 75-78. */
    method OpenDialog(p: Object)
      modifies this`dialogOpen, this`propertyToDelete
      requires Valid()
      ensures Valid() && dialogOpen && propertyToDelete == Some(p)
    {
      propertyToDelete := Some(p);
      dialogOpen := true;
    }

    /** Lines 80-83. */
    method CloseDialog()
      modifies this`dialogOpen, this`propertyToDelete
      requires Valid()
      ensures Valid() && !dialogOpen && propertyToDelete == None
    {
      dialogOpen := false;
      propertyToDelete := None;
    }

    /** Lines 47-73: nothing happens without a selection. A confirmed
        delete removes every listing with the selected id and closes the
        dialog; a refused or failed one only sets the banner. */
    method Delete(outcome: DeleteOutcome) returns (url: Option<string>)
      modifies this`properties, this`dialogOpen, this`propertyToDelete, this`isDeleting,
               this`message
      requires Valid()
      ensures Valid()
      ensures old(propertyToDelete).None? ==>
        && url == None && properties == old(properties) && message == old(message)
        && !dialogOpen && propertyToDelete == None
      ensures old(propertyToDelete).Some? ==>
        url == Some(DeletePrefix + IdText(old(propertyToDelete).value))
      ensures old(propertyToDelete).Some? && outcome.Deleted? ==>
        && properties == Without(old(properties), IdOf(old(propertyToDelete).value))
        && !dialogOpen && propertyToDelete == None && message == DeletedMessage
      ensures old(propertyToDelete).Some? && !outcome.Deleted? ==>
        && properties == old(properties)
        && dialogOpen && propertyToDelete == old(propertyToDelete)
        && message == if outcome.DeleteRefused? then DeleteFailedMessage else ErrorMessage
    {
      if propertyToDelete.None? {
        return None;
      }
      var selected := propertyToDelete.value;
      isDeleting := true;
      url := Some(DeletePrefix + IdText(selected));
      match outcome {
        case Deleted =>
          properties := Without(properties, IdOf(selected));
          dialogOpen := false;
          propertyToDelete := None;
          message := DeletedMessage;
        case DeleteRefused =>
          message := DeleteFailedMessage;
        case DeleteThrew =>
          message := ErrorMessage;
      }
      isDeleting := false;
    }

    /** Lines 85-89: the form starts as a copy of the listing. */
    method OpenEditModal(p: Object)
      modifies this`propertyToEdit, this`formData, this`editModalOpen
      requires Valid()
      ensures Valid() && editModalOpen && propertyToEdit == Some(p) && formData == p
    {
      propertyToEdit := Some(p);
      formData := p;
      editModalOpen := true;
    }

    /** Lines 91-96. */
    method CloseEditModal()
      modifies this`editModalOpen, this`propertyToEdit, this`formData, this`message
      requires Valid()
      ensures Valid() && !editModalOpen && propertyToEdit == None
      ensures formData == [] && message == ""
    {
      editModalOpen := false;
      propertyToEdit := None;
      formData := [];
      message := "";
    }

    /** Lines 98-104: `{ ...formData, [name]: value }`. A dotted name such
        as `amenities.cctv` is one flat key. */
    method InputChange(name: string, value: Value)
      modifies this`formData
      ensures forall k :: Get(formData, k) == if k == name then Some(value) else Get(old(formData), k)
      ensures Keys(formData) == if name in Keys(old(formData)) then Keys(old(formData))
                                else Keys(old(formData)) + [name]
    {
      forall k {
        GetAfterSet(formData, name, value, k);
      }
      KeysAfterSet(formData, name, value);
      formData := Set(formData, name, value);
    }

    /** Lines 106-136: nothing happens unless a listing is being edited.
        The request carries the form as JSON; an accepted update replaces
        the listings with the returned id and closes the modal. */
    method Update(outcome: UpdateOutcome) returns (request: Option<(string, string)>)
      modifies this`properties, this`editModalOpen, this`propertyToEdit, this`formData,
               this`message
      requires Valid()
      ensures Valid()
      ensures old(propertyToEdit).None? ==>
        && request == None && properties == old(properties) && formData == old(formData)
        && message == old(message) && !editModalOpen
      ensures old(propertyToEdit).Some? ==>
        request == Some((UpdatePrefix + IdText(old(propertyToEdit).value), Json(Obj(old(formData)))))
      ensures old(propertyToEdit).Some? && outcome.Updated? ==>
        && properties == ReplaceById(old(properties), outcome.updated)
        && !editModalOpen && propertyToEdit == None && formData == []
        && message == UpdatedMessage
      ensures old(propertyToEdit).Some? && !outcome.Updated? ==>
        && properties == old(properties) && formData == old(formData)
        && editModalOpen && propertyToEdit == old(propertyToEdit)
        && message == if outcome.UpdateRefused? then UpdateFailedMessage else ErrorMessage
    {
      if propertyToEdit.None? {
        return None;
      }
      request := Some((UpdatePrefix + IdText(propertyToEdit.value), Json(Obj(formData))));
      match outcome {
        case Updated(u) =>
          properties := ReplaceById(properties, u);
          CloseEditModal();
          message := UpdatedMessage;
        case UpdateRefused =>
          message := UpdateFailedMessage;
        case UpdateThrew =>
          message := ErrorMessage;
      }
    }

    /** Lines 26-31: the 1500 ms timer set for a non-empty message clears
        it. */
    method MessageTimerFires()
      modifies this`message
      ensures message == ""
    {
      if message != "" {
        message := "";
      }
    }
  }

  /** After a confirmed delete the deleted id is gone from the page and
      every other listing is still shown, in order, under the success
      banner. */
  lemma DeleteShows(ps: seq<Object>, selected: Object)
    requires Without(ps, IdOf(selected)) != []
    ensures ScreenOf(Without(ps, IdOf(selected)), DeletedMessage).banner
            == Some(Banner(DeletedMessage, true))
    ensures forall p :: p in ScreenOf(Without(ps, IdOf(selected)), DeletedMessage).items ==>
      IdOf(p) != IdOf(selected)
    ensures Subsequence(ScreenOf(Without(ps, IdOf(selected)), DeletedMessage).items, ps)
  {
    SuccessMessagesStyled();
    WithoutKeepsOrder(ps, IdOf(selected));
  }
}
