/** The registration form (`RegisterForm`) for a buyer or a seller: the
    form record and its reset values, the change handler, and the submit
    handler with its required-field precheck, the "user exists" check, the
    `FormData` it posts and what a successful registration resets.

    The two fetches are replaced by their outcomes; `router.push` is the
    returned navigation target and the 1500 ms timer that clears the
    message is `MessageTimerFires`.

    Line numbers in this module refer to
    app/components/RegisterFormPage.jsx. */
module RegisterForm {
  import opened Wrappers
  import opened JsObject

  const AllFieldsMessage := "All fields are necessary."
  const UserExistsMessage := "User already exists."
  const RegistrationFailedMessage := "User registration failed."
  const RegistrationErrorMessage := "An error occurred during registration."

  /** Lines 9-19 and 81-91: the initial form, which a successful
      registration restores. */
  const Initial: Object := [
    ("fullname", Str("")), ("email", Str("")), ("username", Str("")), ("phone", Str("")),
    ("address", Str("")), ("password", Str("")), ("country", Str("")), ("image", Null),
    ("gender", Str("Male"))]

  /** The fields the precheck requires, in the order it tests them. */
  const Required: seq<string> := ["fullname", "username", "email", "phone", "address", "password"]

  /** The keys of the initial form, in order. */
  const InitialNames: seq<string> :=
    ["fullname", "email", "username", "phone", "address", "password", "country", "image", "gender"]

  /** No key of the initial form occurs twice. */
  lemma InitialKeys()
    ensures Keys(Initial) == InitialNames
    ensures WellFormed(Initial)
  {
    KeysLength(Initial);
    assert InitialNames ==
      ["fullname", "email", "username", "phone", "address", "password", "country", "image", "gender"];
    forall i, j | 0 <= i < j < |InitialNames|
      ensures InitialNames[i] != InitialNames[j]
    {
      assert |InitialNames[i]| != |InitialNames[j]| || InitialNames[i][0] != InitialNames[j][0];
    }
  }

  lemma InitialForm()
    ensures WellFormed(Initial)
    ensures Get(Initial, "gender") == Some(Str("Male"))
    ensures Get(Initial, "country") == Some(Str(""))
    ensures Get(Initial, "image") == Some(Null)
    ensures forall k :: k in Required ==> Get(Initial, k) == Some(Str(""))
  {
    InitialKeys();
    forall k | k in Required
      ensures Get(Initial, k) == Some(Str(""))
    {
      if k == "fullname" { GetAt(Initial, 0); }
      else if k == "email" { GetAt(Initial, 1); }
      else if k == "username" { GetAt(Initial, 2); }
      else if k == "phone" { GetAt(Initial, 3); }
      else if k == "address" { GetAt(Initial, 4); }
      else { GetAt(Initial, 5); }
    }
    GetAt(Initial, 6);
    GetAt(Initial, 7);
    GetAt(Initial, 8);
  }

  /** Lines 36-43: every required field holds a truthy value; `country`,
      `gender` and `image` are not looked at. */
  predicate Complete(formData: Object)
  {
    forall k :: k in Required ==> Truthy(Get(formData, k))
  }

  /** The initial form fails the precheck. */
  lemma InitialIncomplete()
    ensures !Complete(Initial)
  {
    InitialForm();
    assert "fullname" in Required;
  }

  /** The precheck does not depend on `country`, `gender` or `image`. */
  lemma CompleteIgnoresOptional(formData: Object, k: string, v: Value)
    requires k in ["country", "gender", "image"]
    ensures Complete(Set(formData, k, v)) <==> Complete(formData)
  {
    forall r | r in Required
      ensures Get(Set(formData, k, v), r) == Get(formData, r)
    {
      GetAfterSet(formData, k, v, r);
    }
  }

  /** Lines 69-72: one `append` per property of the form, in order, each
      value as `FormData.append` stores it. */
  method Encode(formData: Object) returns (entries: seq<(string, Entry)>)
    ensures |entries| == |formData|
    ensures forall i :: 0 <= i < |formData| ==> entries[i] == (formData[i].0, FormValue(formData[i].1))
  {
    entries := [];
    for i := 0 to |formData|
      invariant |entries| == i
      invariant forall j :: 0 <= j < i ==> entries[j] == (formData[j].0, FormValue(formData[j].1))
    {
      entries := entries + [(formData[i].0, FormValue(formData[i].1))];
    }
  }

  /** An encoding of a well-formed form appends every key exactly once, and
      each field reads back as the form holds it. */
  lemma EncodingAppendsEachKeyOnce(formData: Object, entries: seq<(string, Entry)>, key: string)
    requires WellFormed(formData)
    requires |entries| == |formData|
    requires forall i :: 0 <= i < |formData| ==> entries[i] == (formData[i].0, FormValue(formData[i].1))
    ensures Names(entries) == Keys(formData)
    ensures Distinct(Names(entries))
    ensures Get(formData, key).Some? ==>
      exists i :: 0 <= i < |entries| && entries[i] == (key, FormValue(Get(formData, key).value))
  {
    NamesMatchKeys(formData, entries);
    if Get(formData, key).Some? {
      var i := IndexOf(formData, key);
      assert entries[i] == (key, FormValue(Get(formData, key).value));
    }
  }

  /** The body of the "user exists" request: the form's email and
      username. */
  function ExistsBody(formData: Object): string
  {
    Json(Obj([("email", Get(formData, "email").GetOr(Undefined)),
              ("username", Get(formData, "username").GetOr(Undefined))]))
  }

  /** The `user` field of the "user exists" answer, or a thrown error. */
  datatype ExistsOutcome = Answered(user: Option<Value>) | ExistsThrew

  datatype RegisterOutcome = Registered | Refused | RegisterThrew

  class Registration {
    var formData: Object
    var msg: string

    predicate Valid()
      reads this
    {
      WellFormed(formData)
    }

    constructor ()
      ensures Valid() && formData == Initial && msg == ""
    {
      formData := Initial;
      msg := "";
      InitialForm();
    }

    /** Lines 24-30: a file input stores `files[0]` (`undefined` when no
        file was picked), any other input its value; nothing else
        changes. */
    method HandleChange(name: string, value: string, isFile: bool, file: Option<string>)
      modifies this`formData
      requires Valid()
      ensures Valid()
      ensures Get(formData, name)
              == Some(if !isFile then Str(value) else if file.Some? then File(file.value) else Undefined)
      ensures forall k :: k != name ==> Get(formData, k) == Get(old(formData), k)
      ensures Keys(formData) == AddKey(Keys(old(formData)), name)
    {
      var v := if !isFile then Str(value) else if file.Some? then File(file.value) else Undefined;
      KeysAfterSet(formData, name, v);
      forall k {
        GetAfterSet(formData, name, v, k);
      }
      SetWellFormed(formData, name, v);
      formData := Set(formData, name, v);
    }

    /** Lines 32-101: an incomplete form sends nothing. Otherwise the
        "user exists" check runs first; a truthy `user` stops there.
        Otherwise the encoded form is posted: success restores the initial
        form, clears the message and goes to the role's login page; a
        refusal or an error only sets the message. */
    method Submit(role: string, userCheck: ExistsOutcome, outcome: RegisterOutcome)
      returns (existsRequest: Option<(string, string)>, sent: Option<seq<(string, Entry)>>,
               navigate: Option<string>)
      modifies this`formData, this`msg
      requires Valid()
      ensures Valid()
      ensures !Complete(old(formData)) ==>
        && existsRequest == None && sent == None && navigate == None
        && msg == AllFieldsMessage && formData == old(formData)
      ensures Complete(old(formData)) ==>
        existsRequest == Some(("/api/" + role + "/userExists", ExistsBody(old(formData))))
      ensures Complete(old(formData)) && userCheck.ExistsThrew? ==>
        sent == None && navigate == None && msg == RegistrationErrorMessage
        && formData == old(formData)
      ensures Complete(old(formData)) && userCheck.Answered? && Truthy(userCheck.user) ==>
        sent == None && navigate == None && msg == UserExistsMessage && formData == old(formData)
      ensures Complete(old(formData)) && userCheck.Answered? && !Truthy(userCheck.user) ==>
        && sent.Some? && |sent.value| == |old(formData)|
        && (forall i :: 0 <= i < |old(formData)| ==>
              sent.value[i] == (old(formData)[i].0, FormValue(old(formData)[i].1)))
        && (outcome.Registered? ==>
              formData == Initial && msg == "" && navigate == Some("/" + role + "/login"))
        && (outcome.Refused? ==>
              formData == old(formData) && msg == RegistrationFailedMessage && navigate == None)
        && (outcome.RegisterThrew? ==>
              formData == old(formData) && msg == RegistrationErrorMessage && navigate == None)
    {
      existsRequest, sent, navigate := None, None, None;
      if !Truthy(Get(formData, "fullname")) || !Truthy(Get(formData, "username"))
         || !Truthy(Get(formData, "email")) || !Truthy(Get(formData, "phone"))
         || !Truthy(Get(formData, "address")) || !Truthy(Get(formData, "password"))
      {
        msg := AllFieldsMessage;
        return;
      }
      existsRequest := Some(("/api/" + role + "/userExists", ExistsBody(formData)));
      if userCheck.ExistsThrew? {
        msg := RegistrationErrorMessage;
        return;
      }
      if Truthy(userCheck.user) {
        msg := UserExistsMessage;
        return;
      }
      var entries := Encode(formData);
      sent := Some(entries);
      match outcome {
        case Registered =>
          formData := Initial;
          InitialForm();
          msg := "";
          navigate := Some("/" + role + "/login");
        case Refused =>
          msg := RegistrationFailedMessage;
        case RegisterThrew =>
          msg := RegistrationErrorMessage;
      }
    }

    /** Lines 103-108: the 1500 ms timer set for a non-empty message clears
        it. */
    method MessageTimerFires()
      modifies this`msg
      ensures msg == ""
    {
      if msg != "" {
        msg := "";
      }
    }
  }
}
