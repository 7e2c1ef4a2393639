/** Plain JavaScript objects as the React components keep them in state.
    An object is its list of own properties in insertion order, which is
    the order a `for…in` loop visits them; a well-formed object has no key
    twice. `Get` is property access (`None` is `undefined`) and `Set` is the
    spread update `{ ...o, [k]: v }`, which keeps an existing key where it
    is and appends a new one at the end. */
module JsObject {
  import opened Wrappers

  /** The values that occur in the components' state. Numbers are modelled
      as integers; `File` is a browser file picked in a file input. */
  datatype Value =
    | Undefined
    | Null
    | Bool(b: bool)
    | Num(n: int)
    | Str(s: string)
    | File(name: string)
    | Obj(fields: seq<(string, Value)>)

  type Object = seq<(string, Value)>

  function Keys(o: Object): seq<string>
  {
    if o == [] then [] else [o[0].0] + Keys(o[1..])
  }

  predicate Distinct(ks: seq<string>)
  {
    forall i, j :: 0 <= i < j < |ks| ==> ks[i] != ks[j]
  }

  /** No property name occurs twice. */
  predicate WellFormed(o: Object)
  {
    Distinct(Keys(o))
  }

  /** Property access `o[k]`; `None` stands for `undefined`. */
  function Get(o: Object, k: string): Option<Value>
  {
    if o == [] then None
    else if o[0].0 == k then Some(o[0].1)
    else Get(o[1..], k)
  }

  /** `{ ...o, [k]: v }`: an existing property keeps its position, a new one
      goes last. */
  function Set(o: Object, k: string, v: Value): Object
  {
    if o == [] then [(k, v)]
    else if o[0].0 == k then [(k, v)] + o[1..]
    else [o[0]] + Set(o[1..], k, v)
  }

  /** JavaScript truthiness of a property read (`undefined`, `null`,
      `false`, `0` and `''` are falsy); `None` is a missing property. */
  predicate Truthy(v: Option<Value>)
  {
    match v
    case None => false
    case Some(Undefined) => false
    case Some(Null) => false
    case Some(Bool(b)) => b
    case Some(Num(n)) => n != 0
    case Some(Str(s)) => s != ""
    case Some(File(_)) => true
    case Some(Obj(_)) => true
  }

  lemma {:induction false} KeysLength(o: Object)
    ensures |Keys(o)| == |o|
    ensures forall i :: 0 <= i < |o| ==> Keys(o)[i] == o[i].0
  {
    if o != [] {
      KeysLength(o[1..]);
    }
  }

  /** A property is defined exactly when its name is among the keys. */
  lemma {:induction false} GetDefined(o: Object, k: string)
    ensures Get(o, k).Some? <==> k in Keys(o)
  {
    if o != [] {
      GetDefined(o[1..], k);
    }
  }

  /** Reading back after a spread update: the updated key holds the new
      value and every other key reads as before. */
  lemma {:induction false} GetAfterSet(o: Object, k: string, v: Value, k2: string)
    ensures Get(Set(o, k, v), k2) == if k2 == k then Some(v) else Get(o, k2)
  {
    if o != [] && o[0].0 != k {
      GetAfterSet(o[1..], k, v, k2);
    }
  }

  /** The key list after assigning `k`: unchanged when `k` is present,
      `k` appended otherwise. */
  function AddKey(keys: seq<string>, k: string): seq<string>
  {
    if k in keys then keys else keys + [k]
  }

  /** A spread update keeps the key order, appending the key only when it
      is new. */
  lemma {:induction false} KeysAfterSet(o: Object, k: string, v: Value)
    ensures Keys(Set(o, k, v)) == if k in Keys(o) then Keys(o) else Keys(o) + [k]
  {
    if o != [] && o[0].0 != k {
      KeysAfterSet(o[1..], k, v);
    }
  }

  /** In an object with no key twice, each property is what `Get` reads
      for its key. */
  lemma {:induction false} GetAt(o: Object, i: nat)
    requires WellFormed(o) && i < |o|
    ensures Get(o, o[i].0) == Some(o[i].1)
  {
    KeysLength(o);
    if i > 0 {
      assert Keys(o)[0] != Keys(o)[i];
      KeysLength(o[1..]);
      assert WellFormed(o[1..]) by {
        forall a, b | 0 <= a < b < |Keys(o[1..])|
          ensures Keys(o[1..])[a] != Keys(o[1..])[b]
        {
          assert Keys(o)[a + 1] != Keys(o)[b + 1];
        }
      }
      GetAt(o[1..], i - 1);
    }
  }

  /** The position of the property `Get` reads. */
  function IndexOf(o: Object, k: string): (i: nat)
    requires Get(o, k).Some?
    ensures i < |o| && o[i] == (k, Get(o, k).value)
  {
    if o[0].0 == k then 0 else IndexOf(o[1..], k) + 1
  }

  /** A spread update never introduces a duplicate key. */
  lemma SetWellFormed(o: Object, k: string, v: Value)
    requires WellFormed(o)
    ensures WellFormed(Set(o, k, v))
  {
    KeysAfterSet(o, k, v);
  }

  /** What `FormData.append(key, value)` stores: a file is kept as a blob,
      anything else is converted with `String(value)`. */
  datatype Entry = Text(s: string) | Blob(name: string)

  /** The names of a list of `FormData` entries. */
  function Names(entries: seq<(string, Entry)>): (r: seq<string>)
    ensures |r| == |entries|
    ensures forall i :: 0 <= i < |entries| ==> r[i] == entries[i].0
  {
    if entries == [] then [] else [entries[0].0] + Names(entries[1..])
  }

  /** Entries appended one per property, in order, carry exactly the
      object's keys, so each key of a well-formed object is appended
      once. */
  lemma NamesMatchKeys(o: Object, entries: seq<(string, Entry)>)
    requires |entries| == |o|
    requires forall i :: 0 <= i < |o| ==> entries[i].0 == o[i].0
    ensures Names(entries) == Keys(o)
    ensures WellFormed(o) ==> Distinct(Names(entries))
  {
    KeysLength(o);
  }

  function FormValue(v: Value): Entry
  {
    match v
    case File(n) => Blob(n)
    case _ => Text(ToJsString(v))
  }

  /** `String(v)`; for an object this is `'[object Object]'`. */
  function ToJsString(v: Value): string
  {
    match v
    case Undefined => "undefined"
    case Null => "null"
    case Bool(b) => if b then "true" else "false"
    case Num(n) => IntToString(n)
    case Str(s) => s
    case File(n) => n
    case Obj(_) => "[object Object]"
  }

  /** `JSON.stringify(v)` for a value inside an object; string escapes
      are not modelled, a file has no own enumerable properties and so
      becomes `{}`, and a member whose value is `undefined` is skipped. */
  function Json(v: Value): string
    decreases v, 1
  {
    match v
    case Undefined => "null"
    case Null => "null"
    case Bool(b) => if b then "true" else "false"
    case Num(n) => IntToString(n)
    case Str(s) => "\"" + s + "\""
    case File(_) => "{}"
    case Obj(fs) => "{" + JoinComma(JsonMembers(v, 0)) + "}"
  }

  function JsonMembers(v: Value, i: nat): seq<string>
    requires v.Obj? && i <= |v.fields|
    decreases v, 0, |v.fields| - i
  {
    if i == |v.fields| then []
    else if v.fields[i].1 == Undefined then JsonMembers(v, i + 1)
    else ["\"" + v.fields[i].0 + "\":" + Json(v.fields[i].1)] + JsonMembers(v, i + 1)
  }

  function JoinComma(parts: seq<string>): string
  {
    if parts == [] then ""
    else if |parts| == 1 then parts[0]
    else parts[0] + "," + JoinComma(parts[1..])
  }

  function IntToString(n: int): string
  {
    if n < 0 then "-" + NatToString(-n) else NatToString(n)
  }

  function NatToString(n: nat): string
  {
    if n < 10 then ["0123456789"[n]] else NatToString(n / 10) + ["0123456789"[n % 10]]
  }
}
