/** A JavaScript value as it arrives from `JSON.parse`, with the few
    language operations the car-listing code applies to untyped responses:
    property reads, truthiness, `||`, `Array.isArray` and `Object.values`. */
module Json {

  import opened Wrappers

  /** A parsed JSON value. `undefined` (an absent property) is not a value
      here: a property read yields `Option<Json>`, with `None` for it.
      `Obj` lists the object's own properties in the order in which
      JavaScript enumerates them; a JavaScript object cannot hold one key
      twice, so a repeated key is shadowed by its first entry.
      Numbers are integers. */
  datatype Json =
    | Null
    | Bool(b: bool)
    | Num(n: int)
    | Str(s: string)
    | Arr(items: seq<Json>)
    | Obj(fields: seq<(string, Json)>)

  /** `!!v` in JavaScript: `undefined`, `null`, `false`, `0` and `""` are
      falsy; every array and object, even an empty one, is truthy. */
  predicate Truthy(v: Option<Json>) {
    match v
    case None => false
    case Some(Null) => false
    case Some(Bool(b)) => b
    case Some(Num(n)) => n != 0
    case Some(Str(s)) => s != ""
    case Some(Arr(_)) => true
    case Some(Obj(_)) => true
  }

  /** The value of the first entry named `key`, if any. */
  function Lookup(fields: seq<(string, Json)>, key: string): (r: Option<Json>)
    ensures r.Some? <==> exists i :: 0 <= i < |fields| && fields[i].0 == key
    ensures r.Some? ==> exists i :: 0 <= i < |fields| && fields[i] == (key, r.value)
  {
    if fields == [] then None
    else if fields[0].0 == key then Some(fields[0].1)
    else
      var r := Lookup(fields[1..], key);
      assert forall i :: 0 < i < |fields| ==> fields[i] == fields[1..][i - 1];
      r
  }

  /** `v?.key`: a property of an object, `undefined` for a missing key and
      for every other kind of value (an array or a string has no property
      of the names this code reads). */
  function Get(v: Option<Json>, key: string): (r: Option<Json>)
    ensures r.Some? ==> v.Some? && v.value.Obj?
  {
    match v
    case Some(Obj(fields)) => Lookup(fields, key)
    case _ => None
  }

  /** `a || b`: the first operand when it is truthy, the second otherwise. */
  function Or(a: Option<Json>, b: Option<Json>): (r: Option<Json>)
    ensures Truthy(a) ==> r == a
    ensures !Truthy(a) ==> r == b
  {
    if Truthy(a) then a else b
  }

  /** `a || d` for a default `d` that is always present. */
  function OrElse(a: Option<Json>, d: Json): (r: Json)
    ensures Truthy(a) ==> Some(r) == a
    ensures !Truthy(a) ==> r == d
  {
    if Truthy(a) then a.value else d
  }

  /** `Array.isArray(v) ? v : <none>`. */
  function AsArray(v: Option<Json>): (r: Option<seq<Json>>)
    ensures r.Some? <==> v.Some? && v.value.Arr?
  {
    match v
    case Some(Arr(items)) => Some(items)
    case _ => None
  }

  /** The values of an object's own properties, in enumeration order,
      each key counted once. */
  function OwnValues(fields: seq<(string, Json)>): (r: seq<Json>)
    ensures |r| <= |fields|
  {
    OwnValuesAfter(fields, {})
  }

  function OwnValuesAfter(fields: seq<(string, Json)>, seen: set<string>): (r: seq<Json>)
    ensures |r| <= |fields|
    ensures forall x :: x in r ==> exists i :: 0 <= i < |fields| && fields[i].1 == x
  {
    if fields == [] then []
    else
      var rest := OwnValuesAfter(fields[1..], seen + {fields[0].0});
      assert forall i :: 0 < i < |fields| ==> fields[i] == fields[1..][i - 1];
      if fields[0].0 in seen then rest else [fields[0].1] + rest
  }

  /** `Object.values(v)`: own property values of an object, the elements
      of an array, the one-character strings of a string, and nothing for
      `null`, booleans and numbers. */
  function ObjectValues(v: Json): (r: seq<Json>)
    ensures v.Arr? ==> r == v.items
    ensures v.Str? ==> |r| == |v.s| && forall i :: 0 <= i < |r| ==> r[i] == Str([v.s[i]])
    ensures v.Null? || v.Bool? || v.Num? ==> r == []
  {
    match v
    case Obj(fields) => OwnValues(fields)
    case Arr(items) => items
    case Str(s) => seq(|s|, i requires 0 <= i < |s| => Str([s[i]]))
    case _ => []
  }

  /** The arrays among `vals`, as `.filter(val => Array.isArray(val))` keeps them. */
  function ArraysAmong(vals: seq<Json>): (r: seq<seq<Json>>)
    ensures |r| <= |vals|
    ensures forall a :: a in r ==> Arr(a) in vals
    ensures forall x :: x in vals && x.Arr? ==> x.items in r
  {
    if vals == [] then []
    else
      var last := vals[|vals| - 1];
      var init := ArraysAmong(vals[..|vals| - 1]);
      if last.Arr? then init + [last.items] else init
  }
}
