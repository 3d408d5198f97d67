/** JSON values as the client builds and reads them, with the Python truthiness
    rules that the client's `if` tests rely on and the `first` helper it uses. */
module Json {

  datatype Option<+T> = None | Some(value: T)

  /** A decoded JSON document (floating point numbers are not modelled). */
  datatype Value =
    | Null
    | Bool(b: bool)
    | Int(i: int)
    | Str(s: string)
    | Arr(items: seq<Value>)
    | Obj(fields: map<string, Value>)

  /** Python's `bool(v)`: `None`, `False`, `0`, `""`, `[]` and `{}` are false. */
  predicate Truthy(v: Value) {
    match v
    case Null => false
    case Bool(b) => b
    case Int(i) => i != 0
    case Str(s) => s != ""
    case Arr(items) => items != []
    case Obj(fields) => fields != map[]
  }

  /** The integer Python arithmetic sees in `v`: `int`, and `bool` as 0 or 1;
      any other value makes `/` and `*` raise a TypeError. */
  function Number(v: Value): (r: Option<int>)
    ensures r.Some? <==> (v.Int? || v.Bool?)
    ensures v.Int? ==> r == Some(v.i)
    ensures v.Bool? ==> r == Some(if v.b then 1 else 0)
  {
    match v
    case Int(i) => Some(i)
    case Bool(b) => Some(if b then 1 else 0)
    case _ => None
  }

  /** `v[key]` on a JSON object; `None` where Python would raise. */
  function Field(v: Value, key: string): (r: Option<Value>)
    ensures r.Some? <==> v.Obj? && key in v.fields
    ensures r.Some? ==> r.value == v.fields[key]
  {
    if v.Obj? && key in v.fields then Some(v.fields[key]) else None
  }

  /** The `first` library's `first(iterable)`: the first TRUTHY element, or
      `None` when there is none. */
  function First(xs: seq<Value>): (r: Option<Value>)
    ensures r.None? <==> forall i :: 0 <= i < |xs| ==> !Truthy(xs[i])
    ensures r.Some? ==> Truthy(r.value)
    ensures r.Some? ==> exists i :: 0 <= i < |xs| && xs[i] == r.value &&
                                    forall j :: 0 <= j < i ==> !Truthy(xs[j])
  {
    if xs == [] then None
    else if Truthy(xs[0]) then Some(xs[0])
    else
      var rest := First(xs[1..]);
      assert forall i :: 1 <= i < |xs| ==> xs[i] == xs[1..][i - 1];
      rest
  }
}
