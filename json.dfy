/** Values as the realtime document store holds them and as the service code
    manipulates them: the few JavaScript operations the services apply to a
    record read back from the store (`x || []`, `[...x]`, `.filter`). */
module Json {

  /** A stored value. Numbers are modelled as integers. */
  datatype Value =
    | Str(s: string)
    | Num(n: int)
    | Bool(b: bool)
    | List(items: seq<Value>)
    | Obj(fields: map<string, Value>)

  /** A document: the top-level fields of one stored record. */
  type Record = map<string, Value>

  datatype Option<T> = None | Some(value: T)

  /** Why a service call throws. */
  datatype Error =
    | NullValue     // a property read on null or undefined (an absent record, a missing object)
    | NotIterable   // `[...v]` on a value that is not iterable
    | NotAFunction  // `v.filter(...)` on a value that is not an array
    | AuthFailed    // the identity provider refused to create the account

  datatype Result<T> = Ok(value: T) | Err(error: Error)

  /** JavaScript truthiness of a stored value. */
  predicate Truthy(v: Value) {
    match v
    case Str(s) => s != ""
    case Num(n) => n != 0
    case Bool(b) => b
    case List(_) => true
    case Obj(_) => true
  }

  /** `record.name || []`: the stored field when it is truthy, else a fresh empty list. */
  function FieldOrEmpty(r: Record, name: string): (v: Value)
    ensures name in r && Truthy(r[name]) ==> v == r[name]
    ensures !(name in r && Truthy(r[name])) ==> v == List([])
  {
    if name in r && Truthy(r[name]) then r[name] else List([])
  }

  /** `[...v]`: arrays spread into their elements, strings into one-character
      strings, everything else throws. */
  function Spread(v: Value): (r: Result<seq<Value>>)
    ensures r.Ok? <==> v.List? || v.Str?
    ensures v.List? ==> r.value == v.items
    ensures v.Str? ==> |r.value| == |v.s| && forall i :: 0 <= i < |v.s| ==> r.value[i] == Str([v.s[i]])
  {
    match v
    case List(items) => Ok(items)
    case Str(s) => Ok(seq(|s|, i requires 0 <= i < |s| => Str([s[i]])))
    case _ => Err(NotIterable)
  }

  /** `[...(record.name || [])]`: the elements of an existing list field, none
      when the field is absent or falsy. */
  function ExistingList(r: Record, name: string): (l: Result<seq<Value>>)
    ensures name !in r ==> l == Ok([])
    ensures name in r && !Truthy(r[name]) ==> l == Ok([])
    ensures name in r && r[name].List? ==> l == Ok(r[name].items)
    ensures l.Err? <==> name in r && Truthy(r[name]) && !r[name].List? && !r[name].Str?
  {
    Spread(FieldOrEmpty(r, name))
  }

  /** `[...(record.name || []), x]`: the existing list with one element appended. */
  function Appended(r: Record, name: string, x: Value): (l: Result<seq<Value>>)
    ensures l.Ok? <==> ExistingList(r, name).Ok?
    ensures l.Err? ==> l.error == ExistingList(r, name).error
    ensures l.Ok? ==> var before := ExistingList(r, name).value;
      |l.value| == |before| + 1 && l.value[..|before|] == before && l.value[|before|] == x
  {
    match ExistingList(r, name)
    case Ok(before) => Ok(before + [x])
    case Err(e) => Err(e)
  }

  /** `items.filter(id => id !== v)`: every element strictly equal to `v` removed. */
  function RemoveAll(items: seq<Value>, v: Value): (r: seq<Value>)
    ensures |r| <= |items|
    ensures forall x :: x in r <==> x in items && x != v
    ensures multiset(r) == multiset(items)[v := 0]
  {
    if items == [] then []
    else
      var rest := RemoveAll(items[1..], v);
      assert items == [items[0]] + items[1..];
      if items[0] == v then rest else [items[0]] + rest
  }

  /** Filtering distributes over concatenation: the elements that remain keep
      their relative order. */
  lemma {:induction false} RemoveAllConcat(a: seq<Value>, b: seq<Value>, v: Value)
    ensures RemoveAll(a + b, v) == RemoveAll(a, v) + RemoveAll(b, v)
  {
    if a == [] {
      assert a + b == b;
    } else {
      assert (a + b)[1..] == a[1..] + b;
      RemoveAllConcat(a[1..], b, v);
    }
  }
}
