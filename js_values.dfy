/** JavaScript values as the stores and handlers see them once JSON has been
    decoded: `undefined`, `null`, booleans, numbers, strings, arrays and plain
    objects. An object of type `any` (a medical record, an update patch, the
    `recordData` of a request) is a `Doc`: a map from property name to value.
    Object spread `{ ...a, ...b, k: v }` is the right-biased union
    `a + b + map[k := v]`. */
module JsValues {

  datatype Option<+T> = None | Some(value: T)

  datatype Value =
    | Undefined
    | Null
    | Bool(b: bool)
    | Num(n: real)
    | Str(s: string)
    | Arr(items: seq<Value>)
    | Obj(fields: map<string, Value>)

  type Doc = map<string, Value>

  /** Property lookup on a document: a missing property reads as `undefined`. */
  function Get(d: Doc, key: string): (v: Value)
    ensures key !in d ==> v == Undefined
    ensures key in d ==> v == d[key]
  {
    if key in d then d[key] else Undefined
  }

  /** Property lookup on any value: only objects carry named properties of their own. */
  function Prop(v: Value, key: string): (p: Value)
    ensures !v.Obj? ==> p == Undefined
  {
    match v
    case Obj(fields) => Get(fields, key)
    case _ => Undefined
  }

  /** JavaScript truthiness: `undefined`, `null`, `false`, `0` and `""` are falsy. */
  predicate Truthy(v: Value)
  {
    match v
    case Undefined => false
    case Null => false
    case Bool(b) => b
    case Num(n) => n != 0.0
    case Str(s) => s != ""
    case Arr(_) => true
    case Obj(_) => true
  }

  /** Truthiness of a field that is either a string or absent. */
  predicate Present(o: Option<string>)
  {
    o.Some? && o.value != ""
  }

  /** JavaScript's `||` on values: the value when it is truthy, else the fallback. */
  function OrElse(v: Value, fallback: Value): (r: Value)
    ensures Truthy(v) ==> r == v
    ensures !Truthy(v) ==> r == fallback
  {
    if Truthy(v) then v else fallback
  }

  /** `prefix` is an initial slice of `s`. */
  predicate StartsWith(s: string, prefix: string)
  {
    |prefix| <= |s| && s[..|prefix|] == prefix
  }
}

/** Sequence helpers shared by the stores and the dashboard (`Array.prototype.filter`). */
module Seqs {

  /** The elements of `s` that satisfy `p`, in their order in `s`, as `Array.prototype.filter` keeps them. */
  function Filter<T(==,!new)>(s: seq<T>, p: T -> bool): (r: seq<T>)
    ensures |r| <= |s|
    ensures forall x :: x in r <==> x in s && p(x)
    ensures forall x :: multiset(r)[x] == if p(x) then multiset(s)[x] else 0
  {
    if s == [] then []
    else
      assert s == [s[0]] + s[1..];
      (if p(s[0]) then [s[0]] else []) + Filter(s[1..], p)
  }
}
