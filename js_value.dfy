/**
 * JavaScript values as the site's bundled JSON and its code see them: the JSON values plus
 * `undefined` (a property that is not there). Numbers are integers (see README, "Left out").
 */
module JsValues {
  import opened Strings

  datatype JsValue =
    | Undefined
    | Null
    | Bool(b: bool)
    | Num(n: int)
    | Str(s: string)
    | Arr(elems: seq<JsValue>)
    | Obj(fields: seq<(string, JsValue)>)

  /** JavaScript's `typeof`; note that `null` and arrays are both `'object'`. */
  datatype JsType = TUndefined | TBoolean | TNumber | TString | TObject

  function TypeOf(v: JsValue): (t: JsType)
    ensures t == TObject <==> v.Null? || v.Arr? || v.Obj?
  {
    match v
    case Undefined => TUndefined
    case Null => TObject
    case Bool(_) => TBoolean
    case Num(_) => TNumber
    case Str(_) => TString
    case Arr(_) => TObject
    case Obj(_) => TObject
  }

  /** JavaScript's truthiness (`!!v`). */
  predicate Truthy(v: JsValue)
    ensures v.Arr? || v.Obj? ==> Truthy(v)
    ensures v.Undefined? || v.Null? ==> !Truthy(v)
  {
    match v
    case Undefined => false
    case Null => false
    case Bool(b) => b
    case Num(n) => n != 0
    case Str(s) => s != ""
    case Arr(_) => true
    case Obj(_) => true
  }

  /** A property read `v[key]` for the named (non-index) properties the site reads: `undefined` when absent. */
  function Get(v: JsValue, key: string): (r: JsValue)
    ensures !v.Obj? ==> r == Undefined
  {
    if v.Obj? then Lookup(v.fields, key) else Undefined
  }

  function Lookup(fields: seq<(string, JsValue)>, key: string): (r: JsValue)
    ensures r != Undefined ==> exists k :: 0 <= k < |fields| && fields[k] == (key, r)
    ensures (forall k :: 0 <= k < |fields| ==> fields[k].0 != key) ==> r == Undefined
  {
    if |fields| == 0 then Undefined
    else if fields[0].0 == key then fields[0].1
    else Lookup(fields[1..], key)
  }

  /** `Object.entries(v)`: own fields of an object, index/element pairs of an array or a string, nothing otherwise. */
  function Entries(v: JsValue): (r: seq<(string, JsValue)>)
    ensures v.Obj? ==> r == v.fields
    ensures v.Arr? ==> |r| == |v.elems| && forall i :: 0 <= i < |r| ==> r[i].1 == v.elems[i]
    ensures !v.Obj? && !v.Arr? && !v.Str? ==> r == []
  {
    match v
    case Obj(fields) => fields
    case Arr(elems) => seq(|elems|, i requires 0 <= i < |elems| => (NatToText(i), elems[i]))
    case Str(s) => seq(|s|, i requires 0 <= i < |s| => (NatToText(i), Str([s[i]])))
    case _ => []
  }

  /** `Object.keys(v)`. */
  function Keys(v: JsValue): (r: seq<string>)
    ensures |r| == |Entries(v)|
  {
    seq(|Entries(v)|, i requires 0 <= i < |Entries(v)| => Entries(v)[i].0)
  }

  /** `String(v)`: the text a template literal or `toString` gives. */
  function ToText(v: JsValue): (r: string)
    ensures v.Str? ==> r == v.s
    ensures !v.Str? && !v.Arr? ==> |r| >= 1
    decreases v, 0
  {
    match v
    case Undefined => "undefined"
    case Null => "null"
    case Bool(b) => if b then "true" else "false"
    case Num(n) => IntToText(n)
    case Str(s) => s
    case Arr(elems) => Join(seq(|elems|, i requires 0 <= i < |elems| => ElementText(elems[i])), ",")
    case Obj(_) => "[object Object]"
  }

  /** The text `Array.prototype.join` uses for one element: `null` and `undefined` become empty. */
  function ElementText(v: JsValue): (r: string)
    ensures v.Undefined? || v.Null? ==> r == ""
    ensures Truthy(v) && !v.Arr? ==> |r| >= 1
    decreases v, 1
  {
    if v.Undefined? || v.Null? then "" else ToText(v)
  }
}
