/** Terraform attribute values as the provider's converters see them, and the
    small lookup and conversion helpers that every converter shares. */
module Attr {

  datatype Option<+T> = None | Some(value: T)

  /** A Go (value, error) pair where the value is unused on error. */
  datatype Result<+T> = Success(value: T) | Failure(error: string)

  /** The type of an attribute in a resource schema. */
  datatype Kind = KStr | KBool | KInt | KList | KMap

  /** A value held in Terraform state, or in a nested block's map:
      Go's interface{} restricted to what the converters produce and consume.
      Null is Go's nil (for instance the nil first element of an empty block). */
  datatype Value =
    | Null
    | Str(s: string)
    | Bool(b: bool)
    | Int(i: int)
    | List(items: seq<Value>)
    | Map(entries: map<string, Value>)

  /** A nested block's attributes: Go's map[string]interface{}. */
  type Obj = map<string, Value>

  predicate HasKind(v: Value, k: Kind)
  {
    match v
    case Null => false
    case Str(_) => k == KStr
    case Bool(_) => k == KBool
    case Int(_) => k == KInt
    case List(_) => k == KList
    case Map(_) => k == KMap
  }

  /** The zero value that Get reports for an attribute that was never set. */
  function Zero(k: Kind): (v: Value)
    ensures HasKind(v, k)
  {
    match k
    case KStr => Str("")
    case KBool => Bool(false)
    case KInt => Int(0)
    case KList => List([])
    case KMap => Map(map[])
  }

  // Guarded reads: `if v, ok := m[k].(T); ok && <guard> { field = v }`, with the
  // field left at its zero value otherwise.

  /** A string attribute copied only when present and non-empty. */
  function StrIn(m: Obj, k: string): (r: string)
    ensures r != "" ==> k in m && m[k] == Str(r)
    ensures k in m && m[k].Str? ==> r == m[k].s
  {
    if k in m && m[k].Str? && |m[k].s| > 0 then m[k].s else ""
  }

  /** A boolean attribute copied whenever it is present. */
  function BoolIn(m: Obj, k: string): (r: bool)
    ensures r ==> k in m && m[k] == Bool(true)
    ensures k in m && m[k].Bool? ==> r == m[k].b
  {
    if k in m && m[k].Bool? then m[k].b else false
  }

  /** An integer attribute copied whenever it is present, whatever its sign. */
  function IntIn(m: Obj, k: string): (r: int)
    ensures r != 0 ==> k in m && m[k] == Int(r)
    ensures k in m && m[k].Int? ==> r == m[k].i
  {
    if k in m && m[k].Int? then m[k].i else 0
  }

  /** An integer attribute copied only when it is positive. */
  function PosIntIn(m: Obj, k: string): (r: int)
    ensures r >= 0
    ensures r > 0 <==> k in m && m[k].Int? && m[k].i > 0
    ensures r > 0 ==> m[k] == Int(r)
  {
    if k in m && m[k].Int? && m[k].i > 0 then m[k].i else 0
  }

  /** A list attribute, taken only when present and non-empty. */
  function ListIn(m: Obj, k: string): (r: seq<Value>)
    ensures r != [] ==> k in m && m[k] == List(r)
    ensures k in m && m[k].List? ==> r == m[k].items
  {
    if k in m && m[k].List? && |m[k].items| > 0 then m[k].items else []
  }

  /** A map attribute, taken only when present and non-empty. */
  function MapIn(m: Obj, k: string): (r: Obj)
    ensures r != map[] ==> k in m && m[k] == Map(r)
    ensures k in m && m[k].Map? ==> r == m[k].entries
  {
    if k in m && m[k].Map? && |m[k].entries| > 0 then m[k].entries else map[]
  }

  // Element-wise conversions between typed Go collections and interface{} ones.

  /** One element of toArrayString / toMapString: a string, or "" for anything else. */
  function AsStr(v: Value): string
  {
    if v.Str? then v.s else ""
  }

  function AsBool(v: Value): bool
  {
    v.Bool? && v.b
  }

  function AsInt(v: Value): int
  {
    if v.Int? then v.i else 0
  }

  function ToArrayInterface(xs: seq<string>): (r: seq<Value>)
    ensures |r| == |xs|
    ensures forall i :: 0 <= i < |xs| ==> r[i] == Str(xs[i])
  {
    seq(|xs|, i requires 0 <= i < |xs| => Str(xs[i]))
  }

  function ToArrayString(vs: seq<Value>): (r: seq<string>)
    ensures |r| == |vs|
    ensures forall i :: 0 <= i < |vs| ==> r[i] == AsStr(vs[i])
  {
    seq(|vs|, i requires 0 <= i < |vs| => AsStr(vs[i]))
  }

  function ToMapInterface(m: map<string, string>): (r: Obj)
    ensures r.Keys == m.Keys
    ensures forall k :: k in m ==> r[k] == Str(m[k])
  {
    map k | k in m :: Str(m[k])
  }

  function ToMapString(m: Obj): (r: map<string, string>)
    ensures r.Keys == m.Keys
    ensures forall k :: k in m ==> r[k] == AsStr(m[k])
  {
    map k | k in m :: AsStr(m[k])
  }

  lemma ArrayRoundTrip(xs: seq<string>)
    ensures ToArrayString(ToArrayInterface(xs)) == xs
  {
  }

  lemma MapRoundTrip(m: map<string, string>)
    ensures ToMapString(ToMapInterface(m)) == m
  {
  }

  function NonEmpty(s: string): Option<Value>
  {
    if |s| > 0 then Some(Str(s)) else None
  }

  function NonEmptyList(xs: seq<string>): Option<Value>
  {
    if |xs| > 0 then Some(List(ToArrayInterface(xs))) else None
  }

  function NonEmptyMap(m: map<string, string>): Option<Value>
  {
    if |m| > 0 then Some(Map(ToMapInterface(m))) else None
  }

  /** A value the omit-empty convention writes: a string, list or map with
      something in it, or any boolean or integer. */
  predicate Filled(v: Value)
  {
    match v
    case Str(s) => s != ""
    case List(xs) => xs != []
    case Map(m) => m != map[]
    case _ => true
  }

  /** m holds every entry of vals (and perhaps more). */
  predicate Holds(m: Obj, vals: Obj)
  {
    forall k {:trigger vals[k]} :: k in vals ==> k in m && m[k] == vals[k]
  }

  // Reading back, through the guarded reads, an entry that m holds.

  lemma StrRead(m: Obj, vals: Obj, k: string, s: string)
    requires Holds(m, vals) && k in vals && vals[k] == Str(s)
    ensures StrIn(m, k) == s
  {
  }

  lemma BoolRead(m: Obj, vals: Obj, k: string, b: bool)
    requires Holds(m, vals) && k in vals && vals[k] == Bool(b)
    ensures BoolIn(m, k) == b
  {
  }

  lemma PosIntRead(m: Obj, vals: Obj, k: string, i: int)
    requires Holds(m, vals) && k in vals && vals[k] == Int(i) && i >= 0
    ensures PosIntIn(m, k) == i
  {
  }

  lemma ListRead(m: Obj, vals: Obj, k: string, xs: seq<string>)
    requires Holds(m, vals) && k in vals && vals[k] == List(ToArrayInterface(xs))
    ensures ToArrayString(ListIn(m, k)) == xs
  {
    ArrayRoundTrip(xs);
  }

  lemma MapRead(m: Obj, vals: Obj, k: string, e: map<string, string>)
    requires Holds(m, vals) && k in vals && vals[k] == Map(ToMapInterface(e))
    ensures ToMapString(MapIn(m, k)) == e
  {
    MapRoundTrip(e);
  }
}
