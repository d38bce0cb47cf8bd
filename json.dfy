/** Decoded JSON values as Python sees them after `json.loads`, and the few
    Python operations the plugin applies to them: `dict.get`, `in` on a dict,
    truthiness, iteration and hashability. */
module Json {
  import opened Wrappers

  /** A JSON number is opaque: the plugin never does arithmetic on one, so it
      is carried as the text Python's `str()` gives for it ("0.0", "12"). */
  datatype Json =
    | Null
    | Bool(b: bool)
    | Num(repr: string)
    | Str(s: string)
    | Arr(items: seq<Json>)
    | Obj(fields: seq<(string, Json)>)  // a dict's items in insertion order

  /** The float `0.0` that the record parser uses as its coordinate default. */
  const Zero: Json := Num("0.0")

  /** `k in d` for a dict `d`. */
  predicate Has(fields: seq<(string, Json)>, k: string)
  {
    exists i :: 0 <= i < |fields| && fields[i].0 == k
  }

  /** `d[k]` for a key that is present; the first binding is the one a dict
      holds, since a dict's keys are distinct. */
  function At(fields: seq<(string, Json)>, k: string): Json
    requires Has(fields, k)
  {
    if fields[0].0 == k then fields[0].1 else At(fields[1..], k)
  }

  /** `d.get(k, default)` on a dict. */
  function Get(fields: seq<(string, Json)>, k: string, default: Json): Json
  {
    if Has(fields, k) then At(fields, k) else default
  }

  /** The exception `x.get(...)` raises when `x` is not a dict:
      AttributeError: '<type>' object has no attribute 'get'. */
  datatype GetError = NoGetMethod(receiver: Json)

  /** `x.get(k, default)` on any value: only a dict has `get`. */
  function GetOn(x: Json, k: string, default: Json): (r: Result<Json, GetError>)
    ensures r.Failure? <==> !x.Obj?
    ensures r.Failure? ==> r.error == NoGetMethod(x)
  {
    if x.Obj? then Success(Get(x.fields, k, default)) else Failure(NoGetMethod(x))
  }

  /** Python's type name of a decoded value, as it appears in an
      AttributeError message. */
  function TypeName(x: Json): string
  {
    match x
    case Null => "NoneType"
    case Bool(_) => "bool"
    case Num(r) => if exists i :: 0 <= i < |r| && r[i] in {'.', 'e', 'E', 'n', 'i'} then "float" else "int"
    case Str(_) => "str"
    case Arr(_) => "list"
    case Obj(_) => "dict"
  }

  function Message(e: GetError): string
  {
    "'" + TypeName(e.receiver) + "' object has no attribute 'get'"
  }

  /** Python truthiness: None, False, zero and empty containers are false. */
  predicate Truthy(x: Json)
  {
    match x
    case Null => false
    case Bool(b) => b
    case Num(r) => r !in {"0", "0.0", "-0.0"}
    case Str(s) => s != ""
    case Arr(items) => items != []
    case Obj(fields) => fields != []
  }

  /** What a `for` loop over a value visits: a list's items, a string's
      characters, a dict's keys; None when Python raises TypeError
      ('object is not iterable'). */
  function Iterate(x: Json): (r: Option<seq<Json>>)
    ensures r.None? <==> x.Null? || x.Bool? || x.Num?
    ensures x.Arr? ==> r == Some(x.items)
    ensures r.Some? ==> (|r.value| == 0 <==> !Truthy(x))
  {
    match x
    case Arr(items) => Some(items)
    case Str(s) => Some(seq(|s|, i requires 0 <= i < |s| => Str([s[i]])))
    case Obj(fields) => Some(seq(|fields|, i requires 0 <= i < |fields| => Str(fields[i].0)))
    case _ => None
  }

  /** Lists and dicts cannot be dict keys: looking one up raises TypeError. */
  predicate Hashable(x: Json)
  {
    !x.Arr? && !x.Obj?
  }

  /** The value a key's first binding holds is what lookups return. */
  lemma {:induction false} LookupFirstBinding(fields: seq<(string, Json)>, k: string, i: nat, default: Json)
    requires i < |fields| && fields[i].0 == k
    requires forall j :: 0 <= j < i ==> fields[j].0 != k
    ensures Has(fields, k) && At(fields, k) == fields[i].1 && Get(fields, k, default) == fields[i].1
  {
    if i > 0 {
      LookupFirstBinding(fields[1..], k, i - 1, default);
    }
  }
}
