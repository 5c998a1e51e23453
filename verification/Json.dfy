/**
 JSON values, and JSON text as an abstract bijection: how values are printed is not modelled,
 only that printing can be undone. A number stands for itself by an integer code; only
 equality and being zero are ever asked of it.
 */
module Json {
  import opened Wrappers

  datatype Json =
    | Null
    | Bool(b: bool)
    | Num(n: int)
    | Str(s: string)
    | Arr(items: seq<Json>)
    | Obj(fields: map<string, Json>)

  /** `JSON.parse` (None when it throws), `JSON.stringify`, `String` and `Number`. */
  datatype JsonText = JsonText(parse: string -> Option<Json>, stringify: Json -> string, toStr: Json -> string, toNum: Json -> int)

  /** What the model takes from JavaScript's JSON functions. */
  ghost predicate Lawful(text: JsonText) {
    && (forall j :: text.parse(text.stringify(j)) == Some(j))
    && (forall j :: '\n' !in text.stringify(j))
    && (forall j: Json :: j.Obj? ==> Bracketed(text.stringify(j)))
    && (forall s :: text.toStr(Str(s)) == s)
    && (forall n :: text.toNum(Num(n)) == n)
    && text.stringify(Obj(map[])) == "{}"
  }

  predicate Bracketed(s: string) {
    |s| >= 2 && s[0] == '{' && s[|s| - 1] == '}'
  }

  /** Property access; None is `undefined`. */
  function Field(j: Json, key: string): Option<Json> {
    if j.Obj? && key in j.fields then Some(j.fields[key]) else None
  }

  /** `j[0]`. */
  function First(j: Json): Option<Json> {
    match j
    case Arr(items) => if items != [] then Some(items[0]) else None
    case Str(s) => if s != "" then Some(Str([s[0]])) else None
    case Obj(_) => Field(j, "0")
    case _ => None
  }

  predicate Truthy(j: Option<Json>) {
    match j
    case None => false
    case Some(Null) => false
    case Some(Bool(b)) => b
    case Some(Num(n)) => n != 0
    case Some(Str(s)) => s != ""
    case Some(_) => true
  }

  /** Exactly these count as false. */
  lemma FalsyExactly(j: Option<Json>)
    ensures !Truthy(j) <==> j in {None, Some(Null), Some(Bool(false)), Some(Num(0)), Some(Str(""))}
  {
  }

  /** What `[0]` finds: the first item, the first character, or whatever an object keeps under that name. */
  lemma FirstExactly(items: seq<Json>, s: string, fields: map<string, Json>)
    ensures forall j :: First(Arr([j] + items)) == Some(j)
    ensures forall c :: First(Str([c] + s)) == Some(Str([c]))
    ensures First(Arr([])) == First(Str("")) == First(Null) == None
    ensures First(Obj(fields)) == if "0" in fields then Some(fields["0"]) else None
  {
  }

  /** `j ?? default`. */
  function OrElse(j: Option<Json>, default: Json): Json {
    if j.None? || j.value.Null? then default else j.value
  }
}
