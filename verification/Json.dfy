/** JSON-like Python values, as tool executors and model providers produce them. */
module Json {
  /** A dict key: a string, or any other hashable, such as a number. */
  datatype Key = Name(text: string) | Odd(text: string)

  /** `Other` is any Python object that is not a JSON value; `text` is its `str()`. */
  datatype Value =
    | Null
    | Bool(b: bool)
    | Num(r: real)
    | Str(s: string)
    | Arr(items: seq<Value>)
    | Obj(fields: seq<(Key, Value)>)
    | Other(text: string)

  /** Python truthiness. */
  predicate Truthy(v: Value) {
    match v
    case Null => false
    case Bool(b) => b
    case Num(r) => r != 0.0
    case Str(s) => s != ""
    case Arr(items) => items != []
    case Obj(fields) => fields != []
    case Other(_) => true
  }

  /** What JSON text can hold: string keys only, and no other Python objects. */
  predicate IsJson(v: Value) {
    match v
    case Arr(items) => forall i :: 0 <= i < |items| ==> IsJson(items[i])
    case Obj(fields) => forall i :: 0 <= i < |fields| ==> fields[i].0.Name? && IsJson(fields[i].1)
    case Other(_) => false
    case _ => true
  }

  /** Arguments as providers and JSON columns give them. */
  type JsonValue = v: Value | IsJson(v) witness Null

  /** Whether a JSON column's encoder takes a value: it renames odd keys, but knows no other objects. */
  predicate Encodable(v: Value) {
    match v
    case Arr(items) => forall i :: 0 <= i < |items| ==> Encodable(items[i])
    case Obj(fields) => forall i :: 0 <= i < |fields| ==> Encodable(fields[i].1)
    case Other(_) => false
    case _ => true
  }

  /** `dict.get(key)` on an ordered list of fields; `Null` stands for Python's None. */
  function Get(fields: seq<(Key, Value)>, key: string): Value {
    if fields == [] then Null
    else if fields[0].0 == Name(key) then fields[0].1
    else Get(fields[1..], key)
  }

  predicate HasKey(fields: seq<(Key, Value)>, key: string) {
    exists i :: 0 <= i < |fields| && fields[i].0 == Name(key)
  }

  /** `str(v)`: strings and opaque objects know their text, `repr` renders the rest. */
  function PyStr(repr: Value -> string, v: Value): string {
    match v
    case Str(s) => s
    case Other(t) => t
    case _ => repr(v)
  }

  /** The six values that count as false. */
  lemma FalsyIff(v: Value)
    ensures !Truthy(v) <==> v in [Null, Bool(false), Num(0.0), Str(""), Arr([]), Obj([])]
  {
  }

  /** One child that is no JSON value, or that no encoder knows, is enough, wherever it stands. */
  lemma OneBadChildIsEnough(items: seq<Value>, fields: seq<(Key, Value)>, bad: Value, key: Key, text: string)
    ensures !IsJson(Other(text)) && !Encodable(Other(text))
    ensures bad in items && !IsJson(bad) ==> !IsJson(Arr(items))
    ensures bad in items && !Encodable(bad) ==> !Encodable(Arr(items))
    ensures (key, bad) in fields && (key.Odd? || !IsJson(bad)) ==> !IsJson(Obj(fields))
    ensures (key, bad) in fields && !Encodable(bad) ==> !Encodable(Obj(fields))
  {
  }

  /** Every JSON value can be stored as one. */
  lemma {:induction false} JsonIsEncodable(v: Value)
    requires IsJson(v)
    ensures Encodable(v)
  {
    match v
    case Arr(items) =>
      forall i | 0 <= i < |items| ensures Encodable(items[i]) {
        JsonIsEncodable(items[i]);
      }
    case Obj(fields) =>
      forall i | 0 <= i < |fields| ensures Encodable(fields[i].1) {
        JsonIsEncodable(fields[i].1);
      }
    case _ =>
  }
}
