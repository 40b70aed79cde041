/** The Python values that reach the output and error filters, and the JSON they become. */
module JsonValues {
  import opened Prelude

  /**
   `Obj` is a mapping with text keys, `Members` a set in the order it is iterated, `Record` the fields of a dataclass,
   `Model` the JSON dump of a Pydantic model, and `Opaque` anything else, such as bytes.
   */
  datatype Value =
    | Null
    | Bool(b: bool)
    | Num(n: real)
    | Str(s: string)
    | List(items: seq<Value>)
    | Obj(fields: map<string, Value>)
    | Tuple(items: seq<Value>)
    | Members(items: seq<Value>)
    | Record(fields: map<string, Value>)
    | Model(fields: map<string, Value>)
    | PathOf(text: string)
    | Instant(iso: string)
    | EnumOf(value: Value)
    | Opaque

  predicate Scalar(v: Value) {
    v.Null? || v.Bool? || v.Num? || v.Str?
  }

  predicate IsJson(v: Value) {
    match v
    case List(items) => forall i :: 0 <= i < |items| ==> IsJson(items[i])
    case Obj(fields) => forall k :: k in fields ==> IsJson(fields[k])
    case _ => Scalar(v)
  }

  /** `_json_safe`: one pass of normalisation. It does not look inside the value of an enum. */
  function JsonSafe(v: Value): Value {
    match v
    case Model(fields) => Obj(fields)
    case Record(fields) => Obj(map k | k in fields :: JsonSafe(fields[k]))
    case Obj(fields) => Obj(map k | k in fields :: JsonSafe(fields[k]))
    case List(items) => List(seq(|items|, i requires 0 <= i < |items| => JsonSafe(items[i])))
    case Tuple(items) => List(seq(|items|, i requires 0 <= i < |items| => JsonSafe(items[i])))
    case Members(items) => List(seq(|items|, i requires 0 <= i < |items| => JsonSafe(items[i])))
    case PathOf(text) => Str(text)
    case Instant(iso) => Str(iso)
    case EnumOf(value) => value
    case _ => v
  }

  /** What one pass turns into JSON: no opaque value anywhere, and enums of JSON values only. */
  predicate Convertible(v: Value) {
    match v
    case Model(fields) => forall k :: k in fields ==> IsJson(fields[k])
    case Record(fields) => forall k :: k in fields ==> Convertible(fields[k])
    case Obj(fields) => forall k :: k in fields ==> Convertible(fields[k])
    case List(items) => forall i :: 0 <= i < |items| ==> Convertible(items[i])
    case Tuple(items) => forall i :: 0 <= i < |items| ==> Convertible(items[i])
    case Members(items) => forall i :: 0 <= i < |items| ==> Convertible(items[i])
    case EnumOf(value) => IsJson(value)
    case Opaque => false
    case _ => true
  }

  lemma {:induction false} JsonIsUnchanged(v: Value)
    requires IsJson(v)
    ensures JsonSafe(v) == v && Convertible(v)
  {
    match v
    case List(items) =>
      forall i | 0 <= i < |items| ensures JsonSafe(items[i]) == items[i] && Convertible(items[i]) {
        JsonIsUnchanged(items[i]);
      }
      assert JsonSafe(v).items == items;
    case Obj(fields) =>
      forall k | k in fields ensures JsonSafe(fields[k]) == fields[k] && Convertible(fields[k]) {
        JsonIsUnchanged(fields[k]);
      }
      assert JsonSafe(v).fields == fields;
    case _ =>
  }

  /** One pass produces JSON exactly from convertible values, and a second pass then changes nothing. */
  lemma {:induction false} JsonSafeExactly(v: Value)
    ensures IsJson(JsonSafe(v)) <==> Convertible(v)
    ensures Convertible(v) ==> JsonSafe(JsonSafe(v)) == JsonSafe(v)
  {
    match v {
      case Record(fields) => FieldsSafeExactly(fields, v);
      case Obj(fields) => FieldsSafeExactly(fields, v);
      case List(items) => ItemsSafeExactly(items, v);
      case Tuple(items) => ItemsSafeExactly(items, v);
      case Members(items) => ItemsSafeExactly(items, v);
      case _ =>
    }
    if Convertible(v) {
      JsonIsUnchanged(JsonSafe(v));
    }
  }

  lemma {:induction false} ItemsSafeExactly(items: seq<Value>, v: Value)
    requires (v.List? || v.Tuple? || v.Members?) && v.items == items
    ensures IsJson(JsonSafe(v)) <==> Convertible(v)
    decreases v, 0
  {
    forall i | 0 <= i < |items| ensures IsJson(JsonSafe(items[i])) <==> Convertible(items[i]) {
      JsonSafeExactly(items[i]);
    }
    assert forall i :: 0 <= i < |items| ==> JsonSafe(v).items[i] == JsonSafe(items[i]);
  }

  lemma {:induction false} FieldsSafeExactly(fields: map<string, Value>, v: Value)
    requires (v.Record? || v.Obj?) && v.fields == fields
    ensures IsJson(JsonSafe(v)) <==> Convertible(v)
    decreases v, 0
  {
    forall k | k in fields ensures IsJson(JsonSafe(fields[k])) <==> Convertible(fields[k]) {
      JsonSafeExactly(fields[k]);
    }
    assert forall k :: k in fields ==> JsonSafe(v).fields[k] == JsonSafe(fields[k]);
  }

  /** An enum whose value is a path survives one pass as a path: enums of such values are not convertible. */
  lemma EnumsAreNotLookedInto(text: string)
    ensures !IsJson(JsonSafe(EnumOf(PathOf(text)))) && IsJson(JsonSafe(JsonSafe(EnumOf(PathOf(text)))))
  {
  }
}
