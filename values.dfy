/**
 * The dynamic values the JavaScript front end and the Python back end pass
 * around (parsed JSON, slide records, task results).  Numbers are integers:
 * no operation modelled here does arithmetic on a fractional value.  A key
 * missing from a JavaScript object or a Python dict is a key absent from
 * the object's map, and reading it with `Field` gives `Null`.  JavaScript's
 * `undefined` and `null` are both `Null`, so a property the front end sets
 * to `undefined` (an object literal copying a missing field) is kept as a
 * present key holding `Null`.
 */
module Values {
  import opened Strings

  datatype Value =
    | Null
    | Bool(b: bool)
    | Num(n: int)
    | Str(s: string)
    | Arr(items: seq<Value>)
    | Obj(fields: map<string, Value>)

  /** JavaScript truthiness (`if (v)`, `v || d`, `v && w`). */
  predicate Truthy(v: Value) {
    match v
    case Null => false
    case Bool(b) => b
    case Num(n) => n != 0
    case Str(s) => s != ""
    case Arr(_) => true
    case Obj(_) => true
  }

  /** Python truthiness: empty strings, lists and dicts are false as well. */
  predicate PyTruthy(v: Value) {
    match v
    case Null => false
    case Bool(b) => b
    case Num(n) => n != 0
    case Str(s) => s != ""
    case Arr(items) => items != []
    case Obj(fields) => fields != map[]
  }

  /** Reading `v.key` (JavaScript) or `v.get(key)` (Python): absent unless `v` is an object holding `key`. */
  function Prop(v: Value, key: string): (r: Option<Value>)
    ensures r.Some? <==> v.Obj? && key in v.fields
    ensures r.Some? ==> r.value == v.fields[key]
  {
    if v.Obj? && key in v.fields then Some(v.fields[key]) else None
  }

  /** `v.key` where an absent field reads as `undefined`, here `Null`. */
  function Field(v: Value, key: string): Value {
    match Prop(v, key)
    case Some(w) => w
    case None => Null
  }

  /** `v.key || d` in JavaScript. */
  function FieldOr(v: Value, key: string, d: Value): (r: Value)
    ensures Truthy(Field(v, key)) ==> r == Field(v, key)
    ensures !Truthy(Field(v, key)) ==> r == d
    ensures r == Field(v, key) || r == d
    ensures Truthy(d) ==> Truthy(r)
  {
    if Truthy(Field(v, key)) then Field(v, key) else d
  }

  /** `Array.isArray(v)`. */
  predicate IsArray(v: Value) {
    v.Arr?
  }

  /** The text JavaScript's `String(v)` gives a value. */
  function JsToString(v: Value): (r: string)
    ensures v.Str? ==> r == v.s
    ensures v.Null? ==> r == "null"
    decreases v, 1
  {
    match v
    case Null => "null"
    case Bool(b) => if b then "true" else "false"
    case Num(n) => IntToString(n)
    case Str(s) => s
    case Arr(items) => JoinedItems(v, items)
    case Obj(_) => "[object Object]"
  }

  /** `items.join(',')`, where `null` elements become the empty string. */
  function JoinedItems(whole: Value, items: seq<Value>): string
    requires whole.Arr? && forall i :: 0 <= i < |items| ==> items[i] < whole
    decreases whole, 0, |items|
  {
    if items == [] then ""
    else
      var head := if items[0].Null? then "" else JsToString(items[0]);
      if |items| == 1 then head else head + "," + JoinedItems(whole, items[1..])
  }

  /** A number's text is its decimal digits, after a minus sign when it is negative, and reads back as the number. */
  lemma NumberText(n: int)
    ensures var r := JsToString(Num(n));
      && (n >= 0 ==> (forall i :: 0 <= i < |r| ==> '0' <= r[i] <= '9') && DecimalValue(r) == n)
      && (n < 0 ==> |r| >= 2 && r[0] == '-' && (forall i :: 1 <= i < |r| ==> '0' <= r[i] <= '9') && DecimalValue(r[1..]) == -n)
  {
    if n >= 0 {
      NatToStringRoundTrip(n);
    } else {
      var r := JsToString(Num(n));
      assert r[1..] == NatToString(-n);
      NatToStringRoundTrip(-n);
    }
  }

  /** The texts of an array of strings. */
  function TextsOf(items: seq<Value>): (r: seq<string>)
    requires forall i :: 0 <= i < |items| ==> items[i].Str?
    ensures |r| == |items| && forall i :: 0 <= i < |items| ==> r[i] == items[i].s
  {
    seq(|items|, i requires 0 <= i < |items| => items[i].s)
  }

  /** `String` of an array of strings is the strings joined by ','. */
  lemma TextArrayText(items: seq<Value>)
    requires forall i :: 0 <= i < |items| ==> items[i].Str?
    ensures JsToString(Arr(items)) == JoinWith(TextsOf(items), ",")
  {
    var whole := Arr(items);
    forall i | 0 <= i < |items| ensures items[i] < whole {
      assert items[i] in whole.items;
    }
    JoinedTexts(whole, items);
  }

  lemma {:induction false} JoinedTexts(whole: Value, items: seq<Value>)
    requires whole.Arr? && forall i :: 0 <= i < |items| ==> items[i] < whole
    requires forall i :: 0 <= i < |items| ==> items[i].Str?
    ensures JoinedItems(whole, items) == JoinWith(TextsOf(items), ",")
    decreases |items|
  {
    if |items| > 1 {
      JoinedTexts(whole, items[1..]);
      assert TextsOf(items)[1..] == TextsOf(items[1..]);
    }
  }

  /** Shallow update of one field: `{...v, key: w}`. */
  function WithField(v: Value, key: string, w: Value): (r: Value)
    requires v.Obj?
    ensures r.Obj? && r.fields == v.fields[key := w]
  {
    Obj(v.fields[key := w])
  }
}
