/** JSON-like values for the untyped node records of the UI tree.

    The tree that the stream delivers, and every value a patch writes into it,
    is an untyped JavaScript value.  `Json` models it, with one constructor for
    `undefined` because a patch without a `value` writes `undefined` into the
    tree.  `Get` is a JavaScript property read and `Truthy` is JavaScript
    truthiness; the layout engine, the patch applier and the renderer read the
    tree only through these two. */
module JsonValues {

  datatype Option<+T> = None | Some(value: T)

  datatype Result<+T> = Ok(value: T) | Err(message: string)

  datatype Json =
    | JUndefined
    | JNull
    | JBool(b: bool)
    | JNum(n: real)
    | JStr(s: string)
    | JArr(items: seq<Json>)
    | JObj(fields: map<string, Json>)

  /** JavaScript truthiness (NaN is not a value of this model). */
  predicate Truthy(v: Json)
  {
    match v
    case JUndefined => false
    case JNull => false
    case JBool(b) => b
    case JNum(n) => n != 0.0
    case JStr(s) => s != ""
    case JArr(_) => true
    case JObj(_) => true
  }

  /** `typeof v === 'object' && v !== null`. */
  predicate IsObjectLike(v: Json)
  {
    v.JObj? || v.JArr?
  }

  const MaxArrayIndex: nat := 0xFFFF_FFFE

  predicate IsDigit(c: char)
  {
    '0' <= c <= '9'
  }

  function DigitsValue(s: string): nat
    requires forall k :: 0 <= k < |s| ==> IsDigit(s[k])
  {
    if s == [] then 0
    else
      assert IsDigit(s[|s| - 1]);
      DigitsValue(s[..|s| - 1]) * 10 + (s[|s| - 1] as int - '0' as int) as nat
  }

  /** The decimal numeral of `v`, as JavaScript's `String(v)` writes it. */
  function Numeral(v: nat): (s: string)
    ensures s != []
    ensures forall k :: 0 <= k < |s| ==> IsDigit(s[k])
  {
    if v < 10 then [('0' as int + v) as char]
    else Numeral(v / 10) + [('0' as int + v % 10) as char]
  }

  /** The array index a property key names: a key is an index when it is the
      canonical numeral of a number below 2^32 - 1 (the numeral reads back to
      itself); any other key names an ordinary property. */
  function ParseIndex(key: string): (r: Option<nat>)
    ensures r.Some? ==> r.value <= MaxArrayIndex && Numeral(r.value) == key
  {
    if key == [] || !(forall k :: 0 <= k < |key| ==> IsDigit(key[k])) then None
    else
      var v := DigitsValue(key);
      if v <= MaxArrayIndex && Numeral(v) == key then Some(v) else None
  }

  /** `v[key]`: an own property of an object, an element of an array at a
      canonical index, and `undefined` for everything else. */
  function Get(v: Json, key: string): Json
  {
    match v
    case JObj(m) => if key in m then m[key] else JUndefined
    case JArr(items) =>
      var i := ParseIndex(key);
      if i.Some? && i.value < |items| then items[i.value] else JUndefined
    case _ => JUndefined
  }

  /** Writing index `i` of an array: inside the array it replaces the element;
      beyond the end it grows the array, the holes reading as `undefined`. */
  function SetIndex(items: seq<Json>, i: nat, x: Json): (r: seq<Json>)
    ensures |r| == if i < |items| then |items| else i + 1
    ensures r[i] == x
    ensures forall k :: 0 <= k < |r| && k != i ==>
              r[k] == if k < |items| then items[k] else JUndefined
  {
    if i < |items| then items[i := x]
    else items + seq(i - |items|, _ => JUndefined) + [x]
  }

  /** `target[key] = x` on an object or an array.  A key that is not an
      array index, written to an array, becomes a named property that no
      JSON array can hold: the model drops it. */
  function Put(target: Json, key: string, x: Json): (r: Json)
    ensures IsObjectLike(target) ==> IsObjectLike(r) && r.JObj? == target.JObj?
  {
    match target
    case JObj(m) => JObj(m[key := x])
    case JArr(items) =>
      var i := ParseIndex(key);
      if i.Some? then JArr(SetIndex(items, i.value, x)) else target
    case _ => target
  }

  /** Whether `target[key] = x` lands on something this model represents. */
  predicate Stores(target: Json, key: string)
  {
    target.JObj? || (target.JArr? && ParseIndex(key).Some?)
  }

  lemma {:induction false} PutThenGet(target: Json, key: string, x: Json)
    requires Stores(target, key)
    ensures Get(Put(target, key, x), key) == x
  {
    match target
    case JObj(m) =>
    case JArr(items) =>
      var i := ParseIndex(key).value;
      assert Put(target, key, x) == JArr(SetIndex(items, i, x));
  }

  /** The numeral of `v` reads back as `v`. */
  lemma {:induction false} NumeralValue(v: nat)
    ensures DigitsValue(Numeral(v)) == v
  {
    var s := Numeral(v);
    if v >= 10 {
      NumeralValue(v / 10);
      assert s[..|s| - 1] == Numeral(v / 10);
    }
  }

  /** Every index below 2^32 - 1, written as JavaScript writes it, is a key
      that addresses that index. */
  lemma ParseNumeral(v: nat)
    requires v <= MaxArrayIndex
    ensures ParseIndex(Numeral(v)) == Some(v)
  {
    NumeralValue(v);
  }

  /** `items[String(i)]` reads element `i`. */
  lemma IndexRead(items: seq<Json>, i: nat)
    requires i < |items| && i <= MaxArrayIndex
    ensures Get(JArr(items), Numeral(i)) == items[i]
  {
    ParseNumeral(i);
  }
}
