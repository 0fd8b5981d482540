/**
 * `float_to_decimal`: rewrite every float leaf of a JSON-like value (dicts,
 * lists and leaves) into a decimal, leaving everything else as it is.
 *
 * A float is represented by the exact decimal its shortest text (`str`)
 * denotes, so `decimal.Decimal(str(f))` keeps that value; infinities and NaN
 * print as `inf`, `-inf` and `nan` and become the decimal infinities and NaN.
 */
module DecimalConversion {

  datatype PyFloat = FloatFinite(shortest: real) | FloatInfinite(negative: bool) | FloatNaN

  datatype Decimal = DecFinite(value: real) | DecInfinite(negative: bool) | DecNaN

  /** A JSON-like value; a dict keeps its keys in insertion order. */
  datatype Json =
    | JFloat(f: PyFloat)
    | JDecimal(d: Decimal)
    | JInt(i: int)
    | JBool(b: bool)
    | JStr(s: string)
    | JNull
    | JList(items: seq<Json>)
    | JDict(fields: seq<(string, Json)>)

  /** `decimal.Decimal(str(f))`: the decimal stands for the same number as the float. */
  function DecimalOfFloat(f: PyFloat): (d: Decimal)
    ensures DecimalNumber(d) == FloatNumber(f)
  {
    match f
    case FloatFinite(x) => DecFinite(x)
    case FloatInfinite(neg) => DecInfinite(neg)
    case FloatNaN => DecNaN
  }

  /** No float leaf anywhere in `v`. */
  ghost predicate FloatFree(v: Json) {
    match v
    case JFloat(_) => false
    case JList(items) => forall i :: 0 <= i < |items| ==> FloatFree(items[i])
    case JDict(fields) => forall i :: 0 <= i < |fields| ==> FloatFree(fields[i].1)
    case _ => true
  }

  /** A number as a number, whether it is held as a float or as a decimal. */
  datatype Number = Finite(value: real) | Infinite(negative: bool) | NaN

  /** What a value says, forgetting how each number is stored. */
  datatype View =
    | VNumber(n: Number)
    | VInt(i: int)
    | VBool(b: bool)
    | VStr(s: string)
    | VNull
    | VList(items: seq<View>)
    | VDict(fields: seq<(string, View)>)

  function FloatNumber(f: PyFloat): Number {
    match f
    case FloatFinite(x) => Finite(x)
    case FloatInfinite(neg) => Infinite(neg)
    case FloatNaN => NaN
  }

  function DecimalNumber(d: Decimal): Number {
    match d
    case DecFinite(x) => Finite(x)
    case DecInfinite(neg) => Infinite(neg)
    case DecNaN => NaN
  }

  function ViewOf(v: Json): View {
    match v
    case JFloat(f) => VNumber(FloatNumber(f))
    case JDecimal(d) => VNumber(DecimalNumber(d))
    case JInt(i) => VInt(i)
    case JBool(b) => VBool(b)
    case JStr(s) => VStr(s)
    case JNull => VNull
    case JList(items) => VList(seq(|items|, i requires 0 <= i < |items| => ViewOf(items[i])))
    case JDict(fields) => VDict(seq(|fields|, i requires 0 <= i < |fields| => (fields[i].0, ViewOf(fields[i].1))))
  }

  /**
   * `float_to_decimal(value)`: the result holds no float and says exactly
   * what `v` says, so keys, list lengths and order, and non-float leaves
   * are unchanged.
   */
  function FloatToDecimal(v: Json): (r: Json)
    ensures FloatFree(r)
    ensures ViewOf(r) == ViewOf(v)
  {
    match v
    case JFloat(f) => JDecimal(DecimalOfFloat(f))
    case JList(items) =>
      var r := JList(seq(|items|, i requires 0 <= i < |items| => FloatToDecimal(items[i])));
      assert forall i :: 0 <= i < |items| ==> r.items[i] == FloatToDecimal(items[i]);
      assert forall i :: 0 <= i < |items| ==> ViewOf(r).items[i] == ViewOf(r.items[i]);
      assert ViewOf(r).items == ViewOf(v).items;
      r
    case JDict(fields) =>
      var r := JDict(seq(|fields|, i requires 0 <= i < |fields| => (fields[i].0, FloatToDecimal(fields[i].1))));
      assert forall i :: 0 <= i < |fields| ==> r.fields[i] == (fields[i].0, FloatToDecimal(fields[i].1));
      assert forall i :: 0 <= i < |fields| ==> ViewOf(r).fields[i] == (r.fields[i].0, ViewOf(r.fields[i].1));
      assert ViewOf(r).fields == ViewOf(v).fields;
      r
    case _ => v
  }

  /** A float-free value is the only float-free value with its view. */
  lemma {:induction false} FloatFreeViewUnique(v: Json, w: Json)
    requires FloatFree(v) && FloatFree(w) && ViewOf(v) == ViewOf(w)
    ensures v == w
  {
    match v
    case JList(items) =>
      var items' := w.items;
      assert |items'| == |ViewOf(w).items| == |items|;
      forall i | 0 <= i < |items| ensures items[i] == items'[i] {
        assert ViewOf(v).items[i] == ViewOf(w).items[i];
        FloatFreeViewUnique(items[i], items'[i]);
      }
    case JDict(fields) =>
      var fields' := w.fields;
      assert |fields'| == |ViewOf(w).fields| == |fields|;
      forall i | 0 <= i < |fields| ensures fields[i] == fields'[i] {
        assert ViewOf(v).fields[i] == ViewOf(w).fields[i];
        FloatFreeViewUnique(fields[i].1, fields'[i].1);
      }
    case JDecimal(d) =>
      assert w.JDecimal?;
    case _ =>
  }

  /** `FloatToDecimal` is the unique float-free value with the same view as its input. */
  lemma FloatToDecimalCharacterised(v: Json, w: Json)
    requires FloatFree(w) && ViewOf(w) == ViewOf(v)
    ensures w == FloatToDecimal(v)
  {
    FloatFreeViewUnique(w, FloatToDecimal(v));
  }

  /** A value without floats is returned unchanged. */
  lemma FloatToDecimalIdentity(v: Json)
    requires FloatFree(v)
    ensures FloatToDecimal(v) == v
  {
    FloatFreeViewUnique(v, FloatToDecimal(v));
  }

  /** Applying the conversion twice is the same as applying it once. */
  lemma FloatToDecimalIdempotent(v: Json)
    ensures FloatToDecimal(FloatToDecimal(v)) == FloatToDecimal(v)
  {
    FloatToDecimalIdentity(FloatToDecimal(v));
  }

  /** Dict keys keep their order and list lengths are kept. */
  lemma FloatToDecimalShape(v: Json)
    ensures v.JList? ==> FloatToDecimal(v).JList? && |FloatToDecimal(v).items| == |v.items|
    ensures v.JDict? ==> FloatToDecimal(v).JDict? && |FloatToDecimal(v).fields| == |v.fields|
    ensures v.JDict? ==> forall i :: 0 <= i < |v.fields| ==> FloatToDecimal(v).fields[i].0 == v.fields[i].0
    ensures !v.JFloat? && !v.JList? && !v.JDict? ==> FloatToDecimal(v) == v
  {
    var r := FloatToDecimal(v);
    if v.JList? {
      assert |ViewOf(r).items| == |ViewOf(v).items|;
    } else if v.JDict? {
      assert |ViewOf(r).fields| == |ViewOf(v).fields|;
      forall i | 0 <= i < |v.fields| ensures r.fields[i].0 == v.fields[i].0 {
        assert ViewOf(r).fields[i].0 == ViewOf(v).fields[i].0;
      }
    }
  }
}
