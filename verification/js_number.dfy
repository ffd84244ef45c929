/** The few JavaScript number semantics the `detail` handler relies on:
    the value produced by `Number(id)`, subtracting one from it, and the
    `index in array` test on a dense array. */
module JsNumber {

  /** A JavaScript number: a finite value (kept exact), NaN, or an infinity.
      The string-to-number coercion that produces it is not modelled. */
  datatype Number = Finite(value: real) | NaN | Infinity(negative: bool)

  /** `x - 1`. NaN and the infinities absorb the subtraction. */
  function MinusOne(x: Number): (r: Number)
    ensures r.Finite? <==> x.Finite?
    ensures r.Finite? ==> r.value + 1.0 == x.value
    ensures x.NaN? ==> r.NaN?
    ensures x.Infinity? ==> r == x
  {
    match x
    case Finite(v) => Finite(v - 1.0)
    case NaN => NaN
    case Infinity(negative) => Infinity(negative)
  }

  /** A finite number with no fractional part. */
  predicate IsInteger(x: Number)
  {
    x.Finite? && x.value.Floor as real == x.value
  }

  /** The number that a non-negative integer such as an array position denotes. */
  function OfNat(i: nat): Number
  {
    Finite(i as real)
  }

  /** `x in array` for a dense array of `length` elements: the property key
      that `x` converts to names an element exactly when `x` is an integer in
      `[0, length)`. */
  predicate IsArrayIndex(x: Number, length: nat): (b: bool)
    ensures b <==> exists i: nat :: i < length && x == OfNat(i)
  {
    IsInteger(x) && 0 <= x.value.Floor < length && x == OfNat(x.value.Floor)
  }

  /** The element position named by an array index. */
  function IndexOf(x: Number, length: nat): (i: nat)
    requires IsArrayIndex(x, length)
    ensures i < length && i as real == x.value
  {
    x.value.Floor
  }

  /** A 1-based id names an element of a dense array of `length` elements. */
  predicate IsPositionId(id: Number, length: nat)
  {
    IsInteger(id) && 1.0 <= id.value <= length as real
  }

  /** `id - 1 in array` holds exactly when `id` is an integer with
      `1 <= id <= length`; the element it names is at `id - 1`. */
  lemma MinusOneIndexIffPositionId(id: Number, length: nat)
    ensures IsArrayIndex(MinusOne(id), length) <==> IsPositionId(id, length)
    ensures IsPositionId(id, length) ==> IndexOf(MinusOne(id), length) + 1 == id.value.Floor
  {
    if id.Finite? {
      var v := id.value;
      assert (v - 1.0).Floor == v.Floor - 1;
    }
  }
}
