/** The part of bignumber.js that the TVL aggregation relies on: a value is
    either NaN or an exact decimal, and addition is exact and NaN-absorbing. */
module BigDecimal {

  /** A BigNumber as the aggregation can produce it. Every finite decimal is
      an exact rational, so `real` holds it without rounding. */
  datatype Decimal = NaN | Num(r: real)

  /** `BigNumber.prototype.plus`: the exact sum of two known values, NaN as
      soon as either side is NaN. Zero on either side leaves the other value
      unchanged. */
  function Plus(a: Decimal, b: Decimal): (s: Decimal)
    ensures s.NaN? <==> a.NaN? || b.NaN?
    ensures s.Num? ==> s.r == a.r + b.r
    ensures a == Num(0.0) ==> s == b
    ensures b == Num(0.0) ==> s == a
  {
    if a.NaN? || b.NaN? then NaN else Num(a.r + b.r)
  }

  /** The algebra the fold relies on: `new BigNumber('0')` is a two-sided
      identity, NaN absorbs from either side, and addition is exact,
      commutative and associative, so no summation order loses precision. */
  lemma PlusLaws(a: Decimal, b: Decimal, c: Decimal)
    ensures Plus(Num(0.0), a) == a && Plus(a, Num(0.0)) == a
    ensures Plus(NaN, a) == NaN && Plus(a, NaN) == NaN
    ensures a.Num? && b.Num? ==> Plus(a, b) == Num(a.r + b.r)
    ensures Plus(a, b) == Plus(b, a)
    ensures Plus(Plus(a, b), c) == Plus(a, Plus(b, c))
  {
  }
}
