/** Conversion of an on-chain integer amount in base units to a decimal
    quantity, as `fromWei(raw, decimals)` is used by the TVL component. */
module Wei {

  /** 10 raised to `n`. */
  function Pow10(n: nat): (p: nat)
    ensures p >= 1
  {
    if n == 0 then 1 else 10 * Pow10(n - 1)
  }

  /** `fromWei(raw, decimals)`, taken to be the exact quotient raw / 10^decimals.
      The result is a non-negative decimal that scales back to `raw` exactly:
      nothing is truncated or rounded. */
  function FromWei(raw: nat, decimals: nat): (x: real)
    ensures x >= 0.0
    ensures x * (Pow10(decimals) as real) == raw as real
    ensures decimals == 0 ==> x == raw as real
  {
    raw as real / (Pow10(decimals) as real)
  }

  /** Two amounts with the same decimal count convert to the same quantity only
      if they are the same amount: conversion loses no information. */
  lemma FromWeiInjective(raw1: nat, raw2: nat, decimals: nat)
    requires FromWei(raw1, decimals) == FromWei(raw2, decimals)
    ensures raw1 == raw2
  {
  }

  /** A balance too large for a binary double converts exactly: an 18-decimal
      token amount of 30 digits keeps all of them. */
  lemma LargeAmountExact()
    ensures FromWei(123456789012345678901234567890, 18) == 123456789012.345678901234567890
  {
    assert Pow10(6) == 1000000;
    assert Pow10(12) == 1000000000000;
    assert Pow10(18) == 1000000000000000000;
  }
}
