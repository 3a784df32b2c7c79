/** The TVL component: the left fold of the vault list into one BigNumber
    total and the text that shows it. */
module Tvl {
  import opened BigDecimal
  import opened Wei

  datatype Option<T> = None | Some(value: T)

  /** A vault record as the store holds it, reduced to the two fields the total
      reads. `tvl` is `None` when the record's `tvl` is JavaScript-falsy (for
      example missing, `null`, the empty string or the number 0). A truthy
      zero, such as the string "0" or a zero `BigNumber` object, is `Some(0)`
      and contributes an exact 0. */
  datatype Vault = Vault(tvl: Option<nat>, decimals: nat)

  /** Every vault in the list has a usable `tvl`. */
  predicate AllKnown(vs: seq<Vault>)
  {
    forall i :: 0 <= i < |vs| ==> vs[i].tvl.Some?
  }

  /** The plain sum of the converted `tvl` of every vault: the reference value
      the accumulator must reach when nothing is unknown. */
  function KnownSum(vs: seq<Vault>): (s: real)
    requires AllKnown(vs)
  {
    if vs == [] then 0.0 else FromWei(vs[0].tvl.value, vs[0].decimals) + KnownSum(vs[1..])
  }

  /** What one vault adds to the running total: its converted `tvl` when that
      is truthy, NaN otherwise. An unknown vault is never counted as zero, and
      a known one adds a non-negative amount that scales back to its raw `tvl`. */
  function Contribution(v: Vault): (c: Decimal)
    ensures c.NaN? <==> v.tvl.None?
    ensures c.Num? ==> c.r >= 0.0 && c.r * (Pow10(v.decimals) as real) == v.tvl.value as real
  {
    if v.tvl.Some? then Num(FromWei(v.tvl.value, v.decimals)) else NaN
  }

  /** The `reduce` callback applied left to right from accumulator `acc`.
      The result is NaN when the accumulator or any vault is unknown, and
      otherwise exactly the accumulator plus the sum of all contributions. */
  function Fold(acc: Decimal, vs: seq<Vault>): (r: Decimal)
    ensures r == if acc.NaN? || !AllKnown(vs) then NaN else Num(acc.r + KnownSum(vs))
    decreases vs
  {
    if vs == [] then acc
    else
      assert AllKnown(vs) <==> vs[0].tvl.Some? && AllKnown(vs[1..]);
      Fold(Plus(acc, Contribution(vs[0])), vs[1..])
  }

  /** The TVL of a vault list, folded from `new BigNumber('0')`: NaN when any
      vault is unknown, otherwise the exact sum of every vault's converted
      `tvl` (0 for the empty list). */
  function Total(vs: seq<Vault>): (r: Decimal)
    ensures r == if AllKnown(vs) then Num(KnownSum(vs)) else NaN
    ensures vs == [] ==> r == Num(0.0)
    ensures r.Num? ==> r.r >= 0.0
  {
    KnownSumNonNegative(vs);
    Fold(Num(0.0), vs)
  }

  lemma {:induction false} KnownSumNonNegative(vs: seq<Vault>)
    ensures AllKnown(vs) ==> KnownSum(vs) >= 0.0
  {
    if vs != [] && AllKnown(vs) {
      AllKnownTail(vs);
      KnownSumNonNegative(vs[1..]);
    }
  }

  /** A single unknown vault anywhere in the list makes the whole TVL NaN. */
  lemma UnknownPoisons(vs: seq<Vault>, i: nat)
    requires i < |vs| && vs[i].tvl.None?
    ensures Total(vs) == NaN
  {
  }

  /** Once the accumulator is NaN, no further vault brings it back. */
  lemma NaNStaysNaN(vs: seq<Vault>)
    ensures Fold(NaN, vs) == NaN
  {
  }

  /** Folding one more vault onto a list is one more `plus` on the fold of the list. */
  lemma {:induction false} FoldAppend(acc: Decimal, xs: seq<Vault>, v: Vault)
    ensures Fold(acc, xs + [v]) == Plus(Fold(acc, xs), Contribution(v))
    decreases xs
  {
    if xs == [] {
      assert [] + [v] == [v];
    } else {
      assert (xs + [v])[1..] == xs[1..] + [v];
      FoldAppend(Plus(acc, Contribution(xs[0])), xs[1..], v);
    }
  }

  /** The TVL decomposes over append: the total of `xs + [v]` is the total of
      `xs` plus what `v` contributes. */
  lemma TotalAppend(xs: seq<Vault>, v: Vault)
    ensures Total(xs + [v]) == Plus(Total(xs), Contribution(v))
  {
    FoldAppend(Num(0.0), xs, v);
  }

  /** Taking the vault at index `i` out of a known list removes exactly its
      converted `tvl` from the sum. */
  lemma {:induction false} KnownSumRemove(vs: seq<Vault>, i: nat)
    requires AllKnown(vs) && i < |vs|
    ensures AllKnown(vs[..i] + vs[i + 1..])
    ensures KnownSum(vs) == FromWei(vs[i].tvl.value, vs[i].decimals) + KnownSum(vs[..i] + vs[i + 1..])
  {
    var rest := vs[..i] + vs[i + 1..];
    assert forall k :: 0 <= k < |rest| ==> rest[k] == (if k < i then vs[k] else vs[k + 1]);
    if i > 0 {
      var tail := vs[1..];
      AllKnownTail(vs);
      assert tail[..i - 1] + tail[i..] == rest[1..];
      KnownSumRemove(tail, i - 1);
    } else {
      assert rest == vs[1..];
    }
  }

  /** The known vaults of one list are the known vaults of any rearrangement of it. */
  lemma AllKnownPermutation(xs: seq<Vault>, ys: seq<Vault>)
    requires multiset(xs) == multiset(ys)
    ensures AllKnown(xs) <==> AllKnown(ys)
  {
    forall xs': seq<Vault>, ys': seq<Vault> | multiset(xs') == multiset(ys') && AllKnown(xs')
      ensures AllKnown(ys')
    {
      forall k | 0 <= k < |ys'| ensures ys'[k].tvl.Some? {
        assert ys'[k] in multiset(xs');
        var m :| 0 <= m < |xs'| && xs'[m] == ys'[k];
      }
    }
  }

  /** Dropping the first element of one list and an equal element of a
      rearrangement of it leaves two lists that are still rearrangements. */
  lemma MultisetRemove(xs: seq<Vault>, ys: seq<Vault>, j: nat)
    requires multiset(xs) == multiset(ys) && xs != [] && j < |ys| && ys[j] == xs[0]
    ensures multiset(xs[1..]) == multiset(ys[..j] + ys[j + 1..])
  {
    assert xs == [xs[0]] + xs[1..];
    assert ys == ys[..j] + [ys[j]] + ys[j + 1..];
    assert multiset(xs[1..]) == multiset(xs) - multiset{xs[0]};
    assert multiset(ys[..j] + ys[j + 1..]) == multiset(ys) - multiset{ys[j]};
  }

  lemma AllKnownTail(vs: seq<Vault>)
    requires vs != [] && AllKnown(vs)
    ensures AllKnown(vs[1..])
  {
  }

  /** The exact sum of a known list does not depend on the order of its vaults. */
  lemma {:induction false} KnownSumPermutation(xs: seq<Vault>, ys: seq<Vault>)
    requires AllKnown(xs) && multiset(xs) == multiset(ys)
    ensures AllKnown(ys) && KnownSum(xs) == KnownSum(ys)
  {
    AllKnownPermutation(xs, ys);
    if xs != [] {
      assert xs[0] in multiset(ys);
      var j :| 0 <= j < |ys| && ys[j] == xs[0];
      MultisetRemove(xs, ys, j);
      AllKnownTail(xs);
      KnownSumPermutation(xs[1..], ys[..j] + ys[j + 1..]);
      KnownSumRemove(ys, j);
    }
  }

  /** Reordering the vault list never changes the TVL: an unknown vault poisons
      every order alike, and the exact sum of known vaults is order-free. */
  lemma TotalPermutation(xs: seq<Vault>, ys: seq<Vault>)
    requires multiset(xs) == multiset(ys)
    ensures Total(xs) == Total(ys)
  {
    AllKnownPermutation(xs, ys);
    if AllKnown(xs) {
      KnownSumPermutation(xs, ys);
    }
  }

  /** The figure under the "TVL" heading: a literal `$` followed by `-` for
      NaN, or by the formatter's text for a known total. `formatAmount` stands
      for the formatter, applied to the exact total. */
  function Display(total: Decimal, formatAmount: real -> string): (s: string)
    ensures |s| >= 1 && s[0] == '$'
    ensures total.NaN? ==> s[1..] == "-"
    ensures total.Num? ==> s[1..] == formatAmount(total.r)
  {
    "$" + (if total.NaN? then "-" else formatAmount(total.r))
  }

  /** The figure reads `$-` exactly when the total is NaN or the formatter
      itself printed `-`; with a formatter that never prints a lone `-`, the
      placeholder means "unknown" and nothing else. */
  lemma DisplayPlaceholder(total: Decimal, formatAmount: real -> string)
    ensures Display(total, formatAmount) == "$-" <==>
      total.NaN? || formatAmount(total.r) == "-"
  {
  }

  /** What the component renders for a vault list: `$-` if any vault is
      unknown, otherwise `$` and the formatted exact sum. */
  function RenderedTvl(vs: seq<Vault>, formatAmount: real -> string): (s: string)
    ensures s == if AllKnown(vs) then "$" + formatAmount(KnownSum(vs)) else "$-"
  {
    Display(Total(vs), formatAmount)
  }
}
