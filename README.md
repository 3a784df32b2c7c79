# TVL aggregation of the 2pi finance dashboard

This project models the total-value-locked (TVL) figure of the dashboard's
`Tvl` component. The component takes the list of vault records from the store.
It folds them left to right into one bignumber.js `BigNumber`, starting from
`new BigNumber('0')`. Each vault adds `fromWei(vault.tvl, vault.decimals)` when
its `tvl` is truthy, and `NaN` otherwise. `plus` propagates NaN, so one unknown
vault makes the whole total unknown. The component then renders a literal `$`
followed by `-` for a NaN total, or by the formatted amount otherwise.

Modules:

- `BigDecimal` (`big_decimal.dfy`): a `BigNumber` is `NaN` or an exact decimal
  `Num(r)` over `real`. `Plus` is exact, NaN-absorbing addition.
- `Wei` (`wei.dfy`): `FromWei(raw, decimals)`, taken to be the exact quotient
  `raw / 10^decimals`.
- `Tvl` (`tvl.dfy`): the vault record, one vault's contribution, the left
  fold, the total, and the rendered figure. The formatter `formatAmount` is a
  parameter (`real -> string`), so nothing is assumed about its output.

The central result is `Tvl.Total`. It states that the fold yields NaN exactly
when some vault is unknown. Otherwise it yields the exact sum of every vault's
converted `tvl`, given by an independent right-recursive reference sum
`KnownSum`. Append decomposition and order-independence follow as lemmas.
Order-independence is proved for every list, not only for all-known lists.

Details of the component that the model keeps:

- The component writes `$` outside the conditional at
  src/components/tvl.js:24, so an unknown TVL renders as `$-`. `Display`
  models `$-`.
- The total sums each record's `tvl` field, scaled by that vault's own
  `decimals`, with no price applied. The model sums exactly that.
- "Unknown" is JavaScript falsiness of `vault.tvl`, not absence alone.
  `Vault.tvl` is `None` for every falsy value, for example `undefined`,
  `null`, the empty string or the number `0`. A `tvl` of numeric zero
  therefore poisons the total. A truthy zero, such as the string `"0"` or a
  zero `BigNumber` object, is `Some(0)` and contributes an exact 0.

## Model

| member | source | states |
|---|---|---|
| `BigDecimal.Plus` | src/components/tvl.js:12 | the sum is NaN if and only if either side is NaN; otherwise it is the exact sum of the two values; zero on either side leaves the other value unchanged |
| `BigDecimal.PlusLaws` | src/components/tvl.js:12-13 | `BigNumber('0')` is a two-sided identity of `plus`; NaN absorbs from either side; the sum of two known values is their exact sum; `plus` is commutative and associative |
| `Wei.FromWei` | src/components/tvl.js:10 | the converted amount is non-negative and multiplies back by `10^decimals` to the raw integer exactly (no truncation); with 0 decimals it is the raw amount |
| `Wei.FromWeiInjective` | src/components/tvl.js:10 | two raw amounts with the same decimals that convert to the same quantity are equal |
| `Wei.LargeAmountExact` | src/components/tvl.js:10 | a 30-digit, 18-decimal amount converts to its exact decimal value with every digit kept |
| `Tvl.Contribution` | src/components/tvl.js:10 | a vault contributes NaN if and only if its `tvl` is falsy (never 0 for an unknown vault); a known vault contributes a non-negative amount that scales back to its raw `tvl` |
| `Tvl.Fold` | src/components/tvl.js:9-12 | the `reduce` from any accumulator is NaN when the accumulator or any vault is unknown, and otherwise the accumulator plus the exact reference sum of all vaults |
| `Tvl.Total` | src/components/tvl.js:9-13 | the TVL is NaN if and only if some vault is unknown, otherwise exactly the reference sum of the converted `tvl` values; it is 0 for an empty list and never negative |
| `Tvl.UnknownPoisons` | src/components/tvl.js:9-13 | one unknown vault at any index makes the TVL NaN |
| `Tvl.NaNStaysNaN` | src/components/tvl.js:12 | once the accumulator is NaN, folding further vaults leaves it NaN |
| `Tvl.FoldAppend` | src/components/tvl.js:9-12 | folding `xs + [v]` equals one more `plus` of `v`'s contribution on the fold of `xs`, from any accumulator |
| `Tvl.TotalAppend` | src/components/tvl.js:9-13 | `Total(xs + [v]) == Plus(Total(xs), Contribution(v))` |
| `Tvl.KnownSumRemove` | src/components/tvl.js:9-13 | removing the vault at index `i` from a known list subtracts exactly its converted `tvl` from the reference sum |
| `Tvl.AllKnownPermutation` | src/components/tvl.js:9-13 | two lists that are rearrangements of each other are either both fully known or both contain an unknown vault |
| `Tvl.KnownSumPermutation` | src/components/tvl.js:9-13 | the reference sum of a known list is the same for every rearrangement of the list |
| `Tvl.TotalPermutation` | src/components/tvl.js:9-13 | reordering the vault list leaves the TVL unchanged, whether or not some vault is unknown |
| `Tvl.Display` | src/components/tvl.js:24 | the figure always starts with `$`; after it comes `-` for NaN and the formatter's text of the exact total for a known total |
| `Tvl.DisplayPlaceholder` | src/components/tvl.js:24 | the figure is `$-` if and only if the total is NaN or the formatter itself printed `-` |
| `Tvl.RenderedTvl` | src/components/tvl.js:9-24 | the rendered figure is `$-` when any vault is unknown, otherwise `$` followed by the formatted exact sum of all vaults |

## Left out

- `fromWei` is defined in `src/helpers/wei`, which is not part of this model. `Wei.FromWei` assumes it computes the exact quotient `raw / 10^decimals`.
- `formatAmount` is defined in `src/helpers/format`, which is not part of this model. It is a parameter of `Display` and `RenderedTvl`, and its rounding and grouping are not specified.
- `tvl.toNumber()` before `formatAmount` (src/components/tvl.js:24) converts the total to a binary double. The model hands the exact total to the formatter, because floating point is out of scope.
- `useSelector(selectVaults)` (src/components/tvl.js:8) reads the Redux store. The vault list is a plain input sequence.
- The JSX layout around the figure (src/components/tvl.js:15-28) is not modelled.
- JavaScript truthiness is collapsed into `Option`. A falsy `tvl` is `None` and a truthy one is a non-negative integer; strings, `BigNumber` objects and other shapes of the raw value are not distinguished.
- `decimals` is a natural number. A missing, negative or fractional `decimals` and bignumber.js values other than NaN and finite decimals (such as Infinity) are not modelled.
- `src/components/toast.js` is not modelled. It is Bootstrap toast construction, a React effect, a DOM event listener and a Redux dispatch, with no sequential logic to state apart from those frameworks.
- `src/components/vault.js` is not modelled. It is JSX layout, dynamic loading of contract ABIs, web3 contract construction and floating-point APY display.
