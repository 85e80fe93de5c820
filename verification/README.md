# Item and Merchant records of black_thursday

black_thursday loads merchants, items, invoices and related records into
in-memory repositories and analyses them. This project models its two entity
records, `Item` and `Merchant`. The model covers how each is built from a
details hash and what each setter changes.

The model is functional. A record is an immutable datatype. Each setter is a
pure function that returns the updated record. Ruby's `nil` is `Values.Option`'s
`None`, which is also what a missing hash key reads as. A constructor that can
raise returns `Values.Result`.

- `decimals.dfy` (`Decimals`): exact decimals `digits × 10^-exponent`. This is
  how `BigDecimal` is modelled. Dividing by 100 shifts the exponent by two, which
  is exact.
- `item.dfy` (`Items`): `Item.new` and the setters `update_id`, `update_name`,
  `update_description`, `update_unit_price` and `update_time`.
- `item_history.dfy` (`ItemHistory`): a series of setter calls on one item.
  It is used to state last-writer-wins and "nothing else changes" for any
  sequence of calls.
- `merchant.dfy` (`Merchants`): `Merchant.new`, the readers and `update_name`.
- `entities.dfy` (`Entities`): where the two records handle the same input
  differently.
- `values.dfy` (`Values`): `Option` and `Result`.

Two checks the records do not make:
- `Item` checks no sign on the price, so a negative price is kept.
- `Merchant` stores a missing name as nil, and `update_name(nil)` sets it to nil.

## Model

| member | source | states |
|---|---|---|
| Decimals.DivBy100 | lib/item.rb:18 | `BigDecimal / 100` is exact: the quotient's value is exactly one hundredth of the dividend's value, with no rounding |
| Decimals.FromInteger | lib/item.rb:18 | `BigDecimal(n)` of an Integer number of minor units denotes exactly `n` |
| Items.New | lib/item.rb:14-24 | construction fails exactly when the price is nil (`BigDecimal(nil)` raises). Otherwise the id and merchant_id are integers, with nil coerced to 0. The price is the supplied amount divided by 100 exactly. Name, description, created_at and updated_at are stored as supplied |
| Items.NewFromMinorUnits | lib/item.rb:18 | an item built from an Integer price of `n` minor units is built successfully, and its price is exactly `n / 100` |
| Items.UpdateId | lib/item.rb:30-32 | the id becomes the argument, even nil, and no other field changes |
| Items.UpdateName | lib/item.rb:34-38 | nil leaves the item unchanged; any other value becomes the name; no other field changes |
| Items.UpdateDescription | lib/item.rb:40-44 | nil leaves the item unchanged; any other value becomes the description; no other field changes |
| Items.UpdateUnitPrice | lib/item.rb:46-50 | nil leaves the item unchanged; any other price is stored verbatim, without scaling; no other field changes |
| Items.UpdateTime | lib/item.rb:52-54 | updated_at becomes the supplied clock reading, and no other field changes |
| Items.UnitPriceSetterSkipsScaling | lib/item.rb:46-50 | storing through the setter the same price a new item was built from gives 100 times the constructed price. The two agree only when that price is zero |
| ItemHistory.RunFields | lib/item.rb:30-54 | after any series of setter calls, each field holds the last value stored into it. nil arguments to the guarded setters store nothing, but nil to `update_id` does. A field no call stored into keeps its old value. merchant_id and created_at never change |
| ItemHistory.RunKeepsPresentText | lib/item.rb:34-44 | once an item's name or description is present, no series of setter calls makes it nil |
| ItemHistory.DistinctFieldsCommute | lib/item.rb:30-54 | setter calls that write different fields give the same item in either order |
| ItemHistory.ApplyIdempotent | lib/item.rb:30-54 | repeating any setter call with the same argument changes nothing more. For `update_time`, which takes no argument, this covers a repeat that reads the same clock value |
| Merchants.New | lib/merchant.rb:5-8 | id and name are stored exactly as given, with no coercion (a nil id stays nil) |
| Merchants.Details | lib/merchant.rb:2-3 | the `id` and `name` readers return the stored values |
| Merchants.NewDetailsRoundTrip | lib/merchant.rb:2-8 | reading a new merchant back gives its details, and building from a merchant's readers gives that merchant |
| Merchants.UpdateName | lib/merchant.rb:10-12 | the name becomes the argument unconditionally, nil included, and the id is unchanged |
| Merchants.UpdateNameIdempotent | lib/merchant.rb:10-12 | renaming twice with the same value equals renaming once |
| Merchants.UpdateNameLastWins | lib/merchant.rb:10-12 | of two renames, the second one alone decides the result |
| Merchants.RenameAllKeepsLast | lib/merchant.rb:10-12 | after any series of renames, the id is unchanged and the name is the last one given (or the original if there were none) |
| Entities.NilIdCoercedOnlyForItems | lib/item.rb:15 | a missing id becomes 0 in an Item but stays nil in a Merchant |
| Entities.NilNameGuardedOnlyForItems | lib/merchant.rb:10-12 | renaming with nil is ignored by an Item but clears a Merchant's name |

## Left out

- `Item#unit_price_to_dollars` (lib/item.rb:26-28): it converts to a Float, and floating point is not modelled.
- The `created_at` and `updated_at` readers (lib/item.rb:56-70): they call `Time.parse`, a library date parser. Timestamps are opaque `Items.Stamp` values here.
- `update_time` reads the wall clock (`Time.now`). The model takes the reading as the parameter `now`.
- Items.New: models `to_i` only on an Integer or nil (nil becomes 0). Ruby's parsing of strings and truncation of Floats is not modelled.
- Items.New: models `BigDecimal(...)` only for an Integer, a finite BigDecimal or nil. String parsing and Float conversion, which needs a precision argument, are not modelled.
- Items.New: the NaN and ±Infinity BigDecimals, which `/ 100` passes through unchanged, cannot be represented by `Decimals.Decimal`, so prices of that kind are not modelled.
- Items.UpdateId: Ruby stores whatever object it is given, without the constructor's `to_i`, so `update_id("7")` stores the String "7" where `Item.new` would store 7. The model types the argument as an optional integer, so it cannot show that difference. The setter's return value (the stored value) is not modelled.
- Items.UpdateUnitPrice: Ruby stores whatever non-nil object it is given. The model types the argument as an optional decimal. The setter's return value (the stored value, or nil when the guard skips) is not modelled.
- Items.UpdateName, Items.UpdateDescription: the return value (the stored value, or nil when the guard skips) is not modelled.
- Merchants.UpdateName: the return value (the stored name) is not modelled.
- Merchants.New: a Ruby merchant keeps any object as its id. The model types the id as an optional integer, so the contrast with Item shows only on nil.
- lib/transaction.rb: a constructor with no readers and no behaviour.
- lib/sales_engine.rb: wiring that builds the repositories from CSV files, plus one-line `all_*` delegations.
- The repositories and `SalesAnalyst`: lib/sales_engine.rb:3-15 loads their code, but that code is not part of this model. The statistics also use square roots and float rounding.
- Random mock-data generation for tests is not part of this model.
