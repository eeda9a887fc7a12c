# Checkout pricing engine — Dafny model

A model of the supermarket checkout engine in `PyCheckout/checkout.py`. It prices a basket of
product codes and quantities against a pricing table. A product has a unit price and may have an
"N for a fixed price" combo deal. The basket may be given as JSON text, as a list of
`{"code", "quantity"}` maps, or as a list of basket items.

The project has six modules:

- `Outcomes` holds `Option`, `Result` and the error kinds. Each Python `ValueError` or assertion
  failure the engine raises becomes a `Failure` with its own kind.
- `Entities` holds `Product`, `BasketItem` and the basket-item check. It also holds `Value`, the
  dynamically typed input: Python's None, bool, int, float, str, list and dict, plus an already
  built basket item. `AsInt` and `AsNumber` read a `Value` the way `isinstance(v, int)` and
  `float(v)` do.
- `BasketInput` covers `dict_to_basket_item` and the JSON step. It also covers the shape check
  that turns any accepted basket into one sequence of basket items.
- `PriceRules` holds the pricing rules on values. A `PriceTable` is a snapshot of the table at one
  moment. `DealCost` is the reference meaning of a combo deal: whole bundles at the combo price,
  the rest at the unit price. `ItemCostOf` prices one line, `TotalOf` totals a basket and
  `TotalCostOf` runs the whole computation.
- `Checkout` holds the engine's objects as classes with mutable fields:
  `ComboDealPriceModifier`, `ProductPricing` and `PricingInfo`. The caller keeps references to
  pricings and modifiers and may reassign their prices between calls. `PricingInfo.Table()` is
  the snapshot of the table's current state. `CalculateItemCost` is proved equal to `ItemCostOf`
  of that snapshot, and `CalculateTotalCost` to `TotalCostOf` of it. Its accumulator loop is
  the method `SumCosts`, proved equal to `TotalOf` of the snapshot. `ModifiedPrice` is proved equal to `DealCost` of the modifier's current
  terms. `SetUnitPrice` and `SetComboPrice` are the field assignments a caller makes. Their
  contracts state which snapshot entries change and which do not.
- `Scenarios` holds the reference configuration of the test suite and its figures. The
  configuration is A at 50 with 3 for 140, B at 35 with 2 for 60, C at 25 and D at 12. The
  reference basket costs 284. After A's combo price is raised by 10 it costs 294; after D's unit
  price is lowered by 2 it costs 280. The update scenarios are proved on live objects.

Booleans are integers here. Python's `bool` is a subclass of `int`, so the `isinstance(..., int)`
checks at `PyCheckout/checkout.py` lines 69, 84 and 188-190 accept `True` and `False` as 1 and 0.
The model reads them the same way, as a per-amount, as a quantity given to the combo deal, and as
a basket quantity. Rejecting them would change what the engine does.

## Model

| member | source | states |
|---|---|---|
| Entities.NewProduct | PyCheckout/checkout.py:20-29 | A product is built exactly when the name is a string, and its id is that name; otherwise construction fails |
| Entities.NewBasketItem | PyCheckout/checkout.py:116-122 | A basket item is built exactly when the quantity is at least 0 and keeps code and quantity; a negative quantity fails as an invalid basket item |
| Checkout.ComboTerms | PyCheckout/checkout.py:62-71 | Modifier arguments are accepted exactly when the combo price is numeric and the per-amount is an int above 0. A non-numeric combo price is reported first, then a bad per-amount |
| Checkout.ComboDealPriceModifier.Create | PyCheckout/checkout.py:62-76 | Construction succeeds exactly when the argument checks pass. It yields a fresh modifier with those terms, and otherwise the checks' error |
| Checkout.ComboDealPriceModifier.constructor | PyCheckout/checkout.py:73-74 | The modifier stores the given combo price and per-amount |
| Checkout.ComboDealPriceModifier.ModifiedPrice | PyCheckout/checkout.py:78-90 | The price fails on a non-numeric unit price, then on a quantity that is not an int at least 0, and succeeds otherwise. Its value is the reference cost `DealCost` of the modifier's current terms |
| PriceRules.DealCostFormula | PyCheckout/checkout.py:88-90 | For every quantity, the reference cost equals (quantity // N) × combo price + (quantity % N) × unit price |
| PriceRules.DealCostBelowBundle | PyCheckout/checkout.py:88-90 | Fewer units than a bundle cost quantity × unit price |
| PriceRules.DealCostAddBundle | PyCheckout/checkout.py:88-90 | One more bundle adds exactly the combo price |
| PriceRules.DealNeverDearer | PyCheckout/checkout.py:55-57 | A deal whose bundle costs no more than N single units never makes a quantity dearer than the plain price |
| Checkout.ProductPricing.Create | PyCheckout/checkout.py:101-106 | A pricing is built exactly when the unit price is numeric, and keeps the product, the price and the modifier; otherwise construction fails |
| Checkout.ProductPricing.constructor | PyCheckout/checkout.py:93-99 | The pricing stores the product, unit price and optional modifier |
| Checkout.KeyedById | PyCheckout/checkout.py:161-163 | The keys of the list-built table are exactly the product ids in the list, and each key maps to a pricing of the list with that id |
| Checkout.KeyedByIdSnoc | PyCheckout/checkout.py:161-163 | Appending a pricing to the list sets its id to that pricing and leaves the other keys alone |
| Checkout.KeyedByIdLastWins | PyCheckout/checkout.py:161-163 | An id maps to the last pricing in the list that has that id |
| Checkout.PricingInfo.FromMap | PyCheckout/checkout.py:147-156 | The dict form is kept as given |
| Checkout.PricingInfo.FromList | PyCheckout/checkout.py:158-163 | The list form, built by a loop, is the table keyed by product id with the last entry winning |
| Checkout.PricingInfo.CalculateItemCost | PyCheckout/checkout.py:196-223 | The line cost fails exactly when the code is not in the table. Otherwise it is the line's cost under the current table: the deal's price with a modifier, quantity × unit price without one |
| PriceRules.ItemCostOf | PyCheckout/checkout.py:208-223 | A line fails with unknown product exactly when its code is not priced. With a deal it costs `DealCost`; without one it costs quantity × unit price |
| BasketInput.DictToBasketItem | PyCheckout/checkout.py:168-194 | A map converts exactly when it has both keys, a string code and an int quantity at least 0. The checks report in order: missing key, non-string code, non-int quantity, negative quantity |
| BasketInput.ConvertDicts | PyCheckout/checkout.py:250-251 | A list of maps converts exactly when every map converts, giving the items in order. Otherwise the error is that of the first map that fails |
| BasketInput.DecodeBasket | PyCheckout/checkout.py:241-245 | Text is decoded and text that is not JSON is rejected as malformed. Any other value passes unchanged |
| BasketInput.Normalise | PyCheckout/checkout.py:247-258 | A non-list is rejected and a list of basket items is taken as it is. A list of maps gives exactly the conversion of its maps, in order. A list that is neither all items nor all maps is rejected. A success has one item per element |
| BasketInput.ItemsNormalise | PyCheckout/checkout.py:248-249 | A list of basket items normalises to exactly those items |
| BasketInput.ItemDictsNormalise | PyCheckout/checkout.py:250-251 | Basket items written as `{"code", "quantity"}` maps normalise back to the same items |
| PriceRules.TotalOf | PyCheckout/checkout.py:260-265 | The total succeeds exactly when every line is priced. Otherwise it fails with the unknown-product error of the first unpriced line, and no partial sum is returned |
| PriceRules.TotalOfSnoc | PyCheckout/checkout.py:260-265 | One more priced line adds exactly its cost to the total |
| PriceRules.PrefixFailureDecides | PyCheckout/checkout.py:262-263 | Once a prefix of the basket fails, the whole basket fails with that error |
| PriceRules.TotalOfAppend | PyCheckout/checkout.py:260-265 | The total of two priced baskets joined is the sum of their totals |
| PriceRules.TotalOfSwap | PyCheckout/checkout.py:260-265 | The order of two priced parts of a basket does not change its total |
| Checkout.PricingInfo.CalculateTotalCost | PyCheckout/checkout.py:225-265 | The result is the decode, normalise and total computation on the current table: malformed text and bad shapes fail before any pricing |
| Checkout.PricingInfo.SumCosts | PyCheckout/checkout.py:260-265 | The loop accumulating line costs from 0 returns exactly the total of the items on the current table, or the first unpriced line's error |
| PriceRules.ListShapesAgree | PyCheckout/checkout.py:247-251 | A basket given as basket items and the same basket given as maps cost the same, namely the total of the items |
| PriceRules.JsonShapeAgrees | PyCheckout/checkout.py:241-251 | JSON text that decodes to a list of maps costs the same as that list |
| PriceRules.RejectedShapes | PyCheckout/checkout.py:241-260 | Malformed JSON, a non-list and a list mixing kinds are rejected before pricing. An empty list costs 0 |
| PriceRules.BadDictRejectsBasket | PyCheckout/checkout.py:250-251 | One malformed map makes the whole basket fail as an invalid basket item |
| PriceRules.OtherLineUnchanged | PyCheckout/checkout.py:216-221 | Re-pricing one product leaves the cost of a line for any other product unchanged |
| Checkout.SetUnitPrice | PyCheckout/checkout.py:93-99 | Assigning a pricing's unit price sets that field. Every table entry held by that pricing gets the new unit price and keeps its deal; every other entry is unchanged |
| Checkout.SetComboPrice | PyCheckout/checkout.py:55-74 | Assigning a modifier's combo price sets that field. Every entry priced by that modifier, shared or not, gets the new combo price; every other entry is unchanged |
| PriceRules.UpdateAffectsOnlyItsProduct | PyCheckout/checkout.py:260-265 | Re-pricing one product changes a priced basket's total by exactly the change in what its lines for that product cost |
| Scenarios.ComboExamples | Checkout_Python/test_checkout.py:103-109 | Under 3 for 140 at unit price 50: 1 unit costs 50, 3 cost 140, 4 cost 190 |
| Scenarios.BadModifierArgumentsRejected | Checkout_Python/test_checkout.py:112-128 | Text prices and quantities, a fractional quantity, and a text, negative or fractional per-amount are each rejected with their error kind |
| Scenarios.ReferenceTotals | Checkout_Python/test_checkout.py:136-167 | The reference basket costs 284 under the reference pricing, 294 with A's combo at 150 and 280 with D at 10. The last two figures follow from changing only A's or only D's line |
| Scenarios.UnknownProductRejected | Checkout_Python/test_checkout.py:183-184 | The whole computation on the list `[{"code": "E", "quantity": 1}]` fails as unknown product E |
| Scenarios.BadItemsRejected | Checkout_Python/test_checkout.py:186-194 | Each malformed basket map of the tests (missing quantity, missing code, numeric code, 5.5, -1) fails with its error kind. A `true` quantity reads as 1 |
| Scenarios.BuildReference | Checkout_Python/test_checkout.py:47-70 | Building the reference pricing from a list yields the table A, B, C, D with the stated prices and two distinct modifiers |
| Scenarios.ReferenceState | Checkout_Python/test_checkout.py:47-70 | The live reference objects' table is the reference pricing with A's combo and D's unit price as they currently stand |
| Scenarios.ReferenceObjectsPrice | Checkout_Python/test_checkout.py:131-167 | The reference basket, as maps or as JSON that decodes to them, costs its total under the live reference pricing |
| Scenarios.PriceReferenceBasket | Checkout_Python/test_checkout.py:160-167 | Pricing the reference basket as maps on the live reference objects gives the total under the reference pricing with A's combo and D's unit price as they stand |
| Scenarios.ComboPriceRaised | Checkout_Python/test_checkout.py:145-167 | On live objects: 284 before and 294 after A's modifier is raised by 10 in place |
| Scenarios.SharedModifierRepricesBoth | PyCheckout/checkout.py:208-221 | Raising the combo price of one modifier shared by two products re-prices both entries, and neither unit price moves |
| Scenarios.UnitPriceLowered | Checkout_Python/test_checkout.py:145-167 | On live objects: 284 before and 280 after D's unit price is lowered by 2 in place |
| Scenarios.JsonBasket | Checkout_Python/test_checkout.py:131-133 | The reference JSON basket costs 284 under any decoder that reads it as the list of maps it spells out |

## Left out

- `PyCheckout/terminal_checkout.py`, the interactive shell around the engine, is not part of this model. Neither are the exception cause chains it prints.
- `src_python/Checkout.py`, an earlier draft of the same engine, is not part of this model.
- JSON decoding (`json.loads`) is a library call. It is the parameter `parse`, which yields None for text that is not JSON.
- Floating-point rounding is not modelled: prices are exact `real`s. Python's `0` start value and its int/float mixing give the same figures on the inputs the tests use.
- Checkout.ComboTerms: does not accept numeric strings such as `"140"`. Python's `float()` accepts them as combo prices, and the model treats every string as non-numeric.
- Checkout.ComboDealPriceModifier.ModifiedPrice: does not accept numeric strings as unit prices, for the same reason.
- Checkout.ProductPricing.Create: does not accept numeric strings as unit prices, for the same reason. The string stored as a unit price, and what Python would do with it later, is not modelled.
- Python distinguishes `TypeError` from `ValueError`, for example `float(None)`. The model does not; each has its own error kind instead, and message texts are not modelled.
- A modifier's per-amount is positive by its type. A later assignment of 0, and the division by zero that would follow, cannot be expressed.
- The runtime type assertions are enforced by Dafny's types instead of being modelled as error paths. These are the product being a `Product`, the modifier being a modifier or None, dict keys being strings and values being pricings, and the "neither dict nor list" branch of the table constructor.
- A `BasketItem` built directly with a non-int quantity cannot be represented, since quantities are `nat`. The model covers only the negative-quantity check.
- The dict form of the table is kept as given. Python shares the caller's dict object, so later insertions by the caller would show through; the model keeps only the map's value.
- Repeating `CalculateTotalCost` gives the same result because it modifies nothing. This is stated by its frame, not by a separate lemma.
