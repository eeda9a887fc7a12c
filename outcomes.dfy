/** Failure-carrying results of the pricing engine.

    Every check of the checkout engine raises an exception in the original
    program; here each one is a named error kind, returned in a `Result`. */
module Outcomes {

  datatype Option<+T> = None | Some(value: T)

  /** Why a key/value map, or a quantity, is not a valid basket item. */
  datatype ItemFault =
    | MissingField      // the map lacks `code` or `quantity`
    | CodeNotText       // `code` is not a string
    | QuantityNotInt    // `quantity` is not an integer (a bool counts as one)
    | NegativeQuantity  // a basket item with quantity below zero

  /** Why a combo-deal modifier cannot be built. */
  datatype ConfigFault =
    | ComboPriceNotNumeric
    | PerAmountNotPositiveInt

  datatype Error =
    | MalformedInput                       // basket text that is not JSON
    | InvalidBasketShape                   // not a list, or a list of mixed elements
    | InvalidBasketItem(fault: ItemFault)  // an element that is not a valid basket item
    | InvalidModifierConfig(reason: ConfigFault)
    | InvalidPriceInput                    // a unit price that is not numeric
    | InvalidQuantity                      // a quantity that is negative or not an integer
    | InvalidPricingConfig                 // a product pricing whose unit price is not numeric
    | InvalidProductName                   // a product name that is not a string
    | UnknownProduct(code: string)         // a basket code missing from the pricing table

  datatype Result<+T> = Success(value: T) | Failure(error: Error)
}
