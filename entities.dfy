/** The value objects of the checkout engine and the dynamically typed
    input it accepts.

    `Value` is a basket input after JSON decoding (or as a caller passes it):
    Python's None, bool, int, float, str, list and dict, plus an already
    constructed `BasketItem`. Prices are modelled as `real` and quantities as
    `nat`; Python's bool is a subclass of int, so `true` and `false` behave as
    1 and 0 wherever the engine accepts an int. */
module Entities {
  import opened Outcomes

  /** A purchasable product; its identity is its name. */
  datatype Product = Product(name: string) {
    function Id(): string { name }
  }

  /** Product construction: the name must be a string. */
  function NewProduct(name: Value): (r: Result<Product>)
    ensures r.Success? <==> name.VStr?
    ensures r.Success? ==> r.value.Id() == name.s
    ensures r.Failure? ==> r.error == InvalidProductName
  {
    if name.VStr? then Success(Product(name.s)) else Failure(InvalidProductName)
  }

  /** One line of a basket: a product code and a non-negative quantity.
      The `nat` type is the invariant that construction enforces. */
  datatype BasketItem = BasketItem(code: string, quantity: nat)

  /** Basket item construction, which rejects a negative quantity. */
  function NewBasketItem(code: string, quantity: int): (r: Result<BasketItem>)
    ensures r.Success? <==> quantity >= 0
    ensures r.Success? ==> r.value.code == code && r.value.quantity == quantity
    ensures r.Failure? ==> r.error == InvalidBasketItem(NegativeQuantity)
  {
    if quantity >= 0 then Success(BasketItem(code, quantity))
    else Failure(InvalidBasketItem(NegativeQuantity))
  }

  /** A decoded, dynamically typed input value. */
  datatype Value =
    | VNone
    | VBool(b: bool)
    | VInt(i: int)
    | VFloat(r: real)
    | VStr(s: string)
    | VList(items: seq<Value>)
    | VDict(entries: map<string, Value>)
    | VItem(item: BasketItem)

  /** The value `isinstance(v, int)` accepts, as an integer: an int, or a bool
      read as 1 or 0. */
  function AsInt(v: Value): Option<int>
  {
    match v
    case VInt(i) => Some(i)
    case VBool(b) => Some(if b then 1 else 0)
    case _ => None
  }

  /** The number `float(v)` produces for a numeric value; None for a value
      that is not numeric. */
  function AsNumber(v: Value): Option<real>
  {
    match v
    case VInt(i) => Some(i as real)
    case VBool(b) => Some(if b then 1.0 else 0.0)
    case VFloat(r) => Some(r)
    case _ => None
  }

  /** A quantity as the combo rule accepts it: an int that is at least zero. */
  function AsQuantity(v: Value): (q: Option<nat>)
    ensures q.Some? <==> AsInt(v).Some? && AsInt(v).value >= 0
    ensures q.Some? ==> q.value == AsInt(v).value
  {
    match AsInt(v)
    case Some(i) => if i >= 0 then Some(i) else None
    case None => None
  }
}
