/** The pricing engine's objects: the combo-deal modifier, a product's
    pricing and the pricing table. Modifiers and pricings are shared by
    reference and callers may assign their price fields between calls; every
    computation is therefore proved equal to the rules of module PriceRules
    applied to the table's current state, `PricingInfo.Table()`. */
module Checkout {
  import opened Outcomes
  import opened Entities
  import opened BasketInput
  import opened PriceRules

  /** The argument checks of the combo-deal constructor, in order: the combo
      price must be numeric, then the per-amount an int above zero (a bool
      `true` is the int 1 and passes). */
  function ComboTerms(comboPrice: Value, perAmount: Value): (r: Result<Deal>)
    ensures r.Success? <==>
      AsNumber(comboPrice).Some? && AsInt(perAmount).Some? && AsInt(perAmount).value > 0
    ensures r.Success? ==>
      r.value == Deal(AsNumber(comboPrice).value, AsInt(perAmount).value)
    ensures AsNumber(comboPrice).None? ==>
      r == Failure(InvalidModifierConfig(ComboPriceNotNumeric))
    ensures AsNumber(comboPrice).Some? && !(AsInt(perAmount).Some? && AsInt(perAmount).value > 0) ==>
      r == Failure(InvalidModifierConfig(PerAmountNotPositiveInt))
  {
    match AsNumber(comboPrice)
    case None => Failure(InvalidModifierConfig(ComboPriceNotNumeric))
    case Some(price) =>
      match AsInt(perAmount)
      case Some(n) =>
        if n > 0 then Success(Deal(price, n))
        else Failure(InvalidModifierConfig(PerAmountNotPositiveInt))
      case None => Failure(InvalidModifierConfig(PerAmountNotPositiveInt))
  }

  /** An "N for a fixed price" deal. Its combo price may be reassigned after
      construction; its per-amount stays positive by its type. */
  class ComboDealPriceModifier {
    var comboPrice: real
    var perAmount: Positive

    constructor (terms: Deal)
      ensures Terms() == terms
    {
      comboPrice := terms.comboPrice;
      perAmount := terms.perAmount;
    }

    /** Construction from unchecked arguments. */
    static method Create(comboPrice: Value, perAmount: Value) returns (r: Result<ComboDealPriceModifier>)
      ensures r.Success? <==> ComboTerms(comboPrice, perAmount).Success?
      ensures r.Failure? ==> r.error == ComboTerms(comboPrice, perAmount).error
      ensures r.Success? ==> fresh(r.value) && r.value.Terms() == ComboTerms(comboPrice, perAmount).value
    {
      match ComboTerms(comboPrice, perAmount)
      case Failure(e) =>
        r := Failure(e);
      case Success(terms) =>
        var m := new ComboDealPriceModifier(terms);
        r := Success(m);
    }

    /** The deal's current terms. */
    function Terms(): Deal
      reads this
    {
      Deal(comboPrice, perAmount)
    }

    /** The price of `quantity` units at `unitPrice` under this deal. The
        unit price must be numeric and the quantity an int (a bool is one)
        that is at least zero; the price is then the deal's reference cost. */
    function ModifiedPrice(unitPrice: Value, quantity: Value): (r: Result<real>)
      reads this
      ensures AsNumber(unitPrice).None? ==> r == Failure(InvalidPriceInput)
      ensures AsNumber(unitPrice).Some? && AsQuantity(quantity).None? ==> r == Failure(InvalidQuantity)
      ensures r.Success? <==> AsNumber(unitPrice).Some? && AsQuantity(quantity).Some?
      ensures r.Success? ==>
        r.value == DealCost(Terms(), AsNumber(unitPrice).value, AsQuantity(quantity).value)
    {
      match AsNumber(unitPrice)
      case None => Failure(InvalidPriceInput)
      case Some(u) =>
        match AsQuantity(quantity)
        case None => Failure(InvalidQuantity)
        case Some(q) =>
          DealCostFormula(Terms(), u, q);
          Success((q / perAmount) as real * comboPrice + (q % perAmount) as real * u)
    }
  }

  /** A product with its unit price and optional deal. The product is fixed;
      the unit price and the modifier may be reassigned. */
  class ProductPricing {
    const product: Product
    var unitPrice: real
    var priceModifier: ComboDealPriceModifier?

    constructor (product: Product, unitPrice: real, priceModifier: ComboDealPriceModifier?)
      ensures this.product == product
      ensures this.unitPrice == unitPrice && this.priceModifier == priceModifier
    {
      this.product := product;
      this.unitPrice := unitPrice;
      this.priceModifier := priceModifier;
    }

    /** Construction from an unchecked unit price, which must be numeric. */
    static method Create(product: Product, unitPrice: Value, priceModifier: ComboDealPriceModifier?)
      returns (r: Result<ProductPricing>)
      ensures r.Success? <==> AsNumber(unitPrice).Some?
      ensures r.Failure? ==> r.error == InvalidPricingConfig
      ensures r.Success? ==> fresh(r.value) && r.value.product == product
      ensures r.Success? ==> r.value.unitPrice == AsNumber(unitPrice).value
      ensures r.Success? ==> r.value.priceModifier == priceModifier
    {
      match AsNumber(unitPrice)
      case None =>
        r := Failure(InvalidPricingConfig);
      case Some(u) =>
        var p := new ProductPricing(product, u, priceModifier);
        r := Success(p);
    }

    /** What this pricing says at this moment. */
    function Entry(): PriceEntry
      reads this, priceModifier
    {
      PriceEntry(unitPrice, if priceModifier == null then None else Some(priceModifier.Terms()))
    }
  }

  /** The pricings of a list keyed by product id, later entries replacing
      earlier ones with the same id. */
  function KeyedById(ps: seq<ProductPricing>): (m: map<string, ProductPricing>)
    ensures m.Keys == set p | p in ps :: p.product.Id()
    ensures forall k :: k in m ==> m[k] in ps && m[k].product.Id() == k
    decreases |ps|
  {
    if ps == [] then map[]
    else
      var init, last := ps[..|ps| - 1], ps[|ps| - 1];
      KeyedById(init)[last.product.Id() := last]
  }

  /** Appending a pricing to the list sets its product id to it. */
  lemma KeyedByIdSnoc(ps: seq<ProductPricing>, p: ProductPricing)
    ensures KeyedById(ps + [p]) == KeyedById(ps)[p.product.Id() := p]
  {
    assert (ps + [p])[..|ps|] == ps;
  }

  /** A key of the list-built table maps to the last pricing in the list with
      that product id. */
  lemma {:induction false} KeyedByIdLastWins(ps: seq<ProductPricing>, i: nat)
    requires i < |ps|
    requires forall j :: i < j < |ps| ==> ps[j].product.Id() != ps[i].product.Id()
    ensures ps[i].product.Id() in KeyedById(ps)
    ensures KeyedById(ps)[ps[i].product.Id()] == ps[i]
    decreases |ps|
  {
    var init, last := ps[..|ps| - 1], ps[|ps| - 1];
    if i < |ps| - 1 {
      assert init[i] == ps[i];
      KeyedByIdLastWins(init, i);
    }
  }

  ghost function ModifiersOf(ps: set<ProductPricing>): set<object>
    reads ps
  {
    set p | p in ps && p.priceModifier != null :: p.priceModifier
  }

  /** The pricing table: product id to the pricing object, which the table
      shares with whoever built it. */
  class PricingInfo {
    var productPricings: map<string, ProductPricing>

    /** The objects whose fields the prices depend on. */
    ghost function Repr(): set<object>
      reads this, productPricings.Values
    {
      {this} + productPricings.Values + ModifiersOf(productPricings.Values)
    }

    /** Construction from a map of product id to pricing, kept as given. */
    constructor FromMap(pricings: map<string, ProductPricing>)
      ensures productPricings == pricings
    {
      productPricings := pricings;
    }

    /** Construction from a list of pricings, keyed by each product's id. */
    constructor FromList(pricings: seq<ProductPricing>)
      ensures productPricings == KeyedById(pricings)
    {
      var m: map<string, ProductPricing> := map[];
      var i := 0;
      while i < |pricings|
        invariant 0 <= i <= |pricings|
        invariant m == KeyedById(pricings[..i])
      {
        assert pricings[..i + 1][..i] == pricings[..i];
        m := m[pricings[i].product.Id() := pricings[i]];
        i := i + 1;
      }
      assert pricings[..i] == pricings;
      productPricings := m;
    }

    /** The current state of every pricing in the table. */
    function Table(): PriceTable
      reads Repr()
    {
      map c | c in productPricings :: productPricings[c].Entry()
    }

    /** The cost of one basket line: unknown codes fail; a product with a
        modifier is priced by it, any other at quantity times unit price. */
    function CalculateItemCost(item: BasketItem): (r: Result<real>)
      reads Repr()
      ensures r.Failure? <==> item.code !in productPricings
      ensures r == ItemCostOf(Table(), item)
    {
      if item.code !in productPricings then Failure(UnknownProduct(item.code))
      else
        var pricing := productPricings[item.code];
        assert Table()[item.code] == pricing.Entry();
        if pricing.priceModifier != null then
          pricing.priceModifier.ModifiedPrice(VFloat(pricing.unitPrice), VInt(item.quantity))
        else
          assert ItemCostOf(Table(), item).value == item.quantity as real * pricing.unitPrice;
          Success(item.quantity as real * pricing.unitPrice)
    }

    /** The total cost of a basket given as JSON text, as a list of maps or
        as a list of basket items. */
    method CalculateTotalCost(basket: Value, parse: string -> Option<Value>) returns (r: Result<real>)
      ensures r == TotalCostOf(Table(), basket, parse)
    {
      var input := basket;
      if basket.VStr? {
        var decoded := parse(basket.s);
        if decoded.None? {
          return Failure(MalformedInput);
        }
        input := decoded.value;
      }
      var normalised := Normalise(input);
      if normalised.Failure? {
        return Failure(normalised.error);
      }
      r := SumCosts(normalised.value);
    }

    /** The accumulation of the line costs, from 0 and in basket order; the
        first line that cannot be priced ends it with that line's error. */
    method SumCosts(items: seq<BasketItem>) returns (r: Result<real>)
      ensures r == TotalOf(Table(), items)
    {
      ghost var t := Table();
      var total := 0.0;
      var i := 0;
      while i < |items|
        invariant 0 <= i <= |items|
        invariant TotalOf(t, items[..i]) == Success(total)
      {
        var cost := CalculateItemCost(items[i]);
        assert items[..i + 1][..i] == items[..i];
        if cost.Failure? {
          PrefixFailureDecides(t, items, i + 1);
          return Failure(cost.error);
        }
        total := total + cost.value;
        i := i + 1;
      }
      assert items[..i] == items;
      r := Success(total);
    }
  }

  /** Assignment of a pricing's unit price. Every product whose table entry
      is this pricing (one id in the list form; possibly several in the dict
      form) now has the new unit price; every other entry is as before. */
  method SetUnitPrice(info: PricingInfo, p: ProductPricing, v: real)
    modifies p
    ensures p.unitPrice == v && p.priceModifier == old(p.priceModifier)
    ensures info.Table().Keys == old(info.Table()).Keys
    ensures forall k :: k in info.productPricings ==>
      info.Table()[k] == if info.productPricings[k] == p
                         then PriceEntry(v, old(info.Table()[k]).deal)
                         else old(info.Table()[k])
  {
    p.unitPrice := v;
  }

  /** Assignment of a modifier's combo price. A modifier is shared by
      reference, so every product priced by it changes, and only those. */
  method SetComboPrice(info: PricingInfo, m: ComboDealPriceModifier, v: real)
    modifies m
    ensures m.comboPrice == v && m.perAmount == old(m.perAmount)
    ensures info.Table().Keys == old(info.Table()).Keys
    ensures forall k :: k in info.productPricings ==>
      info.Table()[k] == if info.productPricings[k].priceModifier == m
                         then PriceEntry(old(info.Table()[k]).unitPrice, Some(Deal(v, m.perAmount)))
                         else old(info.Table()[k])
  {
    m.comboPrice := v;
  }
}
