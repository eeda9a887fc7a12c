/** The reference configuration of the checkout (A at 50 with 3 for 140, B at
    35 with 2 for 60, C at 25, D at 12) and the figures its test suite pins
    down, proved for the model. */
module Scenarios {
  import opened Outcomes
  import opened Entities
  import opened BasketInput
  import opened PriceRules
  import opened Checkout

  /** The reference pricing with A's combo price and D's unit price as
      parameters; the test suite's own figures are 140 and 12. */
  function Pricing(comboA: real, unitD: real): PriceTable
  {
    map[
      "A" := PriceEntry(50.0, Some(Deal(comboA, 3))),
      "B" := PriceEntry(35.0, Some(Deal(60.0, 2))),
      "C" := PriceEntry(25.0, None),
      "D" := PriceEntry(unitD, None)
    ]
  }

  function ReferenceTable(): PriceTable
  {
    Pricing(140.0, 12.0)
  }

  /** Three A, three B, one C and two D. */
  function ReferenceBasket(): seq<BasketItem>
  {
    [BasketItem("A", 3), BasketItem("B", 3), BasketItem("C", 1), BasketItem("D", 2)]
  }

  /** A 3-for-140 deal at unit price 50: one unit costs 50, a bundle 140,
      a bundle and one more 190. */
  lemma ComboExamples()
    ensures DealCost(Deal(140.0, 3), 50.0, 1) == 50.0
    ensures DealCost(Deal(140.0, 3), 50.0, 3) == 140.0
    ensures DealCost(Deal(140.0, 3), 50.0, 4) == 190.0
  {
  }

  /** The total of the reference basket under table `t`, line by line. */
  lemma ReferenceLines(t: PriceTable, costA: real, costB: real, costC: real, costD: real)
    requires forall k :: k in ["A", "B", "C", "D"] ==> k in t
    requires ItemCostOf(t, BasketItem("A", 3)).value == costA
    requires ItemCostOf(t, BasketItem("B", 3)).value == costB
    requires ItemCostOf(t, BasketItem("C", 1)).value == costC
    requires ItemCostOf(t, BasketItem("D", 2)).value == costD
    ensures TotalOf(t, ReferenceBasket()) == Success(costA + costB + costC + costD)
  {
    var a, b, c, d := BasketItem("A", 3), BasketItem("B", 3), BasketItem("C", 1), BasketItem("D", 2);
    assert [] + [a] == [a] && [a] + [b] == [a, b] && [a, b] + [c] == [a, b, c];
    TotalOfSnoc(t, [], a);
    TotalOfSnoc(t, [a], b);
    TotalOfSnoc(t, [a, b], c);
    TotalOfSnoc(t, [a, b, c], d);
    assert [a, b, c] + [d] == ReferenceBasket();
    assert TotalOf(t, ReferenceBasket()).value == costA + costB + costC + costD;
  }

  /** In the reference basket, A and D each have exactly one line. */
  lemma ReferenceCodeCosts(t: PriceTable)
    requires "A" in t && "D" in t
    ensures CodeCost(t, ReferenceBasket(), "A") == ItemCostOf(t, BasketItem("A", 3)).value
    ensures CodeCost(t, ReferenceBasket(), "D") == ItemCostOf(t, BasketItem("D", 2)).value
  {
    var a, b, c, d := BasketItem("A", 3), BasketItem("B", 3), BasketItem("C", 1), BasketItem("D", 2);
    assert [a][..0] == [];
    assert [a, b][..1] == [a];
    assert [a, b, c][..2] == [a, b];
    assert ReferenceBasket()[..3] == [a, b, c];
    assert CodeCost(t, [a], "A") == ItemCostOf(t, a).value;
    assert CodeCost(t, [a, b, c], "A") == ItemCostOf(t, a).value;
    assert CodeCost(t, [a], "D") == 0.0;
    assert CodeCost(t, [a, b], "D") == 0.0;
    assert CodeCost(t, [a, b, c], "D") == 0.0;
  }

  /** The reference basket costs 284 (140 + 95 + 25 + 24). Raising A's combo
      price by 10 adds 10 to A's line only, making it 294; lowering D's unit
      price by 2 takes 4 off D's line only, making it 280. */
  lemma ReferenceTotals()
    ensures TotalOf(ReferenceTable(), ReferenceBasket()) == Success(284.0)
    ensures TotalOf(Pricing(150.0, 12.0), ReferenceBasket()) == Success(294.0)
    ensures TotalOf(Pricing(140.0, 10.0), ReferenceBasket()) == Success(280.0)
  {
    var t, xs := ReferenceTable(), ReferenceBasket();
    assert DealCost(Deal(60.0, 2), 35.0, 3) == 95.0;
    ReferenceLines(t, 140.0, 95.0, 25.0, 24.0);
    ReferenceCodeCosts(t);

    var comboA := PriceEntry(50.0, Some(Deal(150.0, 3)));
    assert Pricing(150.0, 12.0) == t["A" := comboA];
    UpdateAffectsOnlyItsProduct(t, xs, "A", comboA);
    ReferenceCodeCosts(t["A" := comboA]);
    assert TotalOf(Pricing(150.0, 12.0), xs).value == 284.0 - 140.0 + 150.0;

    var unitD := PriceEntry(10.0, None);
    assert Pricing(140.0, 10.0) == t["D" := unitD];
    UpdateAffectsOnlyItsProduct(t, xs, "D", unitD);
    ReferenceCodeCosts(t["D" := unitD]);
    assert TotalOf(Pricing(140.0, 10.0), xs).value == 284.0 - 24.0 + 20.0;
  }

  /** A basket, given as a list of maps, naming a product the table does not
      have fails as a whole. */
  lemma UnknownProductRejected(parse: string -> Option<Value>)
    ensures TotalCostOf(ReferenceTable(), VList([VDict(map["code" := VStr("E"), "quantity" := VInt(1)])]), parse)
         == Failure(UnknownProduct("E"))
  {
    var xs := [VDict(map["code" := VStr("E"), "quantity" := VInt(1)])];
    assert !xs[0].VItem?;
    assert AllDicts(xs);
    assert DictToBasketItem(xs[0].entries) == Success(BasketItem("E", 1));
    assert xs[1..] == [];
    assert ConvertDicts(xs[1..]) == Success([]);
    assert [BasketItem("E", 1)] + [] == [BasketItem("E", 1)];
    assert ConvertDicts(xs) == Success([BasketItem("E", 1)]);
    assert [BasketItem("E", 1)][..0] == [];
  }

  /** The malformed baskets of the test suite are each rejected as basket
      items: no quantity, no code, a non-string code, a fractional and a
      negative quantity. */
  lemma BadItemsRejected()
    ensures DictToBasketItem(map["code" := VStr("A")]) == Failure(InvalidBasketItem(MissingField))
    ensures DictToBasketItem(map["quantity" := VInt(5)]) == Failure(InvalidBasketItem(MissingField))
    ensures DictToBasketItem(map["code" := VInt(5), "quantity" := VInt(5)])
         == Failure(InvalidBasketItem(CodeNotText))
    ensures DictToBasketItem(map["code" := VStr("A"), "quantity" := VFloat(5.5)])
         == Failure(InvalidBasketItem(QuantityNotInt))
    ensures DictToBasketItem(map["code" := VStr("A"), "quantity" := VInt(-1)])
         == Failure(InvalidBasketItem(NegativeQuantity))
    ensures DictToBasketItem(map["code" := VStr("A"), "quantity" := VBool(true)])
         == Success(BasketItem("A", 1))
  {
  }

  /** The bad arguments of the test suite for the combo deal: a unit price
      or quantity that is not numeric, a fractional quantity, and a combo
      price or per-amount that is text, negative or fractional. */
  lemma BadModifierArgumentsRejected(m: ComboDealPriceModifier)
    ensures m.ModifiedPrice(VStr("five"), VInt(1)) == Failure(InvalidPriceInput)
    ensures m.ModifiedPrice(VInt(5), VStr("one")) == Failure(InvalidQuantity)
    ensures m.ModifiedPrice(VInt(5), VFloat(5.5)) == Failure(InvalidQuantity)
    ensures ComboTerms(VStr("five"), VInt(5)) == Failure(InvalidModifierConfig(ComboPriceNotNumeric))
    ensures ComboTerms(VInt(5), VStr("five")) == Failure(InvalidModifierConfig(PerAmountNotPositiveInt))
    ensures ComboTerms(VInt(5), VInt(-5)) == Failure(InvalidModifierConfig(PerAmountNotPositiveInt))
    ensures ComboTerms(VInt(5), VFloat(5.5)) == Failure(InvalidModifierConfig(PerAmountNotPositiveInt))
  {
  }

  /** The reference pricing, built from a list as the engine's configuration
      is; the pricings and modifiers are returned so that callers can update
      them. */
  method BuildReference()
    returns (info: PricingInfo, a: ProductPricing, b: ProductPricing,
             c: ProductPricing, d: ProductPricing)
    ensures fresh(info) && fresh(a) && fresh(b) && fresh(c) && fresh(d)
    ensures a.priceModifier != null && fresh(a.priceModifier)
    ensures b.priceModifier != null && fresh(b.priceModifier)
    ensures a.priceModifier != b.priceModifier
    ensures info.productPricings == map["A" := a, "B" := b, "C" := c, "D" := d]
    ensures a.unitPrice == 50.0 && a.priceModifier.Terms() == Deal(140.0, 3)
    ensures b.unitPrice == 35.0 && b.priceModifier.Terms() == Deal(60.0, 2)
    ensures c.unitPrice == 25.0 && c.priceModifier == null
    ensures d.unitPrice == 12.0 && d.priceModifier == null
  {
    var dealA := new ComboDealPriceModifier(Deal(140.0, 3));
    var dealB := new ComboDealPriceModifier(Deal(60.0, 2));
    a := new ProductPricing(Product("A"), 50.0, dealA);
    b := new ProductPricing(Product("B"), 35.0, dealB);
    c := new ProductPricing(Product("C"), 25.0, null);
    d := new ProductPricing(Product("D"), 12.0, null);
    var ps := [a, b, c, d];
    KeyedByIdSnoc([], a);
    KeyedByIdSnoc([a], b);
    KeyedByIdSnoc([a, b], c);
    KeyedByIdSnoc([a, b, c], d);
    assert [] + [a] == [a] && [a] + [b] == [a, b] && [a, b] + [c] == [a, b, c];
    assert [a, b, c] + [d] == ps;
    info := new PricingInfo.FromList(ps);
    assert info.productPricings == map["A" := a, "B" := b, "C" := c, "D" := d];
  }

  /** The table of the reference objects, with A's combo price and D's unit
      price as they currently are. */
  lemma ReferenceState(info: PricingInfo, a: ProductPricing, b: ProductPricing,
                       c: ProductPricing, d: ProductPricing, comboA: real, unitD: real)
    requires info.productPricings == map["A" := a, "B" := b, "C" := c, "D" := d]
    requires a.unitPrice == 50.0 && a.priceModifier != null && a.priceModifier.Terms() == Deal(comboA, 3)
    requires b.unitPrice == 35.0 && b.priceModifier != null && b.priceModifier.Terms() == Deal(60.0, 2)
    requires c.unitPrice == 25.0 && c.priceModifier == null
    requires d.unitPrice == unitD && d.priceModifier == null
    ensures info.Table() == Pricing(comboA, unitD)
  {
    var t := info.Table();
    assert t.Keys == Pricing(comboA, unitD).Keys;
    assert t["A"] == a.Entry() && t["B"] == b.Entry() && t["C"] == c.Entry() && t["D"] == d.Entry();
  }

  /** The reference basket, as a list of maps or as JSON text that the
      decoder reads as that list, priced by the reference objects. */
  lemma ReferenceObjectsPrice(info: PricingInfo, a: ProductPricing, b: ProductPricing,
                              c: ProductPricing, d: ProductPricing, comboA: real, unitD: real,
                              basket: Value, parse: string -> Option<Value>)
    requires info.productPricings == map["A" := a, "B" := b, "C" := c, "D" := d]
    requires a.unitPrice == 50.0 && a.priceModifier != null && a.priceModifier.Terms() == Deal(comboA, 3)
    requires b.unitPrice == 35.0 && b.priceModifier != null && b.priceModifier.Terms() == Deal(60.0, 2)
    requires c.unitPrice == 25.0 && c.priceModifier == null
    requires d.unitPrice == unitD && d.priceModifier == null
    requires basket == VList(DictValues(ReferenceBasket()))
          || (basket.VStr? && parse(basket.s) == Some(VList(DictValues(ReferenceBasket()))))
    ensures TotalCostOf(info.Table(), basket, parse) == TotalOf(Pricing(comboA, unitD), ReferenceBasket())
  {
    ReferenceState(info, a, b, c, d, comboA, unitD);
    ListShapesAgree(info.Table(), ReferenceBasket(), parse);
    if basket.VStr? {
      JsonShapeAgrees(info.Table(), ReferenceBasket(), basket.s, parse);
    }
  }

  /** Prices the reference basket, given as a list of maps, on the live
      reference objects with A's combo price and D's unit price as they
      currently stand. */
  method PriceReferenceBasket(info: PricingInfo, a: ProductPricing, b: ProductPricing,
                              c: ProductPricing, d: ProductPricing, comboA: real, unitD: real,
                              parse: string -> Option<Value>)
    returns (total: Result<real>)
    requires info.productPricings == map["A" := a, "B" := b, "C" := c, "D" := d]
    requires a.unitPrice == 50.0 && a.priceModifier != null && a.priceModifier.Terms() == Deal(comboA, 3)
    requires b.unitPrice == 35.0 && b.priceModifier != null && b.priceModifier.Terms() == Deal(60.0, 2)
    requires c.unitPrice == 25.0 && c.priceModifier == null
    requires d.unitPrice == unitD && d.priceModifier == null
    ensures total == TotalOf(Pricing(comboA, unitD), ReferenceBasket())
  {
    var basket := VList(DictValues(ReferenceBasket()));
    total := info.CalculateTotalCost(basket, parse);
    ReferenceObjectsPrice(info, a, b, c, d, comboA, unitD, basket, parse);
  }

  /** The promotion scenarios of the test suite on live objects: starting
      from the reference pricing and the reference basket as a list of maps,
      A's combo price is raised by 10 and the basket priced again. The result
      returned before the update is a value and keeps its figure. */
  method ComboPriceRaised(parse: string -> Option<Value>)
    returns (before: Result<real>, after: Result<real>)
    ensures before == Success(284.0)
    ensures after == Success(294.0)
  {
    ReferenceTotals();
    var info, a, b, c, d := BuildReference();
    before := PriceReferenceBasket(info, a, b, c, d, 140.0, 12.0, parse);
    var modifierA := a.priceModifier;
    SetComboPrice(info, modifierA, modifierA.comboPrice + 10.0);
    assert b.priceModifier.Terms() == Deal(60.0, 2);
    after := PriceReferenceBasket(info, a, b, c, d, 150.0, 12.0, parse);
  }

  /** As above, with D's unit price lowered by 2. */
  method UnitPriceLowered(parse: string -> Option<Value>)
    returns (before: Result<real>, after: Result<real>)
    ensures before == Success(284.0)
    ensures after == Success(280.0)
  {
    ReferenceTotals();
    var info, a, b, c, d := BuildReference();
    before := PriceReferenceBasket(info, a, b, c, d, 140.0, 12.0, parse);
    SetUnitPrice(info, d, d.unitPrice - 2.0);
    assert a.priceModifier.Terms() == Deal(140.0, 3);
    assert b.priceModifier.Terms() == Deal(60.0, 2);
    after := PriceReferenceBasket(info, a, b, c, d, 140.0, 10.0, parse);
  }

  /** One modifier shared by two products: raising its combo price
      re-prices both, and neither unit price moves. */
  method SharedModifierRepricesBoth() returns (info: PricingInfo)
    ensures "X" in info.Table() && info.Table()["X"] == PriceEntry(50.0, Some(Deal(150.0, 3)))
    ensures "Y" in info.Table() && info.Table()["Y"] == PriceEntry(40.0, Some(Deal(150.0, 3)))
  {
    var m := new ComboDealPriceModifier(Deal(140.0, 3));
    var x := new ProductPricing(Product("X"), 50.0, m);
    var y := new ProductPricing(Product("Y"), 40.0, m);
    info := new PricingInfo.FromMap(map["X" := x, "Y" := y]);
    SetComboPrice(info, m, 150.0);
  }

  /** The reference basket written as JSON text. */
  function ReferenceJson(): string
  {
    "[{\"code\":\"A\",\"quantity\":3},{\"code\":\"B\",\"quantity\":3},{\"code\":\"C\",\"quantity\":1},{\"code\":\"D\",\"quantity\":2}]"
  }

  /** The reference basket given as JSON text costs 284, for any decoder
      that reads the text as the list of maps it spells out. */
  method JsonBasket(parse: string -> Option<Value>) returns (total: Result<real>)
    requires parse(ReferenceJson()) == Some(VList(DictValues(ReferenceBasket())))
    ensures total == Success(284.0)
  {
    var basket := VStr(ReferenceJson());
    ReferenceTotals();
    var info, a, b, c, d := BuildReference();
    total := info.CalculateTotalCost(basket, parse);
    ReferenceObjectsPrice(info, a, b, c, d, 140.0, 12.0, basket, parse);
  }
}
