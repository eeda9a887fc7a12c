/** The pricing rules, stated on values: a snapshot of the pricing table at
    the moment of a call, the combo-deal rule, the cost of one basket line and
    the total of a basket. The mutable objects of module Checkout are proved to
    compute exactly these functions of their current state. */
module PriceRules {
  import opened Outcomes
  import opened Entities
  import opened BasketInput

  type Positive = n: int | n > 0 witness 1

  /** The terms of an "N for a fixed price" deal. */
  datatype Deal = Deal(comboPrice: real, perAmount: Positive)

  /** What the pricing table knows of one product at one moment. */
  datatype PriceEntry = PriceEntry(unitPrice: real, deal: Option<Deal>)

  /** Product id to its pricing. */
  type PriceTable = map<string, PriceEntry>

  // ---------------------------------------------------------------------
  // The combo deal

  /** Reference definition of a combo deal: as long as a whole bundle of
      `perAmount` units remains it is sold at `comboPrice`; the remainder is
      sold at the unit price. */
  function DealCost(d: Deal, unitPrice: real, quantity: nat): real
    decreases quantity
  {
    if quantity < d.perAmount then quantity as real * unitPrice
    else d.comboPrice + DealCost(d, unitPrice, quantity - d.perAmount)
  }

  lemma MulAtLeast(n: nat, a: int)
    requires a >= 1
    ensures n * a >= n
  {
  }

  /** Euclidean quotient and remainder are determined by any decomposition
      `q == n * k + m` with `0 <= m < n`. */
  lemma DivModUnique(q: nat, n: Positive, k: int, m: int)
    requires q == n * k + m && 0 <= m < n
    ensures q / n == k && q % n == m
  {
    var k', m' := q / n, q % n;
    assert q == n * k' + m' && 0 <= m' < n;
    if k' > k {
      MulAtLeast(n, k' - k);
    } else if k' < k {
      MulAtLeast(n, k - k');
    }
  }

  /** The closed form the engine evaluates: whole bundles times the combo
      price plus the remainder times the unit price. */
  lemma {:induction false} DealCostFormula(d: Deal, unitPrice: real, quantity: nat)
    ensures DealCost(d, unitPrice, quantity)
         == (quantity / d.perAmount) as real * d.comboPrice
          + (quantity % d.perAmount) as real * unitPrice
    decreases quantity
  {
    var n := d.perAmount;
    if quantity < n {
      DivModUnique(quantity, n, 0, quantity);
    } else {
      var rest := quantity - n;
      DealCostFormula(d, unitPrice, rest);
      DivModUnique(quantity, n, rest / n + 1, rest % n);
      var k := rest / n;
      assert ((k + 1) as real) * d.comboPrice == d.comboPrice + (k as real) * d.comboPrice;
    }
  }

  /** Fewer units than a bundle cost the plain unit price each. */
  lemma DealCostBelowBundle(d: Deal, unitPrice: real, quantity: nat)
    requires quantity < d.perAmount
    ensures DealCost(d, unitPrice, quantity) == quantity as real * unitPrice
  {
  }

  /** Adding one whole bundle adds exactly the combo price. */
  lemma DealCostAddBundle(d: Deal, unitPrice: real, quantity: nat)
    ensures DealCost(d, unitPrice, quantity + d.perAmount)
         == DealCost(d, unitPrice, quantity) + d.comboPrice
  {
  }

  /** A deal whose bundle is no dearer than its units bought singly never
      makes any quantity dearer than the plain price. */
  lemma {:induction false} DealNeverDearer(d: Deal, unitPrice: real, quantity: nat)
    requires d.comboPrice <= d.perAmount as real * unitPrice
    ensures DealCost(d, unitPrice, quantity) <= quantity as real * unitPrice
    decreases quantity
  {
    if quantity >= d.perAmount {
      var rest := quantity - d.perAmount;
      DealNeverDearer(d, unitPrice, rest);
      assert quantity as real * unitPrice
          == d.perAmount as real * unitPrice + rest as real * unitPrice;
    }
  }

  // ---------------------------------------------------------------------
  // Line cost and basket total

  /** The cost of one basket line: the product must be in the table; a
      product with a deal is priced by the deal, any other at unit price
      times quantity. */
  function ItemCostOf(t: PriceTable, item: BasketItem): (r: Result<real>)
    ensures r.Failure? <==> item.code !in t
    ensures r.Failure? ==> r.error == UnknownProduct(item.code)
    ensures r.Success? && t[item.code].deal.None? ==>
      r.value == item.quantity as real * t[item.code].unitPrice
    ensures r.Success? && t[item.code].deal.Some? ==>
      r.value == DealCost(t[item.code].deal.value, t[item.code].unitPrice, item.quantity)
  {
    if item.code !in t then Failure(UnknownProduct(item.code))
    else
      var entry := t[item.code];
      match entry.deal
      case Some(d) => Success(DealCost(d, entry.unitPrice, item.quantity))
      case None => Success(item.quantity as real * entry.unitPrice)
  }

  ghost predicate AllPriced(t: PriceTable, items: seq<BasketItem>)
  {
    forall i :: 0 <= i < |items| ==> items[i].code in t
  }

  /** The basket total, accumulated from 0 over the items in order. The first
      unpriced item aborts the whole sum: there is no partial result. */
  function TotalOf(t: PriceTable, items: seq<BasketItem>): (r: Result<real>)
    ensures r.Success? <==> AllPriced(t, items)
    ensures r.Failure? ==>
      exists k :: 0 <= k < |items|
        && items[k].code !in t
        && r.error == UnknownProduct(items[k].code)
        && forall j :: 0 <= j < k ==> items[j].code in t
    decreases |items|
  {
    if items == [] then Success(0.0)
    else
      var init, last := items[..|items| - 1], items[|items| - 1];
      match TotalOf(t, init)
      case Failure(e) => Failure(e)
      case Success(sum) =>
        match ItemCostOf(t, last)
        case Failure(e) => Failure(e)
        case Success(cost) => Success(sum + cost)
  }

  /** One more priced line adds its cost to the total. */
  lemma TotalOfSnoc(t: PriceTable, items: seq<BasketItem>, item: BasketItem)
    requires AllPriced(t, items) && item.code in t
    ensures TotalOf(t, items + [item]).Success?
    ensures TotalOf(t, items + [item]).value == TotalOf(t, items).value + ItemCostOf(t, item).value
  {
    assert (items + [item])[..|items|] == items;
  }

  /** Once a prefix of the basket fails, the whole basket fails with the same
      error. */
  lemma {:induction false} PrefixFailureDecides(t: PriceTable, items: seq<BasketItem>, n: nat)
    requires n <= |items|
    requires TotalOf(t, items[..n]).Failure?
    ensures TotalOf(t, items) == TotalOf(t, items[..n])
    decreases |items| - n
  {
    if n < |items| {
      var m := n + 1;
      assert items[..m][..n] == items[..n];
      assert TotalOf(t, items[..m]) == TotalOf(t, items[..n]);
      PrefixFailureDecides(t, items, m);
    } else {
      assert items[..n] == items;
    }
  }

  /** The total of two concatenated baskets is the sum of their totals. */
  lemma {:induction false} TotalOfAppend(t: PriceTable, xs: seq<BasketItem>, ys: seq<BasketItem>)
    requires AllPriced(t, xs) && AllPriced(t, ys)
    ensures TotalOf(t, xs + ys).Success?
    ensures TotalOf(t, xs + ys).value == TotalOf(t, xs).value + TotalOf(t, ys).value
    decreases |ys|
  {
    assert AllPriced(t, xs + ys);
    if ys == [] {
      assert xs + ys == xs;
    } else {
      var init := ys[..|ys| - 1];
      assert (xs + ys)[..|xs + ys| - 1] == xs + init;
      assert (xs + ys)[|xs + ys| - 1] == ys[|ys| - 1];
      TotalOfAppend(t, xs, init);
    }
  }

  /** The order of the basket lines does not change the total. */
  lemma TotalOfSwap(t: PriceTable, xs: seq<BasketItem>, ys: seq<BasketItem>)
    requires AllPriced(t, xs) && AllPriced(t, ys)
    ensures TotalOf(t, xs + ys) == TotalOf(t, ys + xs)
  {
    TotalOfAppend(t, xs, ys);
    TotalOfAppend(t, ys, xs);
  }

  /** The part of a basket's total paid for product `c`. */
  function CodeCost(t: PriceTable, items: seq<BasketItem>, c: string): real
    requires c in t
    decreases |items|
  {
    if items == [] then 0.0
    else
      var init, last := items[..|items| - 1], items[|items| - 1];
      CodeCost(t, init, c) + (if last.code == c then ItemCostOf(t, last).value else 0.0)
  }

  /** Re-pricing product `c` leaves the cost of a line for another product
      unchanged. */
  lemma OtherLineUnchanged(t: PriceTable, item: BasketItem, c: string, e: PriceEntry)
    requires item.code != c
    ensures ItemCostOf(t[c := e], item) == ItemCostOf(t, item)
  {
    var t' := t[c := e];
    if item.code in t {
      assert t'[item.code] == t[item.code];
      assert ItemCostOf(t', item).value == ItemCostOf(t, item).value;
    }
  }

  /** Changing the pricing of product `c` changes a basket's total by exactly
      the change in what is paid for `c`: every other line costs the same. */
  lemma {:induction false} UpdateAffectsOnlyItsProduct(
    t: PriceTable, items: seq<BasketItem>, c: string, e: PriceEntry)
    requires c in t
    requires AllPriced(t, items)
    ensures forall i :: 0 <= i < |items| && items[i].code != c ==>
      ItemCostOf(t[c := e], items[i]) == ItemCostOf(t, items[i])
    ensures TotalOf(t[c := e], items).Success?
    ensures TotalOf(t[c := e], items).value
         == TotalOf(t, items).value - CodeCost(t, items, c) + CodeCost(t[c := e], items, c)
    decreases |items|
  {
    var t' := t[c := e];
    assert AllPriced(t', items);
    forall i | 0 <= i < |items| && items[i].code != c
      ensures ItemCostOf(t', items[i]) == ItemCostOf(t, items[i])
    {
      OtherLineUnchanged(t, items[i], c, e);
    }
    if items != [] {
      var init := items[..|items| - 1];
      assert AllPriced(t, init);
      UpdateAffectsOnlyItsProduct(t, init, c, e);
    }
  }

  // ---------------------------------------------------------------------
  // The whole computation

  /** The total cost of a basket in any accepted shape: decode, normalise,
      then total. */
  function TotalCostOf(t: PriceTable, basket: Value, parse: string -> Option<Value>): (r: Result<real>)
  {
    match DecodeBasket(basket, parse)
    case Failure(e) => Failure(e)
    case Success(v) =>
      match Normalise(v)
      case Failure(e) => Failure(e)
      case Success(items) => TotalOf(t, items)
  }

  /** A basket given as a list of basket items, or as the equivalent list of
      key/value maps, costs the total of its items. */
  lemma ListShapesAgree(t: PriceTable, items: seq<BasketItem>, parse: string -> Option<Value>)
    ensures TotalCostOf(t, VList(DictValues(items)), parse) == TotalOf(t, items)
    ensures TotalCostOf(t, VList(ItemValues(items)), parse) == TotalOf(t, items)
  {
    ItemDictsNormalise(items);
    ItemsNormalise(items);
  }

  /** JSON text that decodes to a list of maps costs the same as that list. */
  lemma JsonShapeAgrees(t: PriceTable, items: seq<BasketItem>, text: string, parse: string -> Option<Value>)
    requires parse(text) == Some(VList(DictValues(items)))
    ensures TotalCostOf(t, VStr(text), parse) == TotalOf(t, items)
  {
    ItemDictsNormalise(items);
  }

  /** How a basket is rejected before any pricing: text that is not JSON,
      a value that is not a list, a list mixing element kinds. An empty list
      costs nothing. */
  lemma RejectedShapes(t: PriceTable, basket: Value, parse: string -> Option<Value>)
    ensures basket.VStr? && parse(basket.s).None? ==>
      TotalCostOf(t, basket, parse) == Failure(MalformedInput)
    ensures !basket.VStr? && !basket.VList? ==>
      TotalCostOf(t, basket, parse) == Failure(InvalidBasketShape)
    ensures basket.VList? && !AllItems(basket.items) && !AllDicts(basket.items) ==>
      TotalCostOf(t, basket, parse) == Failure(InvalidBasketShape)
    ensures basket == VList([]) ==> TotalCostOf(t, basket, parse) == Success(0.0)
  {
  }

  /** A list of maps with one malformed map fails as that map fails, before
      any product is looked up. */
  lemma {:induction false} BadDictRejectsBasket(t: PriceTable, xs: seq<Value>, k: nat, parse: string -> Option<Value>)
    requires AllDicts(xs) && k < |xs|
    requires DictToBasketItem(xs[k].entries).Failure?
    ensures TotalCostOf(t, VList(xs), parse).Failure?
    ensures TotalCostOf(t, VList(xs), parse).error.InvalidBasketItem?
  {
    assert !xs[k].VItem?;
    var r := ConvertDicts(xs);
    assert r.Failure?;
    var j :| 0 <= j < |xs| && DictToBasketItem(xs[j].entries) == Failure(r.error);
    assert DictToBasketItem(xs[j].entries).error.InvalidBasketItem?;
  }
}
