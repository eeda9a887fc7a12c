/** Basket normalisation: from the accepted input shapes (JSON text, a list of
    key/value maps, a list of basket items) to one sequence of basket items.

    JSON decoding itself is a library call the model does not contain: it is
    the parameter `parse`, which yields None for text that is not JSON. */
module BasketInput {
  import opened Outcomes
  import opened Entities

  /** Conversion of one key/value map into a basket item. The checks run in
      order: both keys present, `code` a string, `quantity` an int (a bool is
      one), and then the basket item's own non-negative quantity check. */
  function DictToBasketItem(d: map<string, Value>): (r: Result<BasketItem>)
    ensures r.Success? <==>
      && "code" in d && "quantity" in d
      && d["code"].VStr?
      && AsQuantity(d["quantity"]).Some?
    ensures r.Success? ==>
      r.value == BasketItem(d["code"].s, AsQuantity(d["quantity"]).value)
    ensures "code" !in d || "quantity" !in d ==> r == Failure(InvalidBasketItem(MissingField))
    ensures "code" in d && "quantity" in d && !d["code"].VStr? ==>
      r == Failure(InvalidBasketItem(CodeNotText))
    ensures "code" in d && "quantity" in d && d["code"].VStr? && AsInt(d["quantity"]).None? ==>
      r == Failure(InvalidBasketItem(QuantityNotInt))
    ensures "code" in d && "quantity" in d && d["code"].VStr? && AsInt(d["quantity"]).Some?
            && AsInt(d["quantity"]).value < 0 ==>
      r == Failure(InvalidBasketItem(NegativeQuantity))
  {
    if "code" !in d || "quantity" !in d then Failure(InvalidBasketItem(MissingField))
    else if !d["code"].VStr? then Failure(InvalidBasketItem(CodeNotText))
    else match AsInt(d["quantity"])
      case None => Failure(InvalidBasketItem(QuantityNotInt))
      case Some(q) => NewBasketItem(d["code"].s, q)
  }

  ghost predicate AllDicts(xs: seq<Value>)
  {
    forall i :: 0 <= i < |xs| ==> xs[i].VDict?
  }

  ghost predicate AllItems(xs: seq<Value>)
  {
    forall i :: 0 <= i < |xs| ==> xs[i].VItem?
  }

  /** Converts a list of maps element by element, in order; the first element
      that fails decides the error and no items are returned. */
  function ConvertDicts(xs: seq<Value>): (r: Result<seq<BasketItem>>)
    requires AllDicts(xs)
    ensures r.Success? <==>
      forall i :: 0 <= i < |xs| ==> DictToBasketItem(xs[i].entries).Success?
    ensures r.Success? ==>
      && |r.value| == |xs|
      && forall i :: 0 <= i < |xs| ==> r.value[i] == DictToBasketItem(xs[i].entries).value
    ensures r.Failure? ==>
      exists k :: 0 <= k < |xs|
        && DictToBasketItem(xs[k].entries) == Failure(r.error)
        && forall j :: 0 <= j < k ==> DictToBasketItem(xs[j].entries).Success?
  {
    if xs == [] then Success([])
    else match DictToBasketItem(xs[0].entries)
      case Failure(e) => Failure(e)
      case Success(item) =>
        match ConvertDicts(xs[1..])
        case Failure(e) => Failure(e)
        case Success(rest) => Success([item] + rest)
  }

  /** The basket as a list of values, one per item. */
  function ItemValues(items: seq<BasketItem>): (xs: seq<Value>)
    ensures |xs| == |items| && AllItems(xs)
    ensures forall i :: 0 <= i < |items| ==> xs[i] == VItem(items[i])
  {
    seq(|items|, i requires 0 <= i < |items| => VItem(items[i]))
  }

  /** A basket item written as the key/value map a JSON basket holds. */
  function ItemDict(item: BasketItem): map<string, Value>
  {
    map["code" := VStr(item.code), "quantity" := VInt(item.quantity)]
  }

  /** The basket as a list of key/value maps, one per item. */
  function DictValues(items: seq<BasketItem>): (xs: seq<Value>)
    ensures |xs| == |items| && AllDicts(xs)
    ensures forall i :: 0 <= i < |items| ==> xs[i] == VDict(ItemDict(items[i]))
  {
    seq(|items|, i requires 0 <= i < |items| => VDict(ItemDict(items[i])))
  }

  /** The shape check and conversion of a (decoded) basket: a list whose
      elements are all basket items is taken as it is, a list whose elements
      are all maps is converted, anything else is rejected. */
  function Normalise(basket: Value): (r: Result<seq<BasketItem>>)
    ensures !basket.VList? ==> r == Failure(InvalidBasketShape)
    ensures basket.VList? && AllItems(basket.items) ==>
      r.Success? && ItemValues(r.value) == basket.items
    ensures basket.VList? && !AllItems(basket.items) && AllDicts(basket.items) ==>
      r == ConvertDicts(basket.items)
    ensures basket.VList? && !AllItems(basket.items) && !AllDicts(basket.items) ==>
      r == Failure(InvalidBasketShape)
    ensures r.Success? ==> basket.VList? && |r.value| == |basket.items|
    ensures r.Failure? ==> r.error == InvalidBasketShape || r.error.InvalidBasketItem?
  {
    if !basket.VList? then Failure(InvalidBasketShape)
    else
      var xs := basket.items;
      if forall i :: 0 <= i < |xs| ==> xs[i].VItem? then
        Success(seq(|xs|, i requires 0 <= i < |xs| && xs[i].VItem? => xs[i].item))
      else if forall i :: 0 <= i < |xs| ==> xs[i].VDict? then
        ConvertDicts(xs)
      else
        Failure(InvalidBasketShape)
  }

  /** The JSON step: text is decoded, any other value is used as given. */
  function DecodeBasket(basket: Value, parse: string -> Option<Value>): (r: Result<Value>)
    ensures basket.VStr? && parse(basket.s).None? <==> r == Failure(MalformedInput)
    ensures basket.VStr? && parse(basket.s).Some? ==> r == Success(parse(basket.s).value)
    ensures !basket.VStr? ==> r == Success(basket)
  {
    if basket.VStr? then
      match parse(basket.s)
      case None => Failure(MalformedInput)
      case Some(v) => Success(v)
    else Success(basket)
  }

  /** A list of basket items normalises to exactly those items. */
  lemma ItemsNormalise(items: seq<BasketItem>)
    ensures Normalise(VList(ItemValues(items))) == Success(items)
  {
    var ys := ItemValues(items);
    var r := Normalise(VList(ys));
    assert r.Success? && ItemValues(r.value) == ys;
    assert |r.value| == |items|;
    forall i | 0 <= i < |items| ensures r.value[i] == items[i] {
      assert ItemValues(r.value)[i] == ys[i];
    }
    assert r.value == items;
  }

  /** The items written out as maps normalise back to the same items. */
  lemma ItemDictsNormalise(items: seq<BasketItem>)
    ensures Normalise(VList(DictValues(items))) == Success(items)
  {
    var xs := DictValues(items);
    if items == [] {
      assert AllItems(xs);
    } else {
      assert !xs[0].VItem?;
      assert !AllItems(xs);
      forall i | 0 <= i < |xs|
        ensures DictToBasketItem(xs[i].entries) == Success(items[i])
      {
        var d := xs[i].entries;
        assert d == ItemDict(items[i]);
        assert "code" in d && "quantity" in d;
        assert d["quantity"] == VInt(items[i].quantity);
      }
      var r := ConvertDicts(xs);
      assert r.Success?;
      assert r.value == items;
    }
  }
}
