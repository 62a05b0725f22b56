/** Sales aggregation: the sales' line items are flattened into one
    sequence and tallied into a map from product id to the name of the
    product's first line item and the total quantity sold. */
module SalesAggregator {
  import opened StockTypes

  /** All line items of all sales, sale by sale, in order. */
  function FlattenLineItems(sales: seq<Sale>): (items: seq<LineItem>)
    ensures forall li :: li in items <==> exists k :: 0 <= k < |sales| && li in sales[k].lineItems
  {
    if sales == [] then []
    else
      var rest := FlattenLineItems(sales[1..]);
      assert forall k :: 1 <= k < |sales| ==> sales[k] == sales[1..][k - 1];
      sales[0].lineItems + rest
  }

  /** Flattening keeps the sales in order: the line items of a run of
      sales followed by another are those of the first run, then those of
      the second. */
  lemma {:induction false} FlattenAppend(s1: seq<Sale>, s2: seq<Sale>)
    ensures FlattenLineItems(s1 + s2) == FlattenLineItems(s1) + FlattenLineItems(s2)
    decreases |s1|
  {
    if s1 == [] {
      assert s1 + s2 == s2;
    } else {
      assert (s1 + s2)[0] == s1[0];
      assert (s1 + s2)[1..] == s1[1..] + s2;
      FlattenAppend(s1[1..], s2);
    }
  }

  /** A single sale flattens to its own line items, in their order. */
  lemma FlattenSingle(s: Sale)
    ensures FlattenLineItems([s]) == s.lineItems
  {
    assert [s][1..] == [];
  }

  /** One tally step: the first line item of a product creates its entry
      from the item's name and quantity; a later one adds its quantity. */
  function Step(tally: map<Id, SalesTally>, li: LineItem): (t: map<Id, SalesTally>)
  {
    if li.productId in tally
    then tally[li.productId := tally[li.productId].(quantity := tally[li.productId].quantity + li.quantity)]
    else tally[li.productId := SalesTally(li.name, li.quantity)]
  }

  /** The tally after processing the given line items in order. */
  function TallyOf(items: seq<LineItem>): (t: map<Id, SalesTally>)
  {
    if items == [] then map[] else Step(TallyOf(items[..|items| - 1]), items[|items| - 1])
  }

  /** Total quantity of the line items for one product: the reference
      definition the tally is measured against. */
  function SumQuantity(items: seq<LineItem>, id: Id): (total: int)
  {
    if items == [] then 0
    else (if items[0].productId == id then items[0].quantity else 0) + SumQuantity(items[1..], id)
  }

  /** Some line item is for the given product. */
  predicate Mentions(items: seq<LineItem>, id: Id) {
    exists k :: 0 <= k < |items| && items[k].productId == id
  }

  /** Line item k is the first one for the given product. */
  predicate FirstFor(items: seq<LineItem>, k: int, id: Id) {
    && 0 <= k < |items|
    && items[k].productId == id
    && forall j :: 0 <= j < k ==> items[j].productId != id
  }

  /** Summing is additive over concatenation. */
  lemma {:induction false} SumQuantityAppend(a: seq<LineItem>, b: seq<LineItem>, id: Id)
    ensures SumQuantity(a + b, id) == SumQuantity(a, id) + SumQuantity(b, id)
    decreases |a|
  {
    if a == [] {
      assert a + b == b;
    } else {
      assert (a + b)[1..] == a[1..] + b;
      SumQuantityAppend(a[1..], b, id);
    }
  }

  /** A product no line item mentions sums to zero. */
  lemma {:induction false} SumQuantityAbsent(items: seq<LineItem>, id: Id)
    requires !Mentions(items, id)
    ensures SumQuantity(items, id) == 0
    decreases |items|
  {
    if items != [] {
      assert items[0].productId != id;
      assert !Mentions(items[1..], id) by {
        forall k | 0 <= k < |items[1..]| ensures items[1..][k].productId != id {
          assert items[1..][k] == items[k + 1];
        }
      }
      SumQuantityAbsent(items[1..], id);
    }
  }

  /** The tally's keys are exactly the products some line item mentions. */
  lemma {:induction false} TallyKeys(items: seq<LineItem>)
    ensures forall id :: id in TallyOf(items) <==> Mentions(items, id)
    decreases |items|
  {
    if items != [] {
      var init := items[..|items| - 1];
      var li := items[|items| - 1];
      TallyKeys(init);
      forall id ensures id in TallyOf(items) <==> Mentions(items, id) {
        if Mentions(init, id) {
          var k :| 0 <= k < |init| && init[k].productId == id;
          assert items[k] == init[k];
        }
        if Mentions(items, id) && id != li.productId {
          var k :| 0 <= k < |items| && items[k].productId == id;
          assert k < |init| && init[k] == items[k];
        }
      }
    }
  }

  /** Each tallied quantity is the sum of that product's line-item
      quantities. */
  lemma {:induction false} TallyQuantity(items: seq<LineItem>)
    ensures forall id :: id in TallyOf(items) ==> TallyOf(items)[id].quantity == SumQuantity(items, id)
    decreases |items|
  {
    if items != [] {
      var init := items[..|items| - 1];
      var li := items[|items| - 1];
      assert items == init + [li];
      TallyQuantity(init);
      TallyKeys(init);
      forall id | id in TallyOf(items) ensures TallyOf(items)[id].quantity == SumQuantity(items, id) {
        SumQuantityAppend(init, [li], id);
        assert SumQuantity([li], id) == (if li.productId == id then li.quantity else 0);
        if id !in TallyOf(init) {
          SumQuantityAbsent(init, id);
        }
      }
    }
  }

  /** Each tallied name is that of the product's first line item. */
  lemma {:induction false} TallyName(items: seq<LineItem>)
    ensures forall id :: id in TallyOf(items) ==>
              exists k :: FirstFor(items, k, id) && TallyOf(items)[id].name == items[k].name
    decreases |items|
  {
    if items != [] {
      var init := items[..|items| - 1];
      var li := items[|items| - 1];
      TallyName(init);
      TallyKeys(init);
      var t0 := TallyOf(init);
      forall id | id in TallyOf(items)
        ensures exists k :: FirstFor(items, k, id) && TallyOf(items)[id].name == items[k].name
      {
        if id in t0 {
          var k :| FirstFor(init, k, id) && t0[id].name == init[k].name;
          assert items[k] == init[k];
          forall j | 0 <= j < k ensures items[j].productId != id {
            assert items[j] == init[j];
          }
          assert FirstFor(items, k, id);
        } else {
          forall j | 0 <= j < |init| ensures items[j].productId != id {
            assert items[j] == init[j];
            assert !Mentions(init, id);
          }
          assert FirstFor(items, |init|, id);
        }
      }
    }
  }

  /** Removing one line item from a sequence removes its share of the sum. */
  lemma SumQuantityRemove(b: seq<LineItem>, j: int, id: Id)
    requires 0 <= j < |b|
    ensures SumQuantity(b, id) ==
            (if b[j].productId == id then b[j].quantity else 0) + SumQuantity(b[..j] + b[j + 1..], id)
  {
    assert b == b[..j] + ([b[j]] + b[j + 1..]);
    SumQuantityAppend(b[..j], [b[j]] + b[j + 1..], id);
    SumQuantityAppend([b[j]], b[j + 1..], id);
    SumQuantityAppend(b[..j], b[j + 1..], id);
    assert ([b[j]] + b[j + 1..])[1..] == b[j + 1..];
  }

  /** The total per product does not depend on the order of the line
      items: any rearrangement of them sums to the same quantity. */
  lemma {:induction false} SumQuantityPermutation(a: seq<LineItem>, b: seq<LineItem>, id: Id)
    requires multiset(a) == multiset(b)
    ensures SumQuantity(a, id) == SumQuantity(b, id)
    decreases |a|
  {
    if a == [] {
      assert |b| == |multiset(b)| == 0;
    } else {
      var x := a[0];
      assert x in multiset(b);
      var j :| 0 <= j < |b| && b[j] == x;
      var rest := b[..j] + b[j + 1..];
      assert b == b[..j] + [x] + b[j + 1..];
      assert multiset(b) == multiset(b[..j]) + multiset{x} + multiset(b[j + 1..]);
      assert multiset(rest) == multiset(b[..j]) + multiset(b[j + 1..]);
      assert a == [x] + a[1..];
      assert multiset(a) == multiset{x} + multiset(a[1..]);
      assert multiset(a[1..]) == multiset(a) - multiset{x};
      assert multiset(rest) == multiset(b) - multiset{x};
      SumQuantityPermutation(a[1..], rest, id);
      SumQuantityRemove(b, j, id);
    }
  }

  /** Tallying a rearrangement of the line items gives the same products
      with the same total quantities (the names may differ, since each
      comes from the first line item seen). */
  lemma TallyPermutation(a: seq<LineItem>, b: seq<LineItem>)
    requires multiset(a) == multiset(b)
    ensures TallyOf(a).Keys == TallyOf(b).Keys
    ensures forall id :: id in TallyOf(a) ==> TallyOf(a)[id].quantity == TallyOf(b)[id].quantity
  {
    TallyKeys(a);
    TallyKeys(b);
    TallyQuantity(a);
    TallyQuantity(b);
    forall id ensures Mentions(a, id) <==> Mentions(b, id) {
      if Mentions(a, id) {
        var k :| 0 <= k < |a| && a[k].productId == id;
        assert a[k] in multiset(b);
      }
      if Mentions(b, id) {
        var k :| 0 <= k < |b| && b[k].productId == id;
        assert b[k] in multiset(a);
      }
    }
    forall id | id in TallyOf(a) ensures TallyOf(a)[id].quantity == TallyOf(b)[id].quantity {
      SumQuantityPermutation(a, b, id);
    }
  }

  /** Quantity sold of one product, added up sale by sale. */
  function SoldAcrossSales(sales: seq<Sale>, id: Id): (total: int)
  {
    if sales == [] then 0 else SumQuantity(sales[0].lineItems, id) + SoldAcrossSales(sales[1..], id)
  }

  /** Flattening loses no quantity: the per-product total over the
      flattened line items is the sum of the per-sale totals. */
  lemma {:induction false} FlattenSum(sales: seq<Sale>, id: Id)
    ensures SumQuantity(FlattenLineItems(sales), id) == SoldAcrossSales(sales, id)
    decreases |sales|
  {
    if sales != [] {
      FlattenSum(sales[1..], id);
      SumQuantityAppend(sales[0].lineItems, FlattenLineItems(sales[1..]), id);
    }
  }

  /** The tally loop: walks the line items in order, creating an entry for
      a product's first line item and adding the quantity of every later
      one. */
  method TallySales(lineItems: seq<LineItem>) returns (productSales: map<Id, SalesTally>)
    ensures productSales == TallyOf(lineItems)
    ensures forall id :: id in productSales <==> Mentions(lineItems, id)
    ensures forall id :: id in productSales ==> productSales[id].quantity == SumQuantity(lineItems, id)
    ensures forall id :: id in productSales ==>
              exists k :: FirstFor(lineItems, k, id) && productSales[id].name == lineItems[k].name
  {
    productSales := map[];
    var i := 0;
    while i < |lineItems|
      invariant 0 <= i <= |lineItems|
      invariant productSales == TallyOf(lineItems[..i])
    {
      var li := lineItems[i];
      if li.productId in productSales {
        var entry := productSales[li.productId];
        productSales := productSales[li.productId := entry.(quantity := entry.quantity + li.quantity)];
      } else {
        productSales := productSales[li.productId := SalesTally(li.name, li.quantity)];
      }
      assert lineItems[..i + 1][..i] == lineItems[..i];
      i := i + 1;
    }
    assert lineItems[..i] == lineItems;
    TallyKeys(lineItems);
    TallyQuantity(lineItems);
    TallyName(lineItems);
  }
}
