/** The reorder classifier: every working product goes into exactly one of
    six buckets, decided by its restock level, whether it has a sales
    tally, the sign of its stock on hand and the difference between
    quantity sold and stock on hand. Three of the buckets are then merged
    into the "order based on sales data" bucket. */
module Classifier {
  import opened StockTypes

  datatype Bucket =
    | Discontinued      // restock level 0: never reordered
    | VendMechanics     // no sales: leave it to the remote system's own reorder logic
    | SufficientStock   // more on hand than was sold
    | NegativeStock     // sold, with negative stock on hand
    | ZeroStock         // sold exactly what was on hand
    | PositiveStock     // sold more than was on hand

  /** The sales tally of a product, if it has one. */
  function Lookup(tally: map<Id, SalesTally>, id: Id): (r: Option<SalesTally>)
  {
    if id in tally then Some(tally[id]) else None
  }

  /** The decision for one product, in the source's order of precedence. */
  function Decide(p: WorkingProduct, history: Option<SalesTally>): (b: Bucket)
  {
    if p.inventory.restockLevel == 0 then Discontinued
    else if history.Some? then
      if p.inventory.count < 0 then NegativeStock
      else
        var difference := history.value.quantity - p.inventory.count;
        if difference == 0 then ZeroStock
        else if difference > 0 then PositiveStock
        else SufficientStock
    else VendMechanics
  }

  /** Each bucket's membership condition, both ways: restock level 0 wins
      over everything; then a missing tally; then negative stock; then the
      sign of quantity sold minus stock on hand. */
  lemma DecisionTable(p: WorkingProduct, history: Option<SalesTally>)
    ensures var inv := p.inventory;
      && (Decide(p, history) == Discontinued <==> inv.restockLevel == 0)
      && (Decide(p, history) == VendMechanics <==> inv.restockLevel != 0 && history.None?)
      && (Decide(p, history) == NegativeStock <==> inv.restockLevel != 0 && history.Some? && inv.count < 0)
      && (Decide(p, history) == ZeroStock <==>
            inv.restockLevel != 0 && history.Some? && inv.count >= 0 && history.value.quantity == inv.count)
      && (Decide(p, history) == PositiveStock <==>
            inv.restockLevel != 0 && history.Some? && inv.count >= 0 && history.value.quantity > inv.count)
      && (Decide(p, history) == SufficientStock <==>
            inv.restockLevel != 0 && history.Some? && inv.count >= 0 && history.value.quantity < inv.count)
  {
  }

  /** The products of `done` that the decision puts into bucket `b`,
      unchanged. */
  function Select(products: map<Id, WorkingProduct>, tally: map<Id, SalesTally>, b: Bucket, done: set<Id>): (selected: map<Id, WorkingProduct>)
  {
    map id | id in done && id in products && Decide(products[id], Lookup(tally, id)) == b :: products[id]
  }

  /** The six buckets and the merged sales-data bucket. */
  datatype Buckets = Buckets(
    discontinued: map<Id, WorkingProduct>,
    vendMechanics: map<Id, WorkingProduct>,
    sufficientStock: map<Id, WorkingProduct>,
    negativeStock: map<Id, WorkingProduct>,
    zeroStock: map<Id, WorkingProduct>,
    positiveStock: map<Id, WorkingProduct>,
    salesData: map<Id, WorkingProduct>)
  {
    /** The base bucket of a given kind. */
    function Get(b: Bucket): map<Id, WorkingProduct> {
      match b
      case Discontinued => discontinued
      case VendMechanics => vendMechanics
      case SufficientStock => sufficientStock
      case NegativeStock => negativeStock
      case ZeroStock => zeroStock
      case PositiveStock => positiveStock
    }
  }

  /** The six base buckets partition the products: every product is in
      exactly one of them, under its own id and unchanged, and nothing
      else is in any of them. */
  predicate Partitions(buckets: Buckets, products: map<Id, WorkingProduct>) {
    && (forall b: Bucket, id :: id in buckets.Get(b) ==> id in products && buckets.Get(b)[id] == products[id])
    && (forall id :: id in products ==> exists b: Bucket :: id in buckets.Get(b))
    && (forall b1: Bucket, b2: Bucket, id :: id in buckets.Get(b1) && id in buckets.Get(b2) ==> b1 == b2)
  }

  /** The sales-data bucket is the union of the negative-, zero- and
      positive-stock buckets. */
  predicate SalesDataIsUnion(buckets: Buckets) {
    && buckets.salesData.Keys == buckets.negativeStock.Keys + buckets.zeroStock.Keys + buckets.positiveStock.Keys
    && (forall id :: id in buckets.negativeStock ==> buckets.salesData[id] == buckets.negativeStock[id])
    && (forall id :: id in buckets.zeroStock ==> buckets.salesData[id] == buckets.zeroStock[id])
    && (forall id :: id in buckets.positiveStock ==> buckets.salesData[id] == buckets.positiveStock[id])
  }

  /** m with id set to p when `add` holds, m itself otherwise. */
  function Extend(m: map<Id, WorkingProduct>, add: bool, id: Id, p: WorkingProduct): (r: map<Id, WorkingProduct>)
  {
    if add then m[id := p] else m
  }

  /** Deciding one more product adds it to its own bucket and leaves the
      others as they were. */
  lemma SelectStep(products: map<Id, WorkingProduct>, tally: map<Id, SalesTally>, b: Bucket, done: set<Id>, id: Id)
    requires id in products
    ensures Select(products, tally, b, done + {id}) ==
            Extend(Select(products, tally, b, done), Decide(products[id], Lookup(tally, id)) == b, id, products[id])
  {
  }

  /** Buckets that select every product by its decision partition them. */
  lemma {:induction false} SelectPartitions(products: map<Id, WorkingProduct>, tally: map<Id, SalesTally>, buckets: Buckets)
    requires forall b: Bucket :: buckets.Get(b) == Select(products, tally, b, products.Keys)
    ensures Partitions(buckets, products)
  {
    forall id | id in products ensures exists b: Bucket :: id in buckets.Get(b) {
      var b := Decide(products[id], Lookup(tally, id));
      assert id in buckets.Get(b);
    }
  }

  /** What the classifier computes: each base bucket holds the products
      the decision sends there, and the sales-data bucket merges the
      negative-, zero- and positive-stock buckets in that order. */
  function ClassifySpec(products: map<Id, WorkingProduct>, tally: map<Id, SalesTally>): (buckets: Buckets)
  {
    var negative := Select(products, tally, NegativeStock, products.Keys);
    var zero := Select(products, tally, ZeroStock, products.Keys);
    var positive := Select(products, tally, PositiveStock, products.Keys);
    Buckets(
      Select(products, tally, Discontinued, products.Keys),
      Select(products, tally, VendMechanics, products.Keys),
      Select(products, tally, SufficientStock, products.Keys),
      negative, zero, positive,
      negative + zero + positive)
  }

  /** Buckets whose six base buckets select by decision, with the three
      sales-driven ones merged, are the classifier's result. */
  lemma SpecBuckets(products: map<Id, WorkingProduct>, tally: map<Id, SalesTally>, buckets: Buckets)
    requires forall b: Bucket :: buckets.Get(b) == Select(products, tally, b, products.Keys)
    requires buckets.salesData == buckets.negativeStock + buckets.zeroStock + buckets.positiveStock
    ensures buckets == ClassifySpec(products, tally)
  {
    assert buckets.Get(Discontinued) == buckets.discontinued;
    assert buckets.Get(VendMechanics) == buckets.vendMechanics;
    assert buckets.Get(SufficientStock) == buckets.sufficientStock;
    assert buckets.Get(NegativeStock) == buckets.negativeStock;
    assert buckets.Get(ZeroStock) == buckets.zeroStock;
    assert buckets.Get(PositiveStock) == buckets.positiveStock;
  }

  /** The classifier's buckets partition the products, and its sales-data
      bucket is the union of the three sales-driven buckets. */
  lemma ClassifyPartitions(products: map<Id, WorkingProduct>, tally: map<Id, SalesTally>)
    ensures Partitions(ClassifySpec(products, tally), products)
    ensures SalesDataIsUnion(ClassifySpec(products, tally))
  {
    var buckets := ClassifySpec(products, tally);
    forall b: Bucket ensures buckets.Get(b) == Select(products, tally, b, products.Keys) {
      match b
      case Discontinued =>
      case VendMechanics =>
      case SufficientStock =>
      case NegativeStock =>
      case ZeroStock =>
      case PositiveStock =>
    }
    SelectPartitions(products, tally, buckets);
    SelectDisjoint(products, tally, NegativeStock, ZeroStock);
    SelectDisjoint(products, tally, NegativeStock, PositiveStock);
    SelectDisjoint(products, tally, ZeroStock, PositiveStock);
    MergeIsUnion(buckets);
  }

  /** Two different buckets share no product. */
  lemma SelectDisjoint(products: map<Id, WorkingProduct>, tally: map<Id, SalesTally>, b1: Bucket, b2: Bucket)
    requires b1 != b2
    ensures Select(products, tally, b1, products.Keys).Keys !! Select(products, tally, b2, products.Keys).Keys
  {
  }

  /** Merging the three sales-driven buckets one after another yields
      their union. */
  lemma MergeIsUnion(buckets: Buckets)
    requires buckets.salesData == buckets.negativeStock + buckets.zeroStock + buckets.positiveStock
    requires buckets.negativeStock.Keys !! buckets.zeroStock.Keys
    requires buckets.negativeStock.Keys !! buckets.positiveStock.Keys
    requires buckets.zeroStock.Keys !! buckets.positiveStock.Keys
    ensures SalesDataIsUnion(buckets)
  {
  }

  /** The buckets with product p added under id to bucket b. */
  function Put(buckets: Buckets, b: Bucket, id: Id, p: WorkingProduct): (r: Buckets)
  {
    match b
    case Discontinued => buckets.(discontinued := buckets.discontinued[id := p])
    case VendMechanics => buckets.(vendMechanics := buckets.vendMechanics[id := p])
    case SufficientStock => buckets.(sufficientStock := buckets.sufficientStock[id := p])
    case NegativeStock => buckets.(negativeStock := buckets.negativeStock[id := p])
    case ZeroStock => buckets.(zeroStock := buckets.zeroStock[id := p])
    case PositiveStock => buckets.(positiveStock := buckets.positiveStock[id := p])
  }

  /** Putting a product into one bucket adds it there and changes nothing
      else. */
  lemma PutGet(buckets: Buckets, b: Bucket, id: Id, p: WorkingProduct)
    ensures forall b': Bucket :: Put(buckets, b, id, p).Get(b') == Extend(buckets.Get(b'), b == b', id, p)
    ensures Put(buckets, b, id, p).salesData == buckets.salesData
  {
  }

  /** The loop body for one product (the callback the source hands to its
      each-loop): the product goes into the bucket its decision names, and
      every other bucket stays as it was. */
  method Place(buckets: Buckets, productId: Id, product: WorkingProduct, tally: map<Id, SalesTally>) returns (r: Buckets)
    ensures r == Put(buckets, Decide(product, Lookup(tally, productId)), productId, product)
  {
    if product.inventory.restockLevel == 0 {
      r := buckets.(discontinued := buckets.discontinued[productId := product]);
    } else {
      if productId in tally {
        var productSalesHistory := tally[productId];
        if product.inventory.count < 0 {
          r := buckets.(negativeStock := buckets.negativeStock[productId := product]);
        } else {
          var difference := productSalesHistory.quantity - product.inventory.count;
          if difference == 0 {
            r := buckets.(zeroStock := buckets.zeroStock[productId := product]);
          } else if difference > 0 {
            r := buckets.(positiveStock := buckets.positiveStock[productId := product]);
          } else {
            r := buckets.(sufficientStock := buckets.sufficientStock[productId := product]);
          }
        }
      } else {
        r := buckets.(vendMechanics := buckets.vendMechanics[productId := product]);
      }
    }
  }

  /** The classification loop: every product is placed into the bucket its
      decision names, then the three sales-driven buckets are merged into
      the sales-data bucket. */
  method Classify(products: map<Id, WorkingProduct>, tally: map<Id, SalesTally>) returns (buckets: Buckets)
    ensures buckets == ClassifySpec(products, tally)
  {
    buckets := Buckets(map[], map[], map[], map[], map[], map[], map[]);
    var remaining := products.Keys;
    while remaining != {}
      invariant remaining <= products.Keys
      invariant forall b: Bucket :: buckets.Get(b) == Select(products, tally, b, products.Keys - remaining)
      invariant buckets.salesData == map[]
      decreases remaining
    {
      var productId :| productId in remaining;
      ghost var done := products.Keys - remaining;
      ghost var before := buckets;
      buckets := Place(buckets, productId, products[productId], tally);
      PutGet(before, Decide(products[productId], Lookup(tally, productId)), productId, products[productId]);
      forall b: Bucket ensures buckets.Get(b) == Select(products, tally, b, done + {productId}) {
        SelectStep(products, tally, b, done, productId);
      }
      remaining := remaining - {productId};
      assert products.Keys - remaining == done + {productId};
    }
    var salesData: map<Id, WorkingProduct> := map[];
    salesData := salesData + buckets.negativeStock;
    salesData := salesData + buckets.zeroStock;
    salesData := salesData + buckets.positiveStock;
    buckets := buckets.(salesData := salesData);
    assert products.Keys - remaining == products.Keys;
    SpecBuckets(products, tally, buckets);
  }
}
