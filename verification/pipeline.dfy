/** One run of the reorder pipeline once its arguments are resolved: the
    catalog is narrowed to the chosen supplier and outlet, the sales since
    the chosen date are tallied, and every remaining product is classified.
    The supplier's name, which the filter compares against, is passed in
    explicitly as part of the resolved supplier. The catalog and the sales
    are the results of the remote fetches. */
module StockOrder {
  import opened StockTypes
  import Resolve
  import Normalize
  import SalesAggregator
  import Classifier

  method RunMe(catalog: seq<Product>, supplier: Resolve.SupplierChoice, outletId: Id, sales: seq<Sale>)
    returns (buckets: Classifier.Buckets, productSales: map<Id, SalesTally>)
    ensures var products := Normalize.NormalizeProducts(catalog, supplier.name, outletId);
            && buckets == Classifier.ClassifySpec(products, productSales)
            && Classifier.Partitions(buckets, products)
            && Classifier.SalesDataIsUnion(buckets)
    ensures forall id :: id in productSales <==> SalesAggregator.Mentions(SalesAggregator.FlattenLineItems(sales), id)
    ensures forall id :: id in productSales ==> productSales[id].quantity == SalesAggregator.SoldAcrossSales(sales, id)
    ensures var items := SalesAggregator.FlattenLineItems(sales);
            forall id :: id in productSales ==>
              exists k :: SalesAggregator.FirstFor(items, k, id) && productSales[id].name == items[k].name
    ensures var products := Normalize.NormalizeProducts(catalog, supplier.name, outletId);
            forall id :: id in products <==> exists i :: Normalize.KeptWithId(catalog, i, id, supplier.name, outletId)
    ensures var products := Normalize.NormalizeProducts(catalog, supplier.name, outletId);
            forall id :: id in buckets.vendMechanics <==>
              id in products && products[id].inventory.restockLevel != 0 && id !in productSales
  {
    var products := Normalize.NormalizeProducts(catalog, supplier.name, outletId);
    var lineItems := SalesAggregator.FlattenLineItems(sales);
    productSales := SalesAggregator.TallySales(lineItems);
    buckets := Classifier.Classify(products, productSales);
    Classifier.ClassifyPartitions(products, productSales);
    Normalize.NormalizeKeys(catalog, supplier.name, outletId);
    forall id | id in productSales ensures productSales[id].quantity == SalesAggregator.SoldAcrossSales(sales, id) {
      SalesAggregator.FlattenSum(sales, id);
    }
    forall id ensures id in buckets.vendMechanics <==>
              id in products && products[id].inventory.restockLevel != 0 && id !in productSales
    {
      if id in products {
        Classifier.DecisionTable(products[id], Classifier.Lookup(productSales, id));
      }
    }
  }
}
