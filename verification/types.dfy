/** The records the reorder pipeline reads from the retail API, reduced to
    the fields the pipeline looks at. All of them are read-only snapshots. */
module StockTypes {

  /** Identifiers of products, outlets and suppliers are opaque strings. */
  type Id = string

  datatype Option<+T> = None | Some(value: T)

  /** A supplier or an outlet as the catalog lists it: a system id and a
      display name. */
  datatype Entry = Entry(id: Id, name: string)

  /** One product's stock at one outlet. */
  datatype InventoryRecord = InventoryRecord(
    outletId: Id,
    count: int,          // stock on hand, may be negative
    restockLevel: int,
    reorderPoint: int)

  /** A catalog product; `inventory` is None when the record has no
      inventory collection at all. */
  datatype Product = Product(
    id: Id,
    name: string,
    supplierName: string,
    supplyPrice: real,
    inventory: Option<seq<InventoryRecord>>)

  /** The diluted product the classifier works on: name, supply price and
      the single inventory row of the chosen outlet. */
  datatype WorkingProduct = WorkingProduct(
    name: string,
    supplyPrice: real,
    inventory: InventoryRecord)

  /** One line of a register sale. */
  datatype LineItem = LineItem(productId: Id, name: string, quantity: int, price: real)

  /** A register sale; only its line items matter downstream. */
  datatype Sale = Sale(lineItems: seq<LineItem>)

  /** The running tally of one product's sales: the name of its first line
      item and the total quantity sold. */
  datatype SalesTally = SalesTally(name: string, quantity: int)
}
