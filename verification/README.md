# generate-stock-order: the reorder decision, modelled in Dafny

The `generate-stock-order` command of vend-tools works out which products
of one supplier, stocked at one outlet, need reordering. It does this in
four steps:

1. It resolves three arguments: the lookback interval (`1w`, `2w`, `1m` or
   `2m`), the supplier and the outlet. Each is either given on the command
   line or picked from a numbered list by an interactive chooser.
2. It narrows the product catalog to the products that have an inventory
   row for the outlet and whose supplier name equals the chosen supplier's
   name. It reduces each of those to its name, its supply price and its
   first inventory row for the outlet, keyed by product id.
3. It flattens the line items of the sales since the chosen date. It
   tallies them into a map from product id to the first line item's name
   and the total quantity sold.
4. It puts every kept product into one of six buckets:
   - discontinued;
   - order by the remote system's own reorder mechanics;
   - sufficient stock;
   - negative stock;
   - zero stock;
   - positive stock.

   The last three buckets are then merged into the "order based on sales
   data" bucket.

The project is organised as follows:

- `types.dfy` (module `StockTypes`) holds the records. These are the
  catalog product with its optional inventory rows, the working product,
  the sale and its line items, and the sales tally entry.
- `resolve.dfy` (module `Resolve`) holds argument resolution. Each
  resolution yields `Resolved(value)`, `Reprompt` or `Invalid(message)`.
  - `Reprompt` is the chooser's recovery when the answer is not one of the
    listed options.
  - `Invalid` is the fatal invalid-interval error.
  - An empty string stands for an argument that was not given, matching
    the command's truthiness tests.
- `normalize.dfy` (module `Normalize`) holds the filter, the reduction to
  working products and the keying by id. Keying by id is the pairs-to-object
  step, where a later pair overrides an earlier one with the same key.
  - `NormalizeProducts` is the pipeline as the command writes it.
  - `KeyedKept` is an independent one-pass reading of the same pipeline.
  - The lemmas prove the two equal and state the map's keys and values in
    terms of the catalog.
- `tally.dfy` (module `SalesAggregator`) holds the tally loop, as a method
  with a loop invariant. The loop is proved equal to a left fold
  (`TallyOf`), and the fold is measured against a per-product sum
  (`SumQuantity`). Further lemmas prove that the totals do not depend on
  the order of the line items.
- `classify.dfy` (module `Classifier`) holds the per-product decision and
  the classification loop.
  - The loop is proved equal to a declarative specification
    (`ClassifySpec`, one map comprehension per bucket).
  - The specification is proved to partition the products.
  - It is also proved that the merged bucket is exactly the union of its
    three parts.
- `pipeline.dfy` (module `StockOrder`) chains the steps once the arguments
  are resolved.

The catalog fetch at `commands/generate-stock-order.js:235` is commented
out, and line 236 reads the catalog from a local file instead. Either way
the catalog reaches the model as a parameter.

## Model

| member | source | states |
|---|---|---|
| Resolve.ValidateInterval | commands/generate-stock-order.js:90-115 | Each of the four codes selects the precomputed "since" value at its own position. Any other non-empty code is the invalid-argument error with the command's message. No code at all defers to the interactive chooser. |
| Resolve.ChooseInterval | commands/generate-stock-order.js:117-131 | An answer that names one of the displayed options yields the value at that index. Any other answer re-prompts. Choosing the interval never fails fatally. |
| Resolve.PluckNames | commands/generate-stock-order.js:168 | The display list has one label per listing entry: the entry's name, in the same order. |
| Resolve.PluckIds | commands/generate-stock-order.js:169 | The options list has one id per listing entry, in the same order. This makes it parallel to the display list. |
| Resolve.ChooseSupplier | commands/generate-stock-order.js:167-185 | An in-range answer yields the id at that index, recorded with the supplier name shown at the same index. Out-of-range answers re-prompt. |
| Resolve.ValidateSupplier | commands/generate-stock-order.js:133-153 | An explicit supplier id is kept unchanged, and the name comes from the record fetched for that id. Without one, the supplier is chosen from the listing. |
| Resolve.ChooseOutlet | commands/generate-stock-order.js:215-232 | An in-range answer yields the outlet id at that index. Out-of-range answers re-prompt. |
| Resolve.ValidateOutlet | commands/generate-stock-order.js:187-201 | An explicit outlet id is accepted unchecked. Without one, the outlet is chosen from the listing. |
| Normalize.OutletIds | commands/generate-stock-order.js:247 | The plucked outlet ids are the inventory rows' outlet ids, one per row, in order. |
| Normalize.FindInventory | commands/generate-stock-order.js:256-258 | A row is found exactly when some row has the chosen outlet. The row found has that outlet, and no earlier row has it. |
| Normalize.FilterProducts | commands/generate-stock-order.js:245-250 | A catalog product is kept if and only if it has inventory rows, one of them is for the chosen outlet, and its supplier name equals the chosen supplier's name. |
| Normalize.Dilute | commands/generate-stock-order.js:255-258 | A working product keeps the catalog product's name and supply price. It carries an inventory row of the chosen outlet. |
| Normalize.DiluteFirstRow | commands/generate-stock-order.js:256-258 | The row a working product carries is the first of the product's rows for the chosen outlet. |
| Normalize.DiluteAll | commands/generate-stock-order.js:254-260 | There is one (id, working product) pair per kept product. |
| Normalize.ToObject | commands/generate-stock-order.js:254 | The object's keys are exactly the keys of the pairs. |
| Normalize.NormalizeSnoc | commands/generate-stock-order.js:245-260 | Appending a catalog product leaves the normalized map alone when the filter drops the product. Otherwise it sets the product's id to its working form, overriding any earlier entry. |
| Normalize.NormalizeIsKeyedKept | commands/generate-stock-order.js:245-260 | The filter, reduce and key-by-id pipeline equals the one-pass reading that walks the catalog once. |
| Normalize.KeyedKeptKeys | commands/generate-stock-order.js:245-260 | The one-pass map's keys are exactly the ids of the kept catalog products. |
| Normalize.KeyedKeptValues | commands/generate-stock-order.js:254-260 | Each entry of the one-pass map is the working form of the last kept catalog product with that id. |
| Normalize.LastKeptExtend | commands/generate-stock-order.js:254-260 | Appending a product that does not replace an id keeps the last kept product with that id last. |
| Normalize.NormalizeKeys | commands/generate-stock-order.js:245-260 | The normalized map holds exactly the ids of the catalog products that pass the filter. |
| Normalize.NormalizeValues | commands/generate-stock-order.js:254-260 | Each normalized entry is the working form of the last kept catalog product with that id, because a later pair wins. |
| Normalize.NormalizeOutlet | commands/generate-stock-order.js:254-260 | Every working product carries an inventory row of the chosen outlet. Its name and supply price are those of a kept catalog product with the same id. |
| Normalize.NormalizeUniqueIds | commands/generate-stock-order.js:254-260 | When catalog ids are unique, every kept product appears under its own id as its working form. |
| SalesAggregator.FlattenLineItems | commands/generate-stock-order.js:285 | A line item is in the flattened list exactly when it belongs to one of the sales. |
| SalesAggregator.FlattenAppend | commands/generate-stock-order.js:285 | Flattening keeps the sales in order: two runs of sales flatten to the first run's line items followed by the second's. |
| SalesAggregator.FlattenSingle | commands/generate-stock-order.js:285 | One sale flattens to its own line items, in their order. |
| SalesAggregator.FlattenSum | commands/generate-stock-order.js:285 | Flattening loses no quantity. A product's total over the flattened list is the sum of its per-sale totals. |
| SalesAggregator.SumQuantityAppend | commands/generate-stock-order.js:292-302 | A product's total over two concatenated runs of line items is the sum of the two totals. |
| SalesAggregator.SumQuantityAbsent | commands/generate-stock-order.js:292-302 | A product no line item mentions totals zero. |
| SalesAggregator.TallyKeys | commands/generate-stock-order.js:292-302 | The tally has an entry for exactly the products some line item mentions. |
| SalesAggregator.TallyQuantity | commands/generate-stock-order.js:294-296 | Each tallied quantity is the sum of that product's line-item quantities. |
| SalesAggregator.TallyName | commands/generate-stock-order.js:298-300 | Each tallied name is that of the product's first line item. Later line items never change it. |
| SalesAggregator.SumQuantityRemove | commands/generate-stock-order.js:292-302 | Removing one line item removes exactly its share from its product's total. |
| SalesAggregator.SumQuantityPermutation | commands/generate-stock-order.js:292-302 | Any rearrangement of the line items gives every product the same total. |
| SalesAggregator.TallyPermutation | commands/generate-stock-order.js:292-302 | Tallying a rearrangement of the line items gives the same products with the same total quantities. |
| SalesAggregator.TallySales | commands/generate-stock-order.js:292-302 | The tally loop computes the left fold of the line items. Its keys are the mentioned products, each quantity is that product's total, and each name is that of the product's first line item. |
| Classifier.DecisionTable | commands/generate-stock-order.js:328-353 | Each bucket's membership condition, in both directions, with the order of precedence below. Restock level 0 means discontinued. Otherwise no tally means reorder mechanics. Otherwise negative stock on hand means negative stock. Otherwise the sign of sold minus on hand picks zero, positive or sufficient stock. |
| Classifier.SelectStep | commands/generate-stock-order.js:327-354 | Classifying one more product adds it, unchanged, to its own bucket only. |
| Classifier.SelectPartitions | commands/generate-stock-order.js:311-354 | The six bucket selections split the product map: each product lies in exactly one bucket, under its own id and unchanged. |
| Classifier.SpecBuckets | commands/generate-stock-order.js:311-359 | Buckets that agree with the selections on all six decisions, and whose merged bucket is their union, are the classification's specification. |
| Classifier.SelectDisjoint | commands/generate-stock-order.js:327-354 | Two different buckets share no product id. |
| Classifier.MergeIsUnion | commands/generate-stock-order.js:356-359 | When the three merged buckets are disjoint, merging them in order gives a map whose keys are their union, each entry taken from the bucket that holds it. |
| Classifier.ClassifyPartitions | commands/generate-stock-order.js:311-359 | The specified buckets partition the products, and the merged bucket is exactly the union of the negative, zero and positive stock buckets. |
| Classifier.PutGet | commands/generate-stock-order.js:327-354 | Placing a product into one bucket changes that bucket alone, by adding the product under its id. |
| Classifier.Place | commands/generate-stock-order.js:327-354 | One iteration of the classification loop puts the product into the bucket the decision table names, and changes nothing else. |
| Classifier.Classify | commands/generate-stock-order.js:311-359 | The classification loop and the merge produce exactly the specified buckets, whatever order the products are visited in. |
| StockOrder.RunMe | commands/generate-stock-order.js:234-388 | For a resolved supplier and outlet, the buckets are the specified classification of the normalized products against the tally, and they partition those products. The merged bucket is the union of its parts. The tally has the sold products with their totals across all sales, each named after the product's first line item in the flattened, sale-by-sale order. The normalized products are the kept ones. A product goes to the reorder-mechanics bucket exactly when its restock level is not 0 and no line item mentions it. |

## Left out

- The remote API calls: fetching suppliers, a supplier by id, outlets and sales. Their results are parameters: `suppliers`/`fetched`/`outlets` in `Resolve`, and the catalog and the sales in `StockOrder.RunMe`.
- The catalog file read at `commands/generate-stock-order.js:236` and the JSON snapshot exports, which are file I/O.
- OAuth credential loading and refresh, and the promise plumbing between the steps.
- All logging.
- The interactive chooser's terminal I/O and its unbounded re-prompt loop. One answer is a parameter, and `Reprompt` marks the point where the command would ask again.
- The interval display labels and the "since" values. These come from dates computed with the moment library. Here they are two parallel parameter lists, and the "since" values are of any type `T`.
- The check that `orderName` is present, and the stock-order creation. The latter is commented out in the source and builds nothing the decision depends on.
- The `list-products` command, which is not part of this model.
- Classifier.Place: restock levels, counts and quantities are plain integers. The source compares with JavaScript's loose `==` at `commands/generate-stock-order.js:328` (`restock_level == 0`) and 339 (`difference == 0`), under which numeric strings such as `"0"` or `""` equal 0. The `<` at 334 and the `-` at 338 coerce string fields to numbers the same way. String-valued fields are not modelled, nor is arithmetic on missing or non-numeric fields.
- Normalize.Dilute: supply prices are `real`; floating-point rounding is not modelled.
- Normalize.DiluteAll: its contract gives only the length. What each pair holds is stated through `NormalizeSnoc`, `NormalizeValues` and `NormalizeOutlet` instead.
- SalesAggregator.TallySales: the source tests an existing entry by truthiness. The entry is always an object, so it is always truthy, and the model tests membership instead. Quantities are unbounded integers, with no floating-point overflow.
- Classifier.Classify: the order in which the source walks the object's keys is not modelled. The loop picks any remaining id, and the result is proved the same for every order.
