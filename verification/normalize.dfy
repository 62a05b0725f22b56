/** Narrowing the product catalog to the chosen supplier and outlet, and
    diluting each surviving product to the fields the classifier needs.
    The result is keyed by product id, built pair by pair so that a later
    pair for the same id replaces an earlier one. */
module Normalize {
  import opened StockTypes

  /** The outlet ids of an inventory collection, in order. */
  function OutletIds(rows: seq<InventoryRecord>): (ids: seq<Id>)
    ensures |ids| == |rows|
    ensures forall i :: 0 <= i < |rows| ==> ids[i] == rows[i].outletId
  {
    if rows == [] then [] else [rows[0].outletId] + OutletIds(rows[1..])
  }

  /** The first inventory row of the given outlet, if there is one. */
  function FindInventory(rows: seq<InventoryRecord>, outletId: Id): (r: Option<InventoryRecord>)
    ensures r.Some? <==> outletId in OutletIds(rows)
    ensures r.Some? ==> r.value.outletId == outletId
    ensures r.Some? ==> exists k :: 0 <= k < |rows| && rows[k] == r.value &&
                          forall j :: 0 <= j < k ==> rows[j].outletId != outletId
  {
    if rows == [] then None
    else if rows[0].outletId == outletId then Some(rows[0])
    else
      var r := FindInventory(rows[1..], outletId);
      assert OutletIds(rows) == [rows[0].outletId] + OutletIds(rows[1..]);
      if r.Some? then
        var k :| 0 <= k < |rows[1..]| && rows[1..][k] == r.value &&
                 forall j :: 0 <= j < k ==> rows[1..][j].outletId != outletId;
        assert rows[k + 1] == r.value;
        assert forall j :: 0 <= j < k + 1 ==> rows[j].outletId != outletId by {
          forall j | 0 <= j < k + 1 ensures rows[j].outletId != outletId {
            if j > 0 { assert rows[j] == rows[1..][j - 1]; }
          }
        }
        r
      else r
  }

  /** The filter predicate: an inventory collection is present, one of its
      rows belongs to the chosen outlet, and the product's supplier name is
      the chosen supplier's name (a name match, not an id match). */
  predicate Keeps(p: Product, supplierName: string, outletId: Id) {
    && p.inventory.Some?
    && outletId in OutletIds(p.inventory.value)
    && supplierName == p.supplierName
  }

  /** The catalog products that pass the filter, in catalog order. */
  function FilterProducts(products: seq<Product>, supplierName: string, outletId: Id): (kept: seq<Product>)
    ensures forall p :: p in kept <==> p in products && Keeps(p, supplierName, outletId)
    ensures |kept| <= |products|
  {
    if products == [] then []
    else
      var init := products[..|products| - 1];
      var last := products[|products| - 1];
      assert products == init + [last];
      FilterProducts(init, supplierName, outletId) + (if Keeps(last, supplierName, outletId) then [last] else [])
  }

  /** A kept product reduced to name, supply price and the first inventory
      row of the chosen outlet. */
  function Dilute(p: Product, outletId: Id): (w: WorkingProduct)
    requires p.inventory.Some? && outletId in OutletIds(p.inventory.value)
    ensures w.name == p.name && w.supplyPrice == p.supplyPrice
    ensures w.inventory.outletId == outletId
  {
    WorkingProduct(p.name, p.supplyPrice, FindInventory(p.inventory.value, outletId).value)
  }

  /** The inventory row a diluted product carries is the first row of the
      chosen outlet. */
  lemma DiluteFirstRow(p: Product, outletId: Id)
    requires p.inventory.Some? && outletId in OutletIds(p.inventory.value)
    ensures var rows := p.inventory.value;
            exists k :: 0 <= k < |rows| && rows[k] == Dilute(p, outletId).inventory &&
                        forall j :: 0 <= j < k ==> rows[j].outletId != outletId
  {
  }

  /** The (id, diluted product) pairs of the kept products, in order. */
  function DiluteAll(kept: seq<Product>, outletId: Id): (pairs: seq<(Id, WorkingProduct)>)
    requires forall p :: p in kept ==> p.inventory.Some? && outletId in OutletIds(p.inventory.value)
    ensures |pairs| == |kept|
  {
    if kept == [] then []
    else
      var init := kept[..|kept| - 1];
      var last := kept[|kept| - 1];
      DiluteAll(init, outletId) + [(last.id, Dilute(last, outletId))]
  }

  /** Key/value pairs turned into a map, later pairs overriding earlier
      ones for the same key. */
  function ToObject<K(!new), V>(pairs: seq<(K, V)>): (m: map<K, V>)
    ensures forall k :: k in m <==> exists i :: 0 <= i < |pairs| && pairs[i].0 == k
  {
    if pairs == [] then map[]
    else
      var init := pairs[..|pairs| - 1];
      var last := pairs[|pairs| - 1];
      var m := ToObject(init);
      assert forall i :: 0 <= i < |init| ==> pairs[i] == init[i];
      m[last.0 := last.1]
  }

  /** The whole filter, dilute and key-by-id pipeline. */
  function NormalizeProducts(products: seq<Product>, supplierName: string, outletId: Id): (m: map<Id, WorkingProduct>)
  {
    var kept := FilterProducts(products, supplierName, outletId);
    ToObject(DiluteAll(kept, outletId))
  }

  /** Appending a catalog product either leaves the result alone (it is
      filtered out) or sets its id to its diluted form. */
  lemma {:induction false} NormalizeSnoc(products: seq<Product>, p: Product, supplierName: string, outletId: Id)
    ensures NormalizeProducts(products + [p], supplierName, outletId) ==
            if Keeps(p, supplierName, outletId)
            then NormalizeProducts(products, supplierName, outletId)[p.id := Dilute(p, outletId)]
            else NormalizeProducts(products, supplierName, outletId)
  {
    var ps := products + [p];
    assert ps[..|ps| - 1] == products;
    var kept := FilterProducts(products, supplierName, outletId);
    var kept' := FilterProducts(ps, supplierName, outletId);
    if Keeps(p, supplierName, outletId) {
      assert kept' == kept + [p];
      assert kept'[..|kept'| - 1] == kept;
      var pairs := DiluteAll(kept, outletId);
      var pairs' := DiluteAll(kept', outletId);
      assert pairs' == pairs + [(p.id, Dilute(p, outletId))];
      assert pairs'[..|pairs'| - 1] == pairs;
    } else {
      assert kept' == kept;
    }
  }

  /** A one-pass reading of the same pipeline: walk the catalog in order and
      set each kept product's id to its diluted form. */
  function KeyedKept(products: seq<Product>, supplierName: string, outletId: Id): (m: map<Id, WorkingProduct>)
  {
    if products == [] then map[]
    else
      var p := products[|products| - 1];
      var m := KeyedKept(products[..|products| - 1], supplierName, outletId);
      if Keeps(p, supplierName, outletId) then m[p.id := Dilute(p, outletId)] else m
  }

  /** The filter, dilute and key-by-id pipeline equals the one-pass reading. */
  lemma {:induction false} NormalizeIsKeyedKept(products: seq<Product>, supplierName: string, outletId: Id)
    ensures NormalizeProducts(products, supplierName, outletId) == KeyedKept(products, supplierName, outletId)
    decreases |products|
  {
    if products == [] {
      assert FilterProducts(products, supplierName, outletId) == [];
    } else {
      var init := products[..|products| - 1];
      var p := products[|products| - 1];
      assert products == init + [p];
      NormalizeIsKeyedKept(init, supplierName, outletId);
      NormalizeSnoc(init, p, supplierName, outletId);
    }
  }

  /** Product number i of the catalog passes the filter and has the given id. */
  predicate KeptWithId(products: seq<Product>, i: int, id: Id, supplierName: string, outletId: Id) {
    0 <= i < |products| && products[i].id == id && Keeps(products[i], supplierName, outletId)
  }

  /** Product number i is the last catalog product with the given id that
      passes the filter. */
  predicate LastKeptWithId(products: seq<Product>, i: int, id: Id, supplierName: string, outletId: Id) {
    && KeptWithId(products, i, id, supplierName, outletId)
    && forall j :: i < j < |products| ==> !KeptWithId(products, j, id, supplierName, outletId)
  }

  lemma {:induction false} KeyedKeptKeys(products: seq<Product>, supplierName: string, outletId: Id)
    ensures forall id :: id in KeyedKept(products, supplierName, outletId) <==>
                         exists i :: KeptWithId(products, i, id, supplierName, outletId)
    decreases |products|
  {
    if products != [] {
      var init := products[..|products| - 1];
      var p := products[|products| - 1];
      KeyedKeptKeys(init, supplierName, outletId);
      forall id
        ensures id in KeyedKept(products, supplierName, outletId) <==>
                exists i :: KeptWithId(products, i, id, supplierName, outletId)
      {
        if Keeps(p, supplierName, outletId) && id == p.id {
          assert KeptWithId(products, |products| - 1, id, supplierName, outletId);
        }
        if exists i :: KeptWithId(init, i, id, supplierName, outletId) {
          var i :| KeptWithId(init, i, id, supplierName, outletId);
          assert products[i] == init[i];
          assert KeptWithId(products, i, id, supplierName, outletId);
        }
        if exists i :: KeptWithId(products, i, id, supplierName, outletId) {
          var i :| KeptWithId(products, i, id, supplierName, outletId);
          if i < |init| {
            assert products[i] == init[i];
            assert KeptWithId(init, i, id, supplierName, outletId);
          }
        }
      }
    }
  }

  /** Entry `id` of m is the diluted form of the last kept catalog product
      with that id. */
  ghost predicate FromLastKept(products: seq<Product>, m: map<Id, WorkingProduct>, id: Id, supplierName: string, outletId: Id)
    requires id in m
  {
    exists i :: 0 <= i < |products| && LastKeptWithId(products, i, id, supplierName, outletId) && m[id] == Dilute(products[i], outletId)
  }

  /** Appending a product that is not a kept product with that id keeps
      the last kept one last. */
  lemma LastKeptExtend(init: seq<Product>, p: Product, i: int, id: Id, supplierName: string, outletId: Id)
    requires LastKeptWithId(init, i, id, supplierName, outletId)
    requires !(Keeps(p, supplierName, outletId) && p.id == id)
    ensures LastKeptWithId(init + [p], i, id, supplierName, outletId)
  {
    var ps := init + [p];
    forall j | i < j < |ps| ensures !KeptWithId(ps, j, id, supplierName, outletId) {
      if j < |init| {
        assert !KeptWithId(init, j, id, supplierName, outletId);
        assert ps[j] == init[j];
      } else {
        assert ps[j] == p;
      }
    }
    assert ps[i] == init[i];
  }

  lemma {:induction false} KeyedKeptValues(products: seq<Product>, supplierName: string, outletId: Id)
    ensures forall id :: id in KeyedKept(products, supplierName, outletId) ==>
                         FromLastKept(products, KeyedKept(products, supplierName, outletId), id, supplierName, outletId)
    decreases |products|
  {
    if products != [] {
      var init := products[..|products| - 1];
      var p := products[|products| - 1];
      assert products == init + [p];
      KeyedKeptValues(init, supplierName, outletId);
      var m0 := KeyedKept(init, supplierName, outletId);
      var m := KeyedKept(products, supplierName, outletId);
      forall id | id in m
        ensures FromLastKept(products, m, id, supplierName, outletId)
      {
        if Keeps(p, supplierName, outletId) && id == p.id {
          assert LastKeptWithId(products, |products| - 1, id, supplierName, outletId);
        } else {
          assert id in m0 && m[id] == m0[id];
          assert FromLastKept(init, m0, id, supplierName, outletId);
          var i :| 0 <= i < |init| && LastKeptWithId(init, i, id, supplierName, outletId) && m0[id] == Dilute(init[i], outletId);
          LastKeptExtend(init, p, i, id, supplierName, outletId);
          assert products[i] == init[i];
        }
      }
    }
  }

  /** The normalized map holds exactly the ids of the catalog products that
      pass the filter. */
  lemma NormalizeKeys(products: seq<Product>, supplierName: string, outletId: Id)
    ensures forall id :: id in NormalizeProducts(products, supplierName, outletId) <==>
                         exists i :: KeptWithId(products, i, id, supplierName, outletId)
  {
    NormalizeIsKeyedKept(products, supplierName, outletId);
    KeyedKeptKeys(products, supplierName, outletId);
  }

  /** Every entry of the normalized map is the diluted form of the LAST
      catalog product with that id that passes the filter. */
  lemma NormalizeValues(products: seq<Product>, supplierName: string, outletId: Id)
    ensures var m := NormalizeProducts(products, supplierName, outletId);
            forall id :: id in m ==> FromLastKept(products, m, id, supplierName, outletId)
  {
    NormalizeIsKeyedKept(products, supplierName, outletId);
    KeyedKeptValues(products, supplierName, outletId);
  }

  /** Every normalized product carries the inventory row of the chosen
      outlet, and its name and supply price come from a kept catalog
      product with the same id. */
  lemma NormalizeOutlet(products: seq<Product>, supplierName: string, outletId: Id)
    ensures var m := NormalizeProducts(products, supplierName, outletId);
            forall id :: id in m ==>
              && m[id].inventory.outletId == outletId
              && exists i :: KeptWithId(products, i, id, supplierName, outletId) &&
                             m[id].name == products[i].name && m[id].supplyPrice == products[i].supplyPrice
  {
    NormalizeValues(products, supplierName, outletId);
  }

  /** With unique product ids (as the catalog promises), every kept product
      appears under its own id as its diluted form. */
  lemma NormalizeUniqueIds(products: seq<Product>, supplierName: string, outletId: Id)
    requires forall i, j :: 0 <= i < j < |products| ==> products[i].id != products[j].id
    ensures var m := NormalizeProducts(products, supplierName, outletId);
      forall i :: 0 <= i < |products| && Keeps(products[i], supplierName, outletId) ==>
        products[i].id in m && m[products[i].id] == Dilute(products[i], outletId)
  {
    NormalizeKeys(products, supplierName, outletId);
    NormalizeValues(products, supplierName, outletId);
    var m := NormalizeProducts(products, supplierName, outletId);
    forall i | 0 <= i < |products| && Keeps(products[i], supplierName, outletId)
      ensures products[i].id in m && m[products[i].id] == Dilute(products[i], outletId)
    {
      var id := products[i].id;
      assert KeptWithId(products, i, id, supplierName, outletId);
      assert id in m;
      assert FromLastKept(products, m, id, supplierName, outletId);
      var k :| 0 <= k < |products| && LastKeptWithId(products, k, id, supplierName, outletId) && m[id] == Dilute(products[k], outletId);
      assert products[k].id == products[i].id;
      assert k == i;
    }
  }
}
