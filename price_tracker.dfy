/**
 * The catalog state of the price tracker and the operations that change it: adding and
 * removing products and suppliers, and the simulated scrape. The matrix is kept in step
 * with the two lists: one row per product, and no row mentions an unknown supplier.
 */
module PriceTracker {
  import opened Wrappers
  import opened PriceComparison

  // ---------------------------------------------------------------------------------
  // Identifiers

  function ProductIds(products: seq<Product>): (ids: seq<int>)
    ensures |ids| == |products|
    ensures forall i :: 0 <= i < |products| ==> ids[i] == products[i].id
  {
    seq(|products|, i requires 0 <= i < |products| => products[i].id)
  }

  function SupplierIds(suppliers: seq<Supplier>): (ids: seq<int>)
    ensures |ids| == |suppliers|
    ensures forall i :: 0 <= i < |suppliers| ==> ids[i] == suppliers[i].id
  {
    seq(|suppliers|, i requires 0 <= i < |suppliers| => suppliers[i].id)
  }

  /** `Math.max(...ids)` of a non-empty list of integer ids. */
  function MaxId(ids: seq<int>): (m: int)
    requires |ids| > 0
    ensures m in ids
    ensures forall x :: x in ids ==> x <= m
  {
    if |ids| == 1 then ids[0]
    else
      var rest := MaxId(ids[1..]);
      assert forall x :: x in ids ==> x == ids[0] || x in ids[1..];
      if ids[0] >= rest then ids[0] else rest
  }

  /** The id given to a new product or supplier: one more than the largest id in use, and 1
      for an empty list (the source's expression has no value for the empty list; see
      `NextIdAsWritten`). It is always fresh. */
  function NextId(ids: seq<int>): (id: int)
    ensures forall x :: x in ids ==> x < id
    ensures ids != [] ==> id - 1 in ids
    ensures ids == [] ==> id == 1
  {
    if ids == [] then 1 else MaxId(ids) + 1
  }

  /** A JavaScript number as it arises from `Math.max(...ids) + 1`: an integer, or the
      `-Infinity` that `Math.max()` returns for no arguments. */
  datatype JsNumber = Finite(value: int) | NegInfinity

  /** `Math.max(...xs)`, with `-Infinity` for the empty list. */
  function JsMax(xs: seq<JsNumber>): (m: JsNumber)
    ensures m == NegInfinity <==> forall x :: x in xs ==> x == NegInfinity
    ensures m.Finite? ==> m in xs && forall x :: x in xs && x.Finite? ==> x.value <= m.value
  {
    if xs == [] then NegInfinity
    else
      var rest := JsMax(xs[1..]);
      assert forall x :: x in xs <==> x == xs[0] || x in xs[1..];
      if xs[0].NegInfinity? then rest
      else if rest.NegInfinity? || xs[0].value >= rest.value then
        assert forall x :: x in xs[1..] && x.Finite? ==> x.value <= xs[0].value;
        assert xs[0] in xs;
        xs[0]
      else rest
  }

  /** `x + 1`; `-Infinity + 1` is `-Infinity`. */
  function JsAddOne(x: JsNumber): JsNumber {
    match x
    case Finite(n) => Finite(n + 1)
    case NegInfinity => NegInfinity
  }

  /** `Math.max(...list.map(x => x.id)) + 1` exactly as written. */
  function NextIdAsWritten(ids: seq<JsNumber>): JsNumber {
    JsAddOne(JsMax(ids))
  }

  function AsJsNumbers(ids: seq<int>): (r: seq<JsNumber>)
    ensures |r| == |ids|
    ensures forall i :: 0 <= i < |ids| ==> r[i] == Finite(ids[i])
  {
    seq(|ids|, i requires 0 <= i < |ids| => Finite(ids[i]))
  }

  /** On a non-empty list of ids the expression as written and `NextId` agree. */
  lemma {:induction false} NextIdAsWrittenAgrees(ids: seq<int>)
    requires ids != []
    ensures NextIdAsWritten(AsJsNumbers(ids)) == Finite(NextId(ids))
    decreases |ids|
  {
    var js := AsJsNumbers(ids);
    if |ids| == 1 {
      assert js[1..] == [];
    } else {
      assert js[1..] == AsJsNumbers(ids[1..]);
      NextIdAsWrittenAgrees(ids[1..]);
      assert JsMax(js[1..]) == Finite(MaxId(ids[1..]));
    }
  }

  /** On an empty catalog the expression as written yields `-Infinity`, and a second
      addition yields `-Infinity` again: two products (or suppliers) share one id. */
  lemma EmptyCatalogRepeatsId()
    ensures NextIdAsWritten([]) == NegInfinity
    ensures NextIdAsWritten([NextIdAsWritten([])]) == NextIdAsWritten([])
  {
    assert [NegInfinity][1..] == [];
  }

  // ---------------------------------------------------------------------------------
  // Removal filters

  /** `products.filter(p => p.id !== productId)` */
  function WithoutProduct(products: seq<Product>, productId: int): (r: seq<Product>)
    ensures forall p :: p in r <==> p in products && p.id != productId
    ensures |r| <= |products|
    ensures (forall p :: p in products ==> p.id != productId) ==> r == products
  {
    if products == [] then []
    else if products[0].id == productId then WithoutProduct(products[1..], productId)
    else [products[0]] + WithoutProduct(products[1..], productId)
  }

  /** `suppliers.filter(s => s.id !== supplierId)` */
  function WithoutSupplier(suppliers: seq<Supplier>, supplierId: int): (r: seq<Supplier>)
    ensures forall s :: s in r <==> s in suppliers && s.id != supplierId
    ensures |r| <= |suppliers|
    ensures (forall s :: s in suppliers ==> s.id != supplierId) ==> r == suppliers
  {
    if suppliers == [] then []
    else if suppliers[0].id == supplierId then WithoutSupplier(suppliers[1..], supplierId)
    else [suppliers[0]] + WithoutSupplier(suppliers[1..], supplierId)
  }

  /** No two positions of the list hold the same product id. */
  ghost predicate UniqueProductIds(products: seq<Product>) {
    forall i, j :: 0 <= i < |products| && 0 <= j < |products| && products[i].id == products[j].id ==> i == j
  }

  ghost predicate UniqueSupplierIds(suppliers: seq<Supplier>) {
    forall i, j :: 0 <= i < |suppliers| && 0 <= j < |suppliers| && suppliers[i].id == suppliers[j].id ==> i == j
  }

  lemma {:induction false} WithoutProductKeepsUnique(products: seq<Product>, productId: int)
    requires UniqueProductIds(products)
    ensures UniqueProductIds(WithoutProduct(products, productId))
    decreases |products|
  {
    if products != [] {
      var rest := products[1..];
      assert UniqueProductIds(rest) by {
        forall i, j | 0 <= i < |rest| && 0 <= j < |rest| && rest[i].id == rest[j].id ensures i == j {
          assert products[i + 1].id == products[j + 1].id;
        }
      }
      WithoutProductKeepsUnique(rest, productId);
      var tail := WithoutProduct(rest, productId);
      if products[0].id != productId {
        forall p | p in tail ensures p.id != products[0].id {
          var k :| 0 <= k < |rest| && rest[k] == p;
          assert products[k + 1] == p;
        }
        assert forall k :: 0 <= k < |tail| ==> ([products[0]] + tail)[k + 1] == tail[k];
      }
    }
  }

  lemma {:induction false} WithoutSupplierKeepsUnique(suppliers: seq<Supplier>, supplierId: int)
    requires UniqueSupplierIds(suppliers)
    ensures UniqueSupplierIds(WithoutSupplier(suppliers, supplierId))
    decreases |suppliers|
  {
    if suppliers != [] {
      var rest := suppliers[1..];
      assert UniqueSupplierIds(rest) by {
        forall i, j | 0 <= i < |rest| && 0 <= j < |rest| && rest[i].id == rest[j].id ensures i == j {
          assert suppliers[i + 1].id == suppliers[j + 1].id;
        }
      }
      WithoutSupplierKeepsUnique(rest, supplierId);
      var tail := WithoutSupplier(rest, supplierId);
      if suppliers[0].id != supplierId {
        forall s | s in tail ensures s.id != suppliers[0].id {
          var k :| 0 <= k < |rest| && rest[k] == s;
          assert suppliers[k + 1] == s;
        }
        assert forall k :: 0 <= k < |tail| ==> ([suppliers[0]] + tail)[k + 1] == tail[k];
      }
    }
  }

  /** Appending an item whose id exceeds every id in use keeps the ids distinct. */
  lemma AppendFreshProduct(products: seq<Product>, p: Product)
    requires UniqueProductIds(products)
    requires forall q :: q in products ==> q.id < p.id
    ensures UniqueProductIds(products + [p])
  {
    var r := products + [p];
    assert forall k :: 0 <= k < |products| ==> r[k] == products[k] && r[k] in products;
  }

  lemma AppendFreshSupplier(suppliers: seq<Supplier>, s: Supplier)
    requires UniqueSupplierIds(suppliers)
    requires forall q :: q in suppliers ==> q.id < s.id
    ensures UniqueSupplierIds(suppliers + [s])
  {
    var r := suppliers + [s];
    assert forall k :: 0 <= k < |suppliers| ==> r[k] == suppliers[k] && r[k] in suppliers;
  }

  // ---------------------------------------------------------------------------------
  // The catalog invariant and the changes that keep it

  /** Ids identify products and suppliers; the matrix has one row per product; a row only
      names known suppliers; every known price is at least the scrape floor. */
  ghost predicate CatalogInvariant(products: seq<Product>, suppliers: seq<Supplier>, matrix: PriceMatrix) {
    && UniqueProductIds(products)
    && UniqueSupplierIds(suppliers)
    && matrix.Keys == (set p | p in products :: p.id)
    && (forall p :: p in matrix ==> matrix[p].Keys <= (set s | s in suppliers :: s.id))
    && AtLeastFloor(matrix)
  }

  /** A new empty row adds no price: every entry but the new row's is as before. */
  lemma EmptyRowEntries(matrix: PriceMatrix, productId: int)
    ensures forall p, s :: PriceAt(matrix[productId := map[]], p, s) == if p == productId then None else PriceAt(matrix, p, s)
  {
    forall p, s ensures PriceAt(matrix[productId := map[]], p, s) == if p == productId then None else PriceAt(matrix, p, s) {
      if p == productId {
        assert RowOf(matrix[productId := map[]], p) == map[];
      } else {
        assert RowOf(matrix[productId := map[]], p) == RowOf(matrix, p);
      }
    }
  }

  /** After `delete priceData[productId]` the product has no prices and every other entry is
      as before. */
  lemma RemovedRowEntries(matrix: PriceMatrix, productId: int)
    ensures forall p, s :: PriceAt(matrix - {productId}, p, s) == if p == productId then None else PriceAt(matrix, p, s)
  {
    forall p, s ensures PriceAt(matrix - {productId}, p, s) == if p == productId then None else PriceAt(matrix, p, s) {
      if p != productId {
        assert RowOf(matrix - {productId}, p) == RowOf(matrix, p);
      }
    }
  }

  /** After the column is dropped the supplier has no prices and every other entry is as
      before. */
  lemma DroppedColumnEntries(matrix: PriceMatrix, supplierId: int, updated: PriceMatrix)
    requires updated.Keys == matrix.Keys
    requires forall p :: p in matrix ==> updated[p] == matrix[p] - {supplierId}
    ensures forall p, s :: PriceAt(updated, p, s) == if s == supplierId then None else PriceAt(matrix, p, s)
  {
    forall p, s ensures PriceAt(updated, p, s) == if s == supplierId then None else PriceAt(matrix, p, s) {
      if p in matrix {
        assert RowOf(updated, p) == matrix[p] - {supplierId};
      }
    }
  }

  lemma AddProductKeepsInvariant(products: seq<Product>, suppliers: seq<Supplier>, matrix: PriceMatrix, product: Product)
    requires CatalogInvariant(products, suppliers, matrix)
    requires forall q :: q in products ==> q.id < product.id
    ensures CatalogInvariant(products + [product], suppliers, matrix[product.id := map[]])
  {
    AppendFreshProduct(products, product);
    EmptyRowEntries(matrix, product.id);
    var after := products + [product];
    assert (set p | p in after :: p.id) == (set p | p in products :: p.id) + {product.id} by {
      assert forall p :: p in after <==> p in products || p == product;
    }
    var m := matrix[product.id := map[]];
    assert forall p :: p in m ==> m[p].Keys <= (set s | s in suppliers :: s.id) by {
      forall p | p in m ensures m[p].Keys <= (set s | s in suppliers :: s.id) {
        if p != product.id {
          assert m[p] == matrix[p];
        }
      }
    }
    assert AtLeastFloor(m) by {
      forall p, s | PriceAt(m, p, s).Some? ensures PriceAt(m, p, s).value >= PriceFloor {
        assert PriceAt(m, p, s) == PriceAt(matrix, p, s);
      }
    }
  }

  lemma RemoveProductKeepsInvariant(products: seq<Product>, suppliers: seq<Supplier>, matrix: PriceMatrix, productId: int)
    requires CatalogInvariant(products, suppliers, matrix)
    ensures CatalogInvariant(WithoutProduct(products, productId), suppliers, matrix - {productId})
  {
    WithoutProductKeepsUnique(products, productId);
    RemovedRowEntries(matrix, productId);
    var after := WithoutProduct(products, productId);
    assert (set p | p in after :: p.id) == (set p | p in products :: p.id) - {productId};
  }

  lemma AddSupplierKeepsInvariant(products: seq<Product>, suppliers: seq<Supplier>, matrix: PriceMatrix, supplier: Supplier)
    requires CatalogInvariant(products, suppliers, matrix)
    requires forall q :: q in suppliers ==> q.id < supplier.id
    ensures CatalogInvariant(products, suppliers + [supplier], matrix)
  {
    AppendFreshSupplier(suppliers, supplier);
    var after := suppliers + [supplier];
    assert (set s | s in suppliers :: s.id) <= (set s | s in after :: s.id);
  }

  lemma RemoveSupplierKeepsInvariant(products: seq<Product>, suppliers: seq<Supplier>, matrix: PriceMatrix, supplierId: int, updated: PriceMatrix)
    requires CatalogInvariant(products, suppliers, matrix)
    requires updated.Keys == matrix.Keys
    requires forall p :: p in matrix ==> updated[p] == matrix[p] - {supplierId}
    ensures CatalogInvariant(products, WithoutSupplier(suppliers, supplierId), updated)
  {
    WithoutSupplierKeepsUnique(suppliers, supplierId);
    DroppedColumnEntries(matrix, supplierId, updated);
    var after := WithoutSupplier(suppliers, supplierId);
    forall p | p in updated ensures updated[p].Keys <= (set s | s in after :: s.id) {
      forall k | k in updated[p] ensures k in (set s | s in after :: s.id) {
        assert k in matrix[p] && k != supplierId;
        var s :| s in suppliers && s.id == k;
        assert s in after;
      }
    }
  }

  /** Each id in `ids` is below `NextId(ids)`, for each list position. */
  lemma NextIdAboveProducts(products: seq<Product>)
    ensures forall q :: q in products ==> q.id < NextId(ProductIds(products))
  {
    forall q | q in products ensures q.id < NextId(ProductIds(products)) {
      var k :| 0 <= k < |products| && products[k] == q;
      assert ProductIds(products)[k] in ProductIds(products);
    }
  }

  lemma NextIdAboveSuppliers(suppliers: seq<Supplier>)
    ensures forall q :: q in suppliers ==> q.id < NextId(SupplierIds(suppliers))
  {
    forall q | q in suppliers ensures q.id < NextId(SupplierIds(suppliers)) {
      var k :| 0 <= k < |suppliers| && suppliers[k] == q;
      assert SupplierIds(suppliers)[k] in SupplierIds(suppliers);
    }
  }

  const InitialProducts: seq<Product> := [
    Product(1, "Surgical Gloves (Box of 100)", "SG-100", "PPE"),
    Product(2, "N95 Respirator Masks (Pack of 20)", "N95-20", "PPE"),
    Product(3, "Disposable Syringes 10ml (Pack of 50)", "SYR-10-50", "Syringes"),
    Product(4, "Digital Thermometer", "THERM-001", "Instruments"),
    Product(5, "Blood Pressure Cuff Adult", "BP-ADULT", "Instruments")
  ]

  const InitialSuppliers: seq<Supplier> := [
    Supplier(1, "MedSupply Pro", "https://medsupply.com", Active),
    Supplier(2, "Clinical Direct", "https://clinicaldirect.com", Active),
    Supplier(3, "Healthcare Plus", "https://healthcareplus.com", Active),
    Supplier(4, "Medical Depot", "https://medicaldepot.com", Pending)
  ]

  const InitialPrices: PriceMatrix := map[
    1 := map[1 := Some(24.99), 2 := Some(22.50), 3 := Some(26.75), 4 := None],
    2 := map[1 := Some(45.99), 2 := Some(42.00), 3 := Some(48.50), 4 := None],
    3 := map[1 := Some(18.75), 2 := Some(17.25), 3 := Some(19.99), 4 := None],
    4 := map[1 := Some(12.99), 2 := Some(11.50), 3 := Some(14.25), 4 := None],
    5 := map[1 := Some(34.99), 2 := Some(32.75), 3 := Some(36.50), 4 := None]
  ]

  lemma InitialIdSets()
    ensures (set p | p in InitialProducts :: p.id) == {1, 2, 3, 4, 5}
    ensures (set s | s in InitialSuppliers :: s.id) == {1, 2, 3, 4}
  {
    assert forall p :: p in InitialProducts ==> p.id in {1, 2, 3, 4, 5};
    assert InitialProducts[0] in InitialProducts && InitialProducts[1] in InitialProducts;
    assert InitialProducts[2] in InitialProducts && InitialProducts[3] in InitialProducts;
    assert InitialProducts[4] in InitialProducts;
    assert forall s :: s in InitialSuppliers ==> s.id in {1, 2, 3, 4};
    assert InitialSuppliers[0] in InitialSuppliers && InitialSuppliers[1] in InitialSuppliers;
    assert InitialSuppliers[2] in InitialSuppliers && InitialSuppliers[3] in InitialSuppliers;
  }

  lemma InitialPricesAtLeastFloor()
    ensures AtLeastFloor(InitialPrices)
  {
    forall p, s | PriceAt(InitialPrices, p, s).Some? ensures PriceAt(InitialPrices, p, s).value >= PriceFloor {
      assert p in {1, 2, 3, 4, 5};
    }
  }

  lemma InitialIdsUnique()
    ensures UniqueProductIds(InitialProducts) && UniqueSupplierIds(InitialSuppliers)
  {
    assert forall i :: 0 <= i < |InitialProducts| ==> InitialProducts[i].id == i + 1;
    assert forall i :: 0 <= i < |InitialSuppliers| ==> InitialSuppliers[i].id == i + 1;
  }

  lemma InitialRowsNameKnownSuppliers()
    ensures forall p :: p in InitialPrices ==> InitialPrices[p].Keys <= {1, 2, 3, 4}
  {
  }

  /** The start-up data keeps every invariant of the catalog. */
  lemma InitialDataConsistent()
    ensures CatalogInvariant(InitialProducts, InitialSuppliers, InitialPrices)
  {
    InitialIdsUnique();
    InitialIdSets();
    InitialRowsNameKnownSuppliers();
    InitialPricesAtLeastFloor();
  }

  // ---------------------------------------------------------------------------------
  // The scrape's delayed commit

  /** The matrix a scrape computes from a snapshot: every entry varied, the same keys. */
  function ScrapedMatrix(matrix: PriceMatrix, variation: (int, int) -> real): PriceMatrix {
    map p | p in matrix :: map s | s in matrix[p] :: Varied(matrix[p][s], variation(p, s))
  }

  const RaceProduct: Product := Product(1, "Gloves", "G-1", "PPE")
  const LateProduct: Product := Product(2, "Masks", "M-1", "PPE")

  /** `handleScrape` computes the new matrix from the state captured at the click and
      commits it three seconds later over whatever the lists are then. A product removed
      in between gets its row back, and a product added in between loses its row: either
      way the matrix no longer has one row per product. */
  lemma ScrapeRaceBreaksInvariant(variation: (int, int) -> real)
    ensures CatalogInvariant([RaceProduct], [], map[1 := map[]])
    ensures CatalogInvariant(WithoutProduct([RaceProduct], 1), [], map[1 := map[]] - {1})
    ensures !CatalogInvariant(WithoutProduct([RaceProduct], 1), [], ScrapedMatrix(map[1 := map[]], variation))
    ensures CatalogInvariant([RaceProduct, LateProduct], [], map[1 := map[], 2 := map[]])
    ensures !CatalogInvariant([RaceProduct, LateProduct], [], ScrapedMatrix(map[1 := map[]], variation))
  {
    var m: PriceMatrix := map[1 := map[]];
    assert (set p | p in [RaceProduct] :: p.id) == {1};
    assert WithoutProduct([RaceProduct], 1) == [];
    assert ScrapedMatrix(m, variation).Keys == {1};
    var both := (set p | p in [RaceProduct, LateProduct] :: p.id);
    assert RaceProduct in [RaceProduct, LateProduct] && LateProduct in [RaceProduct, LateProduct];
    assert both == {1, 2};
  }

  /** The catalog of `PriceComparisonApp`: the product list, the supplier list and the
      price matrix, changed in place by its handlers. */
  class Tracker {
    var products: seq<Product>
    var suppliers: seq<Supplier>
    var priceData: PriceMatrix

    ghost predicate Valid()
      reads this
    {
      CatalogInvariant(products, suppliers, priceData)
    }

    /** The initial state: five products, three active suppliers and one pending one. */
    constructor()
      ensures Valid()
      ensures products == InitialProducts && suppliers == InitialSuppliers && priceData == InitialPrices
    {
      products := InitialProducts;
      suppliers := InitialSuppliers;
      priceData := InitialPrices;
      InitialDataConsistent();
    }

    /** `addProduct`: the product is appended under a fresh id, with an empty row. */
    method AddProduct(name: string, sku: string, category: string) returns (id: int)
      requires Valid()
      modifies this
      ensures Valid()
      ensures id == NextId(ProductIds(old(products)))
      ensures forall p :: p in old(products) ==> p.id != id
      ensures products == old(products) + [Product(id, name, sku, category)]
      ensures suppliers == old(suppliers)
      ensures priceData == old(priceData)[id := map[]]
    {
      id := NextId(ProductIds(products));
      NextIdAboveProducts(products);
      AddProductKeepsInvariant(products, suppliers, priceData, Product(id, name, sku, category));
      products := products + [Product(id, name, sku, category)];
      priceData := priceData[id := map[]];
    }

    /** `removeProduct`: that product and its row go; nothing else changes. */
    method RemoveProduct(productId: int)
      requires Valid()
      modifies this
      ensures Valid()
      ensures products == WithoutProduct(old(products), productId)
      ensures suppliers == old(suppliers)
      ensures priceData == old(priceData) - {productId}
    {
      RemoveProductKeepsInvariant(products, suppliers, priceData, productId);
      products := WithoutProduct(products, productId);
      priceData := priceData - {productId};
    }

    /** `addSupplier`: the supplier is appended under a fresh id with status pending; the
        matrix is untouched. */
    method AddSupplier(name: string, url: string) returns (id: int)
      requires Valid()
      modifies this
      ensures Valid()
      ensures id == NextId(SupplierIds(old(suppliers)))
      ensures forall s :: s in old(suppliers) ==> s.id != id
      ensures suppliers == old(suppliers) + [Supplier(id, name, url, Pending)]
      ensures products == old(products)
      ensures priceData == old(priceData)
    {
      id := NextId(SupplierIds(suppliers));
      NextIdAboveSuppliers(suppliers);
      AddSupplierKeepsInvariant(products, suppliers, priceData, Supplier(id, name, url, Pending));
      suppliers := suppliers + [Supplier(id, name, url, Pending)];
    }

    /** `removeSupplier`: that supplier goes, and its key is deleted from every row. */
    method RemoveSupplier(supplierId: int)
      requires Valid()
      modifies this
      ensures Valid()
      ensures suppliers == WithoutSupplier(old(suppliers), supplierId)
      ensures products == old(products)
      ensures priceData.Keys == old(priceData).Keys
      ensures forall p :: p in priceData ==> priceData[p] == old(priceData)[p] - {supplierId}
    {
      var updated := DropSupplierColumn(priceData, supplierId);
      RemoveSupplierKeepsInvariant(products, suppliers, priceData, supplierId, updated);
      suppliers := WithoutSupplier(suppliers, supplierId);
      priceData := updated;
    }

    /** The body of `handleScrape`: every price of every row is varied and floored; the
        lists and the matrix's keys are unchanged. */
    method Scrape(variation: (int, int) -> real)
      requires Valid()
      modifies this
      ensures Valid()
      ensures products == old(products) && suppliers == old(suppliers)
      ensures priceData.Keys == old(priceData).Keys
      ensures forall p :: p in priceData ==> priceData[p].Keys == old(priceData)[p].Keys
      ensures forall p, s :: p in old(priceData) && s in old(priceData)[p] ==>
        priceData[p][s] == Varied(old(priceData)[p][s], variation(p, s))
    {
      var updated := ScrapeMatrix(priceData, variation);
      ScrapeKeepsFloorAndNulls(priceData, variation, updated);
      priceData := updated;
    }

    /** `calculateStats` on the current state. */
    method CurrentStats() returns (stats: Stats)
      requires Valid()
      ensures stats == StatsOf(products, suppliers, priceData)
    {
      FloorImpliesPositive(priceData);
      stats := CalculateStats(products, suppliers, priceData);
    }
  }
}
