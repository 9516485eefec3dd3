/**
 * The price-comparison engine of the clinical-supply price tracker.
 *
 * A catalog of products, a roster of suppliers (each active, pending or inactive) and a
 * sparse price matrix productId -> supplierId -> price | null are compared product by
 * product: only active suppliers with a known price take part; the row shows the lowest
 * and highest price, the first supplier offering the lowest one, a savings percentage
 * and a tag per cell. The statistics cards and the simulated scrape live here too.
 *
 * Prices are exact reals (the source uses IEEE doubles).
 */
module PriceComparison {
  import opened Wrappers

  datatype SupplierStatus = Active | Pending | Inactive

  datatype Product = Product(id: int, name: string, sku: string, category: string)

  datatype Supplier = Supplier(id: int, name: string, url: string, status: SupplierStatus)

  /** One product's observations, keyed by supplier id. `None` is the source's `null`; a
      missing key is its `undefined`; both mean "no price". */
  type PriceRow = map<int, Option<real>>

  /** Observations keyed by product id. */
  type PriceMatrix = map<int, PriceRow>

  /** `priceData[productId] || {}` */
  function RowOf(matrix: PriceMatrix, productId: int): PriceRow {
    if productId in matrix then matrix[productId] else map[]
  }

  /** `productPrices[supplierId]`, with `undefined` read as no price. */
  function PriceIn(row: PriceRow, supplierId: int): Option<real> {
    if supplierId in row then row[supplierId] else None
  }

  function PriceAt(matrix: PriceMatrix, productId: int, supplierId: int): Option<real> {
    PriceIn(RowOf(matrix, productId), supplierId)
  }

  /** Every known price in the matrix is positive. */
  ghost predicate PositivePrices(matrix: PriceMatrix) {
    forall p, s :: PriceAt(matrix, p, s).Some? ==> PriceAt(matrix, p, s).value > 0.0
  }

  // ---------------------------------------------------------------------------------
  // Active suppliers and the offers taken into account

  /** `suppliers.filter(s => s.status === 'active')`, in list order. */
  function ActiveSuppliers(suppliers: seq<Supplier>): (r: seq<Supplier>)
    ensures |r| <= |suppliers|
    ensures forall s :: s in r <==> s in suppliers && s.status == Active
  {
    if suppliers == [] then []
    else if suppliers[0].status == Active then [suppliers[0]] + ActiveSuppliers(suppliers[1..])
    else ActiveSuppliers(suppliers[1..])
  }

  /** Filtering commutes with concatenation: a supplier list can be looked at in pieces. */
  lemma {:induction false} ActiveSuppliersConcat(a: seq<Supplier>, b: seq<Supplier>)
    ensures ActiveSuppliers(a + b) == ActiveSuppliers(a) + ActiveSuppliers(b)
  {
    if a == [] {
      assert a + b == b;
    } else {
      assert (a + b)[0] == a[0];
      assert (a + b)[1..] == a[1..] + b;
      ActiveSuppliersConcat(a[1..], b);
    }
  }

  /** A supplier with a price observed for the product. */
  datatype Offer = Offer(supplier: Supplier, price: real)

  /** `active.map(s => ({supplier: s, price: productPrices[s.id]})).filter(non-null)` */
  function AvailableOffers(row: PriceRow, active: seq<Supplier>): (r: seq<Offer>)
    ensures |r| <= |active|
    ensures forall o :: o in r ==> o.supplier in active && PriceIn(row, o.supplier.id) == Some(o.price)
    ensures forall s :: s in active && PriceIn(row, s.id).Some? ==> Offer(s, PriceIn(row, s.id).value) in r
  {
    if active == [] then []
    else
      var rest := AvailableOffers(row, active[1..]);
      match PriceIn(row, active[0].id)
      case Some(p) => [Offer(active[0], p)] + rest
      case None => rest
  }

  /** The prices of the offers, `availablePrices.map(item => item.price)`. */
  function Prices(offers: seq<Offer>): seq<real> {
    seq(|offers|, i requires 0 <= i < |offers| => offers[i].price)
  }

  /** `Math.min(...xs)` of a non-empty list. */
  function MinOf(xs: seq<real>): (m: real)
    requires |xs| > 0
    ensures m in xs
    ensures forall x :: x in xs ==> m <= x
  {
    if |xs| == 1 then xs[0]
    else
      var rest := MinOf(xs[1..]);
      assert forall x :: x in xs ==> x == xs[0] || x in xs[1..];
      if xs[0] <= rest then xs[0] else rest
  }

  /** `Math.max(...xs)` of a non-empty list. */
  function MaxOf(xs: seq<real>): (m: real)
    requires |xs| > 0
    ensures m in xs
    ensures forall x :: x in xs ==> x <= m
  {
    if |xs| == 1 then xs[0]
    else
      var rest := MaxOf(xs[1..]);
      assert forall x :: x in xs ==> x == xs[0] || x in xs[1..];
      if xs[0] >= rest then xs[0] else rest
  }

  /** `Math.min(...availablePrices.map(item => item.price))`, or no bound when there is no
      offer. It is at most every offered price and is itself offered. */
  function LowestPrice(offers: seq<Offer>): (lo: Option<real>)
    ensures lo.None? <==> offers == []
    ensures lo.Some? ==> (forall o :: o in offers ==> lo.value <= o.price) && exists o :: o in offers && o.price == lo.value
  {
    if offers == [] then None
    else
      var ps := Prices(offers);
      var m := MinOf(ps);
      assert forall o :: o in offers ==> o.price in ps by {
        forall o | o in offers ensures o.price in ps {
          var k :| 0 <= k < |offers| && offers[k] == o;
          assert ps[k] == o.price;
        }
      }
      var k :| 0 <= k < |ps| && ps[k] == m;
      assert offers[k] in offers;
      Some(m)
  }

  /** `Math.max(...)` of the offered prices, or no bound when there is no offer. It is at
      least every offered price and is itself offered. */
  function HighestPrice(offers: seq<Offer>): (hi: Option<real>)
    ensures hi.None? <==> offers == []
    ensures hi.Some? ==> (forall o :: o in offers ==> o.price <= hi.value) && exists o :: o in offers && o.price == hi.value
  {
    if offers == [] then None
    else
      var ps := Prices(offers);
      var m := MaxOf(ps);
      assert forall o :: o in offers ==> o.price in ps by {
        forall o | o in offers ensures o.price in ps {
          var k :| 0 <= k < |offers| && offers[k] == o;
          assert ps[k] == o.price;
        }
      }
      var k :| 0 <= k < |ps| && ps[k] == m;
      assert offers[k] in offers;
      Some(m)
  }

  /** `offers.find(item => item.price === m)` */
  function FirstAtPrice(offers: seq<Offer>, m: real): (r: Option<Offer>)
    ensures r.Some? ==> r.value in offers && r.value.price == m
    ensures r.None? ==> forall o :: o in offers ==> o.price != m
  {
    if offers == [] then None
    else if offers[0].price == m then Some(offers[0])
    else FirstAtPrice(offers[1..], m)
  }

  // ---------------------------------------------------------------------------------
  // One row of the comparison table

  /** The price a cell is shown with. */
  datatype Tag = Lowest | Highest | Middle | Unavailable

  datatype Cell = Cell(supplier: Supplier, price: Option<real>, tag: Tag)

  datatype Row = Row(
    product: Product,
    offers: seq<Offer>,
    minPrice: Option<real>,
    maxPrice: Option<real>,
    best: Option<Offer>,
    savings: real,
    cells: seq<Cell>)

  /** `(maxPrice - minPrice) / maxPrice * 100`, the savings percentage of one product. */
  function SavingsPercent(lo: real, hi: real): (p: real)
    requires hi != 0.0
    ensures 0.0 < lo <= hi ==> 0.0 <= p < 100.0 && (p == 0.0 <==> lo == hi)
  {
    if 0.0 < lo <= hi then
      QuotientBelow(hi - lo, hi, 1.0);
      QuotientZero(hi - lo, hi);
      (hi - lo) / hi * 100.0
    else (hi - lo) / hi * 100.0
  }

  /** The savings figure `minPrice && maxPrice ? (maxPrice - minPrice) / maxPrice * 100 : 0`:
      a missing or zero bound (zero is falsy) gives 0. */
  function RowSavings(lo: Option<real>, hi: Option<real>): (s: real)
    ensures (lo.None? || hi.None? || lo.value == 0.0 || hi.value == 0.0) ==> s == 0.0
  {
    if lo.Some? && hi.Some? && lo.value != 0.0 && hi.value != 0.0
    then SavingsPercent(lo.value, hi.value)
    else 0.0
  }

  /** The badge of `PriceCell`: N/A for no price, then `isLowest` (price equals the minimum),
      then `isHighest` (price equals the maximum and the maximum differs from the minimum),
      otherwise the middle colour. */
  function CellTag(price: Option<real>, lo: Option<real>, hi: Option<real>): (t: Tag)
    ensures t == Unavailable <==> price.None?
  {
    if price.None? then Unavailable
    else if lo.Some? && price == lo then Lowest
    else if hi.Some? && price == hi && hi != lo then Highest
    else Middle
  }

  /** No active supplier has a price for the product. */
  ghost predicate NoActivePrice(productId: int, suppliers: seq<Supplier>, matrix: PriceMatrix) {
    forall s :: s in suppliers && s.status == Active ==> PriceAt(matrix, productId, s.id).None?
  }

  /** The row the table body computes for one product. Its columns are the active
      suppliers in list order, each with that supplier's entry. */
  function CompareRow(product: Product, suppliers: seq<Supplier>, matrix: PriceMatrix): (r: Row)
    ensures r.minPrice.None? <==> r.offers == []
    ensures r.maxPrice.None? <==> r.offers == []
    ensures r.best.None? <==> r.offers == []
    ensures |r.cells| == |ActiveSuppliers(suppliers)|
    ensures forall i :: 0 <= i < |r.cells| ==>
      && r.cells[i].supplier == ActiveSuppliers(suppliers)[i]
      && r.cells[i].price == PriceAt(matrix, product.id, r.cells[i].supplier.id)
  {
    var row := RowOf(matrix, product.id);
    var active := ActiveSuppliers(suppliers);
    var offers := AvailableOffers(row, active);
    var lo := LowestPrice(offers);
    var hi := HighestPrice(offers);
    var best := if lo.Some? then FirstAtPrice(offers, lo.value) else None;
    var cells := seq(|active|, i requires 0 <= i < |active| =>
      Cell(active[i], PriceIn(row, active[i].id), CellTag(PriceIn(row, active[i].id), lo, hi)));
    Row(product, offers, lo, hi, best, RowSavings(lo, hi), cells)
  }

  /** With at least one active price, the row's minimum is at most, and its maximum at
      least, every price an active supplier offers, and both are offered by some active
      supplier; with none, the row has no bounds and no best supplier (N/A). */
  lemma RowBounds(product: Product, suppliers: seq<Supplier>, matrix: PriceMatrix)
    ensures var r := CompareRow(product, suppliers, matrix);
      && (r.minPrice.None? <==> NoActivePrice(product.id, suppliers, matrix))
      && (r.best.None? <==> NoActivePrice(product.id, suppliers, matrix))
      && (r.minPrice.Some? ==>
           && (forall s :: s in suppliers && s.status == Active && PriceAt(matrix, product.id, s.id).Some? ==>
                 r.minPrice.value <= PriceAt(matrix, product.id, s.id).value <= r.maxPrice.value)
           && (exists s :: s in suppliers && s.status == Active && PriceAt(matrix, product.id, s.id) == r.minPrice)
           && (exists s :: s in suppliers && s.status == Active && PriceAt(matrix, product.id, s.id) == r.maxPrice))
      && (r.best.Some? ==>
           && r.best.value.supplier in suppliers
           && r.best.value.supplier.status == Active
           && Some(r.best.value.price) == r.minPrice
           && PriceAt(matrix, product.id, r.best.value.supplier.id) == r.minPrice)
  {
    var r := CompareRow(product, suppliers, matrix);
    var row := RowOf(matrix, product.id);
    var active := ActiveSuppliers(suppliers);
    var offers := AvailableOffers(row, active);
    assert r.offers == offers && r.minPrice == LowestPrice(offers) && r.maxPrice == HighestPrice(offers);
    if offers == [] {
      forall s | s in suppliers && s.status == Active ensures PriceAt(matrix, product.id, s.id).None? {
        assert s in active;
      }
    } else {
      assert offers[0] in offers;
      forall s | s in suppliers && s.status == Active && PriceAt(matrix, product.id, s.id).Some?
        ensures Offer(s, PriceAt(matrix, product.id, s.id).value) in offers
      {
        assert s in active;
      }
    }
  }

  /** No active supplier before position `i` offers the price `m`. */
  ghost predicate NoneActiveAtBefore(row: PriceRow, suppliers: seq<Supplier>, m: real, i: int) {
    forall j :: 0 <= j < i && j < |suppliers| && suppliers[j].status == Active ==> PriceIn(row, suppliers[j].id) != Some(m)
  }

  /** The best supplier is the first active supplier, in list order, whose price equals the
      minimum: ties go to the earlier supplier. */
  lemma BestIsFirstAtMin(product: Product, suppliers: seq<Supplier>, matrix: PriceMatrix)
    ensures var r := CompareRow(product, suppliers, matrix);
      r.best.Some? ==>
        exists i :: 0 <= i < |suppliers| && suppliers[i] == r.best.value.supplier &&
          NoneActiveAtBefore(RowOf(matrix, product.id), suppliers, r.minPrice.value, i)
  {
    var r := CompareRow(product, suppliers, matrix);
    if r.best.Some? {
      FirstAtPriceScan(RowOf(matrix, product.id), suppliers, r.minPrice.value);
    }
  }

  /** Skipping a first supplier that does not offer `m` moves the scan one place on. */
  lemma NoneActiveAtBeforeShift(row: PriceRow, suppliers: seq<Supplier>, m: real, i: int)
    requires suppliers != []
    requires suppliers[0].status == Active ==> PriceIn(row, suppliers[0].id) != Some(m)
    requires NoneActiveAtBefore(row, suppliers[1..], m, i)
    ensures NoneActiveAtBefore(row, suppliers, m, i + 1)
  {
    forall j | 0 < j < i + 1 && j < |suppliers| ensures suppliers[j] == suppliers[1..][j - 1] { }
  }

  lemma {:induction false} FirstAtPriceScan(row: PriceRow, suppliers: seq<Supplier>, m: real)
    ensures var f := FirstAtPrice(AvailableOffers(row, ActiveSuppliers(suppliers)), m);
      f.Some? ==>
        exists i :: 0 <= i < |suppliers| && suppliers[i] == f.value.supplier && NoneActiveAtBefore(row, suppliers, m, i)
    decreases |suppliers|
  {
    if suppliers != [] {
      var s0, rest := suppliers[0], suppliers[1..];
      var tail := AvailableOffers(row, ActiveSuppliers(rest));
      var f := FirstAtPrice(AvailableOffers(row, ActiveSuppliers(suppliers)), m);
      if s0.status == Active {
        assert ActiveSuppliers(suppliers) == [s0] + ActiveSuppliers(rest);
        assert ([s0] + ActiveSuppliers(rest))[1..] == ActiveSuppliers(rest);
      }
      if s0.status == Active && PriceIn(row, s0.id) == Some(m) {
        var head := Offer(s0, m);
        assert AvailableOffers(row, ActiveSuppliers(suppliers)) == [head] + tail;
        assert f == Some(head);
        assert NoneActiveAtBefore(row, suppliers, m, 0);
      } else {
        if s0.status == Active && PriceIn(row, s0.id).Some? {
          var head := Offer(s0, PriceIn(row, s0.id).value);
          assert AvailableOffers(row, ActiveSuppliers(suppliers)) == [head] + tail;
          assert ([head] + tail)[1..] == tail;
        } else {
          assert AvailableOffers(row, ActiveSuppliers(suppliers)) == tail;
        }
        assert f == FirstAtPrice(tail, m);
        FirstAtPriceScan(row, rest, m);
        if f.Some? {
          var i :| 0 <= i < |rest| && rest[i] == f.value.supplier && NoneActiveAtBefore(row, rest, m, i);
          NoneActiveAtBeforeShift(row, suppliers, m, i);
          assert suppliers[i + 1] == f.value.supplier;
        }
      }
    }
  }

  /** The cell badge of a price lying within the row's bounds. */
  lemma CellTagMeaning(price: Option<real>, lo: Option<real>, hi: Option<real>)
    requires price.Some? ==> lo.Some? && hi.Some? && lo.value <= price.value <= hi.value
    ensures var t := CellTag(price, lo, hi);
      && (t == Lowest <==> price.Some? && price == lo)
      && (t == Highest ==> price == hi && lo.value < hi.value)
      && (t == Middle ==> lo.value < price.value < hi.value)
      && (lo == hi ==> t != Highest)
  {
  }

  /** The tags order the cells: "lowest" marks exactly the cells at the minimum, "highest"
      only cells at a maximum above the minimum, "middle" only prices strictly between, and
      "N/A" exactly the cells with no price. When all prices agree no cell is "highest". */
  lemma CellTagsOrdered(product: Product, suppliers: seq<Supplier>, matrix: PriceMatrix, i: nat)
    requires i < |CompareRow(product, suppliers, matrix).cells|
    ensures var r := CompareRow(product, suppliers, matrix);
      var c := r.cells[i];
      && (c.tag == Unavailable <==> c.price.None?)
      && (c.tag == Lowest <==> c.price.Some? && c.price == r.minPrice)
      && (c.tag == Highest ==> c.price == r.maxPrice && r.minPrice.value < r.maxPrice.value)
      && (c.tag == Middle ==> r.minPrice.value < c.price.value < r.maxPrice.value)
      && (r.minPrice == r.maxPrice ==> c.tag != Highest)
  {
    var r := CompareRow(product, suppliers, matrix);
    var row := RowOf(matrix, product.id);
    var active := ActiveSuppliers(suppliers);
    var s := active[i];
    assert r.cells[i] == Cell(s, PriceIn(row, s.id), CellTag(PriceIn(row, s.id), r.minPrice, r.maxPrice));
    RowBounds(product, suppliers, matrix);
    assert s in active;
    CellTagMeaning(PriceIn(row, s.id), r.minPrice, r.maxPrice);
  }

  // ---------------------------------------------------------------------------------
  // Savings

  /** A non-negative quotient below a bound. */
  lemma QuotientBelow(a: real, n: real, c: real)
    requires 0.0 <= a < c * n && n > 0.0
    ensures 0.0 <= a / n < c
  {
  }

  lemma QuotientZero(a: real, n: real)
    requires n != 0.0
    ensures a / n == 0.0 <==> a == 0.0
  {
  }

  /** With positive prices the savings percentage lies in [0, 100), and it is 0 exactly when
      the lowest and the highest price coincide. */
  lemma SavingsBounds(lo: real, hi: real)
    requires 0.0 < lo <= hi
    ensures 0.0 <= RowSavings(Some(lo), Some(hi)) < 100.0
    ensures RowSavings(Some(lo), Some(hi)) == 0.0 <==> lo == hi
  {
    QuotientBelow(hi - lo, hi, 1.0);
    QuotientZero(hi - lo, hi);
    assert RowSavings(Some(lo), Some(hi)) == SavingsPercent(lo, hi) == (hi - lo) / hi * 100.0;
  }

  /** A product seen by at most one active supplier shows no savings. With positive prices
      the row's savings lie in [0, 100) and are 0 exactly when every active price is the
      same. */
  lemma RowSavingsRange(product: Product, suppliers: seq<Supplier>, matrix: PriceMatrix)
    ensures var r := CompareRow(product, suppliers, matrix);
      |r.offers| <= 1 ==> r.savings == 0.0
    ensures var r := CompareRow(product, suppliers, matrix);
      PositivePrices(matrix) ==> 0.0 <= r.savings < 100.0 && (r.savings == 0.0 <==> r.minPrice == r.maxPrice)
  {
    var r := CompareRow(product, suppliers, matrix);
    assert r.savings == RowSavings(r.minPrice, r.maxPrice);
    if |r.offers| == 1 {
      assert r.offers[0] in r.offers;
      assert r.minPrice == r.maxPrice == Some(r.offers[0].price);
      NoSpreadNoSavings(r.offers[0].price);
    }
    if PositivePrices(matrix) && r.offers != [] {
      RowBounds(product, suppliers, matrix);
      var lo, hi := r.minPrice.value, r.maxPrice.value;
      var s :| s in suppliers && s.status == Active && PriceAt(matrix, product.id, s.id) == r.minPrice;
      assert 0.0 < lo <= hi;
      SavingsBounds(lo, hi);
    }
  }

  /** Equal bounds give no savings. */
  lemma NoSpreadNoSavings(x: real)
    ensures RowSavings(Some(x), Some(x)) == 0.0
  {
    if x != 0.0 {
      assert SavingsPercent(x, x) == 0.0 / x * 100.0;
    }
  }

  /** `(+savings).toFixed(1)`: the number of tenths JavaScript shows, rounding half up. */
  function Tenths(x: real): (n: int)
    ensures x * 10.0 - 0.5 < n as real <= x * 10.0 + 0.5
  {
    (x * 10.0 + 0.5).Floor
  }

  // ---------------------------------------------------------------------------------
  // Only active suppliers matter

  /** Adding a supplier that is not active, anywhere in the list, changes no row. */
  lemma NonActiveSupplierIgnored(product: Product, a: seq<Supplier>, s: Supplier, b: seq<Supplier>, matrix: PriceMatrix)
    requires s.status != Active
    ensures CompareRow(product, a + [s] + b, matrix) == CompareRow(product, a + b, matrix)
  {
    var A, B := ActiveSuppliers(a), ActiveSuppliers(b);
    assert ActiveSuppliers([s]) == [] by {
      assert [s][1..] == [];
    }
    ActiveSuppliersConcat(a, [s]);
    assert ActiveSuppliers(a + [s]) == A by {
      assert A + [] == A;
    }
    ActiveSuppliersConcat(a + [s], b);
    ActiveSuppliersConcat(a, b);
    assert ActiveSuppliers(a + [s] + b) == ActiveSuppliers(a + b);
  }

  /** Prices recorded for suppliers that are not active never affect a row. */
  lemma NonActivePricesIgnored(product: Product, suppliers: seq<Supplier>, m1: PriceMatrix, m2: PriceMatrix)
    requires forall s :: s in suppliers && s.status == Active ==> PriceAt(m1, product.id, s.id) == PriceAt(m2, product.id, s.id)
    ensures CompareRow(product, suppliers, m1) == CompareRow(product, suppliers, m2)
  {
    var active := ActiveSuppliers(suppliers);
    OffersDependOnlyOnActive(RowOf(m1, product.id), RowOf(m2, product.id), active);
  }

  lemma {:induction false} OffersDependOnlyOnActive(r1: PriceRow, r2: PriceRow, active: seq<Supplier>)
    requires forall s :: s in active ==> PriceIn(r1, s.id) == PriceIn(r2, s.id)
    ensures AvailableOffers(r1, active) == AvailableOffers(r2, active)
    decreases |active|
  {
    if active != [] {
      assert active[0] in active;
      OffersDependOnlyOnActive(r1, r2, active[1..]);
    }
  }

  // ---------------------------------------------------------------------------------
  // Statistics cards

  datatype Stats = Stats(trackedProducts: nat, activeSupplierCount: nat, averageSavings: real)

  /** The known prices of a product among the active suppliers, in order. */
  function ActivePrices(product: Product, active: seq<Supplier>, matrix: PriceMatrix): seq<real> {
    Prices(AvailableOffers(RowOf(matrix, product.id), active))
  }

  lemma ActivePricesPositive(product: Product, active: seq<Supplier>, matrix: PriceMatrix)
    requires PositivePrices(matrix)
    ensures forall x :: x in ActivePrices(product, active, matrix) ==> x > 0.0
  {
    var offers := AvailableOffers(RowOf(matrix, product.id), active);
    forall x | x in ActivePrices(product, active, matrix) ensures x > 0.0 {
      var o :| o in offers && o.price == x;
      assert PriceAt(matrix, product.id, o.supplier.id) == Some(x);
    }
  }

  /** The savings a product adds to the statistics: only products with more than one
      active price count, and then with no guard against a zero maximum. */
  function Contribution(product: Product, active: seq<Supplier>, matrix: PriceMatrix): real
    requires PositivePrices(matrix)
  {
    var ps := ActivePrices(product, active, matrix);
    if |ps| > 1 then
      ActivePricesPositive(product, active, matrix);
      SavingsPercent(MinOf(ps), MaxOf(ps))
    else 0.0
  }

  function SavingsSum(products: seq<Product>, active: seq<Supplier>, matrix: PriceMatrix): real
    requires PositivePrices(matrix)
  {
    if products == [] then 0.0
    else SavingsSum(products[..|products| - 1], active, matrix) + Contribution(products[|products| - 1], active, matrix)
  }

  function QualifyingCount(products: seq<Product>, active: seq<Supplier>, matrix: PriceMatrix): nat {
    if products == [] then 0
    else
      QualifyingCount(products[..|products| - 1], active, matrix) +
      (if |ActivePrices(products[|products| - 1], active, matrix)| > 1 then 1 else 0)
  }

  /** What `calculateStats` returns, as a function of the snapshot. */
  function StatsOf(products: seq<Product>, suppliers: seq<Supplier>, matrix: PriceMatrix): Stats
    requires PositivePrices(matrix)
  {
    var active := ActiveSuppliers(suppliers);
    var n := QualifyingCount(products, active, matrix);
    Stats(|products|, |active|, if n > 0 then SavingsSum(products, active, matrix) / n as real else 0.0)
  }

  /** `calculateStats`: counts and the running total of savings over the products with more
      than one active price. */
  method CalculateStats(products: seq<Product>, suppliers: seq<Supplier>, matrix: PriceMatrix) returns (stats: Stats)
    requires PositivePrices(matrix)
    ensures stats == StatsOf(products, suppliers, matrix)
  {
    var active := ActiveSuppliers(suppliers);
    var totalSavings := 0.0;
    var productCount := 0;
    var i := 0;
    while i < |products|
      invariant 0 <= i <= |products|
      invariant totalSavings == SavingsSum(products[..i], active, matrix)
      invariant productCount == QualifyingCount(products[..i], active, matrix)
    {
      var product := products[i];
      var availablePrices := ActivePrices(product, active, matrix);
      ghost var before := totalSavings;
      if |availablePrices| > 1 {
        ActivePricesPositive(product, active, matrix);
        var minPrice := MinOf(availablePrices);
        var maxPrice := MaxOf(availablePrices);
        assert maxPrice in availablePrices;
        totalSavings := totalSavings + SavingsPercent(minPrice, maxPrice);
        productCount := productCount + 1;
        assert totalSavings == before + Contribution(product, active, matrix);
      } else {
        assert Contribution(product, active, matrix) == 0.0;
      }
      StatsStep(products, i, active, matrix);
      i := i + 1;
    }
    assert products[..|products|] == products;
    stats := Stats(|products|, |active|, if productCount > 0 then totalSavings / productCount as real else 0.0);
  }

  /** The running totals after one more product. */
  lemma StatsStep(products: seq<Product>, i: nat, active: seq<Supplier>, matrix: PriceMatrix)
    requires PositivePrices(matrix)
    requires i < |products|
    ensures SavingsSum(products[..i + 1], active, matrix) == SavingsSum(products[..i], active, matrix) + Contribution(products[i], active, matrix)
    ensures QualifyingCount(products[..i + 1], active, matrix) ==
      QualifyingCount(products[..i], active, matrix) + (if |ActivePrices(products[i], active, matrix)| > 1 then 1 else 0)
  {
    assert products[..i + 1][..i] == products[..i] && products[..i + 1][i] == products[i];
  }

  /** A qualifying product adds exactly the savings its row displays. */
  lemma ContributionIsRowSavings(product: Product, suppliers: seq<Supplier>, matrix: PriceMatrix)
    requires PositivePrices(matrix)
    requires |ActivePrices(product, ActiveSuppliers(suppliers), matrix)| > 1
    ensures Contribution(product, ActiveSuppliers(suppliers), matrix) == CompareRow(product, suppliers, matrix).savings
  {
    var ps := ActivePrices(product, ActiveSuppliers(suppliers), matrix);
    ActivePricesPositive(product, ActiveSuppliers(suppliers), matrix);
    assert MinOf(ps) > 0.0 && MaxOf(ps) > 0.0;
  }

  lemma ContributionBounds(last: Product, active: seq<Supplier>, matrix: PriceMatrix)
    requires PositivePrices(matrix)
    ensures 0.0 <= Contribution(last, active, matrix) < 100.0
    ensures |ActivePrices(last, active, matrix)| <= 1 ==> Contribution(last, active, matrix) == 0.0
  {
      var ps := ActivePrices(last, active, matrix);
      if |ps| > 1 {
        ActivePricesPositive(last, active, matrix);
        var lo, hi := MinOf(ps), MaxOf(ps);
        assert lo in ps && hi in ps;
        assert 0.0 < lo <= hi;
        SavingsBounds(lo, hi);
        assert Contribution(last, active, matrix) == SavingsPercent(lo, hi);
      }
  }

  lemma {:induction false} SavingsSumBounds(products: seq<Product>, active: seq<Supplier>, matrix: PriceMatrix)
    requires PositivePrices(matrix)
    ensures 0.0 <= SavingsSum(products, active, matrix)
    ensures SavingsSum(products, active, matrix) <= 100.0 * QualifyingCount(products, active, matrix) as real
    ensures QualifyingCount(products, active, matrix) > 0 ==>
      SavingsSum(products, active, matrix) < 100.0 * QualifyingCount(products, active, matrix) as real
    decreases |products|
  {
    if products != [] {
      var init, last := products[..|products| - 1], products[|products| - 1];
      SavingsSumBounds(init, active, matrix);
      ContributionBounds(last, active, matrix);
      var s0, c := SavingsSum(init, active, matrix), Contribution(last, active, matrix);
      var n0 := QualifyingCount(init, active, matrix);
      assert SavingsSum(products, active, matrix) == s0 + c;
      if |ActivePrices(last, active, matrix)| > 1 {
        assert QualifyingCount(products, active, matrix) == n0 + 1;
      } else {
        assert QualifyingCount(products, active, matrix) == n0;
      }
    }
  }

  /** The average savings card lies in [0, 100), and is 0 when no product has more than
      one active price. */
  lemma AverageSavingsInRange(products: seq<Product>, suppliers: seq<Supplier>, matrix: PriceMatrix)
    requires PositivePrices(matrix)
    ensures var st := StatsOf(products, suppliers, matrix);
      && 0.0 <= st.averageSavings < 100.0
      && (QualifyingCount(products, ActiveSuppliers(suppliers), matrix) == 0 ==> st.averageSavings == 0.0)
  {
    var active := ActiveSuppliers(suppliers);
    var n := QualifyingCount(products, active, matrix);
    SavingsSumBounds(products, active, matrix);
    if n > 0 {
      var total := SavingsSum(products, active, matrix);
      QuotientBelow(total, n as real, 100.0);
    }
  }

  /** A product with at most one active price is left out of the average altogether: it
      is not counted as a zero. */
  lemma ExcludedProductIgnored(products: seq<Product>, p: Product, suppliers: seq<Supplier>, matrix: PriceMatrix)
    requires PositivePrices(matrix)
    requires |ActivePrices(p, ActiveSuppliers(suppliers), matrix)| <= 1
    ensures StatsOf(products + [p], suppliers, matrix).averageSavings == StatsOf(products, suppliers, matrix).averageSavings
    ensures StatsOf(products + [p], suppliers, matrix).trackedProducts == |products| + 1
  {
    var active := ActiveSuppliers(suppliers);
    assert (products + [p])[..|products + [p]| - 1] == products;
    assert SavingsSum(products + [p], active, matrix) == SavingsSum(products, active, matrix);
    assert QualifyingCount(products + [p], active, matrix) == QualifyingCount(products, active, matrix);
  }

  // ---------------------------------------------------------------------------------
  // Simulated scrape and column removal

  /** The floor below which a scraped price never goes. */
  const PriceFloor: real := 0.99

  /** Every known price in the matrix is at least the floor. */
  ghost predicate AtLeastFloor(matrix: PriceMatrix) {
    forall p, s :: PriceAt(matrix, p, s).Some? ==> PriceAt(matrix, p, s).value >= PriceFloor
  }

  lemma FloorImpliesPositive(matrix: PriceMatrix)
    requires AtLeastFloor(matrix)
    ensures PositivePrices(matrix)
  {
  }

  /** One scraped entry: `null` stays `null`; a price becomes `Math.max(0.99, price + v)`. */
  function Varied(entry: Option<real>, v: real): (r: Option<real>)
    ensures r.None? <==> entry.None?
    ensures r.Some? ==> r.value >= PriceFloor
    ensures r.Some? ==> r.value == entry.value + v || (r.value == PriceFloor && entry.value + v <= PriceFloor)
    ensures r.Some? && -2.0 <= v < 2.0 ==>
      entry.value - 2.0 <= r.value && (r.value < entry.value + 2.0 || r.value == PriceFloor)
  {
    match entry
    case None => None
    case Some(p) => Some(if PriceFloor > p + v then PriceFloor else p + v)
  }

  /** Some key of a non-empty key set; the order in which `forEach` visits keys does not
      matter to the loops below, whose effects on distinct keys commute. */
  method PickKey<K>(keys: set<K>) returns (k: K)
    requires keys != {}
    ensures k in keys
  {
    if forall x :: x !in keys {
      assert false;
    }
    k :| k in keys;
  }

  /** The inner `forEach` of the scrape: every entry of one row is varied in turn. */
  method ScrapeRow(row: PriceRow, productId: int, variation: (int, int) -> real) returns (updated: PriceRow)
    ensures updated.Keys == row.Keys
    ensures forall s :: s in row ==> updated[s] == Varied(row[s], variation(productId, s))
  {
    updated := row;
    var pending := row.Keys;
    while pending != {}
      invariant pending <= row.Keys
      invariant updated.Keys == row.Keys
      invariant forall s :: s in row && s !in pending ==> updated[s] == Varied(row[s], variation(productId, s))
      invariant forall s :: s in pending ==> updated[s] == row[s]
      decreases pending
    {
      var s := PickKey(pending);
      if updated[s] != None {
        var basePrice := updated[s].value;
        updated := updated[s := Some(if PriceFloor > basePrice + variation(productId, s) then PriceFloor else basePrice + variation(productId, s))];
      }
      pending := pending - {s};
    }
  }

  /** `handleScrape`: every entry of every row is varied, including those of suppliers that
      are not active; no key is added or removed. `variation(p, s)` stands for the random
      `(Math.random() - 0.5) * 4` drawn for that entry. */
  method ScrapeMatrix(matrix: PriceMatrix, variation: (int, int) -> real) returns (updated: PriceMatrix)
    ensures updated.Keys == matrix.Keys
    ensures forall p :: p in matrix ==> updated[p].Keys == matrix[p].Keys
    ensures forall p, s :: p in matrix && s in matrix[p] ==> updated[p][s] == Varied(matrix[p][s], variation(p, s))
  {
    updated := matrix;
    var pending := matrix.Keys;
    while pending != {}
      invariant pending <= matrix.Keys
      invariant updated.Keys == matrix.Keys
      invariant forall p :: p in matrix && p !in pending ==> updated[p].Keys == matrix[p].Keys
      invariant forall p, s :: p in matrix && p !in pending && s in matrix[p] ==> updated[p][s] == Varied(matrix[p][s], variation(p, s))
      invariant forall p :: p in pending ==> updated[p] == matrix[p]
      decreases pending
    {
      var p := PickKey(pending);
      var row := ScrapeRow(updated[p], p, variation);
      updated := updated[p := row];
      pending := pending - {p};
    }
  }

  /** After a scrape every known price is at least the floor, and exactly the entries that
      were `null` (or absent) are still without a price. */
  lemma ScrapeKeepsFloorAndNulls(matrix: PriceMatrix, variation: (int, int) -> real, updated: PriceMatrix)
    requires updated.Keys == matrix.Keys
    requires forall p :: p in matrix ==> updated[p].Keys == matrix[p].Keys
    requires forall p, s :: p in matrix && s in matrix[p] ==> updated[p][s] == Varied(matrix[p][s], variation(p, s))
    ensures AtLeastFloor(updated)
    ensures forall p, s :: PriceAt(updated, p, s).None? <==> PriceAt(matrix, p, s).None?
  {
    forall p, s ensures PriceAt(updated, p, s).None? <==> PriceAt(matrix, p, s).None? {
      if p in matrix && s in matrix[p] {
        assert PriceAt(updated, p, s) == Varied(matrix[p][s], variation(p, s));
      }
    }
    forall p, s | PriceAt(updated, p, s).Some? ensures PriceAt(updated, p, s).value >= PriceFloor {
      assert PriceAt(updated, p, s) == Varied(matrix[p][s], variation(p, s));
    }
  }

  /** `removeSupplier`'s loop: the supplier's key is deleted from every row. */
  method DropSupplierColumn(matrix: PriceMatrix, supplierId: int) returns (updated: PriceMatrix)
    ensures updated.Keys == matrix.Keys
    ensures forall p :: p in matrix ==> updated[p] == matrix[p] - {supplierId}
  {
    updated := matrix;
    var pending := matrix.Keys;
    while pending != {}
      invariant pending <= matrix.Keys
      invariant updated.Keys == matrix.Keys
      invariant forall p :: p in matrix && p !in pending ==> updated[p] == matrix[p] - {supplierId}
      invariant forall p :: p in pending ==> updated[p] == matrix[p]
      decreases pending
    {
      var p := PickKey(pending);
      updated := updated[p := updated[p] - {supplierId}];
      pending := pending - {p};
    }
  }
}
