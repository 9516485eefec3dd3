/**
 * The comparison table of the stand-alone page. Its rows are computed with the same
 * expressions as the dashboard's (see `PriceComparison.CompareRow`); what differs is the
 * way a cell picks its colour, which compares the raw entry (a number, `null` or
 * `undefined`) against the row's extremes, and the statistics cards.
 */
module PriceTable {
  import opened Wrappers
  import opened PriceComparison

  /** What `productPrices[supplier.id]` evaluates to. */
  datatype Entry = Undefined | Null | Price(value: real)

  function EntryIn(row: PriceRow, supplierId: int): (e: Entry)
    ensures e == Undefined <==> supplierId !in row
    ensures e == Null <==> supplierId in row && row[supplierId].None?
    ensures e.Price? ==> PriceIn(row, supplierId) == Some(e.value)
  {
    if supplierId !in row then Undefined
    else match row[supplierId]
      case None => Null
      case Some(v) => Price(v)
  }

  /** `entry === x` where `x` is a number or `null`: `undefined` equals neither. */
  predicate StrictEquals(entry: Entry, x: Option<real>) {
    match entry
    case Undefined => false
    case Null => x.None?
    case Price(v) => x == Some(v)
  }

  datatype PriceClass = Plain | LowestClass | HighestClass | MiddleClass

  /** Only a number is printed; `null` and `undefined` print "N/A". */
  predicate Shown(entry: Entry) {
    entry.Price?
  }

  /** The class a dashboard tag corresponds to. */
  function ClassOfTag(t: Tag): PriceClass {
    match t
    case Lowest => LowestClass
    case Highest => HighestClass
    case Middle => MiddleClass
    case Unavailable => Plain
  }

  /** The colour of a cell, chosen by reassigning `priceClass` along a chain of `if`s. For
      a printed price it is the dashboard's tag; a `null` entry stays plain; an
      `undefined` entry takes the middle colour, which is never seen because the cell
      prints "N/A". */
  method ChoosePriceClass(entry: Entry, minPrice: Option<real>, maxPrice: Option<real>) returns (priceClass: PriceClass)
    ensures Shown(entry) ==> priceClass == ClassOfTag(CellTag(Some(entry.value), minPrice, maxPrice))
    ensures entry == Null ==> priceClass == Plain
    ensures entry == Undefined ==> priceClass == MiddleClass
  {
    priceClass := Plain;
    if StrictEquals(entry, minPrice) && minPrice.Some? {
      priceClass := LowestClass;
    } else if StrictEquals(entry, maxPrice) && maxPrice.Some? && maxPrice != minPrice {
      priceClass := HighestClass;
    } else if entry != Null {
      priceClass := MiddleClass;
    }
  }

  /** Across a whole row: a cell prints a price exactly when the dashboard's cell has one,
      and then the dashboard's tag is the one `ChoosePriceClass` colours it by. */
  lemma PageRowAgreesWithDashboard(product: Product, suppliers: seq<Supplier>, matrix: PriceMatrix, i: int)
    requires 0 <= i < |ActiveSuppliers(suppliers)|
    ensures var r := CompareRow(product, suppliers, matrix);
      var s := ActiveSuppliers(suppliers)[i];
      var e := EntryIn(RowOf(matrix, product.id), s.id);
      && (Shown(e) <==> r.cells[i].price.Some?)
      && (Shown(e) ==> r.cells[i].tag == CellTag(Some(e.value), r.minPrice, r.maxPrice))
  {
    var r := CompareRow(product, suppliers, matrix);
    var s := ActiveSuppliers(suppliers)[i];
    assert r.cells[i] == Cell(s, PriceIn(RowOf(matrix, product.id), s.id), CellTag(PriceIn(RowOf(matrix, product.id), s.id), r.minPrice, r.maxPrice));
  }

  // ---------------------------------------------------------------------------------
  // The savings badge

  /** `parseFloat(savings.toFixed(1)) > 0` (and `+savings > 0` on the dashboard): the badge
      is highlighted when the figure rounded to one decimal is positive. */
  predicate SavingsHighlighted(savings: real) {
    Tenths(savings) > 0
  }

  /** A non-negative figure is highlighted exactly when it is at least 0.05 %. */
  lemma SavingsHighlightedIff(savings: real)
    requires savings >= 0.0
    ensures SavingsHighlighted(savings) <==> savings >= 0.05
  {
    if savings >= 0.05 {
      assert savings * 10.0 + 0.5 >= 1.0;
    } else {
      assert savings * 10.0 + 0.5 < 1.0;
    }
  }

  /** A row with at most one known price, or with all its known prices equal, is never
      highlighted. */
  lemma NoSpreadNotHighlighted(product: Product, suppliers: seq<Supplier>, matrix: PriceMatrix)
    requires PositivePrices(matrix)
    ensures var r := CompareRow(product, suppliers, matrix);
      r.minPrice == r.maxPrice ==> !SavingsHighlighted(r.savings)
  {
    RowSavingsRange(product, suppliers, matrix);
  }

  // ---------------------------------------------------------------------------------
  // The statistics cards

  /** The three figures of the page's cards: the average-savings card is the fixed text
      "23%". */
  datatype StatsCards = StatsCards(trackedProducts: nat, activeSupplierCount: nat, averageSavingsLabel: string)

  function PageStats(products: seq<Product>, suppliers: seq<Supplier>): (c: StatsCards)
    ensures c.averageSavingsLabel == "23%"
  {
    StatsCards(|products|, |ActiveSuppliers(suppliers)|, "23%")
  }

  /** The two counts agree with the dashboard's statistics, whatever the prices. */
  lemma PageStatsAgree(products: seq<Product>, suppliers: seq<Supplier>, matrix: PriceMatrix)
    requires PositivePrices(matrix)
    ensures var c := PageStats(products, suppliers);
      var s := StatsOf(products, suppliers, matrix);
      && c.trackedProducts == s.trackedProducts
      && c.activeSupplierCount == s.activeSupplierCount
  {
  }
}
