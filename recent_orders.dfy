/**
 * The recent-orders card: a fixed list of five products filtered by a
 * category text, a price text and a status chosen from a dropdown, with a
 * button that clears all three.
 */
module RecentOrders {
  import opened Wrappers
  import opened Strings
  import opened Lists

  datatype OrderStatus = Delivered | Pending | Canceled

  function StatusText(s: OrderStatus): string {
    match s
    case Delivered => "Delivered"
    case Pending => "Pending"
    case Canceled => "Canceled"
  }

  datatype ProductRow = ProductRow(
    id: int,
    name: string,
    variants: string,
    category: string,
    price: string,
    status: OrderStatus,
    image: string)

  const TableData: seq<ProductRow> := [
    ProductRow(1, "MacBook Pro 13\U{00E2}\U{20AC}", "2 Variants", "Laptop", "$2399.00", Delivered, "/images/product/product-01.jpg"),
    ProductRow(2, "Apple Watch Ultra", "1 Variant", "Watch", "$879.00", Pending, "/images/product/product-02.jpg"),
    ProductRow(3, "iPhone 15 Pro Max", "2 Variants", "SmartPhone", "$1869.00", Delivered, "/images/product/product-03.jpg"),
    ProductRow(4, "iPad Pro 3rd Gen", "2 Variants", "Electronics", "$1699.00", Canceled, "/images/product/product-04.jpg"),
    ProductRow(5, "AirPods Pro 2nd Gen", "1 Variant", "Accessories", "$240.00", Delivered, "/images/product/product-05.jpg")
  ]

  /** The three filter values; the empty string switches a filter off. */
  datatype Filters = Filters(category: string, price: string, status: string)

  const NoFilters := Filters("", "", "")

  datatype FilterKey = CategoryKey | PriceKey | StatusKey

  function Get(f: Filters, key: FilterKey): string {
    match key
    case CategoryKey => f.category
    case PriceKey => f.price
    case StatusKey => f.status
  }

  /** The new filters `updateFilter` sets: `{ ...prev, [key]: value }`. */
  function WithFilter(f: Filters, key: FilterKey, value: string): (r: Filters)
    ensures Get(r, key) == value
    ensures forall k :: k != key ==> Get(r, k) == Get(f, k)
  {
    match key
    case CategoryKey => f.(category := value)
    case PriceKey => f.(price := value)
    case StatusKey => f.(status := value)
  }

  /** Setting the three keys to empty, one after another, is the reset. */
  lemma UpdatesToEmptyReset(f: Filters)
    ensures WithFilter(WithFilter(WithFilter(f, CategoryKey, ""), PriceKey, ""), StatusKey, "") == NoFilters
  {
  }

  /** Category and price: a case-insensitive substring test; status: exact equality with the status text. */
  function Matches(p: ProductRow, f: Filters): (r: bool)
    ensures f.status != "" && r ==> StatusText(p.status) == f.status
    ensures f.category == "" && f.price == "" ==> (r <==> f.status == "" || StatusText(p.status) == f.status)
  {
    && (f.category == "" || IncludesIgnoringCase(p.category, f.category))
    && (f.status == "" || StatusText(p.status) == f.status)
    && (f.price == "" || IncludesIgnoringCase(p.price, f.price))
  }

  /** `filteredData`: the rows passing all three filters, in table order. */
  function FilteredData(rows: seq<ProductRow>, f: Filters): (r: seq<ProductRow>)
    ensures forall p :: p in r <==> p in rows && Matches(p, f)
    ensures IsSubsequence(r, rows)
  {
    FilterIsSubsequence(rows, p => Matches(p, f));
    Filter(rows, p => Matches(p, f))
  }

  /** After a reset every row is shown. */
  lemma ResetShowsAll(rows: seq<ProductRow>)
    ensures FilteredData(rows, NoFilters) == rows
  {
    FilterKeepsAll(rows, p => Matches(p, NoFilters));
  }

  /**
   * A non-empty status other than the three the dropdown offers matches no
   * row; each offered status keeps exactly the rows with that status.
   */
  lemma StatusFilterExact(rows: seq<ProductRow>, f: Filters, p: ProductRow)
    requires f.status != ""
    ensures p in FilteredData(rows, f) ==> StatusText(p.status) == f.status
    ensures f.status !in {"Delivered", "Pending", "Canceled"} ==> FilteredData(rows, f) == []
  {
    var r := FilteredData(rows, f);
    if r != [] {
      assert r[0] in r;
      assert StatusText(r[0].status) in {"Delivered", "Pending", "Canceled"};
    }
  }

  /** The status badge: delivered is green, pending amber, cancelled red. */
  function StatusColor(s: OrderStatus): (r: BadgeColor)
    ensures r == Success <==> s == Delivered
    ensures r == Warning <==> s == Pending
    ensures r == Error <==> s == Canceled
  {
    if StatusText(s) == "Delivered" then Success else if StatusText(s) == "Pending" then Warning else Error
  }

  /** The card's state. */
  class RecentOrdersCard {
    var filters: Filters

    constructor ()
      ensures filters == NoFilters
    {
      filters := NoFilters;
    }

    function Shown(): seq<ProductRow>
      reads this
    {
      FilteredData(TableData, filters)
    }

    method UpdateFilter(key: FilterKey, value: string)
      modifies this
      ensures filters == WithFilter(old(filters), key, value)
    {
      filters := WithFilter(filters, key, value);
    }

    /** "Reset Filters": all three cleared, so the whole table is shown. */
    method ResetFilters()
      modifies this
      ensures filters == NoFilters
      ensures Shown() == TableData
    {
      filters := NoFilters;
      ResetShowsAll(TableData);
    }
  }
}
