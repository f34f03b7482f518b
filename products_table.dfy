/**
 * The Products screen: a three-stage filter (free-text search, supplier,
 * price), pagination of the filtered list, the supplier dropdown built from
 * the distinct supplier names, row selection, the row action menu and the
 * confirm-then-delete flow.
 */
module Products {
  import opened Wrappers
  import opened Strings
  import opened Lists
  import Pagination
  import opened Entities

  /** The three filter inputs; an empty string is a filter that is switched off. */
  datatype FilterState = FilterState(search: string, supplier: string, price: string)

  /** The free-text search: the term, ignoring case, occurs in the code, the name, the barcode or the supplier's name. */
  predicate MatchesSearch(p: Product, search: string) {
    || IncludesIgnoringCase(p.productCode, search)
    || IncludesIgnoringCase(p.productName, search)
    || IncludesIgnoringCase(p.barcode, search)
    || IncludesIgnoringCase(p.supplier.name, search)
  }

  /** `filteredBySearch`: the products the search keeps, in their original order. */
  function FilteredBySearch(products: seq<Product>, search: string): (r: seq<Product>)
    ensures forall p: Product :: p in r <==> p in products && MatchesSearch(p, search)
    ensures IsSubsequence(r, products)
  {
    FilterIsSubsequence(products, (p: Product) => MatchesSearch(p, search));
    Filter(products, (p: Product) => MatchesSearch(p, search))
  }

  /** An empty search box hides nothing. */
  lemma EmptySearchKeepsAll(products: seq<Product>)
    ensures FilteredBySearch(products, "") == products
  {
    forall p: Product | p in products ensures MatchesSearch(p, "") {
      IncludesEmptyTerm(p.productCode);
    }
    FilterKeepsAll(products, (p: Product) => MatchesSearch(p, ""));
  }

  /** `filteredBySupplier`: applied only when a supplier is chosen; a case-insensitive substring test on the supplier's name. */
  function FilteredBySupplier(products: seq<Product>, supplier: string): (r: seq<Product>)
    ensures supplier == "" ==> r == products
    ensures supplier != "" ==>
      forall p: Product :: p in r <==> p in products && IncludesIgnoringCase(p.supplier.name, supplier)
    ensures IsSubsequence(r, products)
  {
    if supplier == "" then
      SubsequenceOfSelf(products);
      products
    else
      FilterIsSubsequence(products, (p: Product) => IncludesIgnoringCase(p.supplier.name, supplier));
      Filter(products, (p: Product) => IncludesIgnoringCase(p.supplier.name, supplier))
  }

  /**
   * `filteredProducts`: applied only when a price is typed; the typed text
   * must occur, case-sensitively, in the price as `toString` renders it.
   * `priceText` stands for JavaScript's number-to-string conversion.
   */
  function FilteredByPrice(products: seq<Product>, price: string, priceText: real -> string): (r: seq<Product>)
    ensures price == "" ==> r == products
    ensures price != "" ==>
      forall p: Product :: p in r <==> p in products && Contains(priceText(p.pricePerUnit), price)
    ensures IsSubsequence(r, products)
  {
    if price == "" then
      SubsequenceOfSelf(products);
      products
    else
      FilterIsSubsequence(products, (p: Product) => Contains(priceText(p.pricePerUnit), price));
      Filter(products, (p: Product) => Contains(priceText(p.pricePerUnit), price))
  }

  /** The three stages in the order the component applies them. */
  function FilteredProducts(products: seq<Product>, filter: FilterState, priceText: real -> string): (r: seq<Product>)
    ensures forall p: Product :: p in r ==> p in products && MatchesSearch(p, filter.search)
    ensures filter == FilterState("", "", "") ==> forall p: Product :: p in products ==> p in r
  {
    EmptySearchKeepsAll(products);
    FilteredByPrice(FilteredBySupplier(FilteredBySearch(products, filter.search), filter.supplier), filter.price, priceText)
  }

  /**
   * A product is listed exactly when it passes every active filter; the
   * listing keeps the loaded order.
   */
  lemma FilteredProductsIff(products: seq<Product>, filter: FilterState, priceText: real -> string, p: Product)
    ensures p in FilteredProducts(products, filter, priceText) <==>
      && p in products
      && MatchesSearch(p, filter.search)
      && (filter.supplier == "" || IncludesIgnoringCase(p.supplier.name, filter.supplier))
      && (filter.price == "" || Contains(priceText(p.pricePerUnit), filter.price))
  {
  }

  /** With every filter empty the full list is shown. */
  lemma NoFilterShowsAll(products: seq<Product>, priceText: real -> string)
    ensures FilteredProducts(products, FilterState("", "", ""), priceText) == products
  {
    EmptySearchKeepsAll(products);
  }

  function SupplierNames(products: seq<Product>): (r: seq<string>)
    ensures |r| == |products|
    ensures forall i :: 0 <= i < |products| ==> r[i] == products[i].supplier.name
  {
    seq(|products|, i requires 0 <= i < |products| => products[i].supplier.name)
  }

  /**
   * `uniqueSuppliers`: every supplier name of the loaded products exactly
   * once, in the order in which the names first appear.
   */
  function UniqueSuppliers(products: seq<Product>): (r: seq<string>)
    ensures forall n :: n in r <==> exists p: Product :: p in products && p.supplier.name == n
    ensures forall n :: n in r <==> n in SupplierNames(products)
    ensures NoDuplicates(r)
    ensures forall i, j :: 0 <= i < j < |r| ==>
      FirstIndex(SupplierNames(products), r[i]) < FirstIndex(SupplierNames(products), r[j])
  {
    var names := SupplierNames(products);
    DedupSpec(names);
    forall n | n in names ensures exists p: Product :: p in products && p.supplier.name == n {
      var i :| 0 <= i < |names| && names[i] == n;
      assert products[i] in products;
    }
    forall p: Product | p in products ensures p.supplier.name in names {
      var i :| 0 <= i < |products| && products[i] == p;
      assert names[i] == p.supplier.name;
    }
    Dedup(names)
  }

  /** The component's state; handlers update it field by field. */
  class ProductsTable {
    var products: seq<Product>
    var selectedRows: seq<int>
    var filter: FilterState
    var currentPage: int
    var isLoading: bool
    var selectedProduct: Option<Product>
    var isSupplierOpen: bool
    var menuOpenId: Option<int>
    var isAddOpen: bool
    var deleteProduct: Option<Product>
    var showDeleteSuccess: bool
    /** JavaScript's rendering of a price by `toString`. */
    const priceText: real -> string

    /** The state on first render: nothing loaded yet, page 1, every filter empty. */
    constructor (priceText: real -> string)
      ensures products == [] && selectedRows == []
      ensures filter == FilterState("", "", "") && currentPage == 1 && isLoading
      ensures selectedProduct == None && !isSupplierOpen && menuOpenId == None
      ensures !isAddOpen && deleteProduct == None && !showDeleteSuccess
      ensures this.priceText == priceText
    {
      products := [];
      selectedRows := [];
      filter := FilterState("", "", "");
      currentPage := 1;
      isLoading := true;
      selectedProduct := None;
      isSupplierOpen := false;
      menuOpenId := None;
      isAddOpen := false;
      deleteProduct := None;
      showDeleteSuccess := false;
      this.priceText := priceText;
    }

    function Filtered(): seq<Product>
      reads this
    {
      FilteredProducts(products, filter, priceText)
    }

    /** `currentItems`, the rows of the current page. */
    function CurrentItems(): seq<Product>
      reads this
    {
      Pagination.CurrentItems(Filtered(), currentPage)
    }

    function TotalPages(): nat
      reads this
    {
      Pagination.TotalPages(|Filtered()|)
    }

    /** The header checkbox: ticked when as many rows are selected as the page shows. */
    function HeaderChecked(): (r: bool)
      reads this
      ensures r <==> |selectedRows| == |CurrentItems()|
      ensures selectedRows == Keys(CurrentItems(), ProductId) ==> r
      ensures r && currentPage >= 1 ==> |selectedRows| <= Pagination.ItemsPerPage
    {
      |selectedRows| == |CurrentItems()|
    }

    /** The mount timer's callback: the data arrives and the loading indicator goes. */
    method FinishLoading(data: seq<Product>)
      modifies this`products, this`isLoading
      ensures products == data && !isLoading
    {
      products := data;
      isLoading := false;
    }

    /** Typing in the search box; the page is not reset. */
    method SetSearch(search: string)
      modifies this`filter
      ensures filter == old(filter).(search := search)
    {
      filter := filter.(search := search);
    }

    /** Typing in the price box; the page is not reset. */
    method SetPriceFilter(price: string)
      modifies this`filter
      ensures filter == old(filter).(price := price)
    {
      filter := filter.(price := price);
    }

    method ToggleSupplierDropdown()
      modifies this`isSupplierOpen
      ensures isSupplierOpen == !old(isSupplierOpen)
    {
      isSupplierOpen := !isSupplierOpen;
    }

    /** Picking a supplier (or "All Suppliers", the empty name): the dropdown closes and page 1 is shown. */
    method HandleFilterChange(supplier: string)
      modifies this`filter, this`isSupplierOpen, this`currentPage
      ensures filter == old(filter).(supplier := supplier)
      ensures !isSupplierOpen && currentPage == 1
    {
      filter := filter.(supplier := supplier);
      isSupplierOpen := false;
      currentPage := 1;
    }

    /** `paginate`; the previous and next buttons pass `currentPage - 1` and `currentPage + 1`. */
    method Paginate(page: int)
      modifies this`currentPage
      ensures currentPage == page
    {
      currentPage := page;
    }

    /** Clears the selection if as many rows are selected as the page shows, otherwise selects the page's rows. */
    method HandleSelectAll()
      modifies this`selectedRows
      ensures old(HeaderChecked()) ==> selectedRows == []
      ensures !old(HeaderChecked()) ==> selectedRows == Keys(CurrentItems(), ProductId) && HeaderChecked()
    {
      selectedRows := SelectAll(selectedRows, |CurrentItems()|, Keys(CurrentItems(), ProductId));
    }

    method HandleRowSelect(id: int)
      modifies this`selectedRows
      ensures selectedRows == ToggleRow(old(selectedRows), id)
      ensures id in selectedRows <==> id !in old(selectedRows)
    {
      selectedRows := ToggleRow(selectedRows, id);
    }

    method HandleViewProduct(p: Product)
      modifies this`selectedProduct
      ensures selectedProduct == Some(p)
    {
      selectedProduct := Some(p);
    }

    method HandleCloseModal()
      modifies this`selectedProduct
      ensures selectedProduct == None
    {
      selectedProduct := None;
    }

    method ToggleMenu(id: int)
      modifies this`menuOpenId
      ensures menuOpenId == Lists.ToggleMenu(old(menuOpenId), id)
    {
      menuOpenId := Lists.ToggleMenu(menuOpenId, id);
    }

    method HandleAddOpen()
      modifies this`isAddOpen
      ensures isAddOpen
    {
      isAddOpen := true;
    }

    method HandleAddClose()
      modifies this`isAddOpen
      ensures !isAddOpen
    {
      isAddOpen := false;
    }

    /** Asks for confirmation: the product is held and the menu closes. */
    method HandleDeleteProduct(p: Product)
      modifies this`deleteProduct, this`menuOpenId
      ensures deleteProduct == Some(p) && menuOpenId == None
    {
      deleteProduct := Some(p);
      menuOpenId := None;
    }

    /**
     * Confirming removes every product with the held product's id and shows
     * the success notice; with nothing held it does nothing.
     */
    method HandleDeleteConfirm()
      modifies this`products, this`showDeleteSuccess, this`deleteProduct
      ensures old(deleteProduct).None? ==> unchanged(this)
      ensures old(deleteProduct).Some? ==>
        && products == WithoutKey(old(products), ProductId, old(deleteProduct).value.id)
        && showDeleteSuccess && deleteProduct == None
    {
      if deleteProduct.Some? {
        products := WithoutKey(products, ProductId, deleteProduct.value.id);
        showDeleteSuccess := true;
        deleteProduct := None;
      }
    }

    method HandleDeleteClose()
      modifies this`deleteProduct
      ensures deleteProduct == None
    {
      deleteProduct := None;
    }

    /** The 1.5 second timer that hides the success notice. */
    method DismissDeleteSuccess()
      modifies this`showDeleteSuccess
      ensures !showDeleteSuccess
    {
      showDeleteSuccess := false;
    }
  }
}
