/**
 * The Category screen: the list of category rows with a name search, row
 * selection, the row action menu, the view and edit modals and the
 * confirm-then-delete flow.
 */
module Categories {
  import opened Wrappers
  import opened Strings
  import opened Lists

  /** A row of the category list, as the screen declares it. */
  datatype CategoryRow = CategoryRow(
    id: int,
    name: string,
    status: string,
    ebtActive: bool,
    ageVerification1: bool,
    ageVerification2: bool,
    showOnPos: bool)

  function RowId(c: CategoryRow): int {
    c.id
  }

  /** `filteredCategories`: the rows whose name contains the search term, ignoring case, in their original order. */
  function FilteredCategories(categories: seq<CategoryRow>, term: string): (r: seq<CategoryRow>)
    ensures forall c: CategoryRow :: c in r <==> c in categories && IncludesIgnoringCase(c.name, term)
    ensures IsSubsequence(r, categories)
  {
    FilterIsSubsequence(categories, (c: CategoryRow) => IncludesIgnoringCase(c.name, term));
    Filter(categories, (c: CategoryRow) => IncludesIgnoringCase(c.name, term))
  }

  /** An empty search box hides nothing. */
  lemma EmptySearchKeepsAll(categories: seq<CategoryRow>)
    ensures FilteredCategories(categories, "") == categories
  {
    forall c: CategoryRow | c in categories ensures IncludesIgnoringCase(c.name, "") {
      IncludesEmptyTerm(c.name);
    }
    FilterKeepsAll(categories, (c: CategoryRow) => IncludesIgnoringCase(c.name, ""));
  }

  /**
   * `handleEditConfirm`'s map: an edit leaves every row with another id where
   * it was, and the edited row is listed afterwards exactly when a row with
   * its id was listed before.
   */
  lemma EditKeepsOthers(categories: seq<CategoryRow>, updated: CategoryRow)
    ensures |ReplaceKey(categories, RowId, updated)| == |categories|
    ensures WithoutKey(ReplaceKey(categories, RowId, updated), RowId, updated.id) == WithoutKey(categories, RowId, updated.id)
    ensures updated in ReplaceKey(categories, RowId, updated) <==> exists c :: c in categories && c.id == updated.id
  {
    ReplaceKeyKeepsOthers(categories, RowId, updated);
    ReplaceKeyPresent(categories, RowId, updated);
  }

  /**
   * The header checkbox compares the selection with the FILTERED rows, while
   * select-all compares it with, and selects, ALL rows. So under a search
   * that hides a row, select-all from an unequal selection leaves the header
   * unticked, and the selection holds ids the list does not show.
   */
  lemma SelectAllUnderSearch(categories: seq<CategoryRow>, selected: seq<int>, term: string)
    requires |FilteredCategories(categories, term)| < |categories|
    requires |selected| != |categories|
    ensures var after := SelectAll(selected, |categories|, Keys(categories, RowId));
      && |after| != |FilteredCategories(categories, term)|
      && exists c :: c in categories && c.id in after && c !in FilteredCategories(categories, term)
  {
    var f := FilteredCategories(categories, term);
    var c :| c in categories && c !in f by {
      if forall c :: c in categories ==> c in f {
        FilterKeepsAll(categories, (c: CategoryRow) => IncludesIgnoringCase(c.name, term));
      }
    }
    var i :| 0 <= i < |categories| && categories[i] == c;
    assert Keys(categories, RowId)[i] == c.id;
  }

  /** The component's state; handlers update it field by field. */
  class CategoryTable {
    var categories: seq<CategoryRow>
    var selectedRows: seq<int>
    var isLoading: bool
    var isAddOpen: bool
    var isEditOpen: bool
    var viewProduct: Option<CategoryRow>
    var editCategory: Option<CategoryRow>
    var deleteCategory: Option<CategoryRow>
    var menuOpenId: Option<int>
    var showDeleteSuccess: bool
    var searchTerm: string

    /** The state on first render: nothing loaded yet, nothing open, an empty search. */
    constructor ()
      ensures categories == [] && selectedRows == [] && isLoading
      ensures !isAddOpen && !isEditOpen && viewProduct == None && editCategory == None
      ensures deleteCategory == None && menuOpenId == None && !showDeleteSuccess && searchTerm == ""
    {
      categories := [];
      selectedRows := [];
      isLoading := true;
      isAddOpen := false;
      isEditOpen := false;
      viewProduct := None;
      editCategory := None;
      deleteCategory := None;
      menuOpenId := None;
      showDeleteSuccess := false;
      searchTerm := "";
    }

    function Filtered(): seq<CategoryRow>
      reads this
    {
      FilteredCategories(categories, searchTerm)
    }

    /** The header checkbox: ticked when as many rows are selected as the search shows. */
    function HeaderChecked(): (r: bool)
      reads this
      ensures r <==> |selectedRows| == |Filtered()|
      ensures selectedRows == Keys(Filtered(), RowId) ==> r
      ensures searchTerm == "" ==> (r <==> |selectedRows| == |categories|)
    {
      EmptySearchKeepsAll(categories);
      |selectedRows| == |Filtered()|
    }

    /** The mount timer's callback: the rows arrive and the loading indicator goes. */
    method FinishLoading(data: seq<CategoryRow>)
      modifies this`categories, this`isLoading
      ensures categories == data && !isLoading
    {
      categories := data;
      isLoading := false;
    }

    method SetSearchTerm(term: string)
      modifies this`searchTerm
      ensures searchTerm == term
    {
      searchTerm := term;
    }

    /** Clears the selection if as many rows are selected as there are rows, otherwise selects every row. */
    method HandleSelectAll()
      modifies this`selectedRows
      ensures |old(selectedRows)| == |categories| ==> selectedRows == []
      ensures |old(selectedRows)| != |categories| ==> selectedRows == Keys(categories, RowId)
    {
      selectedRows := SelectAll(selectedRows, |categories|, Keys(categories, RowId));
    }

    method HandleRowSelect(id: int)
      modifies this`selectedRows
      ensures selectedRows == ToggleRow(old(selectedRows), id)
      ensures id in selectedRows <==> id !in old(selectedRows)
    {
      selectedRows := ToggleRow(selectedRows, id);
    }

    method ToggleMenu(id: int)
      modifies this`menuOpenId
      ensures menuOpenId == Lists.ToggleMenu(old(menuOpenId), id)
    {
      menuOpenId := Lists.ToggleMenu(menuOpenId, id);
    }

    method HandleAddOpen()
      modifies this`isAddOpen
      ensures isAddOpen
    {
      isAddOpen := true;
    }

    method HandleAddClose()
      modifies this`isAddOpen
      ensures !isAddOpen
    {
      isAddOpen := false;
    }

    /** Opens the edit form on a row and closes the menu. */
    method HandleEditOpen(c: CategoryRow)
      modifies this`editCategory, this`isEditOpen, this`menuOpenId
      ensures editCategory == Some(c) && isEditOpen && menuOpenId == None
    {
      editCategory := Some(c);
      isEditOpen := true;
      menuOpenId := None;
    }

    /** Closing the edit form keeps the row it was opened on. */
    method HandleEditClose()
      modifies this`isEditOpen
      ensures !isEditOpen
    {
      isEditOpen := false;
    }

    /** The edit form's save: the row with the same id is replaced, then the form closes. */
    method HandleEditConfirm(updated: CategoryRow)
      modifies this`categories, this`isEditOpen
      ensures categories == ReplaceKey(old(categories), RowId, updated)
      ensures !isEditOpen
    {
      categories := ReplaceKey(categories, RowId, updated);
      isEditOpen := false;
    }

    method HandleViewProduct(c: CategoryRow)
      modifies this`viewProduct, this`menuOpenId
      ensures viewProduct == Some(c) && menuOpenId == None
    {
      viewProduct := Some(c);
      menuOpenId := None;
    }

    method HandleViewClose()
      modifies this`viewProduct
      ensures viewProduct == None
    {
      viewProduct := None;
    }

    /** Asks for confirmation: the row is held and the menu closes. */
    method HandleDeleteProduct(c: CategoryRow)
      modifies this`deleteCategory, this`menuOpenId
      ensures deleteCategory == Some(c) && menuOpenId == None
    {
      deleteCategory := Some(c);
      menuOpenId := None;
    }

    /**
     * Confirming removes every row with the held row's id and shows the
     * success notice; the held row is cleared either way.
     */
    method HandleDeleteConfirm()
      modifies this`categories, this`showDeleteSuccess, this`deleteCategory
      ensures old(deleteCategory).None? ==>
        categories == old(categories) && showDeleteSuccess == old(showDeleteSuccess)
      ensures old(deleteCategory).Some? ==>
        categories == WithoutKey(old(categories), RowId, old(deleteCategory).value.id) && showDeleteSuccess
      ensures deleteCategory == None
    {
      if deleteCategory.Some? {
        categories := WithoutKey(categories, RowId, deleteCategory.value.id);
        showDeleteSuccess := true;
      }
      deleteCategory := None;
    }

    method HandleDeleteClose()
      modifies this`deleteCategory
      ensures deleteCategory == None
    {
      deleteCategory := None;
    }

    /** The 1.5 second timer that hides the success notice. */
    method DismissDeleteSuccess()
      modifies this`showDeleteSuccess
      ensures !showDeleteSuccess
    {
      showDeleteSuccess := false;
    }
  }
}
