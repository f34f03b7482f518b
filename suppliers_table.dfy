/**
 * The Suppliers screen: a search on the supplier's name, pagination, row
 * selection, the row action menu, adding a supplier from the modal form and
 * the confirm-then-delete flow.
 */
module Suppliers {
  import opened Wrappers
  import opened Strings
  import opened Lists
  import Pagination
  import opened Entities

  /** `filteredSuppliers`: the suppliers whose name contains the search term, ignoring case, in their original order. */
  function FilteredSuppliers(suppliers: seq<Supplier>, search: string): (r: seq<Supplier>)
    ensures forall s: Supplier :: s in r <==> s in suppliers && IncludesIgnoringCase(s.name, search)
    ensures IsSubsequence(r, suppliers)
  {
    FilterIsSubsequence(suppliers, (s: Supplier) => IncludesIgnoringCase(s.name, search));
    Filter(suppliers, (s: Supplier) => IncludesIgnoringCase(s.name, search))
  }

  /** An empty search box hides nothing. */
  lemma EmptySearchKeepsAll(suppliers: seq<Supplier>)
    ensures FilteredSuppliers(suppliers, "") == suppliers
  {
    forall s: Supplier | s in suppliers ensures IncludesIgnoringCase(s.name, "") {
      IncludesEmptyTerm(s.name);
    }
    FilterKeepsAll(suppliers, (s: Supplier) => IncludesIgnoringCase(s.name, ""));
  }

  /** A supplier appended after the search was typed is listed, last, exactly when its name matches. */
  lemma FilteredAfterAdd(suppliers: seq<Supplier>, added: Supplier, search: string)
    ensures FilteredSuppliers(suppliers + [added], search) ==
      FilteredSuppliers(suppliers, search) + (if IncludesIgnoringCase(added.name, search) then [added] else [])
  {
    var keep := (s: Supplier) => IncludesIgnoringCase(s.name, search);
    FilterAppend(suppliers, [added], keep);
    assert [added][1..] == [];
  }

  /** Deleting a supplier just added, under an id no other supplier has, gives back the list as it was. */
  lemma DeleteUndoesAdd(suppliers: seq<Supplier>, added: Supplier)
    requires forall s: Supplier :: s in suppliers ==> s.id != added.id
    ensures WithoutKey(suppliers + [added], SupplierId, added.id) == suppliers
  {
    WithoutKeyUndoesAppend(suppliers, SupplierId, added);
  }

  /** The component's state; handlers update it field by field. */
  class SuppliersTable {
    var suppliers: seq<Supplier>
    var selectedRows: seq<int>
    var search: string
    var currentPage: int
    var isLoading: bool
    var selectedSupplier: Option<Supplier>
    var menuOpenId: Option<int>
    var isAddOpen: bool
    var deleteSupplier: Option<Supplier>
    var showDeleteSuccess: bool

    /** The state on first render: nothing loaded yet, page 1, an empty search. */
    constructor ()
      ensures suppliers == [] && selectedRows == [] && search == ""
      ensures currentPage == 1 && isLoading
      ensures selectedSupplier == None && menuOpenId == None
      ensures !isAddOpen && deleteSupplier == None && !showDeleteSuccess
    {
      suppliers := [];
      selectedRows := [];
      search := "";
      currentPage := 1;
      isLoading := true;
      selectedSupplier := None;
      menuOpenId := None;
      isAddOpen := false;
      deleteSupplier := None;
      showDeleteSuccess := false;
    }

    function Filtered(): seq<Supplier>
      reads this
    {
      FilteredSuppliers(suppliers, search)
    }

    /** `currentItems`, the rows of the current page. */
    function CurrentItems(): seq<Supplier>
      reads this
    {
      Pagination.CurrentItems(Filtered(), currentPage)
    }

    /** The header checkbox: ticked when as many rows are selected as the page shows. */
    function HeaderChecked(): (r: bool)
      reads this
      ensures r <==> |selectedRows| == |CurrentItems()|
      ensures selectedRows == Keys(CurrentItems(), SupplierId) ==> r
      ensures r && currentPage >= 1 ==> |selectedRows| <= Pagination.ItemsPerPage
    {
      |selectedRows| == |CurrentItems()|
    }

    /** The mount timer's callback: the data arrives and the loading indicator goes. */
    method FinishLoading(data: seq<Supplier>)
      modifies this`suppliers, this`isLoading
      ensures suppliers == data && !isLoading
    {
      suppliers := data;
      isLoading := false;
    }

    /** Typing in the search box; the page is not reset. */
    method SetSearch(term: string)
      modifies this`search
      ensures search == term
    {
      search := term;
    }

    method Paginate(page: int)
      modifies this`currentPage
      ensures currentPage == page
    {
      currentPage := page;
    }

    /** Clears the selection if as many rows are selected as the page shows, otherwise selects the page's rows. */
    method HandleSelectAll()
      modifies this`selectedRows
      ensures old(HeaderChecked()) ==> selectedRows == []
      ensures !old(HeaderChecked()) ==> selectedRows == Keys(CurrentItems(), SupplierId) && HeaderChecked()
    {
      selectedRows := SelectAll(selectedRows, |CurrentItems()|, Keys(CurrentItems(), SupplierId));
    }

    method HandleRowSelect(id: int)
      modifies this`selectedRows
      ensures selectedRows == ToggleRow(old(selectedRows), id)
      ensures id in selectedRows <==> id !in old(selectedRows)
    {
      selectedRows := ToggleRow(selectedRows, id);
    }

    method HandleViewSupplier(s: Supplier)
      modifies this`selectedSupplier
      ensures selectedSupplier == Some(s)
    {
      selectedSupplier := Some(s);
    }

    method HandleCloseModal()
      modifies this`selectedSupplier
      ensures selectedSupplier == None
    {
      selectedSupplier := None;
    }

    method ToggleMenu(id: int)
      modifies this`menuOpenId
      ensures menuOpenId == Lists.ToggleMenu(old(menuOpenId), id)
    {
      menuOpenId := Lists.ToggleMenu(menuOpenId, id);
    }

    method HandleAddOpen()
      modifies this`isAddOpen
      ensures isAddOpen
    {
      isAddOpen := true;
    }

    method HandleAddClose()
      modifies this`isAddOpen
      ensures !isAddOpen
    {
      isAddOpen := false;
    }

    /** The modal's save: the new supplier goes to the end of the list. */
    method HandleAddSupplier(added: Supplier)
      modifies this`suppliers
      ensures suppliers == old(suppliers) + [added]
    {
      suppliers := suppliers + [added];
    }

    /** Asks for confirmation: the supplier is held and the menu closes. */
    method HandleDeleteSupplier(s: Supplier)
      modifies this`deleteSupplier, this`menuOpenId
      ensures deleteSupplier == Some(s) && menuOpenId == None
    {
      deleteSupplier := Some(s);
      menuOpenId := None;
    }

    /**
     * Confirming removes every supplier with the held supplier's id and shows
     * the success notice; with nothing held it does nothing.
     */
    method HandleDeleteConfirm()
      modifies this`suppliers, this`showDeleteSuccess, this`deleteSupplier
      ensures old(deleteSupplier).None? ==> unchanged(this)
      ensures old(deleteSupplier).Some? ==>
        && suppliers == WithoutKey(old(suppliers), SupplierId, old(deleteSupplier).value.id)
        && showDeleteSuccess && deleteSupplier == None
    {
      if deleteSupplier.Some? {
        suppliers := WithoutKey(suppliers, SupplierId, deleteSupplier.value.id);
        showDeleteSuccess := true;
        deleteSupplier := None;
      }
    }

    method HandleDeleteClose()
      modifies this`deleteSupplier
      ensures deleteSupplier == None
    {
      deleteSupplier := None;
    }

    /** The 1.5 second timer that hides the success notice. */
    method DismissDeleteSuccess()
      modifies this`showDeleteSuccess
      ensures !showDeleteSuccess
    {
      showDeleteSuccess := false;
    }
  }
}
