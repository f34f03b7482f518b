# ILP dashboard: list management, form rules and validation

This project models the logic inside the React dashboard's components and its category API helper. The model covers:

- The product, supplier, category, order and recent-order tables:
  - search and filter conjunctions;
  - 10-item pagination and the "Showing a to b of n" footer;
  - row selection and select-all;
  - the row action menu;
  - column hiding;
  - delete-by-id, edit-by-id and append.
- The forms for categories, products and suppliers:
  - single-field updates;
  - the category EBT flag, which is stored inside `catStatus`;
  - the product total recompute;
  - the submit sequences.
- The sign-in and OTP forms:
  - validation order;
  - what each response or failure leads to;
  - what a successful login stores.
- The category API client:
  - the timeout fallback and the bearer header;
  - the response interceptor's error classification;
  - `handleApiError`;
  - the CRUD calls, which never throw.

How the model is built:

- Each component is a Dafny `class` whose fields are its `useState` variables.
- Each handler is a `method` whose `modifies` names the fields the handler sets. Its `ensures` states the whole new value of those fields.
- Derived views (`filteredProducts`, `currentItems`, `uniqueSuppliers`, …) are functions. Lemmas relate them to their partners: membership iff, order preservation (`IsSubsequence`), round trips and "nothing else changes".
- JavaScript numbers are `real` or `int`. Strings are `seq<char>`.
- `toLowerCase` and `toUpperCase` act on ASCII letters only. `includes` is contiguous-substring search.
- `length` counts UTF-16 code units (`Strings.Utf16Length`), so a character outside the Basic Multilingual Plane counts twice.
- `trim` removes the ECMAScript white space and line terminators.
- `a || b` on strings is `Strings.OrElse`: it falls back when the left side is missing or empty.

Shared modules:

| module | content |
|---|---|
| `Wrappers` | `Option`, toast kinds, badge colours |
| `Strings` | lower-casing, `includes`, `trim`, the blank test, `||` and integer `toString` |
| `Lists` | filter and subsequence, toggle, select-all, menu toggle, delete-by-key, replace-by-key, first-occurrence dedup |
| `Pagination` | page size, page count, JS `slice` clamping, footer numbers, prev/next buttons |
| `Entities` | the `Supplier` and `Product` records, which several components redeclare |
| `LoginApi` | the sign-in and password-change request and response shapes |

Inputs that come from outside are parameters:

- `Date.now()`;
- the parsed environment values;
- number-to-string and string-to-number conversions;
- whether `onSave` is provided and whether it throws;
- the result of every network call.

## Model

| member | source | states |
|---|---|---|
| Pagination.TotalPages | src/components/Products/Products.tsx:94 | `Math.ceil(n/10)`: the fewest pages of 10 that hold n items |
| Pagination.SliceBound | src/components/Products/Products.tsx:97 | a `slice` bound is clamped into `0..len`, and an in-range bound is kept |
| Pagination.CurrentItems | src/components/Products/Products.tsx:95-97 | for page ≥ 1 the page is the contiguous run `[(p-1)*10, p*10)` of the list, clamped to its length, with at most 10 items |
| Pagination.PageNumbers | src/components/Suppliers/SuppliersTable.tsx:332 | the page buttons are exactly `1..ceil(n/10)`, one per page |
| Pagination.ShowingFrom | src/components/Products/Products.tsx:361 | the footer's first number: at least 1 on an existing page, and always one past a multiple of 10 |
| Pagination.ShowingTo | src/components/Products/Products.tsx:361 | the footer's second number: the page's end or the list's length, whichever is smaller |
| Pagination.PreviousDisabled | src/components/Products/Products.tsx:365-366 | on a page ≥ 1, disabled exactly when going back would leave the pages |
| Pagination.NextDisabled | src/components/Products/Products.tsx:385-386 | on an existing page, disabled exactly when going forward would pass the last page |
| Pagination.ShowingMatchesPage | src/components/Suppliers/SuppliersTable.tsx:319-322 | on an existing page the footer's numbers are the 1-based positions of the page's first and last item |
| Pagination.ItemOnPage | src/components/Products/Products.tsx:94-97 | item k is shown on page `k/10+1` at row `k%10`, so paging loses nothing |
| Pagination.PagesDisjoint | src/components/Products/Products.tsx:95-97 | different pages show disjoint runs of the list |
| Pagination.PastLastPageIsEmpty | src/components/Products/Products.tsx:97 | a page past the last shows nothing |
| Pagination.NavigationStaysInRange | src/components/Products/Products.tsx:365-386 | from an existing page, an enabled Previous or Next button leads to an existing page |
| Pagination.EmptyListNextEnabled | src/components/Products/Products.tsx:385-386 | with an empty list there are 0 pages, Next stays enabled on page 1 and leads to an empty page 2 |
| Lists.ToggleRow | src/components/Products/Products.tsx:107-111 | the id's membership flips; other ids keep their counts; adding appends once; removing keeps the order of the rest |
| Lists.ToggleRowTwice | src/components/tables/BasicTables/BasicTableOne.tsx:134-140 | toggling an absent id twice restores the list |
| Lists.SelectAll | src/components/Products/Products.tsx:103-105 | clears when the selection's size equals the compared count, else becomes the given ids |
| Lists.ToggleMenu | src/components/Suppliers/SuppliersTable.tsx:92-94 | toggling the open id closes the menu; any other id opens that one |
| Lists.ToggleMenuTwice | src/components/Suppliers/SuppliersTable.tsx:92-94 | toggling the same id twice from closed, or from that id open, restores the state |
| Lists.WithoutKey | src/components/Products/Products.tsx:139-144 | keeps exactly the elements whose key differs, with their multiplicities and their order |
| Lists.WithoutKeyUndoesAppend | src/components/Suppliers/SuppliersTable.tsx:99-113 | deleting the id of a freshly appended, unique element gives back the earlier list |
| Lists.ReplaceKeyKeepsOthers | src/components/Category/Category.tsx:129-132 | replace-by-id leaves the elements with other ids exactly as they were, in order |
| Lists.ReplaceKeyPresent | src/components/Category/Category.tsx:129-132 | the update appears in the list iff some element had its id |
| Lists.DedupSpec | src/components/Products/Products.tsx:99 | `Array.from(new Set(...))`: the same members, no duplicates, in first-occurrence order |
| Lists.Dedup | src/components/Products/Products.tsx:99 | never longer than its input and only holds values of the input (the full characterisation is `DedupSpec`) |
| Strings.Lower | src/components/Products/Products.tsx:73 | `toLowerCase`: same length, no upper-case letter left, other characters kept |
| Strings.LowerIdempotent | src/components/Products/Products.tsx:73-79 | lower-casing twice equals lower-casing once |
| Strings.ContainsIff | src/components/Products/Products.tsx:75-79 | `includes` holds iff the term sits at some offset |
| Strings.IncludesEmptyTerm | src/components/Products/Products.tsx:72-80 | an empty term is found in every string |
| Strings.TrimStart | src/components/auth/SignInForm.tsx:20-50 | removes exactly the leading run of white space: the result is a suffix, what was dropped is white space and the result does not start with any |
| Strings.TrimEnd | src/components/auth/SignInForm.tsx:20-50 | removes exactly the trailing run of white space: the result is a prefix, what was dropped is white space and the result does not end with any |
| Strings.TrimmedEmptyIff | src/components/auth/SignInForm.tsx:20-50 | `!s.trim()` holds iff the string is all white space |
| Strings.OrElse | src/components/auth/SignInForm.tsx:74-76 | `a \|\| b`: `a` when present and non-empty, else `b` |
| Strings.NatToString | src/components/auth/SignInForm.tsx:74 | decimal digits only, no leading zero, and their decimal value is the number |
| Strings.IntToString | src/components/auth/SignInForm.tsx:74 | `toString` of an integer: a leading minus iff it is negative, then the decimal digits of its magnitude without a leading zero, whose value is that magnitude |
| Strings.IntToStringInjective | src/components/auth/SignInForm.tsx:74 | different integers render to different texts |
| Strings.Utf16Length | src/components/auth/OtpForm.tsx:50 | JavaScript `length`: UTF-16 code units, between one and two per character, and exactly one per character when none lies outside the Basic Multilingual Plane |
| Products.FilteredBySearch | src/components/Products/Products.tsx:72-80 | a product is kept iff the term, ignoring case, occurs in its code, name, barcode or supplier name; order is kept |
| Products.EmptySearchKeepsAll | src/components/Products/Products.tsx:72-80 | an empty search keeps every product |
| Products.FilteredBySupplier | src/components/Products/Products.tsx:82-86 | the identity for an empty supplier; otherwise a case-insensitive match on the supplier name; always an order-preserving subsequence |
| Products.FilteredByPrice | src/components/Products/Products.tsx:88-92 | the identity for an empty price; otherwise a case-sensitive match on the rendered price; always an order-preserving subsequence |
| Products.FilteredProductsIff | src/components/Products/Products.tsx:72-92 | listed iff in the search result, the supplier filter and the price filter, each switched off when empty |
| Products.FilteredProducts | src/components/Products/Products.tsx:72-92 | every listed product is loaded and passes the search; with all filters empty every product is listed |
| Products.NoFilterShowsAll | src/components/Products/Products.tsx:72-92 | with every filter empty the full list is shown |
| Products.UniqueSuppliers | src/components/Products/Products.tsx:99 | every supplier name of the products exactly once, no other name, in first-occurrence order |
| Products.ProductsTable.constructor | src/components/Products/Products.tsx:45-55 | the initial state |
| Products.ProductsTable.FinishLoading | src/components/Products/Products.tsx:58-63 | the data arrives and loading ends |
| Products.ProductsTable.SetSearch | src/components/Products/Products.tsx:208 | only the search term changes; the page is not reset |
| Products.ProductsTable.SetPriceFilter | src/components/Products/Products.tsx:251 | only the price term changes |
| Products.ProductsTable.ToggleSupplierDropdown | src/components/Products/Products.tsx:214 | the dropdown flips |
| Products.ProductsTable.HandleFilterChange | src/components/Products/Products.tsx:113-117 | only the supplier filter changes; the dropdown closes; page 1 |
| Products.ProductsTable.Paginate | src/components/Products/Products.tsx:101 | the page becomes the requested one |
| Products.ProductsTable.HandleSelectAll | src/components/Products/Products.tsx:103-105 | clears when the selection is as long as the page, else selects exactly the page's ids and the header becomes ticked |
| Products.ProductsTable.HeaderChecked | src/components/Products/Products.tsx:265 | ticked iff as many rows are selected as the page shows; selecting the page's ids ticks it; a ticked header on a page ≥ 1 means at most 10 selected |
| Products.ProductsTable.HandleRowSelect | src/components/Products/Products.tsx:107-111 | the id's membership flips |
| Products.ProductsTable.HandleViewProduct | src/components/Products/Products.tsx:119-121 | the product is shown |
| Products.ProductsTable.HandleCloseModal | src/components/Products/Products.tsx:123-125 | the view closes |
| Products.ProductsTable.ToggleMenu | src/components/Products/Products.tsx:127-129 | the menu toggles |
| Products.ProductsTable.HandleAddOpen | src/components/Products/Products.tsx:131 | the add form opens |
| Products.ProductsTable.HandleAddClose | src/components/Products/Products.tsx:132 | the add form closes |
| Products.ProductsTable.HandleDeleteProduct | src/components/Products/Products.tsx:134-137 | the product waits for confirmation; the menu closes |
| Products.ProductsTable.HandleDeleteConfirm | src/components/Products/Products.tsx:139-144 | nothing changes when nothing is pending; otherwise exactly the products with that id go, success shows and the pending delete clears |
| Products.ProductsTable.HandleDeleteClose | src/components/Products/Products.tsx:146-148 | the pending delete clears |
| Products.ProductsTable.DismissDeleteSuccess | src/components/Products/Products.tsx:65-70 | the success notice hides |
| Suppliers.FilteredSuppliers | src/components/Suppliers/SuppliersTable.tsx:56-58 | a supplier is kept iff its name, ignoring case, includes the term; order is kept |
| Suppliers.EmptySearchKeepsAll | src/components/Suppliers/SuppliersTable.tsx:56-58 | an empty search keeps all suppliers |
| Suppliers.FilteredAfterAdd | src/components/Suppliers/SuppliersTable.tsx:56-58 | after an append, the filtered view is the old view followed by the new supplier if it matches |
| Suppliers.DeleteUndoesAdd | src/components/Suppliers/SuppliersTable.tsx:99-113 | deleting a freshly added supplier with a new id restores the list |
| Suppliers.SuppliersTable.constructor | src/components/Suppliers/SuppliersTable.tsx:27-38 | the initial state |
| Suppliers.SuppliersTable.FinishLoading | src/components/Suppliers/SuppliersTable.tsx:42-47 | the data arrives and loading ends |
| Suppliers.SuppliersTable.SetSearch | src/components/Suppliers/SuppliersTable.tsx:185 | only the search term changes |
| Suppliers.SuppliersTable.Paginate | src/components/Suppliers/SuppliersTable.tsx:68 | the page becomes the requested one |
| Suppliers.SuppliersTable.HandleSelectAll | src/components/Suppliers/SuppliersTable.tsx:70-76 | clears when the selection is as long as the page, else selects exactly the page's ids |
| Suppliers.SuppliersTable.HeaderChecked | src/components/Suppliers/SuppliersTable.tsx:203 | ticked iff as many rows are selected as the page shows; selecting the page's ids ticks it; a ticked header on a page ≥ 1 means at most 10 selected |
| Suppliers.SuppliersTable.HandleRowSelect | src/components/Suppliers/SuppliersTable.tsx:78-82 | the id's membership flips |
| Suppliers.SuppliersTable.HandleViewSupplier | src/components/Suppliers/SuppliersTable.tsx:84-86 | the supplier is shown |
| Suppliers.SuppliersTable.HandleCloseModal | src/components/Suppliers/SuppliersTable.tsx:88-90 | the view closes |
| Suppliers.SuppliersTable.ToggleMenu | src/components/Suppliers/SuppliersTable.tsx:92-94 | the menu toggles |
| Suppliers.SuppliersTable.HandleAddOpen | src/components/Suppliers/SuppliersTable.tsx:96 | the add form opens |
| Suppliers.SuppliersTable.HandleAddClose | src/components/Suppliers/SuppliersTable.tsx:97 | the add form closes |
| Suppliers.SuppliersTable.HandleAddSupplier | src/components/Suppliers/SuppliersTable.tsx:99-101 | the new supplier is appended; earlier ones are unchanged |
| Suppliers.SuppliersTable.HandleDeleteSupplier | src/components/Suppliers/SuppliersTable.tsx:103-106 | the supplier waits for confirmation; the menu closes |
| Suppliers.SuppliersTable.HandleDeleteConfirm | src/components/Suppliers/SuppliersTable.tsx:108-113 | nothing changes when nothing is pending; otherwise exactly the suppliers with that id go and the pending delete clears |
| Suppliers.SuppliersTable.HandleDeleteClose | src/components/Suppliers/SuppliersTable.tsx:115-117 | the pending delete clears |
| Suppliers.SuppliersTable.DismissDeleteSuccess | src/components/Suppliers/SuppliersTable.tsx:49-54 | the success notice hides |
| Categories.FilteredCategories | src/components/Category/Category.tsx:136-138 | a category is kept iff its name, ignoring case, includes the term; order is kept |
| Categories.EmptySearchKeepsAll | src/components/Category/Category.tsx:136-138 | an empty search keeps all categories |
| Categories.EditKeepsOthers | src/components/Category/Category.tsx:129-134 | edit keeps the length and every other category; the update is present iff its id was |
| Categories.SelectAllUnderSearch | src/components/Category/Category.tsx:80-86 | while a search hides rows, select-all selects every category's id, including the hidden ones |
| Categories.CategoryTable.constructor | src/components/Category/Category.tsx:25-35 | the initial state |
| Categories.CategoryTable.FinishLoading | src/components/Category/Category.tsx:37-71 | the data arrives and loading ends |
| Categories.CategoryTable.SetSearchTerm | src/components/Category/Category.tsx:168 | only the search term changes |
| Categories.CategoryTable.HandleSelectAll | src/components/Category/Category.tsx:80-86 | compares with the length of the full list: clears, or selects every category's id |
| Categories.CategoryTable.HeaderChecked | src/components/Category/Category.tsx:191 | ticked iff as many rows are selected as the search shows; selecting the shown ids ticks it; without a search it compares with the whole list |
| Categories.CategoryTable.HandleRowSelect | src/components/Category/Category.tsx:88-92 | the id's membership flips |
| Categories.CategoryTable.ToggleMenu | src/components/Category/Category.tsx:94-96 | the menu toggles |
| Categories.CategoryTable.HandleAddOpen | src/components/Category/Category.tsx:98 | the add form opens |
| Categories.CategoryTable.HandleAddClose | src/components/Category/Category.tsx:99 | the add form closes |
| Categories.CategoryTable.HandleEditOpen | src/components/Category/Category.tsx:101-105 | the category is held for editing; the editor opens; the menu closes |
| Categories.CategoryTable.HandleEditClose | src/components/Category/Category.tsx:107 | the editor closes |
| Categories.CategoryTable.HandleEditConfirm | src/components/Category/Category.tsx:129-134 | every category with the update's id is replaced by it; the editor closes |
| Categories.CategoryTable.HandleViewProduct | src/components/Category/Category.tsx:109-112 | the category is shown; the menu closes |
| Categories.CategoryTable.HandleViewClose | src/components/Category/Category.tsx:327 | the view closes |
| Categories.CategoryTable.HandleDeleteProduct | src/components/Category/Category.tsx:114-117 | the category waits for confirmation; the menu closes |
| Categories.CategoryTable.HandleDeleteConfirm | src/components/Category/Category.tsx:119-127 | with a pending delete, exactly the categories with that id go and success shows; otherwise the list and notice are unchanged; the pending delete always clears |
| Categories.CategoryTable.HandleDeleteClose | src/components/Category/Category.tsx:334 | the pending delete clears |
| Categories.CategoryTable.DismissDeleteSuccess | src/components/Category/Category.tsx:73-78 | the success notice hides |
| BasicTables.FormatLabel | src/components/tables/BasicTables/BasicTableOne.tsx:180-181 | the label is empty iff the key is; otherwise it starts with the key's first letter upper-cased |
| BasicTables.SpaceBeforeCapitalsShape | src/components/tables/BasicTables/BasicTableOne.tsx:181 | on text without spaces, the replacement puts a space just before every capital and nowhere else |
| BasicTables.FormatLabelShape | src/components/tables/BasicTables/BasicTableOne.tsx:180-181 | the label of a space-free key: the first letter upper-cased, a space just before each later capital and nowhere else, and the rest of the key recovered by removing the spaces |
| BasicTables.CapitalisedWordSpaced | src/components/tables/BasicTables/BasicTableOne.tsx:181 | a capitalised word with no other capital gains exactly one leading space |
| BasicTables.SpacesRemoved | src/components/tables/BasicTables/BasicTableOne.tsx:181 | on a key without spaces, removing the inserted spaces gives the key back |
| BasicTables.LabelRoundTrip | src/components/tables/BasicTables/BasicTableOne.tsx:180-181 | a camel-case key is recovered from its label by lower-casing the first letter and removing the spaces |
| BasicTables.WordLabel | src/components/tables/BasicTables/BasicTableOne.tsx:180-181 | a one-word key becomes that word with a capital first letter |
| BasicTables.ProjectNameLabel | src/components/tables/BasicTables/BasicTableOne.tsx:180-181 | `projectName` becomes `Project Name` |
| BasicTables.LabelsMatchHeaders | src/components/tables/BasicTables/BasicTableOne.tsx:168-245 | the column-filter labels equal the table's header texts User, Project Name, Team, Status, Budget |
| BasicTables.StatusColor | src/components/tables/BasicTables/BasicTableOne.tsx:307-316 | success iff Active, warning iff Pending, error for every other status |
| BasicTables.VisibleColumns | src/components/tables/BasicTables/BasicTableOne.tsx:206-245 | a column is rendered iff its key is not hidden; order is kept |
| BasicTables.ToggleColumnFlipsOne | src/components/tables/BasicTables/BasicTableOne.tsx:134-140 | toggling a column flips that column's visibility and no other |
| BasicTables.BasicTableOne.constructor | src/components/tables/BasicTables/BasicTableOne.tsx:113-115 | the initial state |
| BasicTables.BasicTableOne.HandleSelectAll | src/components/tables/BasicTables/BasicTableOne.tsx:118-124 | clears when every row is selected by count, else selects the ids 1 to 5 |
| BasicTables.BasicTableOne.HeaderChecked | src/components/tables/BasicTables/BasicTableOne.tsx:202 | ticked iff five rows are selected; selecting every row's id ticks it |
| BasicTables.BasicTableOne.HandleRowSelect | src/components/tables/BasicTables/BasicTableOne.tsx:127-131 | the id's membership flips |
| BasicTables.BasicTableOne.ToggleColumn | src/components/tables/BasicTables/BasicTableOne.tsx:134-140 | the column's membership in the hidden list flips |
| BasicTables.BasicTableOne.ToggleFilterDropdown | src/components/tables/BasicTables/BasicTableOne.tsx:161 | the dropdown flips |
| RecentOrders.WithFilter | src/components/ecommerce/RecentOrders.tsx:80-82 | only the named filter key changes |
| RecentOrders.UpdatesToEmptyReset | src/components/ecommerce/RecentOrders.tsx:80-82 | emptying the three keys one by one gives the reset filters |
| RecentOrders.FilteredData | src/components/ecommerce/RecentOrders.tsx:85-97 | a row is kept iff all three filters hold, each switched off when empty; order is kept |
| RecentOrders.Matches | src/components/ecommerce/RecentOrders.tsx:85-97 | an active status filter admits only rows of exactly that status; with the other two filters empty, the status filter alone decides |
| RecentOrders.ResetShowsAll | src/components/ecommerce/RecentOrders.tsx:85-97 | with every filter empty the whole table is shown |
| RecentOrders.StatusFilterExact | src/components/ecommerce/RecentOrders.tsx:89-91 | the status filter is exact equality; a status name outside the three shows nothing |
| RecentOrders.StatusColor | src/components/ecommerce/RecentOrders.tsx:208-214 | success iff Delivered, warning iff Pending, error iff Canceled |
| RecentOrders.RecentOrdersCard.constructor | src/components/ecommerce/RecentOrders.tsx:73-77 | all filters start empty |
| RecentOrders.RecentOrdersCard.UpdateFilter | src/components/ecommerce/RecentOrders.tsx:80-82 | only the named filter changes |
| RecentOrders.RecentOrdersCard.ResetFilters | src/components/ecommerce/RecentOrders.tsx:138 | all filters become empty and the full table is shown |
| AddCategory.ApplyChange | src/components/Category/AddCategory.tsx:36-43 | the named field takes the new text, or the checked value for a checkbox; every other field is unchanged |
| AddCategory.SetEbt | src/components/Category/AddCategory.tsx:143-149 | only `catStatus` changes, to "Active EBT" or "Active" |
| AddCategory.ActiveEbtMentionsEbt | src/components/Category/AddCategory.tsx:142 | "Active EBT" ticks the EBT box |
| AddCategory.ActiveLacksEbt | src/components/Category/AddCategory.tsx:142 | "Active" leaves the EBT box clear |
| AddCategory.SetEbtRoundTrip | src/components/Category/AddCategory.tsx:142-149 | after clicking the box, its ticked state is the clicked value; the shown status is never "Inactive" |
| AddCategory.ShownStatus | src/components/Category/AddCategory.tsx:101 | the select shows the stored status when it is non-empty, else "Active"; never empty |
| AddCategory.EbtChecked | src/components/Category/AddCategory.tsx:142 | clear without a status, ticked for "Active EBT", clear for "Active" |
| AddCategory.AddCategoryForm.Title | src/components/Category/AddCategory.tsx:75 | "Edit Category" iff the form was opened on a category, "Add Category" iff not |
| AddCategory.AddCategoryForm.ShowsNameInput | src/components/Category/AddCategory.tsx:79 | the name input is shown exactly when the heading says "Add Category", so only when adding |
| AddCategory.AddCategoryForm.constructor | src/components/Category/AddCategory.tsx:14-25 | the form holds the given category, or the defaults (empty name, colour -32768, Active, position 0, showPOS No, flags false) |
| AddCategory.AddCategoryForm.Mount | src/components/Category/AddCategory.tsx:27-29 | the modal opens |
| AddCategory.AddCategoryForm.HandleClose | src/components/Category/AddCategory.tsx:31-34 | the modal closes and the parent's close is scheduled |
| AddCategory.AddCategoryForm.HandleChange | src/components/Category/AddCategory.tsx:36-43 | the form changes by exactly one field |
| AddCategory.AddCategoryForm.HandleEbtChange | src/components/Category/AddCategory.tsx:143-149 | the status is rewritten and the box shows the clicked value |
| AddCategory.AddCategoryForm.HandleSubmit | src/components/Category/AddCategory.tsx:45-54 | the form is passed to the save; the error escapes iff the save is missing or fails; either way saving ends and the modal closes |
| ProductForm.Times | src/components/Products/ProductForm.tsx:57 | a product of numbers is NaN iff a factor is |
| ProductForm.ApplyChange | src/components/Products/ProductForm.tsx:52-61 | the named field takes the typed text; others are unchanged; the total is recomputed iff quantity or price changed |
| ProductForm.ChangeKeepsTotalConsistent | src/components/Products/ProductForm.tsx:52-61 | a total that matches quantity × price keeps matching after any edit |
| ProductForm.BlankIsConsistent | src/components/Products/ProductForm.tsx:34-50 | the blank form's total of 0 matches 0 × 0 |
| ProductForm.StaleTotalSurvivesOtherEdits | src/components/Products/ProductForm.tsx:52-61 | a loaded product whose total is off stays off until quantity or price is edited |
| ProductForm.SetSupplierName | src/components/Products/ProductForm.tsx:63-68 | only the supplier's name changes |
| ProductForm.ProductFormState.constructor | src/components/Products/ProductForm.tsx:34-50 | the form holds the given product, or the blank form with supplier 1 "TechCorp" |
| ProductForm.ProductFormState.HandleChange | src/components/Products/ProductForm.tsx:52-61 | the form changes as the change rule says |
| ProductForm.ProductFormState.HandleSupplierChange | src/components/Products/ProductForm.tsx:63-68 | the supplier's name changes |
| ProductForm.ProductFormState.HandleSubmit | src/components/Products/ProductForm.tsx:70-74 | the form is passed to the save iff a save handler is given; a throwing save escapes, and `onClose` runs iff nothing escaped |
| AddSupplier.ApplyChange | src/components/Suppliers/AddSupplierModal.tsx:38-41 | exactly the named field changes; the id is kept |
| AddSupplier.EditsKeepIdAndLastValue | src/components/Suppliers/AddSupplierModal.tsx:38-41 | after any run of edits the id is unchanged and each field holds its last typed value |
| AddSupplier.LastValueCons | src/components/Suppliers/AddSupplierModal.tsx:38-41 | the last value of a field can be read from the front of the edit run |
| AddSupplier.AddSupplierForm.constructor | src/components/Suppliers/AddSupplierModal.tsx:19-27 | the form holds the given supplier, or empty fields with the clock's id |
| AddSupplier.AddSupplierForm.Mount | src/components/Suppliers/AddSupplierModal.tsx:29-31 | the modal opens |
| AddSupplier.AddSupplierForm.HandleClose | src/components/Suppliers/AddSupplierModal.tsx:33-36 | the modal closes and the parent's close is scheduled |
| AddSupplier.AddSupplierForm.HandleChange | src/components/Suppliers/AddSupplierModal.tsx:38-41 | the form changes by exactly one field |
| AddSupplier.AddSupplierForm.HandleSubmit | src/components/Suppliers/AddSupplierModal.tsx:43-47 | the current form is passed to the save iff a save handler is given; a throwing save escapes and leaves the modal as it was, otherwise the modal closes and the parent's close is scheduled |
| SignIn.ValidateSignIn | src/components/auth/SignInForm.tsx:20-50 | valid iff neither field is blank |
| SignIn.ValidateSignInMessages | src/components/auth/SignInForm.tsx:20-50 | the user-id message iff the user id is blank; the password message iff only the password is |
| SignIn.ValidationUsesTrim | src/components/auth/SignInForm.tsx:20-50 | the checks agree with `!field.trim()` |
| SignIn.SignInErrorMessage | src/components/auth/SignInForm.tsx:102-150 | 400: the server's text or the invalid-credentials text; 404 and 401: fixed texts; otherwise the server's text, the error's message or the generic text; never empty |
| SignIn.Step | src/components/auth/SignInForm.tsx:64-98 | a failure always carries a non-empty message |
| SignIn.UnsuccessfulAnswerMessage | src/components/auth/SignInForm.tsx:96-98 | an unsuccessful answer shows its text, or "Failed to sign in" when it is empty; an object answer shows "[object Object]" |
| SignIn.CredentialWrites | src/components/auth/SignInForm.tsx:72-77 | exactly six keys: token, user id, company id or "", company name or "", role or "", locations or [] |
| SignIn.Store | src/components/auth/SignInForm.tsx:72-77 | written keys take the new values; every other key is untouched |
| SignIn.StorageOnlyOnLogin | src/components/auth/SignInForm.tsx:64-77 | storage is written iff the answer is successful and carries credentials, and the token stored is the answer's |
| SignIn.SignInForm.constructor | src/components/auth/SignInForm.tsx:13-17 | the initial state |
| SignIn.SignInForm.SetUserId | src/components/auth/SignInForm.tsx:220 | the user id changes |
| SignIn.SignInForm.SetPassword | src/components/auth/SignInForm.tsx:232 | the password changes |
| SignIn.SignInForm.ToggleShowPassword | src/components/auth/SignInForm.tsx:235 | the password visibility flips |
| SignIn.SignInForm.HandleSubmit | src/components/auth/SignInForm.tsx:52-154 | invalid: no request, that message, nothing stored; valid: the fields are sent as typed, then OTP mode, or session stored with a success toast and a scheduled navigation, or an error toast; loading ends false |
| SignIn.SignInForm.HandleOtpSuccess | src/components/auth/SignInForm.tsx:156-171 | OTP mode ends with a success toast and both fields cleared |
| SignIn.SignInForm.HandleBackToSignIn | src/components/auth/SignInForm.tsx:173-177 | OTP mode ends and both fields are cleared |
| Otp.ValidateOtp | src/components/auth/OtpForm.tsx:21-93 | valid iff code, password and confirmation are not blank, the password is at least 6 UTF-16 code units long and equals the confirmation; each message iff its check is the first to fail |
| Otp.AcceptedPassword | src/components/auth/OtpForm.tsx:21-93 | an accepted password equals the confirmation, is at least 6 UTF-16 code units (hence at least 3 characters) long and survives `trim` |
| Otp.PaddingCountsTowardsLength | src/components/auth/OtpForm.tsx:21-63 | a password of three letters padded by spaces to six passes |
| Otp.AstralCharactersCountTwice | src/components/auth/OtpForm.tsx:50 | three emoji count as six code units, so such a password passes the length check |
| Otp.OtpErrorMessage | src/components/auth/OtpForm.tsx:130 | the server's text, the error's message or the generic text; never empty |
| Otp.OtpResult | src/components/auth/OtpForm.tsx:112-127 | success iff the answer says so; an unsuccessful answer shows its text or "Failed to change password" |
| Otp.OtpForm.constructor | src/components/auth/OtpForm.tsx:15-19 | the user id from the sign-in form; empty fields |
| Otp.OtpForm.SetOtpCode | src/components/auth/OtpForm.tsx:180 | the code changes |
| Otp.OtpForm.SetNewPassword | src/components/auth/OtpForm.tsx:191 | the password changes |
| Otp.OtpForm.SetConfirmPassword | src/components/auth/OtpForm.tsx:202 | the confirmation changes |
| Otp.OtpForm.HandleSubmit | src/components/auth/OtpForm.tsx:95-144 | invalid by `ValidateOtp` (lengths in UTF-16 units): no request, that message; valid: the four fields sent verbatim; `onSuccess` is called iff the change succeeds, with the matching toast; loading ends false |
| CategoryApi.BaseUrl | src/api/CategoryApi.ts:4 | the base URL always ends in "/Category"; a missing variable renders as "undefined" |
| CategoryApi.ApiTimeout | src/api/CategoryApi.ts:5 | 5000 when the parsed value is NaN or 0, otherwise that value |
| CategoryApi.WithAuthorization | src/api/CategoryApi.ts:18-25 | `Authorization: Bearer <token>` is set iff a non-empty token is stored; every other header is unchanged |
| CategoryApi.WithAuthorizationIdempotent | src/api/CategoryApi.ts:18-25 | intercepting twice equals intercepting once |
| CategoryApi.RequestConfig.constructor | src/api/CategoryApi.ts:11-13 | the JSON content-type header |
| CategoryApi.RequestConfig.InterceptRequest | src/api/CategoryApi.ts:18-25 | the headers are updated in place by the bearer rule |
| CategoryApi.InterceptResponseError | src/api/CategoryApi.ts:32-49 | connection refused first, then CORS, each with its fixed message; any other error passes through unchanged |
| CategoryApi.HandleApiError | src/api/CategoryApi.ts:71-98 | never successful, no data, a non-empty message; a replaced rejection keeps its message |
| CategoryApi.Settle | src/api/CategoryApi.ts:101-108 | a delivered body is returned as is; a failure becomes the handler's result |
| CategoryApi.ConnectionRefusedWins | src/api/CategoryApi.ts:35-40 | a refused connection shows the connection message whatever else the error holds |
| CategoryApi.CorsWinsOverResponse | src/api/CategoryApi.ts:41-46 | a CORS message beats a server response |
| CategoryApi.ResponseMessageShown | src/api/CategoryApi.ts:72-78 | with a response, the server's message or "An error occurred" |
| CategoryApi.HandlerCorsBranchUnreachable | src/api/CategoryApi.ts:79-86 | an error the interceptor passes through never mentions CORS, so the handler's own CORS branch never fires |
| CategoryApi.NoResponseCases | src/api/CategoryApi.ts:79-97 | a sent request without response gives the no-response text; otherwise the error's message or "An error occurred" |
| CategoryApi.GetCategories | src/api/CategoryApi.ts:101-108 | GET "/" and the settled result |
| CategoryApi.GetCategoryByName | src/api/CategoryApi.ts:111-118 | GET "/name" and the settled result |
| CategoryApi.CreateCategory | src/api/CategoryApi.ts:121-128 | POST "/" with the category and the settled result |
| CategoryApi.UpdateCategory | src/api/CategoryApi.ts:131-138 | PUT "/name" with the category and the settled result |
| CategoryApi.DeleteCategory | src/api/CategoryApi.ts:141-148 | DELETE "/name" and the settled result |
| CategoryApi.NamedPathsDistinct | src/api/CategoryApi.ts:113-143 | the path after the slash is the name, so different names give different paths |
| CategoryApi.CallsNeverThrow | src/api/CategoryApi.ts:101-148 | every call that fails reports failure instead of throwing |

## Left out

- Rendering, styling, icons and the open/close animations are left out. So are the delays of `setTimeout`: the model keeps only a flag saying a close or a navigation is due.
  - The simulated 1 s load becomes `FinishLoading`.
  - The 1.5 s notice timer becomes `DismissDeleteSuccess`.
- axios, the network and the ordering of `await` are left out. Answers, failures and the stored token are parameters.
- `localStorage` is a map that the sign-in form writes. The locations are stored as a value, not as the text `JSON.stringify` produces, because that text depends on the server's objects.
- `toLowerCase` and `toUpperCase` are modelled on ASCII letters only. Other Unicode case mappings are not modelled.
- ProductForm.ApplyChange: `Number(...)` of a typed value is the parameter `parse`. The product of two numbers is exact over `real`, where the source uses IEEE doubles. `JsNumber` has no `Infinity`, so `Number("1e400")` and the NaN of `Infinity * 0` are not modelled.
- Products.FilteredByPrice: `toString` of a price is the parameter `priceText`, not JavaScript's number formatting.
- Strings.IntToString: only integral company ids are rendered. A non-integral number would print with a fraction.
- The edit modal on the category screen passes a category-table row into the category form, whose type differs. Each side is modelled with its own record; the conversion between them is not modelled.
- ProductForm.ProductFormState.HandleSubmit, AddSupplier.AddSupplierForm.HandleSubmit, AddCategory.AddCategoryForm.HandleSubmit: the browser's `required` and `type=url` checks, which block the submit while a required input is empty or a URL is malformed, are not modelled. The handlers are modelled from the moment the submit event fires, so a blank draft can reach them in the model.
- Toast options and `console.error` are not modelled. A toast is its kind and its text.
- AddProducts.tsx, the view and delete modals, the page shells, the route table, the mock data files and CountryMap.tsx are not part of this model. Only the fixed rows of BasicTableOne.tsx and RecentOrders.tsx are kept, because those components list them.
- LoginApi.ts contributes only its request and response shapes and its two paths. apiClient.ts is not part of this model.
- Success toasts keep the exact characters the source files hold. The sign-in form's emoji text is stored in a wrong encoding, and the model keeps those code points.
