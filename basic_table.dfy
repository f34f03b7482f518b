/**
 * The demo orders table: a fixed list of five orders, row selection with a
 * select-all header checkbox, and a dropdown of checkboxes that hides and
 * shows columns.
 */
module BasicTables {
  import opened Wrappers
  import opened Strings
  import opened Lists

  datatype User = User(image: string, name: string, role: string)

  /** A row; `team` is the list of team member pictures. */
  datatype Order = Order(id: int, user: User, projectName: string, team: seq<string>, budget: string, status: string)

  function OrderId(o: Order): int {
    o.id
  }

  const TableData: seq<Order> := [
    Order(1, User("/images/user/user-17.jpg", "Lindsey Curtis", "Web Designer"), "Agency Website",
      ["/images/user/user-22.jpg", "/images/user/user-23.jpg", "/images/user/user-24.jpg"], "3.9K", "Active"),
    Order(2, User("/images/user/user-18.jpg", "Kaiya George", "Project Manager"), "Technology",
      ["/images/user/user-25.jpg", "/images/user/user-26.jpg"], "24.9K", "Pending"),
    Order(3, User("/images/user/user-17.jpg", "Zain Geidt", "Content Writing"), "Blog Writing",
      ["/images/user/user-27.jpg"], "12.7K", "Active"),
    Order(4, User("/images/user/user-20.jpg", "Abram Schleifer", "Digital Marketer"), "Social Media",
      ["/images/user/user-28.jpg", "/images/user/user-29.jpg", "/images/user/user-30.jpg"], "2.8K", "Cancel"),
    Order(5, User("/images/user/user-21.jpg", "Carla George", "Front-end Developer"), "Website",
      ["/images/user/user-31.jpg", "/images/user/user-32.jpg", "/images/user/user-33.jpg"], "4.5K", "Active")
  ]

  /** The keys of the columns that can be hidden, in display order. */
  const Columns: seq<string> := ["user", "projectName", "team", "status", "budget"]

  /** `.replace(/([A-Z])/g, " $1")`: a space before every capital letter. */
  function SpaceBeforeCapitals(s: string): (r: string)
    decreases |s|
  {
    if s == [] then [] else (if IsUpper(s[0]) then [' ', s[0]] else [s[0]]) + SpaceBeforeCapitals(s[1..])
  }

  /** The dropdown's text for a column key: `col.charAt(0).toUpperCase() + col.slice(1).replace(...)`. */
  function FormatLabel(col: string): (r: string)
    ensures col == [] <==> r == []
    ensures col != [] ==> r[0] == UpperChar(col[0]) && !IsLower(r[0])
  {
    if col == [] then [] else [UpperChar(col[0])] + SpaceBeforeCapitals(col[1..])
  }

  function RemoveSpaces(s: string): string
    decreases |s|
  {
    if s == [] then [] else (if s[0] == ' ' then [] else [s[0]]) + RemoveSpaces(s[1..])
  }

  /** The spaces the formatter inserts are the only spaces in its output. */
  lemma {:induction false} SpacesRemoved(s: string)
    requires ' ' !in s
    ensures RemoveSpaces(SpaceBeforeCapitals(s)) == s
    decreases |s|
  {
    if s != [] {
      var head := if IsUpper(s[0]) then [' ', s[0]] else [s[0]];
      assert ' ' !in s[1..];
      SpacesRemoved(s[1..]);
      RemoveSpacesAppend(head, SpaceBeforeCapitals(s[1..]));
      if IsUpper(s[0]) {
        assert RemoveSpaces(head) == [s[0]] by {
          assert head[1..] == [s[0]];
          assert [s[0]][1..] == [];
        }
      } else {
        assert head[1..] == [];
      }
    }
  }

  lemma {:induction false} RemoveSpacesAppend(a: string, b: string)
    ensures RemoveSpaces(a + b) == RemoveSpaces(a) + RemoveSpaces(b)
    decreases |a|
  {
    if a == [] {
      assert a + b == b;
    } else {
      assert (a + b)[1..] == a[1..] + b;
      RemoveSpacesAppend(a[1..], b);
    }
  }

  /**
   * A camel-case key is recovered from its text by lower-casing the first
   * letter and dropping the spaces: the text loses nothing.
   */
  lemma LabelRoundTrip(col: string)
    requires col != [] && IsLower(col[0]) && ' ' !in col
    ensures var text := FormatLabel(col);
      text != [] && [LowerChar(text[0])] + RemoveSpaces(text[1..]) == col
  {
    var text := FormatLabel(col);
    assert text[1..] == SpaceBeforeCapitals(col[1..]);
    assert ' ' !in col[1..];
    SpacesRemoved(col[1..]);
    assert col == [col[0]] + col[1..];
  }

  /**
   * On text without spaces, every capital of the output has a space just
   * before it and every space is followed by a capital: the spaces sit
   * exactly in front of the capitals.
   */
  /** Spaces and capitals pair up: a space just before each capital, a capital just after each space. */
  predicate SpacedCapitals(r: string) {
    && (forall i :: 0 <= i < |r| && IsUpper(r[i]) ==> 0 < i && r[i - 1] == ' ')
    && (forall i :: 0 <= i < |r| && r[i] == ' ' ==> i + 1 < |r| && IsUpper(r[i + 1]))
  }

  lemma {:induction false} SpaceBeforeCapitalsShape(s: string)
    requires ' ' !in s
    ensures SpacedCapitals(SpaceBeforeCapitals(s))
    decreases |s|
  {
    if s != [] {
      assert ' ' !in s[1..];
      SpaceBeforeCapitalsShape(s[1..]);
      var head := if IsUpper(s[0]) then [' ', s[0]] else [s[0]];
      var rest := SpaceBeforeCapitals(s[1..]);
      var r := SpaceBeforeCapitals(s);
      assert r == head + rest;
      assert SpacedCapitals(rest);
      forall i | 0 <= i < |r| && IsUpper(r[i]) ensures 0 < i && r[i - 1] == ' ' {
        if i >= |head| {
          assert r[i] == rest[i - |head|];
          if i > |head| {
            assert r[i - 1] == rest[i - 1 - |head|];
          }
        }
      }
      assert s[0] in s;
      forall i | 0 <= i < |r| && r[i] == ' ' ensures i + 1 < |r| && IsUpper(r[i + 1]) {
        if i >= |head| {
          var j := i - |head|;
          assert rest[j] == ' ';
          assert j + 1 < |rest| && IsUpper(rest[j + 1]);
          assert r[i + 1] == rest[j + 1];
        } else {
          assert r[i] == head[i];
          assert r[1] == head[1] == s[0];
        }
      }
    }
  }

  /**
   * The label of a space-free key: its first letter upper-cased, and after
   * it the rest of the key with a space inserted before each capital and
   * nowhere else.
   */
  lemma FormatLabelShape(col: string)
    requires col != [] && ' ' !in col
    ensures var r := FormatLabel(col);
      && r[0] == UpperChar(col[0]) && r[0] != ' '
      && (forall i :: 1 <= i < |r| && IsUpper(r[i]) ==> 1 < i && r[i - 1] == ' ')
      && (forall i :: 0 <= i < |r| && r[i] == ' ' ==> i + 1 < |r| && IsUpper(r[i + 1]))
      && RemoveSpaces(r[1..]) == col[1..]
  {
    var r := FormatLabel(col);
    var rest := SpaceBeforeCapitals(col[1..]);
    assert ' ' !in col[1..];
    assert col[0] in col;
    SpaceBeforeCapitalsShape(col[1..]);
    SpacesRemoved(col[1..]);
    assert r[1..] == rest;
    forall i | 1 <= i < |r| && IsUpper(r[i]) ensures 1 < i && r[i - 1] == ' ' {
      assert r[i] == rest[i - 1];
      if i > 1 {
        assert r[i - 1] == rest[i - 2];
      }
    }
    forall i | 0 <= i < |r| && r[i] == ' ' ensures i + 1 < |r| && IsUpper(r[i + 1]) {
      if i > 0 {
        assert r[i] == rest[i - 1];
        assert r[i + 1] == rest[i];
      }
    }
  }

  lemma {:induction false} SpaceBeforeCapitalsAppend(a: string, b: string)
    ensures SpaceBeforeCapitals(a + b) == SpaceBeforeCapitals(a) + SpaceBeforeCapitals(b)
    decreases |a|
  {
    if a == [] {
      assert a + b == b;
    } else {
      assert (a + b)[1..] == a[1..] + b;
      SpaceBeforeCapitalsAppend(a[1..], b);
    }
  }

  /** Text without capitals is left as it is. */
  lemma {:induction false} NoCapitalsUnchanged(s: string)
    requires forall i :: 0 <= i < |s| ==> !IsUpper(s[i])
    ensures SpaceBeforeCapitals(s) == s
    decreases |s|
  {
    if s != [] {
      NoCapitalsUnchanged(s[1..]);
    }
  }

  /** The label of a key made of a lower-case word with no capitals after its first letter. */
  lemma WordLabel(col: string)
    requires col != [] && forall i :: 0 <= i < |col| ==> !IsUpper(col[i])
    ensures FormatLabel(col) == [UpperChar(col[0])] + col[1..]
  {
    NoCapitalsUnchanged(col[1..]);
  }

  /** A capitalised word with no other capital gains one space in front. */
  lemma CapitalisedWordSpaced(w: string)
    requires w != [] && IsUpper(w[0]) && forall i :: 1 <= i < |w| ==> !IsUpper(w[i])
    ensures SpaceBeforeCapitals(w) == [' '] + w
  {
    NoCapitalsUnchanged(w[1..]);
  }

  lemma ProjectNameLabel()
    ensures FormatLabel("projectName") == "Project Name"
  {
    assert "projectName"[1..] == "roject" + "Name";
    SpaceBeforeCapitalsAppend("roject", "Name");
    NoCapitalsUnchanged("roject");
    CapitalisedWordSpaced("Name");
  }

  /** The label of each single-word column. */
  lemma WordLabels()
    ensures FormatLabel("user") == "User" && FormatLabel("team") == "Team"
    ensures FormatLabel("status") == "Status" && FormatLabel("budget") == "Budget"
  {
    WordLabel("user");
    WordLabel("team");
    WordLabel("status");
    WordLabel("budget");
  }

  /** The dropdown's labels read exactly as the table's column headers. */
  lemma LabelsMatchHeaders()
    ensures Keys(Columns, FormatLabel) == ["User", "Project Name", "Team", "Status", "Budget"]
  {
    WordLabels();
    ProjectNameLabel();
  }

  /** The status badge: "Active" is green, "Pending" amber, anything else red. */
  function StatusColor(status: string): (r: BadgeColor)
    ensures r == Success <==> status == "Active"
    ensures r == Warning <==> status == "Pending"
    ensures r == Error <==> status != "Active" && status != "Pending"
  {
    if status == "Active" then Success else if status == "Pending" then Warning else Error
  }

  /** The columns a hidden-column list leaves on screen, in display order. */
  function VisibleColumns(hidden: seq<string>): (r: seq<string>)
    ensures forall c :: c in r <==> c in Columns && c !in hidden
    ensures IsSubsequence(r, Columns)
  {
    FilterIsSubsequence(Columns, c => c !in hidden);
    Filter(Columns, c => c !in hidden)
  }

  /** Toggling a column flips that column's visibility and no other's. */
  lemma ToggleColumnFlipsOne(hidden: seq<string>, col: string, c: string)
    requires c in Columns
    ensures c in VisibleColumns(ToggleRow(hidden, col)) <==>
      if c == col then c !in VisibleColumns(hidden) else c in VisibleColumns(hidden)
  {
    if c != col {
      assert c in ToggleRow(hidden, col) <==> c in hidden by {
        assert multiset(ToggleRow(hidden, col))[c] == multiset(hidden)[c];
      }
    }
  }

  /** The component's state. */
  class BasicTableOne {
    var selectedRows: seq<int>
    var hiddenColumns: seq<string>
    var isFilterDropdownOpen: bool

    constructor ()
      ensures selectedRows == [] && hiddenColumns == [] && !isFilterDropdownOpen
    {
      selectedRows := [];
      hiddenColumns := [];
      isFilterDropdownOpen := false;
    }

    /** The header checkbox: ticked when as many rows are selected as the table has. */
    function HeaderChecked(): (r: bool)
      reads this
      ensures r <==> |selectedRows| == 5
      ensures selectedRows == Keys(TableData, OrderId) ==> r
    {
      |selectedRows| == |TableData|
    }

    /** Clears the selection if as many rows are selected as the table has, otherwise selects every row. */
    method HandleSelectAll()
      modifies this`selectedRows
      ensures old(HeaderChecked()) ==> selectedRows == []
      ensures !old(HeaderChecked()) ==> selectedRows == [1, 2, 3, 4, 5] && HeaderChecked()
    {
      assert Keys(TableData, OrderId) == [1, 2, 3, 4, 5];
      selectedRows := SelectAll(selectedRows, |TableData|, Keys(TableData, OrderId));
    }

    method HandleRowSelect(id: int)
      modifies this`selectedRows
      ensures selectedRows == ToggleRow(old(selectedRows), id)
      ensures id in selectedRows <==> id !in old(selectedRows)
    {
      selectedRows := ToggleRow(selectedRows, id);
    }

    /** A column checkbox: hides the column if shown, shows it if hidden. */
    method ToggleColumn(column: string)
      modifies this`hiddenColumns
      ensures hiddenColumns == ToggleRow(old(hiddenColumns), column)
      ensures column in hiddenColumns <==> column !in old(hiddenColumns)
    {
      hiddenColumns := ToggleRow(hiddenColumns, column);
    }

    method ToggleFilterDropdown()
      modifies this`isFilterDropdownOpen
      ensures isFilterDropdownOpen == !old(isFilterDropdownOpen)
    {
      isFilterDropdownOpen := !isFilterDropdownOpen;
    }
  }
}
