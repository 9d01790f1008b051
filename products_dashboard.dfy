/**
 * The products table (src/components/features/ProductsDashboard.tsx): which columns
 * are visible, how toggling a column changes that list, and which headers render.
 */
module ProductsDashboard {
  import opened Seqs

  /** Every column of the table, in display order. */
  const AllColumns: seq<string> := ["id", "ref", "name", "description", "tags", "picture", "created_at"]

  /**
   * `toggleColumn`: a visible column is filtered out (every occurrence of it); a hidden
   * one is appended at the end. No other column appears or disappears.
   */
  function ToggleColumn(visible: seq<string>, column: string): (r: seq<string>)
    ensures column in r <==> column !in visible
    ensures forall c :: c != column ==> (c in r <==> c in visible)
    ensures column !in visible ==> r == visible + [column]
  {
    if column in visible then RemoveAll(visible, column) else visible + [column]
  }

  /** Hiding a column keeps the remaining ones in their original relative order. */
  lemma ToggleKeepsOrder(visible: seq<string>, column: string)
    requires column in visible
    ensures IsSubsequence(ToggleColumn(visible, column), visible)
    ensures multiset(ToggleColumn(visible, column)) == multiset(visible)[column := 0]
  {
    RemoveAllIsSubsequence(visible, column);
  }

  /** Showing a hidden column and hiding it again gives back exactly the original list. */
  lemma ToggleTwiceRestores(visible: seq<string>, column: string)
    requires column !in visible
    ensures ToggleColumn(ToggleColumn(visible, column), column) == visible
  {
    RemoveAllConcat(visible, [column], column);
    RemoveAllAbsent(visible, column);
    assert RemoveAll([column], column) == [];
  }

  /** A list without duplicates stays without duplicates. */
  lemma ToggleNoDuplicates(visible: seq<string>, column: string)
    requires NoDuplicates(visible)
    ensures NoDuplicates(ToggleColumn(visible, column))
  {
    if column in visible {
      RemoveAllNoDuplicates(visible, column);
    }
  }

  /** Initially all seven columns are visible, each once. */
  lemma AllColumnsDistinct()
    ensures |AllColumns| == 7 && NoDuplicates(AllColumns)
  {
  }

  function ColumnLabel(column: string): string {
    match column
    case "id" => "ID"
    case "ref" => "Ref"
    case "name" => "Name"
    case "description" => "Description"
    case "tags" => "Tags"
    case "picture" => "Picture"
    case "created_at" => "Created At"
    case _ => column
  }

  /** The labels of the columns of `columns` that are visible, in the order of `columns`. */
  function VisibleLabels(columns: seq<string>, visible: seq<string>): (r: seq<string>)
    ensures |r| <= |columns|
  {
    if columns == [] then []
    else (if columns[0] in visible then [ColumnLabel(columns[0])] else []) + VisibleLabels(columns[1..], visible)
  }

  /** The header row: the visible columns in fixed table order, then the always-present actions header. */
  function Headers(visible: seq<string>): (r: seq<string>)
    ensures |r| >= 1 && r[|r| - 1] == "Actions"
  {
    VisibleLabels(AllColumns, visible) + ["Actions"]
  }

  /** A label shows exactly when some visible column of `columns` carries it. */
  lemma {:induction false} VisibleLabelsMembers(columns: seq<string>, visible: seq<string>, x: string)
    ensures x in VisibleLabels(columns, visible) <==> exists c :: c in columns && c in visible && ColumnLabel(c) == x
  {
    if columns != [] {
      VisibleLabelsMembers(columns[1..], visible, x);
      var rest := VisibleLabels(columns[1..], visible);
      assert VisibleLabels(columns, visible) == (if columns[0] in visible then [ColumnLabel(columns[0])] else []) + rest;
      forall c | c in columns[1..] ensures c in columns { }
      if exists c :: c in columns && c in visible && ColumnLabel(c) == x {
        var c :| c in columns && c in visible && ColumnLabel(c) == x;
        if c != columns[0] {
          assert c in columns[1..];
        }
      }
    }
  }

  /** The seven labels differ from each other and from the actions header. */
  lemma LabelsDistinct()
    ensures forall i, j :: 0 <= i < j < |AllColumns| ==> ColumnLabel(AllColumns[i]) != ColumnLabel(AllColumns[j])
    ensures forall i :: 0 <= i < |AllColumns| ==> ColumnLabel(AllColumns[i]) != "Actions"
  {
    assert ColumnLabel(AllColumns[0]) == "ID" && ColumnLabel(AllColumns[1]) == "Ref" && ColumnLabel(AllColumns[2]) == "Name";
    assert ColumnLabel(AllColumns[3]) == "Description" && ColumnLabel(AllColumns[4]) == "Tags";
    assert ColumnLabel(AllColumns[5]) == "Picture" && ColumnLabel(AllColumns[6]) == "Created At";
    assert "Name"[0] != "Tags"[0];
  }

  /** A column's header shows exactly when the column is visible. */
  lemma HeaderShowsExactlyVisible(visible: seq<string>, column: string)
    requires column in AllColumns
    ensures ColumnLabel(column) in Headers(visible) <==> column in visible
  {
    LabelsDistinct();
    VisibleLabelsMembers(AllColumns, visible, ColumnLabel(column));
    var i :| 0 <= i < |AllColumns| && AllColumns[i] == column;
    if ColumnLabel(column) in VisibleLabels(AllColumns, visible) {
      var c :| c in AllColumns && c in visible && ColumnLabel(c) == ColumnLabel(column);
      var j :| 0 <= j < |AllColumns| && AllColumns[j] == c;
      assert i == j;
    }
  }

  lemma {:induction false} VisibleLabelsBySet(columns: seq<string>, v1: seq<string>, v2: seq<string>)
    requires forall c :: c in columns ==> (c in v1 <==> c in v2)
    ensures VisibleLabels(columns, v1) == VisibleLabels(columns, v2)
  {
    if columns != [] {
      VisibleLabelsBySet(columns[1..], v1, v2);
    }
  }

  /** The header row depends only on which columns are visible, not on the order they were toggled in. */
  lemma HeadersIgnoreToggleOrder(v1: seq<string>, v2: seq<string>)
    requires forall c :: c in v1 <==> c in v2
    ensures Headers(v1) == Headers(v2)
  {
    VisibleLabelsBySet(AllColumns, v1, v2);
  }

  lemma {:induction false} AllVisibleLabels(columns: seq<string>, visible: seq<string>)
    requires forall c :: c in columns ==> c in visible
    ensures |VisibleLabels(columns, visible)| == |columns|
    ensures forall i :: 0 <= i < |columns| ==> VisibleLabels(columns, visible)[i] == ColumnLabel(columns[i])
  {
    if columns != [] {
      AllVisibleLabels(columns[1..], visible);
      var r := VisibleLabels(columns, visible);
      assert r == [ColumnLabel(columns[0])] + VisibleLabels(columns[1..], visible);
      forall i | 1 <= i < |columns| ensures r[i] == ColumnLabel(columns[i]) {
        assert columns[1..][i - 1] == columns[i];
      }
    }
  }

  /** With every column visible, all seven headers show in table order, then the actions header. */
  lemma InitialHeaders()
    ensures |Headers(AllColumns)| == 8
    ensures forall i :: 0 <= i < 7 ==> Headers(AllColumns)[i] == ColumnLabel(AllColumns[i])
  {
    AllVisibleLabels(AllColumns, AllColumns);
  }

  /** The `visibleColumns` state. */
  class Dashboard {
    var visibleColumns: seq<string>

    constructor ()
      ensures visibleColumns == AllColumns
    {
      visibleColumns := AllColumns;
    }

    method ToggleColumnState(column: string)
      modifies this
      ensures visibleColumns == ToggleColumn(old(visibleColumns), column)
    {
      visibleColumns := ToggleColumn(visibleColumns, column);
    }
  }
}
