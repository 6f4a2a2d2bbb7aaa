/**
 * The generic data table every list screen renders: its four pieces of view
 * state (row selection, column filters, sorting, column visibility), the
 * bulk-delete handler that turns the selection into identifiers for the
 * screen, and the conditions under which the toolbar, the selection bar and
 * the "No results." row appear.
 *
 * Filtering, sorting and pagination belong to the table library; the model
 * takes their outcome as parameters: `passes` says whether a row passes the
 * current column filters, `pageRows` lists the row indices of the current page.
 * Rows are identified by their index in the data, the library's default row id.
 */
module DataTables {
  import opened Wrappers
  import opened JsValues
  import opened Effects
  import opened ColumnDefs
  import opened RowStores
  import opened DataTableToolbar
  import opened DataTableViewOptions

  /** One entry of the `sorting` state. */
  datatype SortEntry = SortEntry(id: string, desc: bool)

  /** The table body: a single "No results." cell spanning every column, or the rows of the current page. */
  datatype Body = NoResults(colSpan: nat) | PageRows(indices: seq<nat>)

  /** The header checkbox of the select column. */
  datatype CheckState = Checked | Indeterminate | Unchecked

  /** `row.original.id ?? row.original.code`: the identifier sent for a selected row. */
  function IdOrCode(row: Value): (key: Value)
    ensures !Nullish(Get(row, "id")) ==> key == Get(row, "id")
    ensures Nullish(Get(row, "id")) ==> key == Get(row, "code")
  {
    Coalesce(Get(row, "id"), Get(row, "code"))
  }

  /** The indices below `n` that are selected and whose row passes the filters, in ascending order. */
  function SelectedIndicesBelow(rows: seq<Value>, selection: set<nat>, passes: Value -> bool, n: nat): (r: seq<nat>)
    requires n <= |rows|
    ensures forall k :: 0 <= k < |r| ==> r[k] < n && r[k] in selection && passes(rows[r[k]])
    ensures forall i :: 0 <= i < n && i in selection && passes(rows[i]) ==> i in r
    ensures forall a, b :: 0 <= a < b < |r| ==> r[a] < r[b]
  {
    if n == 0 then []
    else
      var last := n - 1;
      SelectedIndicesBelow(rows, selection, passes, last) + (if last in selection && passes(rows[last]) then [last] else [])
  }

  /**
   * `table.getFilteredSelectedRowModel().rows`: the selected rows among those that pass
   * the filters, in data order. Selected indices beyond the data are ignored.
   */
  function SelectedIndices(rows: seq<Value>, selection: set<nat>, passes: Value -> bool): (r: seq<nat>)
    ensures forall k :: 0 <= k < |r| ==> r[k] < |rows| && r[k] in selection && passes(rows[r[k]])
    ensures forall i :: 0 <= i < |rows| && i in selection && passes(rows[i]) ==> i in r
    ensures forall a, b :: 0 <= a < b < |r| ==> r[a] < r[b]
  {
    SelectedIndicesBelow(rows, selection, passes, |rows|)
  }

  /** The selected rows that pass the filters, as a set of row indices. */
  function SelectedSet(rows: seq<Value>, selection: set<nat>, passes: Value -> bool): set<nat> {
    set i: nat | i < |rows| && i in selection && passes(rows[i])
  }

  /** The selected filtered rows are listed once each: there are as many as the set has members. */
  lemma SelectedIndicesCount(rows: seq<Value>, selection: set<nat>, passes: Value -> bool)
    ensures |SelectedIndices(rows, selection, passes)| == |SelectedSet(rows, selection, passes)|
  {
    AscendingCount(SelectedIndices(rows, selection, passes), SelectedSet(rows, selection, passes));
  }

  /** An ascending sequence listing exactly the members of a set is as long as the set is large. */
  lemma {:induction false} AscendingCount(r: seq<nat>, s: set<nat>)
    requires forall a, b :: 0 <= a < b < |r| ==> r[a] < r[b]
    requires forall k :: 0 <= k < |r| ==> r[k] in s
    requires forall x :: x in s ==> x in r
    ensures |r| == |s|
  {
    if |r| > 0 {
      var last := r[|r| - 1];
      var front := r[..|r| - 1];
      forall x | x in s - {last}
        ensures x in front
      {
        var k :| 0 <= k < |r| && r[k] == x;
        assert k < |r| - 1 && front[k] == x;
      }
      AscendingCount(front, s - {last});
    }
  }

  /** Selecting one more row that passes the filters adds exactly one to the count. */
  lemma SelectingOneMoreRow(rows: seq<Value>, selection: set<nat>, passes: Value -> bool, i: nat)
    requires i < |rows| && i !in selection && passes(rows[i])
    ensures |SelectedIndices(rows, selection + {i}, passes)| == |SelectedIndices(rows, selection, passes)| + 1
  {
    SelectedIndicesCount(rows, selection, passes);
    SelectedIndicesCount(rows, selection + {i}, passes);
    assert SelectedSet(rows, selection + {i}, passes) == SelectedSet(rows, selection, passes) + {i};
  }

  /** The identifiers handed to the screen: one per selected filtered row, in data order, `id` or else `code`. */
  function SelectedIds(rows: seq<Value>, selection: set<nat>, passes: Value -> bool): (ids: seq<Value>)
    ensures |ids| == |SelectedIndices(rows, selection, passes)|
    ensures forall k :: 0 <= k < |ids| ==> ids[k] == IdOrCode(rows[SelectedIndices(rows, selection, passes)[k]])
  {
    var idx := SelectedIndices(rows, selection, passes);
    seq(|idx|, k requires 0 <= k < |idx| => IdOrCode(rows[idx[k]]))
  }

  /** The selection bar's text, or `None` when the bar is hidden. */
  function SelectionBar(count: nat): (text: Option<string>)
    ensures text.None? <==> count == 0
    ensures count > 0 ==> text.value == NatToString(count) + (if count == 1 then " row" else " rows") + " selected"
  {
    if count == 0 then None
    else Some(NatToString(count) + (if count == 1 then " row" else " rows") + " selected")
  }

  /** The bar says "row" for exactly one selected row and "rows" for more. */
  lemma SingularOnlyForOne(count: nat)
    requires count > 0
    ensures SelectionBar(count).value == NatToString(count) + " row selected" <==> count == 1
  {
    var s := NatToString(count);
    if count != 1 {
      assert SelectionBar(count).value == s + " rows selected";
      assert (s + " rows selected")[|s| + 4] == 's';
      if |s + " row selected"| == |s + " rows selected"| {
        assert false;
      }
    }
  }

  /** The table body for the current page: "No results." exactly when the page has no rows. */
  function TableBody(columns: seq<Column>, pageRows: seq<nat>): (b: Body)
    ensures b.NoResults? <==> |pageRows| == 0
    ensures b.NoResults? ==> b.colSpan == |columns|
    ensures b.PageRows? ==> b.indices == pageRows
  {
    if |pageRows| == 0 then NoResults(|columns|) else PageRows(pageRows)
  }

  /**
   * The select column's header checkbox: checked when the page has rows and all of
   * them are selected, indeterminate when only some are, unchecked otherwise.
   */
  function HeaderCheckbox(pageRows: seq<nat>, selection: set<nat>): (s: CheckState)
    ensures s == Checked <==> |pageRows| > 0 && forall k :: 0 <= k < |pageRows| ==> pageRows[k] in selection
    ensures s == Indeterminate <==> s != Checked && exists k :: 0 <= k < |pageRows| && pageRows[k] in selection
  {
    if |pageRows| > 0 && forall k :: 0 <= k < |pageRows| ==> pageRows[k] in selection then Checked
    else if exists k :: 0 <= k < |pageRows| && pageRows[k] in selection then Indeterminate
    else Unchecked
  }

  /** `toggleAllPageRowsSelected(value)`: every row of the page becomes selected, or none of them. */
  function WithPageSelected(selection: set<nat>, pageRows: seq<nat>, value: bool): (r: set<nat>)
    ensures forall k :: 0 <= k < |pageRows| ==> (pageRows[k] in r <==> value)
    ensures forall i :: i !in pageRows ==> (i in r <==> i in selection)
  {
    if value then selection + set k | k in pageRows else selection - set k | k in pageRows
  }

  /** After selecting the whole page the header box is checked; after clearing it the box is unchecked. */
  lemma HeaderFollowsToggleAll(selection: set<nat>, pageRows: seq<nat>, value: bool)
    requires |pageRows| > 0
    ensures HeaderCheckbox(pageRows, WithPageSelected(selection, pageRows, value)) == if value then Checked else Unchecked
  {
    var r := WithPageSelected(selection, pageRows, value);
    if !value {
      assert pageRows[0] !in r;
    }
  }

  /**
   * When every row's `id ?? code` is the field the screen deletes by, a bulk delete of
   * the selection removes every selected filtered row and keeps every row whose key
   * is not among the selected keys.
   */
  lemma BulkDeleteRemovesSelection(rows: seq<Value>, selection: set<nat>, passes: Value -> bool, field: string)
    requires forall i :: 0 <= i < |rows| ==> IdOrCode(rows[i]) == Get(rows[i], field)
    ensures forall k :: 0 <= k < |SelectedIndices(rows, selection, passes)| ==>
      rows[SelectedIndices(rows, selection, passes)[k]] !in WithoutKeys(rows, field, SelectedIds(rows, selection, passes))
    ensures forall i :: 0 <= i < |rows| && Get(rows[i], field) !in SelectedIds(rows, selection, passes) ==>
      rows[i] in WithoutKeys(rows, field, SelectedIds(rows, selection, passes))
  {
    var idx := SelectedIndices(rows, selection, passes);
    var ids := SelectedIds(rows, selection, passes);
    var keep := (row: Value) => Get(row, field) !in ids;
    forall k | 0 <= k < |idx|
      ensures rows[idx[k]] !in WithoutKeys(rows, field, ids)
    {
      assert Get(rows[idx[k]], field) == ids[k];
      FilterMembers(rows, keep, rows[idx[k]]);
    }
    forall i | 0 <= i < |rows| && Get(rows[i], field) !in ids
      ensures rows[i] in WithoutKeys(rows, field, ids)
    {
      FilterMembers(rows, keep, rows[i]);
    }
  }

  /** The table component with its view state. The rows it shows are the screen's store. */
  class DataTable {
    const columns: seq<Column>
    /** The `filterColumn` prop; the toolbar needs a non-empty one. */
    const filterColumn: Option<string>
    const addUrl: string
    /** The screen's list of records, which the table receives as `data`. */
    const store: RowStore
    /** `typeof onDeleteSelected === "function"`: the screen passed a bulk-delete handler. */
    const deleteWired: bool

    var rowSelection: set<nat>
    var columnFilters: seq<ColumnFilter>
    var sorting: seq<SortEntry>
    var columnVisibility: map<string, bool>

    /** The initial view state: nothing selected, filtered, sorted or hidden. */
    constructor (columns: seq<Column>, filterColumn: Option<string>, addUrl: string, store: RowStore, deleteWired: bool)
      ensures this.columns == columns && this.filterColumn == filterColumn && this.addUrl == addUrl
      ensures this.store == store && this.deleteWired == deleteWired
      ensures rowSelection == {} && columnFilters == [] && sorting == [] && columnVisibility == map[]
    {
      this.columns := columns;
      this.filterColumn := filterColumn;
      this.addUrl := addUrl;
      this.store := store;
      this.deleteWired := deleteWired;
      rowSelection := {};
      columnFilters := [];
      sorting := [];
      columnVisibility := map[];
    }

    /** `filterColumn && <DataTableToolbar …/>`: the toolbar is rendered only for a non-empty filter column. */
    predicate ToolbarShown()
      reads this
    {
      filterColumn.Some? && filterColumn.value != ""
    }

    /** `getFilteredSelectedRowModel().rows.length`: how many selected rows pass the filters. */
    function SelectedCount(passes: Value -> bool): (n: nat)
      reads this, store
      ensures n == |SelectedSet(store.rows, rowSelection, passes)|
      ensures n > 0 <==> exists i :: 0 <= i < |store.rows| && i in rowSelection && passes(store.rows[i])
    {
      var idx := SelectedIndices(store.rows, rowSelection, passes);
      assert |idx| > 0 ==> idx[0] < |store.rows| && idx[0] in rowSelection && passes(store.rows[idx[0]]);
      SelectedIndicesCount(store.rows, rowSelection, passes);
      |idx|
    }

    /** The selection bar the table renders: hidden with no selected filtered row, else their number. */
    function ShownBar(passes: Value -> bool): (text: Option<string>)
      reads this, store
      ensures text.None? <==> forall i :: 0 <= i < |store.rows| && i in rowSelection ==> !passes(store.rows[i])
      ensures text.Some? ==>
        var n := |SelectedSet(store.rows, rowSelection, passes)|;
        text.value == NatToString(n) + (if n == 1 then " row" else " rows") + " selected"
    {
      SelectionBar(SelectedCount(passes))
    }

    /**
     * The bulk-delete button: when the screen wired a handler, the identifiers of the
     * selected filtered rows go to it, the store is reconciled by the screen (or left
     * alone when the delete call threw, since the screen catches that itself), and then
     * the selection is cleared. Without a handler nothing happens.
     */
    method HandleBulkDelete(passes: Value -> bool, reply: Settled) returns (sent: Option<seq<Value>>)
      modifies this, store
      ensures !deleteWired ==> sent.None? && rowSelection == old(rowSelection) && store.rows == old(store.rows)
      ensures deleteWired ==> sent == Some(SelectedIds(old(store.rows), old(rowSelection), passes))
      ensures deleteWired ==> rowSelection == {} && ShownBar(passes).None?
      ensures deleteWired ==> store.rows == if reply.Resolved? then WithoutKeys(old(store.rows), store.idField, sent.value) else old(store.rows)
      ensures columnFilters == old(columnFilters) && sorting == old(sorting) && columnVisibility == old(columnVisibility)
    {
      if !deleteWired {
        return None;
      }
      var ids := SelectedIds(store.rows, rowSelection, passes);
      var _ := store.BulkDelete(ids, reply);
      rowSelection := {};
      sent := Some(ids);
    }

    /** Typing into the toolbar's input: the filter column's entry follows the text. */
    method SetFilterValue(text: string)
      requires ToolbarShown()
      modifies this
      ensures HasColumn(columns, filterColumn.value) ==> columnFilters == WithFilterValue(old(columnFilters), filterColumn.value, text)
      ensures !HasColumn(columns, filterColumn.value) ==> columnFilters == old(columnFilters)
      ensures rowSelection == old(rowSelection) && sorting == old(sorting) && columnVisibility == old(columnVisibility)
    {
      if HasColumn(columns, filterColumn.value) {
        columnFilters := WithFilterValue(columnFilters, filterColumn.value, text);
      }
    }

    /** The toolbar's Reset button: every column filter is cleared. */
    method ResetColumnFilters()
      requires ToolbarShown()
      modifies this
      ensures columnFilters == [] && !IsFiltered(columnFilters)
      ensures rowSelection == old(rowSelection) && sorting == old(sorting) && columnVisibility == old(columnVisibility)
    {
      columnFilters := [];
    }

    /** A checkbox of the column menu: a hideable column's visibility becomes the checkbox value. */
    method ToggleVisibility(id: string, value: bool)
      modifies this
      ensures (match ColumnNamed(columns, id) case Some(c) => CanHide(c) case None => false) ==>
        columnVisibility == WithVisibility(old(columnVisibility), id, value)
      ensures !(match ColumnNamed(columns, id) case Some(c) => CanHide(c) case None => false) ==>
        columnVisibility == old(columnVisibility)
      ensures rowSelection == old(rowSelection) && columnFilters == old(columnFilters) && sorting == old(sorting)
    {
      match ColumnNamed(columns, id) {
        case Some(c) =>
          if CanHide(c) {
            columnVisibility := WithVisibility(columnVisibility, id, value);
          }
        case None =>
      }
    }

    /** A row's checkbox: that row becomes selected or unselected. */
    method ToggleRowSelected(i: nat, value: bool)
      requires i < |store.rows|
      modifies this
      ensures rowSelection == if value then old(rowSelection) + {i} else old(rowSelection) - {i}
      ensures columnFilters == old(columnFilters) && sorting == old(sorting) && columnVisibility == old(columnVisibility)
    {
      rowSelection := if value then rowSelection + {i} else rowSelection - {i};
    }

    /** The header checkbox: every row of the current page becomes selected, or none of them. */
    method ToggleAllPageRowsSelected(pageRows: seq<nat>, value: bool)
      modifies this
      ensures rowSelection == WithPageSelected(old(rowSelection), pageRows, value)
      ensures columnFilters == old(columnFilters) && sorting == old(sorting) && columnVisibility == old(columnVisibility)
    {
      rowSelection := WithPageSelected(rowSelection, pageRows, value);
    }
  }
}
