/**
 * The salesmen list screen: a row store keyed by `code`, filled from
 * `data.salesmen.data`, and a data table whose `is_inactive` column shows a
 * green or red status dot.
 */
module SalesmenScreen {
  import opened Wrappers
  import opened JsValues
  import opened ColumnDefs
  import opened RowStores
  import opened DataTableViewOptions
  import opened DataTables

  /** The colour of the status dot. */
  datatype StatusColor = Green | Red

  /** The record fields the screen shows, one column each, in order. */
  const FieldKeys: seq<string> := ["code", "name", "phone", "address", "is_inactive"]

  /** The field columns: all sortable, all filtered by exact text match. */
  function FieldColumns(): (columns: seq<Column>)
    ensures |columns| == |FieldKeys|
    ensures forall k :: 0 <= k < |columns| ==> columns[k] == DataColumn(FieldKeys[k], true, ExactStringFilter)
  {
    seq(|FieldKeys|, k requires 0 <= k < |FieldKeys| => DataColumn(FieldKeys[k], true, ExactStringFilter))
  }

  /** The screen's column definitions, in order: the checkbox column, the field columns, the row actions. */
  function Columns(): (columns: seq<Column>)
    ensures |columns| == 7
    ensures columns[0] == SelectColumn() && columns[6] == ActionsColumn()
    ensures columns[1..6] == FieldColumns()
  {
    var cs := [SelectColumn()] + FieldColumns() + [ActionsColumn()];
    assert cs[1..6] == FieldColumns();
    cs
  }

  /** The select column can be neither sorted nor hidden; every field column can be sorted and hidden. */
  lemma ColumnFlags()
    ensures !CanSort(Columns()[0]) && !CanHide(Columns()[0])
    ensures forall k :: 1 <= k < 6 ==> CanSort(Columns()[k]) && CanHide(Columns()[k])
  {
    var cs := Columns();
    forall k | 1 <= k < 6
      ensures cs[k] == FieldColumns()[k - 1]
    {
      assert cs[1..6][k - 1] == cs[k];
    }
  }

  /** The status dot: green when `is_inactive` is strictly the number 0, red for anything else. */
  function Status(isInactive: Value): (color: StatusColor)
    ensures color == Green <==> isInactive == Num(0)
  {
    if StrictEquals(isInactive, Num(0)) then Green else Red
  }

  /**
   * The comparison is strict: a salesman stored with `false`, the text "0", or no
   * `is_inactive` at all is shown red, like an inactive one.
   */
  lemma StatusIsStrict()
    ensures Status(Bool(false)) == Red
    ensures Status(Str("0")) == Red
    ensures Status(Undefined) == Red && Status(Null) == Red
    ensures Status(Num(1)) == Red && Status(Bool(true)) == Red
  {
  }

  /** The row action deletes by `row.original.code`, so a successful delete removes that salesman. */
  lemma RowActionRemovesSalesman(rows: seq<Value>, i: nat)
    requires i < |rows|
    ensures rows[i] !in WithoutKey(rows, "code", Get(rows[i], "code"))
  {
    RowActionRemovesRow(rows, "code", i);
  }

  /**
   * The table sends `id ?? code` for each selected row while this screen removes rows
   * by `code`: a salesman record that carries an `id` is sent by its `id`, and the
   * screen then keeps it in its list although the delete call succeeded.
   */
  lemma BulkDeleteOfRecordWithId()
    ensures var row := Obj([Entry("id", Num(7)), Entry("code", Str("S7"))]);
      SelectedIds([row], {0}, (r: Value) => true) == [Num(7)] &&
      WithoutKeys([row], "code", [Num(7)]) == [row]
  {
    var row := Obj([Entry("id", Num(7)), Entry("code", Str("S7"))]);
    assert SelectedIndicesBelow([row], {0}, (r: Value) => true, 0) == [];
    assert SelectedIndices([row], {0}, (r: Value) => true) == [0];
    assert WithoutKeys([row], "code", [Num(7)]) == [row] + WithoutKeys([], "code", [Num(7)]);
  }

  /**
   * Mounting the screen: an empty store of `salesmen` keyed by `code`, and a table
   * wired to the bulk-delete handler. The screen passes no `filterColumn` (its
   * `filterableColumns` prop is not one the table reads), so no toolbar is rendered.
   */
  method Mount() returns (store: RowStore, table: DataTable)
    ensures fresh(store) && fresh(table)
    ensures store.entity == "salesmen" && store.idField == "code" && store.rows == []
    ensures table.store == store && table.columns == Columns() && table.deleteWired
    ensures table.addUrl == "/salesmen/addSalesmen"
    ensures !table.ToolbarShown()
    ensures table.rowSelection == {} && table.columnFilters == [] && table.sorting == [] && table.columnVisibility == map[]
  {
    store := new RowStore("salesmen", "code");
    table := new DataTable(Columns(), None, "/salesmen/addSalesmen", store, true);
  }
}
