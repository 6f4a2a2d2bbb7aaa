/**
 * The invoices list screen: a row store keyed by `id`, filled from
 * `data.invoices.data`, and a data table whose toolbar filters the `id` column.
 */
module InvoicesScreen {
  import opened Wrappers
  import opened JsValues
  import opened ColumnDefs
  import opened RowStores
  import opened DataTableToolbar
  import opened DataTables

  /** The record fields the screen shows, one column each, in order. */
  const FieldKeys: seq<string> := ["id", "user_id", "customer_id", "total_quantity", "total_price", "date"]

  /** The field columns: all sortable, with the table's automatic filter. */
  function FieldColumns(): (columns: seq<Column>)
    ensures |columns| == |FieldKeys|
    ensures forall k :: 0 <= k < |columns| ==> columns[k] == DataColumn(FieldKeys[k], true, AutoFilter)
  {
    seq(|FieldKeys|, k requires 0 <= k < |FieldKeys| => DataColumn(FieldKeys[k], true, AutoFilter))
  }

  /** The screen's column definitions, in order: the checkbox column, the field columns, the row actions. */
  function Columns(): (columns: seq<Column>)
    ensures |columns| == 8
    ensures columns[0] == SelectColumn() && columns[7] == ActionsColumn()
    ensures columns[1..7] == FieldColumns()
  {
    var cs := [SelectColumn()] + FieldColumns() + [ActionsColumn()];
    assert cs[1..7] == FieldColumns();
    cs
  }

  /** The toolbar's column exists: the first field column is `id`. */
  lemma IdColumnExists()
    ensures HasColumn(Columns(), "id")
  {
    assert Columns()[1] == Columns()[1..7][0];
  }

  /** Typing into the invoices toolbar filters the `id` column by that text and the input shows it. */
  lemma IdFilterFollowsInput(filters: seq<ColumnFilter>, text: string)
    ensures InputValue(Columns(), WithFilterValue(filters, "id", text), "id") == text
    ensures FilterValueOf(WithFilterValue(filters, "id", text), "id") == if text == "" then None else Some(text)
  {
    IdColumnExists();
    TypedTextIsShown(Columns(), filters, "id", text);
  }

  /**
   * Mounting the screen: an empty store of `invoices` keyed by `id`, and a table
   * wired to the bulk-delete handler whose toolbar filters the `id` column.
   */
  method Mount() returns (store: RowStore, table: DataTable)
    ensures fresh(store) && fresh(table)
    ensures store.entity == "invoices" && store.idField == "id" && store.rows == []
    ensures table.store == store && table.columns == Columns() && table.deleteWired
    ensures table.addUrl == "/invoices/addInvoice"
    ensures table.ToolbarShown() && table.filterColumn == Some("id")
    ensures table.rowSelection == {} && table.columnFilters == [] && table.sorting == [] && table.columnVisibility == map[]
  {
    store := new RowStore("invoices", "id");
    table := new DataTable(Columns(), Some("id"), "/invoices/addInvoice", store, true);
  }
}
