/**
 * The customers list screen: a row store keyed by `id`, filled from
 * `data.customers.data`, and a data table with a checkbox column, twelve
 * field columns filtered by exact text match, and a row-actions column.
 */
module CustomersScreen {
  import opened Wrappers
  import opened JsValues
  import opened ColumnDefs
  import opened RowStores
  import opened DataTableViewOptions
  import opened DataTables

  /** The record fields the screen shows, one column each, in order. */
  const FieldKeys: seq<string> :=
    ["id", "user_id", "salesmen_code", "name", "tel1", "tel2", "address", "gender",
     "subscription_date", "rate", "photo_url", "tags"]

  /** The field columns: all filtered by exact text match, all sortable but the photo. */
  function FieldColumns(): (columns: seq<Column>)
    ensures |columns| == |FieldKeys|
    ensures forall k :: 0 <= k < |columns| ==> columns[k] == DataColumn(FieldKeys[k], FieldKeys[k] != "photo_url", ExactStringFilter)
  {
    seq(|FieldKeys|, k requires 0 <= k < |FieldKeys| => DataColumn(FieldKeys[k], FieldKeys[k] != "photo_url", ExactStringFilter))
  }

  /** The screen's column definitions, in order: the checkbox column, the field columns, the row actions. */
  function Columns(): (columns: seq<Column>)
    ensures |columns| == 14
    ensures columns[0] == SelectColumn() && columns[13] == ActionsColumn()
    ensures columns[1..13] == FieldColumns()
  {
    var cs := [SelectColumn()] + FieldColumns() + [ActionsColumn()];
    assert cs[1..13] == FieldColumns();
    cs
  }

  /**
   * The select column can be neither sorted nor hidden; every field column but the
   * photo can be sorted; every column but the select column can be hidden.
   */
  lemma ColumnFlags()
    ensures !CanSort(Columns()[0]) && !CanHide(Columns()[0])
    ensures forall k :: 1 <= k < 14 ==> CanHide(Columns()[k])
    ensures forall k :: 1 <= k < 13 ==> (CanSort(Columns()[k]) <==> Columns()[k].id != "photo_url")
  {
    var cs := Columns();
    forall k | 1 <= k < 13
      ensures cs[k] == FieldColumns()[k - 1]
    {
      assert cs[1..13][k - 1] == cs[k];
    }
  }

  /** The column menu lists every column but the select column, labelled by its field name, the last one "Actions". */
  lemma MenuCaptions(visibility: map<string, bool>)
    ensures |Menu(Columns(), visibility)| == 13
    ensures forall k :: 0 <= k < 12 ==> Menu(Columns(), visibility)[k].caption == FieldKeys[k]
    ensures Menu(Columns(), visibility)[12].caption == "Actions"
  {
    var tail := FieldColumns() + [ActionsColumn()];
    HideableAfterSelect();
    MenuFollowsHideable(Columns(), visibility, tail);
    FieldKeysAreNotSpecial();
    forall k | 0 <= k < 12
      ensures MenuLabel(tail[k]) == FieldKeys[k]
    {
      assert tail[k] == FieldColumns()[k];
    }
    assert tail[12] == ActionsColumn();
  }

  lemma MenuFollowsHideable(columns: seq<Column>, visibility: map<string, bool>, hideable: seq<Column>)
    requires HideableColumns(columns) == hideable
    ensures |Menu(columns, visibility)| == |hideable|
    ensures forall k :: 0 <= k < |hideable| ==> Menu(columns, visibility)[k].caption == MenuLabel(hideable[k])
  {
  }

  /** Every column after the select column is hideable, so the menu's columns are exactly those. */
  lemma HideableAfterSelect()
    ensures HideableColumns(Columns()) == FieldColumns() + [ActionsColumn()]
  {
    var fields := FieldColumns();
    var tail := fields + [ActionsColumn()];
    forall k | 0 <= k < |tail|
      ensures CanHide(tail[k])
    {
      if k < |fields| {
        assert tail[k] == fields[k];
      } else {
        assert tail[k] == ActionsColumn();
      }
    }
    HideableAfterUnhideable(SelectColumn(), tail);
    assert Columns() == [SelectColumn()] + tail;
  }

  lemma FieldKeysAreNotSpecial()
    ensures forall k :: 0 <= k < |FieldKeys| ==> FieldKeys[k] != "select" && FieldKeys[k] != "actions"
  {
  }

  /**
   * Mounting the screen: an empty store of `customers` keyed by `id`, and a table
   * wired to the bulk-delete handler. The screen passes no `filterColumn` (its
   * `filterableColumns` prop is not one the table reads), so no toolbar is rendered.
   */
  method Mount() returns (store: RowStore, table: DataTable)
    ensures fresh(store) && fresh(table)
    ensures store.entity == "customers" && store.idField == "id" && store.rows == []
    ensures table.store == store && table.columns == Columns() && table.deleteWired
    ensures table.addUrl == "/customers/addCustomer"
    ensures !table.ToolbarShown()
    ensures table.rowSelection == {} && table.columnFilters == [] && table.sorting == [] && table.columnVisibility == map[]
  {
    store := new RowStore("customers", "id");
    table := new DataTable(Columns(), None, "/customers/addCustomer", store, true);
  }
}
