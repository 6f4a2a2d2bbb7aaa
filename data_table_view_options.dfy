/**
 * The data table's view options: the column-visibility menu (which columns it
 * lists, under which label, with which check state, and what toggling does)
 * and the Export button's error handling.
 */
module DataTableViewOptions {
  import opened Wrappers
  import opened JsValues
  import opened Effects
  import opened ColumnDefs

  /** One checkbox of the "Toggle columns" menu. */
  datatype MenuItem = MenuItem(id: string, caption: string, checked: bool)

  /** The columns the menu lists: those that can be hidden, in the table's column order. */
  function HideableColumns(columns: seq<Column>): (r: seq<Column>)
    ensures |r| <= |columns|
    ensures forall k :: 0 <= k < |r| ==> CanHide(r[k]) && r[k] in columns
    ensures forall k :: 0 <= k < |columns| && CanHide(columns[k]) ==> columns[k] in r
  {
    if |columns| == 0 then []
    else
      var rest := HideableColumns(columns[1..]);
      assert forall k :: 1 <= k < |columns| ==> columns[k] == columns[1..][k - 1];
      (if CanHide(columns[0]) then [columns[0]] else []) + rest
  }

  /** Listing the columns of `a + b` lists those of `a` and then those of `b`: the order is the table's. */
  lemma {:induction false} HideableColumnsAppend(a: seq<Column>, b: seq<Column>)
    ensures HideableColumns(a + b) == HideableColumns(a) + HideableColumns(b)
  {
    if |a| > 0 {
      var head := if CanHide(a[0]) then [a[0]] else [];
      assert (a + b)[0] == a[0] && (a + b)[1..] == a[1..] + b;
      assert HideableColumns(a + b) == head + HideableColumns(a[1..] + b);
      HideableColumnsAppend(a[1..], b);
      assert head + (HideableColumns(a[1..]) + HideableColumns(b)) == (head + HideableColumns(a[1..])) + HideableColumns(b);
    } else {
      assert a + b == b;
    }
  }

  /** When every column can be hidden, the menu lists them all. */
  lemma {:induction false} AllHideable(columns: seq<Column>)
    requires forall k :: 0 <= k < |columns| ==> CanHide(columns[k])
    ensures HideableColumns(columns) == columns
  {
    if |columns| > 0 {
      AllHideable(columns[1..]);
      assert [columns[0]] + columns[1..] == columns;
    }
  }

  /** A table whose first column cannot be hidden and whose other columns all can: the menu lists all but the first. */
  lemma HideableAfterUnhideable(first: Column, rest: seq<Column>)
    requires !CanHide(first)
    requires forall k :: 0 <= k < |rest| ==> CanHide(rest[k])
    ensures HideableColumns([first] + rest) == rest
  {
    assert ([first] + rest)[1..] == rest;
    AllHideable(rest);
  }

  /**
   * The menu label of a column: its header when that is a string, else "Select"
   * for the `select` column, "Actions" for the `actions` column, else the column id.
   */
  function MenuLabel(c: Column): (caption: string)
    ensures c.header.TextHeader? ==> caption == c.header.text
    ensures !c.header.TextHeader? && c.id == "select" ==> caption == "Select"
    ensures !c.header.TextHeader? && c.id == "actions" ==> caption == "Actions"
    ensures !c.header.TextHeader? && c.id != "select" && c.id != "actions" ==> caption == c.id
  {
    match c.header
    case TextHeader(text) => text
    case _ => if c.id == "select" then "Select" else if c.id == "actions" then "Actions" else c.id
  }

  /** A column without a string header is labelled with a non-empty text whenever its id is non-empty. */
  lemma MenuLabelNonEmpty(c: Column)
    requires !c.header.TextHeader? && c.id != ""
    ensures MenuLabel(c) != ""
  {
  }

  /** `column.getIsVisible()`: the recorded override, or visible when there is none. */
  function IsVisible(visibility: map<string, bool>, id: string): (visible: bool)
    ensures id !in visibility ==> visible
    ensures id in visibility ==> visible == visibility[id]
  {
    if id in visibility then visibility[id] else true
  }

  /** `column.toggleVisibility(value)` on a hideable column: that column's entry becomes `value`. */
  function WithVisibility(visibility: map<string, bool>, id: string, value: bool): (r: map<string, bool>)
    ensures IsVisible(r, id) == value
    ensures forall other :: other != id ==> IsVisible(r, other) == IsVisible(visibility, other)
  {
    visibility[id := value]
  }

  /** The menu: one checkbox per hideable column, in column order, checked exactly when the column is visible. */
  function Menu(columns: seq<Column>, visibility: map<string, bool>): (items: seq<MenuItem>)
    ensures |items| == |HideableColumns(columns)|
    ensures forall k :: 0 <= k < |items| ==>
      var c := HideableColumns(columns)[k];
      items[k] == MenuItem(c.id, MenuLabel(c), IsVisible(visibility, c.id))
  {
    var hideable := HideableColumns(columns);
    seq(|hideable|, k requires 0 <= k < |hideable| =>
      MenuItem(hideable[k].id, MenuLabel(hideable[k]), IsVisible(visibility, hideable[k].id)))
  }

  /** A column that cannot be hidden never gets a checkbox. */
  lemma UnhideableNotInMenu(columns: seq<Column>, visibility: map<string, bool>, c: Column)
    requires c in columns && !CanHide(c)
    requires UniqueIds(columns)
    ensures forall k :: 0 <= k < |Menu(columns, visibility)| ==> Menu(columns, visibility)[k].id != c.id
  {
    var hideable := HideableColumns(columns);
    forall k | 0 <= k < |hideable|
      ensures hideable[k].id != c.id
    {
      var i :| 0 <= i < |columns| && columns[i] == hideable[k];
      var j :| 0 <= j < |columns| && columns[j] == c;
      assert i != j;
    }
  }

  /** The endpoint the Export button asks for: `${Export}/export`, with the `Export` prop that the table never receives. */
  function ExportUrl(exportProp: Value): (url: string)
    ensures exportProp == Undefined ==> url == "undefined/export"
  {
    ToStr(exportProp) + "/export"
  }

  /** The storage key the export helper reads its token from. */
  const ExportTokenKey := "token"

  /** What one export call did: the URL it requested, if it got that far, and how it settled. */
  datatype ExportCall = ExportCall(requested: Option<string>, result: Settled)

  /**
   * `exportToExcel(url)`: without a truthy "token" it throws before any request;
   * otherwise it GETs `${url}/export`. An ok reply resolves with "Export successful!"
   * without reading the body; any other reply settles as the API clients' calls do,
   * with the fallback naming the URL.
   */
  function ExportToExcel(token: Option<string>, url: Value, reply: Reply): (call: ExportCall)
    ensures call.requested.Some? <==> token.Some? && token.value != ""
    ensures call.requested.Some? ==> call.requested.value == ExportUrl(url)
    ensures call.requested.None? ==> call.result == Threw(ErrorObject("No auth token found"))
    ensures call.requested.Some? ==> (call.result.Resolved? <==> !reply.NetworkError? && reply.ok)
    ensures call.requested.Some? && call.result.Resolved? ==> call.result.value == Str("Export successful!")
    ensures call.requested.Some? && !call.result.Resolved? ==>
      call.result == Settle(reply, "Failed to export data from " + ToStr(url))
  {
    if token.None? || token.value == "" then ExportCall(None, Threw(ErrorObject("No auth token found")))
    else if !reply.NetworkError? && reply.ok then ExportCall(Some(ExportUrl(url)), Resolved(Str("Export successful!")))
    else ExportCall(Some(ExportUrl(url)), Settle(reply, "Failed to export data from " + ToStr(url)))
  }

  /**
   * The Export button's handler: it awaits the export and catches whatever it throws,
   * logging it, so the click itself always completes. It changes no state.
   */
  method HandleExport(storage: BrowserStorage, exportProp: Value, reply: Reply) returns (requested: Option<string>, logged: Option<Value>)
    ensures requested == ExportToExcel(storage.GetItem(ExportTokenKey), exportProp, reply).requested
    ensures logged.None? <==> ExportToExcel(storage.GetItem(ExportTokenKey), exportProp, reply).result.Resolved?
    ensures logged.Some? ==> logged == Some(ExportToExcel(storage.GetItem(ExportTokenKey), exportProp, reply).result.thrown)
  {
    var call := ExportToExcel(storage.GetItem(ExportTokenKey), exportProp, reply);
    requested := call.requested;
    logged := if call.result.Threw? then Some(call.result.thrown) else None;
  }

  /**
   * The table renders the view options without an `Export` prop: a click with a stored
   * token requests "undefined/export", and only an ok reply ends without a logged error;
   * without a token nothing is requested and "No auth token found" is logged.
   */
  lemma ExportFromTable(token: Option<string>, reply: Reply)
    ensures token.Some? && token.value != "" ==> ExportToExcel(token, Undefined, reply).requested == Some("undefined/export")
    ensures token.Some? && token.value != "" ==>
      (ExportToExcel(token, Undefined, reply).result.Resolved? <==> (reply.Response? || reply.NotJson?) && reply.ok)
    ensures !(token.Some? && token.value != "") ==>
      ExportToExcel(token, Undefined, reply).requested.None? &&
      ErrorDescription(ExportToExcel(token, Undefined, reply).result.thrown, "") == "No auth token found"
  {
  }
}
