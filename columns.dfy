/**
 * Column definitions as the list screens declare them and as the table reads
 * them: an id, a header (a plain string, a render function, or none), the
 * `enableSorting` / `enableHiding` flags when given, whether the column reads
 * a record field (`accessorKey`), and which filter function it names.
 */
module ColumnDefs {
  import opened Wrappers
  import opened JsValues

  /** The `header` of a column definition. Only a string header has a text the menu can show. */
  datatype Header = TextHeader(text: string) | RenderedHeader | NoHeader

  /** The column's `filterFn`: the table's automatic choice, or the page's exact string match. */
  datatype FilterKind = AutoFilter | ExactStringFilter

  datatype Column = Column(
    id: string,
    header: Header,
    enableSorting: Option<bool>,
    enableHiding: Option<bool>,
    hasAccessor: bool,
    filterFn: FilterKind)

  /** `column.getCanHide()`: every column may be hidden unless its definition says `enableHiding: false`. */
  predicate CanHide(c: Column) {
    c.enableHiding != Some(false)
  }

  /** `column.getCanSort()`: a column that reads a field, unless its definition says `enableSorting: false`. */
  predicate CanSort(c: Column) {
    c.enableSorting != Some(false) && c.hasAccessor
  }

  /** The checkbox column every list screen puts first: a rendered header, neither sortable nor hideable. */
  function SelectColumn(): (c: Column)
    ensures c.id == "select" && !CanSort(c) && !CanHide(c)
  {
    Column("select", RenderedHeader, Some(false), Some(false), false, AutoFilter)
  }

  /** An `accessorKey` column with a rendered sortable header. */
  function DataColumn(key: string, sortable: bool, filterFn: FilterKind): (c: Column)
    ensures c.id == key && CanHide(c) && (CanSort(c) <==> sortable)
  {
    Column(key, RenderedHeader, Some(sortable), None, true, filterFn)
  }

  /** The row-actions column every list screen puts last: no header, no field, no flags. */
  function ActionsColumn(): (c: Column)
    ensures c.id == "actions" && c.header == NoHeader && CanHide(c) && !CanSort(c)
  {
    Column("actions", NoHeader, None, None, false, AutoFilter)
  }

  /** `table.getColumn(id)` finds a column. */
  predicate HasColumn(columns: seq<Column>, id: string) {
    exists k :: 0 <= k < |columns| && columns[k].id == id
  }

  /** No two columns share an id. */
  predicate UniqueIds(columns: seq<Column>) {
    forall i, j :: 0 <= i < j < |columns| ==> columns[i].id != columns[j].id
  }

  /** The column named `id`, if any. */
  function ColumnNamed(columns: seq<Column>, id: string): (r: Option<Column>)
    ensures r.Some? <==> HasColumn(columns, id)
    ensures r.Some? ==> r.value in columns && r.value.id == id
  {
    if |columns| == 0 then None
    else if columns[0].id == id then Some(columns[0])
    else
      var rest := ColumnNamed(columns[1..], id);
      assert HasColumn(columns, id) ==> HasColumn(columns[1..], id) by {
        if HasColumn(columns, id) {
          var k :| 0 <= k < |columns| && columns[k].id == id;
          assert columns[1..][k - 1].id == id;
        }
      }
      rest
  }

  /**
   * The list screens' `filterEquals`: a row passes when the string form of its cell
   * equals the string form of the filter value.
   */
  function FilterEquals(cell: Value, filterValue: Value): (accepted: bool)
    ensures accepted <==> ToStr(cell) == ToStr(filterValue)
  {
    ToStr(cell) == ToStr(filterValue)
  }

  /** Two numbers match exactly when they are equal. */
  lemma FilterEqualsNumbers(a: int, b: int)
    ensures FilterEquals(Num(a), Num(b)) <==> a == b
  {
    if FilterEquals(Num(a), Num(b)) {
      IntToStringInjective(a, b);
    }
  }

  /** A typed filter text matches a numeric cell exactly when it is the number's decimal form. */
  lemma FilterEqualsTypedNumber(n: int, typed: string)
    ensures FilterEquals(Num(n), Str(typed)) <==> typed == IntToString(n)
  {
  }

  /** The match does not depend on which side is the cell. */
  lemma FilterEqualsSymmetric(a: Value, b: Value)
    ensures FilterEquals(a, b) <==> FilterEquals(b, a)
  {
  }

  /** A number never matches a typed text carrying a leading zero or a plus sign, although it denotes the same number. */
  lemma FilterEqualsIsTextual(n: nat)
    ensures !FilterEquals(Num(n), Str("0" + NatToString(n)))
    ensures !FilterEquals(Num(n), Str("+" + NatToString(n)))
  {
    var s := NatToString(n);
    if n < 10 {
      assert |"0" + s| == 2;
    } else {
      assert ("0" + s)[0] == '0';
      LeadingDigitNonZero(n);
    }
    assert ("+" + s)[0] == '+';
    assert IntToString(n) == s;
  }

  /** The decimal form of a number of two or more digits does not start with `0`. */
  lemma {:induction false} LeadingDigitNonZero(n: nat)
    requires n >= 10
    ensures NatToString(n)[0] != '0'
  {
    if n / 10 >= 10 {
      LeadingDigitNonZero(n / 10);
    } else {
      assert NatToString(n / 10) == [DigitChar(n / 10)];
    }
  }
}
