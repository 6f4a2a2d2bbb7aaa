/**
 * The data table's toolbar: the text filter on one column, the Reset button,
 * and the Add button. The filter list is the table's `columnFilters` state;
 * typing updates it the way the table library's `setFilterValue` does
 * (replace the column's entry, append one when there is none, drop the entry
 * when the text becomes empty).
 */
module DataTableToolbar {
  import opened Wrappers
  import opened ColumnDefs

  /** One entry of `columnFilters`: the column id and the text typed for it. */
  datatype ColumnFilter = ColumnFilter(id: string, value: string)

  /** What the toolbar shows. `resetShown` is the Reset button; `addTarget` is where Add navigates. */
  datatype ToolbarView = ToolbarView(placeholder: string, inputValue: string, resetShown: bool, addTarget: string)

  /** `isFiltered`: at least one column filter is active. */
  predicate IsFiltered(filters: seq<ColumnFilter>) {
    |filters| > 0
  }

  /** No column has two filter entries. */
  predicate UniqueFilterIds(filters: seq<ColumnFilter>) {
    forall i, j :: 0 <= i < j < |filters| ==> filters[i].id != filters[j].id
  }

  predicate HasFilter(filters: seq<ColumnFilter>, id: string) {
    exists k :: 0 <= k < |filters| && filters[k].id == id
  }

  /** `column.getFilterValue()`: the value of the first entry for `id`, if any. */
  function FilterValueOf(filters: seq<ColumnFilter>, id: string): (r: Option<string>)
    ensures r.None? <==> !HasFilter(filters, id)
    ensures r.Some? ==> exists k :: 0 <= k < |filters| && filters[k] == ColumnFilter(id, r.value) &&
                                    forall j :: 0 <= j < k ==> filters[j].id != id
  {
    if |filters| == 0 then None
    else if filters[0].id == id then Some(filters[0].value)
    else
      var rest := FilterValueOf(filters[1..], id);
      assert HasFilter(filters, id) ==> HasFilter(filters[1..], id) by {
        if HasFilter(filters, id) {
          var k :| 0 <= k < |filters| && filters[k].id == id;
          assert filters[1..][k - 1].id == id;
        }
      }
      assert rest.Some? ==> exists k :: 0 <= k < |filters| && filters[k] == ColumnFilter(id, rest.value) &&
                                        forall j :: 0 <= j < k ==> filters[j].id != id by {
        if rest.Some? {
          var k :| 0 <= k < |filters[1..]| && filters[1..][k] == ColumnFilter(id, rest.value) &&
                   forall j :: 0 <= j < k ==> filters[1..][j].id != id;
          assert filters[k + 1] == ColumnFilter(id, rest.value);
          forall j | 0 <= j < k + 1
            ensures filters[j].id != id
          {
            if j > 0 {
              assert filters[j] == filters[1..][j - 1];
            }
          }
        }
      }
      rest
  }

  /** The entries for `id` removed, every other entry kept in order. */
  function WithoutFilter(filters: seq<ColumnFilter>, id: string): (r: seq<ColumnFilter>)
    ensures !HasFilter(r, id)
    ensures |r| <= |filters|
    ensures forall k :: 0 <= k < |r| ==> r[k].id != id && r[k] in filters
    ensures forall k :: 0 <= k < |filters| && filters[k].id != id ==> filters[k] in r
  {
    if |filters| == 0 then []
    else
      var rest := WithoutFilter(filters[1..], id);
      assert forall k :: 1 <= k < |filters| ==> filters[k] == filters[1..][k - 1];
      (if filters[0].id != id then [filters[0]] else []) + rest
  }

  /** Each entry for `id` gets the value `text`; the others stay as they are. */
  function ReplaceFilter(filters: seq<ColumnFilter>, id: string, text: string): (r: seq<ColumnFilter>)
    ensures |r| == |filters|
    ensures forall k :: 0 <= k < |r| ==> r[k] == if filters[k].id == id then ColumnFilter(id, text) else filters[k]
  {
    if |filters| == 0 then []
    else [if filters[0].id == id then ColumnFilter(id, text) else filters[0]] + ReplaceFilter(filters[1..], id, text)
  }

  /**
   * `column.setFilterValue(text)` as the table library applies it: empty text removes
   * the column's filter; otherwise an existing entry is replaced in place, or a new
   * entry is appended at the end.
   */
  function WithFilterValue(filters: seq<ColumnFilter>, id: string, text: string): (r: seq<ColumnFilter>)
    ensures text == "" ==> r == WithoutFilter(filters, id) && !HasFilter(r, id)
    ensures text != "" && HasFilter(filters, id) ==> r == ReplaceFilter(filters, id, text)
    ensures text != "" && !HasFilter(filters, id) ==> r == filters + [ColumnFilter(id, text)]
  {
    if text == "" then WithoutFilter(filters, id)
    else if HasFilter(filters, id) then ReplaceFilter(filters, id, text)
    else filters + [ColumnFilter(id, text)]
  }

  /** The filter input's text: `getColumn(filterColumn)?.getFilterValue() ?? ""`. */
  function InputValue(columns: seq<Column>, filters: seq<ColumnFilter>, filterColumn: string): (text: string)
    ensures !HasColumn(columns, filterColumn) ==> text == ""
    ensures HasColumn(columns, filterColumn) && !HasFilter(filters, filterColumn) ==> text == ""
    ensures HasColumn(columns, filterColumn) && HasFilter(filters, filterColumn) ==>
      exists k :: 0 <= k < |filters| && filters[k] == ColumnFilter(filterColumn, text) &&
                  forall j :: 0 <= j < k ==> filters[j].id != filterColumn
  {
    if !HasColumn(columns, filterColumn) then ""
    else match FilterValueOf(filters, filterColumn)
      case Some(v) => v
      case None => ""
  }

  /** The toolbar as rendered for the current filter state. */
  function View(columns: seq<Column>, filters: seq<ColumnFilter>, filterColumn: string, addUrl: string): (v: ToolbarView)
    ensures v.resetShown <==> IsFiltered(filters)
    ensures v.placeholder == "Filter by " + filterColumn + "..."
    ensures v.inputValue == InputValue(columns, filters, filterColumn)
    ensures HasColumn(columns, filterColumn) && HasFilter(filters, filterColumn) ==>
      v.inputValue == FilterValueOf(filters, filterColumn).value
    ensures v.addTarget == addUrl
  {
    ToolbarView("Filter by " + filterColumn + "...", InputValue(columns, filters, filterColumn), IsFiltered(filters), addUrl)
  }

  /** Typing into the input and reading it back gives the typed text, the empty text included. */
  lemma {:induction false} TypedTextIsShown(columns: seq<Column>, filters: seq<ColumnFilter>, filterColumn: string, text: string)
    requires HasColumn(columns, filterColumn)
    ensures InputValue(columns, WithFilterValue(filters, filterColumn, text), filterColumn) == text
    ensures FilterValueOf(WithFilterValue(filters, filterColumn, text), filterColumn) == if text == "" then None else Some(text)
  {
    if text != "" {
      if HasFilter(filters, filterColumn) {
        FirstEntryReplaced(filters, filterColumn, text);
      } else {
        AppendedEntryFound(filters, filterColumn, text);
      }
    }
  }

  lemma {:induction false} FirstEntryReplaced(filters: seq<ColumnFilter>, id: string, text: string)
    requires HasFilter(filters, id)
    ensures FilterValueOf(ReplaceFilter(filters, id, text), id) == Some(text)
  {
    if filters[0].id != id {
      var k :| 0 <= k < |filters| && filters[k].id == id;
      assert filters[1..][k - 1].id == id;
      FirstEntryReplaced(filters[1..], id, text);
      assert ReplaceFilter(filters, id, text)[1..] == ReplaceFilter(filters[1..], id, text);
    }
  }

  lemma {:induction false} AppendedEntryFound(filters: seq<ColumnFilter>, id: string, text: string)
    requires !HasFilter(filters, id)
    ensures FilterValueOf(filters + [ColumnFilter(id, text)], id) == Some(text)
  {
    if |filters| > 0 {
      forall k | 0 <= k < |filters[1..]|
        ensures filters[1..][k].id != id
      {
        assert filters[1..][k] == filters[k + 1];
      }
      AppendedEntryFound(filters[1..], id, text);
      assert (filters + [ColumnFilter(id, text)])[1..] == filters[1..] + [ColumnFilter(id, text)];
    }
  }

  /** Typing into one column's filter leaves every other column's entries exactly as they were, in order. */
  lemma {:induction false} OtherFiltersUntouched(filters: seq<ColumnFilter>, id: string, text: string, other: string)
    requires other != id
    ensures WithoutFilter(WithFilterValue(filters, id, text), id) == WithoutFilter(filters, id)
    ensures FilterValueOf(WithFilterValue(filters, id, text), other) == FilterValueOf(filters, other)
  {
    if text == "" {
      WithoutFilterIdempotent(filters, id);
      OtherValueWithout(filters, id, other);
    } else if HasFilter(filters, id) {
      WithoutFilterOfReplace(filters, id, text);
      OtherValueReplace(filters, id, text, other);
    } else {
      WithoutFilterOfAppend(filters, id, ColumnFilter(id, text));
      OtherValueAppend(filters, ColumnFilter(id, text), other);
    }
  }

  lemma {:induction false} WithoutFilterIdempotent(filters: seq<ColumnFilter>, id: string)
    ensures WithoutFilter(WithoutFilter(filters, id), id) == WithoutFilter(filters, id)
  {
    if |filters| > 0 {
      WithoutFilterIdempotent(filters[1..], id);
      var rest := WithoutFilter(filters[1..], id);
      if filters[0].id != id {
        assert WithoutFilter(filters, id) == [filters[0]] + rest;
        assert ([filters[0]] + rest)[1..] == rest;
      } else {
        assert WithoutFilter(filters, id) == rest;
      }
    }
  }

  lemma {:induction false} WithoutFilterOfReplace(filters: seq<ColumnFilter>, id: string, text: string)
    ensures WithoutFilter(ReplaceFilter(filters, id, text), id) == WithoutFilter(filters, id)
  {
    if |filters| > 0 {
      WithoutFilterOfReplace(filters[1..], id, text);
      assert ReplaceFilter(filters, id, text)[1..] == ReplaceFilter(filters[1..], id, text);
    }
  }

  lemma {:induction false} WithoutFilterOfAppend(filters: seq<ColumnFilter>, id: string, f: ColumnFilter)
    requires f.id == id
    ensures WithoutFilter(filters + [f], id) == WithoutFilter(filters, id)
  {
    if |filters| == 0 {
      assert WithoutFilter([f], id) == [] + WithoutFilter([], id);
    } else {
      WithoutFilterOfAppend(filters[1..], id, f);
      assert (filters + [f])[1..] == filters[1..] + [f];
    }
  }

  /** Removing a column's entries works piece by piece: what is kept keeps its order. */
  lemma {:induction false} WithoutFilterAppend(a: seq<ColumnFilter>, b: seq<ColumnFilter>, id: string)
    ensures WithoutFilter(a + b, id) == WithoutFilter(a, id) + WithoutFilter(b, id)
  {
    if |a| == 0 {
      assert a + b == b;
    } else {
      var head := if a[0].id != id then [a[0]] else [];
      assert (a + b)[0] == a[0] && (a + b)[1..] == a[1..] + b;
      WithoutFilterAppend(a[1..], b, id);
      var front, back := WithoutFilter(a[1..], id), WithoutFilter(b, id);
      calc {
        WithoutFilter(a + b, id);
        head + WithoutFilter(a[1..] + b, id);
        head + (front + back);
        { assert head + (front + back) == (head + front) + back; }
        (head + front) + back;
        WithoutFilter(a, id) + back;
      }
    }
  }

  lemma {:induction false} OtherValueWithout(filters: seq<ColumnFilter>, id: string, other: string)
    requires other != id
    ensures FilterValueOf(WithoutFilter(filters, id), other) == FilterValueOf(filters, other)
  {
    if |filters| > 0 {
      OtherValueWithout(filters[1..], id, other);
      var rest := WithoutFilter(filters[1..], id);
      if filters[0].id != id {
        assert WithoutFilter(filters, id) == [filters[0]] + rest;
        assert ([filters[0]] + rest)[1..] == rest;
      } else {
        assert WithoutFilter(filters, id) == rest;
      }
    }
  }

  lemma {:induction false} OtherValueReplace(filters: seq<ColumnFilter>, id: string, text: string, other: string)
    requires other != id
    ensures FilterValueOf(ReplaceFilter(filters, id, text), other) == FilterValueOf(filters, other)
  {
    if |filters| > 0 {
      OtherValueReplace(filters[1..], id, text, other);
      assert ReplaceFilter(filters, id, text)[1..] == ReplaceFilter(filters[1..], id, text);
    }
  }

  lemma {:induction false} OtherValueAppend(filters: seq<ColumnFilter>, f: ColumnFilter, other: string)
    requires f.id != other
    ensures FilterValueOf(filters + [f], other) == FilterValueOf(filters, other)
  {
    if |filters| > 0 {
      OtherValueAppend(filters[1..], f, other);
      assert (filters + [f])[1..] == filters[1..] + [f];
    }
  }

  /** Typing keeps the filter list free of duplicate column entries. */
  lemma {:induction false} TypingKeepsFiltersUnique(filters: seq<ColumnFilter>, id: string, text: string)
    requires UniqueFilterIds(filters)
    ensures UniqueFilterIds(WithFilterValue(filters, id, text))
  {
    if text == "" {
      WithoutKeepsUnique(filters, id);
    } else if !HasFilter(filters, id) {
      var r := filters + [ColumnFilter(id, text)];
      forall i, j | 0 <= i < j < |r|
        ensures r[i].id != r[j].id
      {
        if j == |filters| {
          assert r[i] == filters[i];
        }
      }
    }
  }

  lemma {:induction false} WithoutKeepsUnique(filters: seq<ColumnFilter>, id: string)
    requires UniqueFilterIds(filters)
    ensures UniqueFilterIds(WithoutFilter(filters, id))
  {
    if |filters| > 0 {
      WithoutKeepsUnique(filters[1..], id);
      var rest := WithoutFilter(filters[1..], id);
      if filters[0].id != id {
        var r := [filters[0]] + rest;
        assert WithoutFilter(filters, id) == r;
        forall i, j | 0 <= i < j < |r|
          ensures r[i].id != r[j].id
        {
          if i == 0 {
            TailIdDiffersFromHead(filters, rest[j - 1]);
          } else {
            assert r[i] == rest[i - 1] && r[j] == rest[j - 1];
          }
        }
      }
    }
  }

  lemma TailIdDiffersFromHead(filters: seq<ColumnFilter>, f: ColumnFilter)
    requires |filters| > 0 && UniqueFilterIds(filters) && f in filters[1..]
    ensures f.id != filters[0].id
  {
    var m :| 0 <= m < |filters[1..]| && filters[1..][m] == f;
    assert filters[m + 1] == f;
  }

  /** After Reset, nothing is filtered, the Reset button is gone and the input is empty. */
  lemma ResetClearsToolbar(columns: seq<Column>, filterColumn: string, addUrl: string)
    ensures !View(columns, [], filterColumn, addUrl).resetShown
    ensures View(columns, [], filterColumn, addUrl).inputValue == ""
  {
  }
}
