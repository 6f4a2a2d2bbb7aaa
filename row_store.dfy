/**
 * The list screens' row store: the in-memory list of records a screen shows,
 * filled from the list endpoint and reconciled after single and bulk deletes.
 * The customers, salesmen and invoices screens share this behaviour; they
 * differ in the response key (`customers`, `salesmen`, `invoices`) and in the
 * field that identifies a row (`id`, `code`, `id`).
 */
module RowStores {
  import opened JsValues
  import opened Effects

  /** `rows.filter(keep)`. */
  function Filter(rows: seq<Value>, keep: Value -> bool): (r: seq<Value>)
    ensures |r| <= |rows|
  {
    if |rows| == 0 then []
    else (if keep(rows[0]) then [rows[0]] else []) + Filter(rows[1..], keep)
  }

  /** `a` can be obtained from `b` by deleting elements: `a`'s elements appear in `b` in the same order. */
  predicate IsSubsequence(a: seq<Value>, b: seq<Value>)
    decreases |b|
  {
    |a| == 0 || (|b| > 0 && ((a[0] == b[0] && IsSubsequence(a[1..], b[1..])) || IsSubsequence(a, b[1..])))
  }

  /** The survivors of a filter keep their relative order. */
  lemma {:induction false} FilterIsSubsequence(rows: seq<Value>, keep: Value -> bool)
    ensures IsSubsequence(Filter(rows, keep), rows)
  {
    if |rows| > 0 {
      FilterIsSubsequence(rows[1..], keep);
      var rest := Filter(rows[1..], keep);
      if keep(rows[0]) {
        assert Filter(rows, keep) == [rows[0]] + rest;
        assert ([rows[0]] + rest)[1..] == rest;
      } else {
        assert Filter(rows, keep) == rest;
      }
    }
  }

  /**
   * A filter keeps every row it accepts with its full multiplicity and drops
   * every row it rejects: nothing else is added, lost or duplicated.
   */
  lemma {:induction false} FilterCounts(rows: seq<Value>, keep: Value -> bool, x: Value)
    ensures multiset(Filter(rows, keep))[x] == if keep(x) then multiset(rows)[x] else 0
  {
    if |rows| > 0 {
      FilterCounts(rows[1..], keep, x);
      assert rows == [rows[0]] + rows[1..];
      assert multiset(rows) == multiset{rows[0]} + multiset(rows[1..]);
    }
  }

  /** A row survives a filter exactly when it was present and accepted. */
  lemma FilterMembers(rows: seq<Value>, keep: Value -> bool, x: Value)
    ensures x in Filter(rows, keep) <==> x in rows && keep(x)
  {
    FilterCounts(rows, keep, x);
  }

  /** Filters with the same verdict on every row give the same result. */
  lemma {:induction false} FilterSameVerdict(rows: seq<Value>, p: Value -> bool, q: Value -> bool)
    requires forall i :: 0 <= i < |rows| ==> p(rows[i]) == q(rows[i])
    ensures Filter(rows, p) == Filter(rows, q)
  {
    if |rows| > 0 {
      FilterSameVerdict(rows[1..], p, q);
    }
  }

  /** Filtering `[x] + rest` decides `x` first, then filters `rest`. */
  lemma FilterCons(x: Value, rest: seq<Value>, keep: Value -> bool)
    ensures Filter([x] + rest, keep) == (if keep(x) then [x] else []) + Filter(rest, keep)
  {
    assert ([x] + rest)[1..] == rest;
  }

  /** Applying the same filter twice changes nothing more. */
  lemma {:induction false} FilterIdempotent(rows: seq<Value>, keep: Value -> bool)
    ensures Filter(Filter(rows, keep), keep) == Filter(rows, keep)
  {
    if |rows| > 0 {
      FilterIdempotent(rows[1..], keep);
      var f := Filter(rows[1..], keep);
      if keep(rows[0]) {
        assert Filter(rows, keep) == [rows[0]] + f;
        FilterCons(rows[0], f, keep);
      } else {
        assert Filter(rows, keep) == f;
      }
    }
  }

  /** `rows.filter(r => r[field] !== id)`: the single-delete reconciliation. */
  function WithoutKey(rows: seq<Value>, field: string, id: Value): (r: seq<Value>)
    ensures |r| <= |rows|
  {
    Filter(rows, (row: Value) => !StrictEquals(Get(row, field), id))
  }

  /** `rows.filter(r => !ids.includes(r[field]))`: the bulk-delete reconciliation. */
  function WithoutKeys(rows: seq<Value>, field: string, ids: seq<Value>): (r: seq<Value>)
    ensures |r| <= |rows|
  {
    Filter(rows, (row: Value) => Get(row, field) !in ids)
  }

  /**
   * After a single delete, exactly the rows whose key equals `id` are gone:
   * every other row keeps its multiplicity and the survivors keep their order.
   */
  lemma WithoutKeyExact(rows: seq<Value>, field: string, id: Value, x: Value)
    ensures multiset(WithoutKey(rows, field, id))[x] == if Get(x, field) == id then 0 else multiset(rows)[x]
    ensures IsSubsequence(WithoutKey(rows, field, id), rows)
  {
    FilterCounts(rows, (row: Value) => !StrictEquals(Get(row, field), id), x);
    FilterIsSubsequence(rows, (row: Value) => !StrictEquals(Get(row, field), id));
  }

  /**
   * After a bulk delete, exactly the rows whose key is one of `ids` are gone:
   * every other row keeps its multiplicity and the survivors keep their order.
   */
  lemma WithoutKeysExact(rows: seq<Value>, field: string, ids: seq<Value>, x: Value)
    ensures multiset(WithoutKeys(rows, field, ids))[x] == if Get(x, field) in ids then 0 else multiset(rows)[x]
    ensures IsSubsequence(WithoutKeys(rows, field, ids), rows)
  {
    FilterCounts(rows, (row: Value) => Get(row, field) !in ids, x);
    FilterIsSubsequence(rows, (row: Value) => Get(row, field) !in ids);
  }

  /** The row action deletes by the row's own key, so a successful delete removes that row. */
  lemma RowActionRemovesRow(rows: seq<Value>, field: string, i: nat)
    requires i < |rows|
    ensures rows[i] !in WithoutKey(rows, field, Get(rows[i], field))
  {
    FilterMembers(rows, (row: Value) => !StrictEquals(Get(row, field), Get(rows[i], field)), rows[i]);
  }

  /** A bulk delete of one identifier is a single delete of it. */
  lemma BulkOfOneIsSingle(rows: seq<Value>, field: string, id: Value)
    ensures WithoutKeys(rows, field, [id]) == WithoutKey(rows, field, id)
  {
    FilterSameVerdict(rows, (row: Value) => Get(row, field) !in [id],
                            (row: Value) => !StrictEquals(Get(row, field), id));
  }

  /** A bulk delete of `a + b` is a bulk delete of `a` followed by one of `b`. */
  lemma {:induction false} BulkDeleteComposes(rows: seq<Value>, field: string, a: seq<Value>, b: seq<Value>)
    ensures WithoutKeys(rows, field, a + b) == WithoutKeys(WithoutKeys(rows, field, a), field, b)
  {
    if |rows| > 0 {
      BulkDeleteComposes(rows[1..], field, a, b);
      var k := Get(rows[0], field);
      assert (k !in a + b) == (k !in a && k !in b);
      var left := WithoutKeys(rows[1..], field, a);
      if k !in a {
        assert WithoutKeys(rows, field, a) == [rows[0]] + left;
        FilterCons(rows[0], left, (row: Value) => Get(row, field) !in b);
      } else {
        assert WithoutKeys(rows, field, a) == left;
      }
    }
  }

  /**
   * `data?.<entity>?.data` when it is truthy, else the empty list. A truthy value
   * that is not an array is taken as the empty list (see README, "Left out").
   */
  function RowsFromResponse(data: Value, entity: string): (rows: seq<Value>)
    ensures Get(Get(data, entity), "data").Arr? ==> rows == Get(Get(data, entity), "data").items
    ensures !Get(Get(data, entity), "data").Arr? ==> rows == []
  {
    var list := Get(Get(data, entity), "data");
    if Truthy(list) && list.Arr? then list.items else []
  }

  /** One screen's list of records. */
  class RowStore {
    /** The key of the list in the response: `customers`, `salesmen` or `invoices`. */
    const entity: string
    /** The field that identifies a row: `id` or `code`. */
    const idField: string
    var rows: seq<Value>

    /** `useState([])`: the list starts empty. */
    constructor (entity: string, idField: string)
      ensures this.entity == entity && this.idField == idField
      ensures rows == []
    {
      this.entity := entity;
      this.idField := idField;
      rows := [];
    }

    /**
     * The fetch handler: on a response the list becomes `data.<entity>.data`
     * (or empty when that is missing); when the call threw, the list is left as it was.
     */
    method Fetch(response: Settled)
      modifies this
      ensures response.Resolved? ==> rows == RowsFromResponse(response.value, entity)
      ensures response.Threw? ==> rows == old(rows)
    {
      if response.Resolved? {
        rows := RowsFromResponse(response.value, entity);
      }
    }

    /**
     * The single-delete handler: the list is filtered only after the delete call
     * has resolved; when it threw, the list is unchanged. Reports whether a
     * success notification was shown.
     */
    method DeleteOne(id: Value, reply: Settled) returns (succeeded: bool)
      modifies this
      ensures succeeded <==> reply.Resolved?
      ensures rows == if reply.Resolved? then WithoutKey(old(rows), idField, id) else old(rows)
    {
      succeeded := reply.Resolved?;
      if succeeded {
        rows := WithoutKey(rows, idField, id);
      }
    }

    /**
     * The bulk-delete handler: the rows whose key is in `ids` are removed once the
     * bulk call has resolved; when it threw, the list is unchanged.
     */
    method BulkDelete(ids: seq<Value>, reply: Settled) returns (succeeded: bool)
      modifies this
      ensures succeeded <==> reply.Resolved?
      ensures rows == if reply.Resolved? then WithoutKeys(old(rows), idField, ids) else old(rows)
    {
      succeeded := reply.Resolved?;
      if succeeded {
        rows := WithoutKeys(rows, idField, ids);
      }
    }
  }
}
