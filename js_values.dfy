/** Option and Result, shared by every module of the model. */
module Wrappers {
  datatype Option<+T> = None | Some(value: T)

  datatype Result<+T, +E> = Ok(value: T) | Err(error: E)
}

/**
 * The JavaScript values the screens pass around: API payloads, table rows,
 * form values. Numbers are integers here (see README, "Left out"); objects keep
 * their keys in insertion order, as `Object.keys` reports them.
 */
module JsValues {
  import opened Wrappers

  datatype Value =
    | Undefined
    | Null
    | Bool(b: bool)
    | Num(n: int)
    | Str(s: string)
    | Arr(items: seq<Value>)
    | Obj(entries: seq<Entry>)
    | File(fileName: string)

  datatype Entry = Entry(key: string, val: Value)

  /** `v?.key`: the value stored under `key`, or `undefined` for a missing key or a non-object. */
  function Get(v: Value, key: string): (r: Value)
    ensures !v.Obj? ==> r == Undefined
    ensures v.Obj? && r != Undefined ==> exists i :: 0 <= i < |v.entries| && v.entries[i].key == key
  {
    if v.Obj? then Lookup(v.entries, key) else Undefined
  }

  /** `records.find(r => r.key === v)`: the first record whose field `key` is `v`, if any. */
  function FindFirst(records: seq<Value>, key: string, v: Value): (r: Option<Value>)
    ensures r.None? <==> forall k :: 0 <= k < |records| ==> Get(records[k], key) != v
    ensures r.Some? ==> exists k :: 0 <= k < |records| && records[k] == r.value && Get(r.value, key) == v &&
                                    forall j :: 0 <= j < k ==> Get(records[j], key) != v
  {
    if |records| == 0 then None
    else if Get(records[0], key) == v then Some(records[0])
    else
      var r := FindFirst(records[1..], key, v);
      assert forall k :: 1 <= k < |records| ==> records[k] == records[1..][k - 1];
      if r.Some? then
        var k :| 0 <= k < |records[1..]| && records[1..][k] == r.value && Get(r.value, key) == v &&
                 forall j :: 0 <= j < k ==> Get(records[1..][j], key) != v;
        assert records[k + 1] == r.value;
        r
      else r
  }

  /** A record whose field value no earlier record shares is the one found for that value. */
  lemma FindFirstAt(records: seq<Value>, key: string, k: nat)
    requires k < |records|
    requires forall j :: 0 <= j < k ==> Get(records[j], key) != Get(records[k], key)
    ensures FindFirst(records, key, Get(records[k], key)) == Some(records[k])
  {
    var v := Get(records[k], key);
    var r := FindFirst(records, key, v);
    var i :| 0 <= i < |records| && records[i] == r.value && Get(r.value, key) == v &&
             forall j :: 0 <= j < i ==> Get(records[j], key) != v;
    assert i == k;
  }

  /** The value of the first entry named `key`. */
  function Lookup(entries: seq<Entry>, key: string): (r: Value)
    ensures r != Undefined ==> exists i :: 0 <= i < |entries| && entries[i].key == key
    ensures (forall i :: 0 <= i < |entries| ==> entries[i].key != key) ==> r == Undefined
  {
    if |entries| == 0 then Undefined
    else if entries[0].key == key then entries[0].val
    else Lookup(entries[1..], key)
  }

  /** The keys of an object, in order (`Object.keys`). */
  function Keys(entries: seq<Entry>): (ks: seq<string>)
    ensures |ks| == |entries|
    ensures forall i :: 0 <= i < |entries| ==> ks[i] == entries[i].key
  {
    if |entries| == 0 then [] else [entries[0].key] + Keys(entries[1..])
  }

  /** JavaScript truthiness. */
  predicate Truthy(v: Value) {
    match v
    case Undefined => false
    case Null => false
    case Bool(b) => b
    case Num(n) => n != 0
    case Str(s) => s != ""
    case _ => true
  }

  /** `v === null || v === undefined`. */
  predicate Nullish(v: Value) {
    v.Undefined? || v.Null?
  }

  /** `a ?? b`. */
  function Coalesce(a: Value, b: Value): (r: Value)
    ensures Nullish(a) ==> r == b
    ensures !Nullish(a) ==> r == a
  {
    if Nullish(a) then b else a
  }

  /** `a === b`. Primitive values compare by value (see README for objects). */
  predicate StrictEquals(a: Value, b: Value) {
    a == b
  }

  function DigitChar(d: nat): (c: char)
    requires d < 10
    ensures '0' <= c <= '9'
    ensures c as int - '0' as int == d
  {
    (('0' as int) + d) as char
  }

  /** The decimal representation of a natural number. */
  function NatToString(n: nat): (s: string)
    ensures 1 <= |s|
    ensures forall i :: 0 <= i < |s| ==> '0' <= s[i] <= '9'
    ensures n < 10 <==> |s| == 1
  {
    if n < 10 then [DigitChar(n)] else NatToString(n / 10) + [DigitChar(n % 10)]
  }

  /** The decimal representation of an integer, as `String(n)` writes it. */
  function IntToString(n: int): (s: string)
    ensures 1 <= |s|
    ensures s[0] == '-' <==> n < 0
  {
    if n < 0 then "-" + NatToString(-n) else NatToString(n)
  }

  /** Distinct natural numbers have distinct decimal representations. */
  lemma {:induction false} NatToStringInjective(a: nat, b: nat)
    requires NatToString(a) == NatToString(b)
    ensures a == b
  {
    var sa, sb := NatToString(a), NatToString(b);
    if a < 10 && b < 10 {
      assert sa[0] == DigitChar(a) && sb[0] == DigitChar(b);
    } else if 10 <= a && 10 <= b {
      assert sa == NatToString(a / 10) + [DigitChar(a % 10)];
      assert sb == NatToString(b / 10) + [DigitChar(b % 10)];
      assert sa[|sa| - 1] == DigitChar(a % 10) && sb[|sb| - 1] == DigitChar(b % 10);
      assert sa[..|sa| - 1] == NatToString(a / 10);
      assert sb[..|sb| - 1] == NatToString(b / 10);
      NatToStringInjective(a / 10, b / 10);
    }
  }

  /** Distinct integers have distinct decimal representations. */
  lemma IntToStringInjective(a: int, b: int)
    requires IntToString(a) == IntToString(b)
    ensures a == b
  {
    var sa, sb := IntToString(a), IntToString(b);
    if a < 0 {
      assert sa[1..] == NatToString(-a) && sb[1..] == NatToString(-b);
      NatToStringInjective(-a, -b);
    } else {
      NatToStringInjective(a, b);
    }
  }

  /** The string an array element contributes to `String(array)`: `null` and `undefined` give "". */
  function ElementString(v: Value): string
    decreases v, 1
  {
    if Nullish(v) then "" else ToStr(v)
  }

  /** `items.join(",")` over the element strings. */
  function JoinElements(items: seq<Value>): string
    decreases items
  {
    if |items| == 0 then ""
    else if |items| == 1 then ElementString(items[0])
    else ElementString(items[0]) + "," + JoinElements(items[1..])
  }

  /** `String(v)`. */
  function ToStr(v: Value): string
    decreases v, 0
  {
    match v
    case Undefined => "undefined"
    case Null => "null"
    case Bool(b) => if b then "true" else "false"
    case Num(n) => IntToString(n)
    case Str(s) => s
    case Arr(items) => JoinElements(items)
    case Obj(_) => "[object Object]"
    case File(_) => "[object File]"
  }

  /** `new Error(m).message` for a value `m` given to `new Error`. */
  function ErrorObject(message: string): (e: Value)
    ensures Get(e, "message") == Str(message)
  {
    Obj([Entry("message", Str(message))])
  }
}
