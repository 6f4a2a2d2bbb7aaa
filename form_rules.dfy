/**
 * The building blocks of the create and sign-in forms' validation rules: one
 * issue per failed rule, each tied to the field it is about, reported in the
 * order the schema lists its fields.
 */
module FormRules {
  import opened Wrappers
  import opened JsValues

  /** A validation message shown under a field. */
  datatype Issue = Issue(path: string, message: string)

  /** A number field after `z.coerce.number()`: a real number, or NaN when the text was not a number. */
  datatype NumInput = Finite(r: real) | NotANumber

  /** A calendar day as the date pickers hold it; its formatting is not part of the model. */
  type Day = int

  /** One rule: no issue when it holds, one issue for `path` when it fails. */
  function Check(ok: bool, path: string, message: string): (issues: seq<Issue>)
    ensures ok <==> issues == []
    ensures !ok ==> issues == [Issue(path, message)]
  {
    if ok then [] else [Issue(path, message)]
  }

  /** `z.string().min(n, message)` on a text the user typed. */
  function MinLength(s: string, n: nat, path: string, message: string): (issues: seq<Issue>)
    ensures issues == [] <==> |s| >= n
  {
    Check(|s| >= n, path, message)
  }

  /** The type name the validation library reports for a value it received. */
  function ParsedType(v: Value): (t: string)
    ensures v.Num? ==> t == "number"
    ensures v.Null? ==> t == "null"
    ensures v.Obj? || v.File? ==> t == "object"
  {
    match v
    case Undefined => "undefined"
    case Null => "null"
    case Bool(_) => "boolean"
    case Num(_) => "number"
    case Str(_) => "string"
    case Arr(_) => "array"
    case Obj(_) => "object"
    case File(_) => "object"
  }

  /** The library's default message for a value of the wrong type: "Required" for a missing value. */
  function TypeMessage(expected: string, v: Value): (m: string)
    ensures v.Undefined? ==> m == "Required"
    ensures !v.Undefined? ==> m == "Expected " + expected + ", received " + ParsedType(v)
  {
    if v.Undefined? then "Required" else "Expected " + expected + ", received " + ParsedType(v)
  }

  /** `z.string().min(n, message)` on a field that may hold a non-string value: that is a type error first. */
  function TextAtLeast(v: Value, n: nat, path: string, message: string): (issues: seq<Issue>)
    ensures issues == [] <==> v.Str? && |v.s| >= n
    ensures v.Undefined? ==> issues == [Issue(path, "Required")]
    ensures !v.Str? && !v.Undefined? ==> issues == [Issue(path, "Expected string, received " + ParsedType(v))]
    ensures v.Str? && |v.s| < n ==> issues == [Issue(path, message)]
  {
    if !v.Str? then
      assert "Expected " + "string" + ", received " == "Expected string, received ";
      [Issue(path, TypeMessage("string", v))]
    else Check(|v.s| >= n, path, message)
  }

  /** `z.date()`: a day must be picked. */
  function DatePicked(d: Option<Day>, path: string): (issues: seq<Issue>)
    ensures issues == [] <==> d.Some?
  {
    Check(d.Some?, path, "Required")
  }

  /** `z.coerce.number().positive(message)`: NaN is a type error, otherwise the number must exceed zero. */
  function PositiveNumber(x: NumInput, path: string, message: string): (issues: seq<Issue>)
    ensures issues == [] <==> x.Finite? && x.r > 0.0
  {
    if x.NotANumber? then [Issue(path, "Expected number, received nan")] else Check(x.r > 0.0, path, message)
  }

  /** `z.coerce.number().nonnegative(message)`: NaN is a type error, otherwise the number must not be below zero. */
  function NonnegativeNumber(x: NumInput, path: string, message: string): (issues: seq<Issue>)
    ensures issues == [] <==> x.Finite? && x.r >= 0.0
  {
    if x.NotANumber? then [Issue(path, "Expected number, received nan")] else Check(x.r >= 0.0, path, message)
  }

  /** The fields some issue is about, in report order. */
  function IssuePaths(issues: seq<Issue>): (paths: seq<string>)
    ensures |paths| == |issues|
    ensures forall k :: 0 <= k < |issues| ==> paths[k] == issues[k].path
  {
    if |issues| == 0 then [] else [issues[0].path] + IssuePaths(issues[1..])
  }

  /**
   * The message shown under a field: the form resolver keeps the first issue reported
   * for each field, so this is the message of the first issue whose path is `path`.
   */
  function ShownMessage(issues: seq<Issue>, path: string): (m: Option<string>)
    ensures m.None? <==> forall k :: 0 <= k < |issues| ==> issues[k].path != path
    ensures m.Some? ==> exists k :: (0 <= k < |issues| && issues[k] == Issue(path, m.value) &&
      forall j :: 0 <= j < k ==> issues[j].path != path)
  {
    if |issues| == 0 then None
    else if issues[0].path == path then Some(issues[0].message)
    else
      var m := ShownMessage(issues[1..], path);
      assert forall k :: 1 <= k < |issues| ==> issues[k] == issues[1..][k - 1];
      if m.Some? then
        var k :| (0 <= k < |issues[1..]| && issues[1..][k] == Issue(path, m.value) &&
          forall j :: 0 <= j < k ==> issues[1..][j].path != path);
        assert issues[k + 1] == Issue(path, m.value);
        m
      else m
  }

  /** Issues about other fields come and go without changing what one field shows. */
  lemma {:induction false} ShownMessageOfAppend(a: seq<Issue>, b: seq<Issue>, path: string)
    ensures ShownMessage(a + b, path) == if ShownMessage(a, path).Some? then ShownMessage(a, path) else ShownMessage(b, path)
  {
    if |a| > 0 {
      assert (a + b)[1..] == a[1..] + b;
      ShownMessageOfAppend(a[1..], b, path);
    } else {
      assert a + b == b;
    }
  }
}
