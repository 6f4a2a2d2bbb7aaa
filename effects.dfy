/**
 * What an awaited call can do to the code that awaits it, and the user-visible
 * effects the screens record instead of performing them (notifications,
 * scheduled navigation).
 */
module Effects {
  import opened Wrappers
  import opened JsValues

  /** How an awaited call settled: it resolved with a value, or it threw one. */
  datatype Settled = Resolved(value: Value) | Threw(thrown: Value)

  /** A notification shown by the screen (a toast). */
  datatype Notice = SuccessNotice(title: string) | ErrorNotice(title: string, description: string)

  /** `error.message || fallback`: the message of a thrown error when it is truthy, else the fallback text. */
  function ErrorDescription(thrown: Value, fallback: string): (d: string)
    ensures Truthy(Get(thrown, "message")) ==> d == ToStr(Get(thrown, "message"))
    ensures !Truthy(Get(thrown, "message")) ==> d == fallback
  {
    var m := Get(thrown, "message");
    if Truthy(m) then ToStr(m) else fallback
  }

  /** A thrown string (as the user client throws `error.message`) has no `message`, so the fallback is shown. */
  lemma ThrownStringShowsFallback(s: string, fallback: string)
    ensures ErrorDescription(Str(s), fallback) == fallback
  {
  }

  /** An `Error` with a non-empty message shows that message. */
  lemma ThrownErrorShowsMessage(message: string, fallback: string)
    requires message != ""
    ensures ErrorDescription(ErrorObject(message), fallback) == message
  {
  }

  /**
   * How `fetch` answers: a response with its `ok` flag whose body parses as JSON; a
   * response whose body is empty or not JSON, with the error `response.json()` rejects
   * with; or a thrown error (the network failed).
   */
  datatype Reply = Response(ok: bool, json: Value) | NotJson(ok: bool, parseError: Value) | NetworkError(thrown: Value)

  /** The TypeError thrown by reading `message` of a `null` error body. */
  function NullBodyError(): (e: Value)
    ensures Get(e, "message") == Str("Cannot read properties of null (reading 'message')")
  {
    ErrorObject("Cannot read properties of null (reading 'message')")
  }

  /**
   * How an API client's awaited call settles: a network error is rethrown; an ok
   * response resolves with its JSON; a failed response throws an error carrying the
   * server's `message` when it is truthy, else the operation's fallback text. Reading
   * the body fails when it is not JSON, and reading `message` fails on a `null` body.
   */
  function Settle(reply: Reply, fallback: string): (r: Settled)
    ensures r.Resolved? <==> reply.Response? && reply.ok
    ensures reply.NetworkError? ==> r == Threw(reply.thrown)
    ensures reply.NotJson? ==> r == Threw(reply.parseError)
    ensures reply.Response? && reply.ok ==> r == Resolved(reply.json)
    ensures reply.Response? && !reply.ok && reply.json == Null ==> r == Threw(NullBodyError())
    ensures reply.Response? && !reply.ok && reply.json != Null && Truthy(Get(reply.json, "message")) ==>
      r.Threw? && Get(r.thrown, "message") == Str(ToStr(Get(reply.json, "message")))
    ensures reply.Response? && !reply.ok && reply.json != Null && !Truthy(Get(reply.json, "message")) ==>
      r.Threw? && Get(r.thrown, "message") == Str(fallback)
  {
    match reply
    case NetworkError(thrown) => Threw(thrown)
    case NotJson(_, parseError) => Threw(parseError)
    case Response(ok, json) =>
      if ok then Resolved(json)
      else if json == Null then Threw(NullBodyError())
      else
        var m := Get(json, "message");
        Threw(ErrorObject(if Truthy(m) then ToStr(m) else fallback))
  }

  /** A navigation the screen schedules with a timer: go to `path` after `delayMs` milliseconds. */
  datatype Navigation = NavigateTo(path: string, delayMs: nat)

  /** The browser's key-value storage (`localStorage`): text values under text keys. */
  class BrowserStorage {
    var entries: map<string, string>

    constructor (entries: map<string, string>)
      ensures this.entries == entries
    {
      this.entries := entries;
    }

    /** `getItem(key)`: the stored text, or none (`null`). */
    function GetItem(key: string): (v: Option<string>)
      reads this
      ensures v.Some? <==> key in entries
      ensures v.Some? ==> v.value == entries[key]
    {
      if key in entries then Some(entries[key]) else None
    }

    /** `setItem(key, value)`: the value's string form is stored under `key`; every other key keeps its entry. */
    method SetItem(key: string, value: Value)
      modifies this
      ensures entries == old(entries)[key := ToStr(value)]
      ensures GetItem(key) == Some(ToStr(value))
      ensures forall k :: k != key ==> GetItem(k) == old(GetItem(k))
    {
      entries := entries[key := ToStr(value)];
    }
  }
}
