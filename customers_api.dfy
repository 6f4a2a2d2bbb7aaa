/**
 * The customers API client: the stored-token precondition, the URL, method,
 * headers and body of each request, the multipart field lists of the create
 * and update calls, and the choice of error message. The network is a
 * parameter: each operation returns the request it sends (none when it fails
 * before sending) and how the call settles for a given reply.
 */
module CustomersApiClient {
  import opened Wrappers
  import opened JsValues
  import opened Effects

  const ApiUrl := "/api/customers"

  /** What a multipart field holds: text, or a file. */
  datatype PartValue = TextPart(text: string) | FilePart(fileName: string)

  /** One `FormData` field. */
  datatype Part = Part(name: string, value: PartValue)

  datatype Header = Header(name: string, value: string)

  /** No body, the JSON text of a value, or a multipart field list. */
  datatype Body = NoBody | JsonBody(payload: Value) | MultipartBody(parts: seq<Part>)

  datatype Request = Request(verb: string, url: string, headers: seq<Header>, body: Body)

  /** `!Token` is false: a stored, non-empty token. */
  predicate HasToken(token: Option<string>) {
    token.Some? && token.value != ""
  }

  /** The error every operation throws before building a request when no token is stored. */
  function NoTokenError(): (e: Value)
    ensures Get(e, "message") == Str("No auth token found")
  {
    ErrorObject("No auth token found")
  }

  function Bearer(token: string): (h: Header)
    ensures h.name == "Authorization" && h.value == "Bearer " + token
  {
    Header("Authorization", "Bearer " + token)
  }

  /** The usual headers: JSON content type, the bearer token, JSON accepted. */
  function JsonHeaders(token: string): (hs: seq<Header>)
    ensures |hs| == 3 && hs[1] == Bearer(token)
    ensures hs[0] == Header("Content-Type", "application/json") && hs[2] == Header("Accept", "application/json")
  {
    [Header("Content-Type", "application/json"), Bearer(token), Header("Accept", "application/json")]
  }

  /** `delete headers[name]`: the other headers, in order. */
  function WithoutHeader(headers: seq<Header>, name: string): (hs: seq<Header>)
    ensures forall k :: 0 <= k < |hs| ==> hs[k].name != name && hs[k] in headers
    ensures forall h :: h in headers && h.name != name ==> h in hs
  {
    if |headers| == 0 then []
    else (if headers[0].name == name then [] else [headers[0]]) + WithoutHeader(headers[1..], name)
  }

  /** The value of the first header named `name`. */
  function HeaderValue(headers: seq<Header>, name: string): (v: Option<string>)
    ensures v.None? <==> forall k :: 0 <= k < |headers| ==> headers[k].name != name
    ensures v.Some? ==> Header(name, v.value) in headers
  {
    if |headers| == 0 then None
    else if headers[0].name == name then Some(headers[0].value)
    else
      var v := HeaderValue(headers[1..], name);
      assert forall k :: 1 <= k < |headers| ==> headers[k] == headers[1..][k - 1];
      v
  }

  /** Removing the content type from the usual headers leaves the token and the accept header, in that order. */
  lemma MultipartHeaders(token: string)
    ensures WithoutHeader(JsonHeaders(token), "Content-Type") == [Bearer(token), Header("Accept", "application/json")]
    ensures HeaderValue(WithoutHeader(JsonHeaders(token), "Content-Type"), "Content-Type").None?
  {
    var hs := JsonHeaders(token);
    assert hs[1..][1..][1..] == [];
    assert WithoutHeader(hs[1..][1..], "Content-Type") == [hs[2]];
  }

  /** Every request the client sends carries the stored token as a bearer credential. */
  predicate Authorized(request: Request, token: string) {
    HeaderValue(request.headers, "Authorization") == Some("Bearer " + token)
  }

  /** A JSON request declares its content type; a multipart one leaves it to the browser. */
  predicate ContentTypeMatchesBody(request: Request) {
    (request.body.JsonBody? ==> HeaderValue(request.headers, "Content-Type") == Some("application/json")) &&
    (request.body.MultipartBody? ==> HeaderValue(request.headers, "Content-Type").None?)
  }

  /** The server's explanation reaches the user: a failed response's truthy text message is the one the screens show. */
  lemma ServerMessageShown(json: Value, message: string, fallback: string, screenFallback: string)
    requires Get(json, "message") == Str(message) && message != ""
    ensures Settle(Response(false, json), fallback).Threw?
    ensures ErrorDescription(Settle(Response(false, json), fallback).thrown, screenFallback) == message
  {
  }

  /**
   * Bodies the client cannot read: an ok reply without a JSON body (such as an empty
   * answer to a DELETE) still makes the call throw, and a failed reply whose body is
   * `null` shows the property-read TypeError instead of the fallback text.
   */
  lemma UnreadableBodiesThrow(parseError: Value, fallback: string, screenFallback: string)
    ensures Settle(NotJson(true, parseError), fallback) == Threw(parseError)
    ensures Settle(Response(false, Null), fallback).Threw?
    ensures ErrorDescription(Settle(Response(false, Null), fallback).thrown, screenFallback) ==
      "Cannot read properties of null (reading 'message')"
  {
  }

  /** `FormData.append(name, v)`: a file is kept as a file, anything else becomes its string form. */
  function EntryValue(v: Value): (p: PartValue)
    ensures v.File? ==> p == FilePart(v.fileName)
    ensures !v.File? ==> p == TextPart(ToStr(v))
  {
    if v.File? then FilePart(v.fileName) else TextPart(ToStr(v))
  }

  /** One `tags[]` field per tag, in list order. */
  function TagParts(tags: seq<Value>): (parts: seq<Part>)
    ensures |parts| == |tags|
    ensures forall k :: 0 <= k < |tags| ==> parts[k] == Part("tags[]", EntryValue(tags[k]))
  {
    seq(|tags|, k requires 0 <= k < |tags| => Part("tags[]", EntryValue(tags[k])))
  }

  /** The values of the fields named `name`, in order. */
  function PartsNamed(parts: seq<Part>, name: string): (vs: seq<PartValue>)
    ensures |vs| <= |parts|
  {
    if |parts| == 0 then []
    else (if parts[0].name == name then [parts[0].value] else []) + PartsNamed(parts[1..], name)
  }

  lemma {:induction false} PartsNamedAppend(a: seq<Part>, b: seq<Part>, name: string)
    ensures PartsNamed(a + b, name) == PartsNamed(a, name) + PartsNamed(b, name)
  {
    if |a| == 0 {
      assert a + b == b;
    } else {
      var head := if a[0].name == name then [a[0].value] else [];
      assert (a + b)[0] == a[0];
      assert (a + b)[1..] == a[1..] + b;
      assert PartsNamed(a + b, name) == head + PartsNamed(a[1..] + b, name);
      PartsNamedAppend(a[1..], b, name);
      assert head + (PartsNamed(a[1..], name) + PartsNamed(b, name)) == (head + PartsNamed(a[1..], name)) + PartsNamed(b, name);
    }
  }

  /** A tag list's fields are all named `tags[]`: nothing under any other name. */
  lemma {:induction false} TagPartsNamed(tags: seq<Value>, name: string)
    ensures name == "tags[]" ==> PartsNamed(TagParts(tags), name) == seq(|tags|, k requires 0 <= k < |tags| => EntryValue(tags[k]))
    ensures name != "tags[]" ==> PartsNamed(TagParts(tags), name) == []
  {
    if |tags| > 0 {
      TagPartsNamed(tags[1..], name);
      assert TagParts(tags) == [Part("tags[]", EntryValue(tags[0]))] + TagParts(tags[1..]);
    }
  }

  /** The keys of an object have no repeats, as `Object.keys` reports them. */
  predicate DistinctKeys(keys: seq<string>) {
    forall i, j :: 0 <= i < j < |keys| ==> keys[i] != keys[j]
  }

  /** Peeling the last key off distinct keys: the rest stay distinct and do not hold it. */
  lemma SplitLastKey(keys: seq<string>)
    requires |keys| > 0 && DistinctKeys(keys)
    ensures keys == keys[..|keys| - 1] + [keys[|keys| - 1]]
    ensures DistinctKeys(keys[..|keys| - 1]) && keys[|keys| - 1] !in keys[..|keys| - 1]
    ensures forall n :: n in keys <==> n in keys[..|keys| - 1] || n == keys[|keys| - 1]
  {
    var front := keys[..|keys| - 1];
    assert keys == front + [keys[|keys| - 1]];
    forall i | 0 <= i < |front|
      ensures front[i] != keys[|keys| - 1]
    {
      assert front[i] == keys[i];
    }
  }

  lemma SinglePartNamed(partName: string, v: PartValue, name: string)
    ensures PartsNamed([Part(partName, v)], name) == if partName == name then [v] else []
  {
    assert [Part(partName, v)][1..] == [];
  }

  /** The TypeError `customerData.tags.forEach(...)` throws when `tags` is not an array. */
  function TagsError(tags: Value): (e: Value)
    ensures Nullish(tags) ==> Get(e, "message") == Str("Cannot read properties of " + ToStr(tags) + " (reading 'forEach')")
    ensures !Nullish(tags) ==> Get(e, "message") == Str("customerData.tags.forEach is not a function")
  {
    if Nullish(tags) then ErrorObject("Cannot read properties of " + ToStr(tags) + " (reading 'forEach')")
    else ErrorObject("customerData.tags.forEach is not a function")
  }

  /**
   * The create call's fields for one key: each tag under `tags[]` (the key `tags` must
   * hold an array), the photo once, any other key once under its own name.
   */
  function AddKeyParts(data: Value, key: string): (parts: Option<seq<Part>>)
    ensures parts.None? <==> key == "tags" && !Get(data, "tags").Arr?
    ensures key == "tags" && parts.Some? ==> parts.value == TagParts(Get(data, "tags").items)
    ensures key != "tags" ==> parts == Some([Part(key, EntryValue(Get(data, key)))])
  {
    if key == "tags" then
      if Get(data, "tags").Arr? then Some(TagParts(Get(data, "tags").items)) else None
    else if key == "photo" then Some([Part("photo", EntryValue(Get(data, "photo")))])
    else Some([Part(key, EntryValue(Get(data, key)))])
  }

  /** The create call's multipart fields, key by key in `Object.keys` order; none when `tags` is not an array. */
  function AddBody(data: Value, keys: seq<string>): (parts: Option<seq<Part>>)
    ensures parts.None? <==> "tags" in keys && !Get(data, "tags").Arr?
    decreases |keys|
  {
    if |keys| == 0 then Some([])
    else
      var front := keys[..|keys| - 1];
      var last := keys[|keys| - 1];
      assert keys == front + [last];
      match AddBody(data, front)
      case None => None
      case Some(p) =>
        match AddKeyParts(data, last)
        case None => None
        case Some(q) => Some(p + q)
  }

  /**
   * The create call's fields named `name` (any name but `tags[]`): the value of that
   * key once when the object has it, nothing otherwise; in particular the photo once,
   * and no field named `tags` (the tags go under `tags[]`).
   */
  lemma {:induction false} AddBodyNamed(data: Value, keys: seq<string>, name: string)
    requires AddBody(data, keys).Some? && DistinctKeys(keys) && name != "tags[]"
    ensures PartsNamed(AddBody(data, keys).value, name) ==
      if name in keys && name != "tags" then [EntryValue(Get(data, name))] else []
    decreases |keys|
  {
    if |keys| > 0 {
      SplitLastKey(keys);
      var front := keys[..|keys| - 1];
      var last := keys[|keys| - 1];
      AddBodyNamed(data, front, name);
      var p := AddBody(data, front).value;
      var q := AddKeyParts(data, last).value;
      assert AddBody(data, keys).value == p + q;
      PartsNamedAppend(p, q, name);
      if last == "tags" {
        TagPartsNamed(Get(data, "tags").items, name);
      } else {
        SinglePartNamed(last, EntryValue(Get(data, last)), name);
      }
    }
  }

  /** The create call's `tags[]` fields: one per tag, in list order, when no key is itself named `tags[]`. */
  lemma {:induction false} AddBodyTags(data: Value, keys: seq<string>)
    requires AddBody(data, keys).Some? && DistinctKeys(keys) && "tags[]" !in keys
    ensures "tags" in keys ==> (Get(data, "tags").Arr? &&
      PartsNamed(AddBody(data, keys).value, "tags[]") ==
      seq(|Get(data, "tags").items|, k requires 0 <= k < |Get(data, "tags").items| => EntryValue(Get(data, "tags").items[k])))
    ensures "tags" !in keys ==> PartsNamed(AddBody(data, keys).value, "tags[]") == []
    decreases |keys|
  {
    if |keys| > 0 {
      SplitLastKey(keys);
      var front := keys[..|keys| - 1];
      var last := keys[|keys| - 1];
      AddBodyTags(data, front);
      var p := AddBody(data, front).value;
      var q := AddKeyParts(data, last).value;
      assert AddBody(data, keys).value == p + q;
      PartsNamedAppend(p, q, "tags[]");
      if last == "tags" {
        TagPartsNamed(Get(data, "tags").items, "tags[]");
      } else {
        SinglePartNamed(last, EntryValue(Get(data, last)), "tags[]");
      }
    }
  }

  /**
   * The update call's fields for one key: the photo once, each tag under `tags[]`
   * when `tags` is an array, any other value once unless it is `null` or `undefined`.
   */
  function UpdateKeyParts(data: Value, key: string): (parts: seq<Part>)
    ensures key == "photo" ==> parts == [Part("photo", EntryValue(Get(data, "photo")))]
    ensures key == "tags" && Get(data, "tags").Arr? ==> parts == TagParts(Get(data, "tags").items)
    ensures key != "photo" && !(key == "tags" && Get(data, "tags").Arr?) ==>
      parts == if Nullish(Get(data, key)) then [] else [Part(key, EntryValue(Get(data, key)))]
  {
    if key == "photo" then [Part("photo", EntryValue(Get(data, "photo")))]
    else if key == "tags" && Get(data, key).Arr? then TagParts(Get(data, key).items)
    else if !Nullish(Get(data, key)) then [Part(key, EntryValue(Get(data, key)))]
    else []
  }

  /** A key's update fields carry its own name, or `tags[]` for an array of tags. */
  lemma UpdateKeyPartsOtherName(data: Value, key: string, name: string)
    requires name != key && (name == "tags[]" ==> !(key == "tags" && Get(data, "tags").Arr?))
    ensures PartsNamed(UpdateKeyParts(data, key), name) == []
  {
    if key == "tags" && Get(data, "tags").Arr? {
      TagPartsNamed(Get(data, "tags").items, name);
    } else if key == "photo" {
      SinglePartNamed("photo", EntryValue(Get(data, "photo")), name);
    } else if !Nullish(Get(data, key)) {
      SinglePartNamed(key, EntryValue(Get(data, key)), name);
    }
  }

  /** The update call's multipart fields, key by key in `Object.keys` order. */
  function UpdateBody(data: Value, keys: seq<string>): (parts: seq<Part>)
    ensures forall k :: 0 <= k < |parts| ==> parts[k].name in keys || parts[k].name == "tags[]"
    decreases |keys|
  {
    if |keys| == 0 then []
    else
      var front := keys[..|keys| - 1];
      var last := keys[|keys| - 1];
      var p := UpdateBody(data, front);
      var q := UpdateKeyParts(data, last);
      assert forall k :: 0 <= k < |p| ==> p[k].name in keys || p[k].name == "tags[]" by {
        assert forall s :: s in front ==> s in keys;
      }
      p + q
  }

  /**
   * The update call's fields named `name` (any name but `tags[]`): those of that key
   * once when the object has it, nothing otherwise. With the cases of `UpdateKeyParts`,
   * a `null` or `undefined` field is skipped and an array of tags sends no `tags` field.
   */
  lemma {:induction false} UpdateBodyNamed(data: Value, keys: seq<string>, name: string)
    requires DistinctKeys(keys) && name != "tags[]"
    ensures PartsNamed(UpdateBody(data, keys), name) == if name in keys then PartsNamed(UpdateKeyParts(data, name), name) else []
    decreases |keys|
  {
    if |keys| > 0 {
      SplitLastKey(keys);
      var front := keys[..|keys| - 1];
      var last := keys[|keys| - 1];
      UpdateBodyNamed(data, front, name);
      var p := UpdateBody(data, front);
      var q := UpdateKeyParts(data, last);
      assert UpdateBody(data, keys) == p + q;
      PartsNamedAppend(p, q, name);
      if last != name {
        UpdateKeyPartsOtherName(data, last, name);
      }
    }
  }

  /** The update call's `tags[]` fields: one per tag when `tags` is an array, none otherwise. */
  lemma {:induction false} UpdateBodyTags(data: Value, keys: seq<string>)
    requires DistinctKeys(keys) && "tags[]" !in keys
    ensures PartsNamed(UpdateBody(data, keys), "tags[]") ==
      if "tags" in keys && Get(data, "tags").Arr?
      then seq(|Get(data, "tags").items|, k requires 0 <= k < |Get(data, "tags").items| => EntryValue(Get(data, "tags").items[k]))
      else []
    decreases |keys|
  {
    if |keys| > 0 {
      SplitLastKey(keys);
      var front := keys[..|keys| - 1];
      var last := keys[|keys| - 1];
      UpdateBodyTags(data, front);
      var p := UpdateBody(data, front);
      var q := UpdateKeyParts(data, last);
      assert UpdateBody(data, keys) == p + q;
      PartsNamedAppend(p, q, "tags[]");
      if last == "tags" && Get(data, "tags").Arr? {
        TagPartsNamed(Get(data, "tags").items, "tags[]");
      } else {
        UpdateKeyPartsOtherName(data, last, "tags[]");
      }
    }
  }

  /** `Object.keys(v)` for an object. */
  function ObjectKeys(v: Value): (keys: seq<string>)
    requires v.Obj?
    ensures |keys| == |v.entries|
  {
    Keys(v.entries)
  }

  /** `tags.forEach(tag => body.append("tags[]", tag))`: one `tags[]` field per tag appended in order. */
  method AppendTagParts(acc: seq<Part>, tags: seq<Value>) returns (r: seq<Part>)
    ensures r == acc + TagParts(tags)
  {
    r := acc;
    var j := 0;
    while j < |tags|
      invariant 0 <= j <= |tags|
      invariant |r| == |acc| + j && r[..|acc|] == acc
      invariant forall k :: 0 <= k < j ==> r[|acc| + k] == Part("tags[]", EntryValue(tags[k]))
    {
      r := r + [Part("tags[]", EntryValue(tags[j]))];
      j := j + 1;
    }
  }

  /** Extending the key prefix by one key appends that key's update fields. */
  lemma UpdateBodyStep(data: Value, keys: seq<string>, i: nat)
    requires i < |keys|
    ensures UpdateBody(data, keys[..i + 1]) == UpdateBody(data, keys[..i]) + UpdateKeyParts(data, keys[i])
  {
    assert keys[..i + 1][..i] == keys[..i] && keys[..i + 1][i] == keys[i];
  }

  /** `addCustomer`'s field list, built by appending in a loop over the keys as the client does. */
  method BuildAddBody(data: Value) returns (parts: Option<seq<Part>>)
    requires data.Obj?
    ensures parts == AddBody(data, ObjectKeys(data))
  {
    var keys := ObjectKeys(data);
    var acc: seq<Part> := [];
    var i := 0;
    while i < |keys|
      invariant 0 <= i <= |keys|
      invariant AddBody(data, keys[..i]) == Some(acc)
    {
      var extra := AddFieldsOf(data, keys[i]);
      AddBodyStep(data, keys, i);
      if extra.None? {
        assert keys[i] in keys;
        return None;
      }
      acc := acc + extra.value;
      i := i + 1;
    }
    assert keys[..i] == keys;
    parts := Some(acc);
  }

  /** One pass of `addCustomer`'s key loop: the fields it appends for `key`, or none when `tags` is not an array. */
  method AddFieldsOf(data: Value, key: string) returns (extra: Option<seq<Part>>)
    ensures extra == AddKeyParts(data, key)
  {
    if key == "tags" {
      var tags := Get(data, "tags");
      if !tags.Arr? {
        return None;
      }
      var appended := AppendTagParts([], tags.items);
      assert appended == TagParts(tags.items);
      extra := Some(appended);
    } else if key == "photo" {
      extra := Some([Part("photo", EntryValue(Get(data, "photo")))]);
    } else {
      extra := Some([Part(key, EntryValue(Get(data, key)))]);
    }
  }

  /** Extending the key prefix by one key adds that key's create fields, or fails with it. */
  lemma AddBodyStep(data: Value, keys: seq<string>, i: nat)
    requires i < |keys|
    ensures AddBody(data, keys[..i + 1]) ==
      match AddBody(data, keys[..i])
      case None => None
      case Some(p) => if AddKeyParts(data, keys[i]).None? then None else Some(p + AddKeyParts(data, keys[i]).value)
  {
    assert keys[..i + 1][..i] == keys[..i] && keys[..i + 1][i] == keys[i];
  }

  /** `updateCustomer`'s field list, built by appending in a loop over the keys as the client does. */
  method BuildUpdateBody(data: Value) returns (parts: seq<Part>)
    requires data.Obj?
    ensures parts == UpdateBody(data, ObjectKeys(data))
  {
    var keys := ObjectKeys(data);
    parts := [];
    var i := 0;
    while i < |keys|
      invariant 0 <= i <= |keys|
      invariant UpdateBody(data, keys[..i]) == parts
    {
      var extra := UpdateFieldsOf(data, keys[i]);
      UpdateBodyStep(data, keys, i);
      parts := parts + extra;
      i := i + 1;
    }
    assert keys[..i] == keys;
  }

  /** One pass of `updateCustomer`'s key loop: the fields it appends for `key`. */
  method UpdateFieldsOf(data: Value, key: string) returns (extra: seq<Part>)
    ensures extra == UpdateKeyParts(data, key)
  {
    var v := Get(data, key);
    extra := [];
    if key == "photo" {
      extra := [Part("photo", EntryValue(Get(data, "photo")))];
    } else if key == "tags" && v.Arr? {
      extra := AppendTagParts([], v.items);
    } else if !Nullish(v) {
      extra := [Part(key, EntryValue(v))];
    }
  }

  /** `${API_URL}/${id}`: the URL of one customer. */
  function RecordUrl(id: Value): (url: string)
    ensures url == ApiUrl + "/" + ToStr(id)
  {
    ApiUrl + "/" + ToStr(id)
  }

  /** Different numeric ids address different customers. */
  lemma RecordUrlsDistinct(a: int, b: int)
    requires a != b
    ensures RecordUrl(Num(a)) != RecordUrl(Num(b))
  {
    var prefix := ApiUrl + "/";
    if RecordUrl(Num(a)) == RecordUrl(Num(b)) {
      assert RecordUrl(Num(a))[|prefix|..] == IntToString(a);
      assert RecordUrl(Num(b))[|prefix|..] == IntToString(b);
      IntToStringInjective(a, b);
    }
  }

  /**
   * `addCustomer`: a record whose `photo` is truthy is sent as multipart fields without a
   * content type (and fails before sending when its `tags` is not an array); any other
   * record is sent whole as JSON. Both are POSTed to the collection URL.
   */
  method AddCustomer(token: Option<string>, data: Value, reply: Reply) returns (sent: Option<Request>, result: Settled)
    requires data.Obj?
    ensures !HasToken(token) ==> sent.None? && result == Threw(NoTokenError())
    ensures HasToken(token) && !Truthy(Get(data, "photo")) ==>
      sent == Some(Request("POST", ApiUrl, JsonHeaders(token.value), JsonBody(data))) &&
      result == Settle(reply, "Failed to add customer")
    ensures HasToken(token) && Truthy(Get(data, "photo")) && AddBody(data, ObjectKeys(data)).Some? ==>
      sent == Some(Request("POST", ApiUrl, [Bearer(token.value), Header("Accept", "application/json")],
                           MultipartBody(AddBody(data, ObjectKeys(data)).value))) &&
      result == Settle(reply, "Failed to add customer")
    ensures HasToken(token) && Truthy(Get(data, "photo")) && AddBody(data, ObjectKeys(data)).None? ==>
      sent.None? && result == Threw(TagsError(Get(data, "tags")))
    ensures sent.Some? ==> Authorized(sent.value, token.value) && ContentTypeMatchesBody(sent.value)
  {
    if !HasToken(token) {
      return None, Threw(NoTokenError());
    }
    var headers := JsonHeaders(token.value);
    var body: Body;
    if Truthy(Get(data, "photo")) {
      var parts := BuildAddBody(data);
      if parts.None? {
        return None, Threw(TagsError(Get(data, "tags")));
      }
      body := MultipartBody(parts.value);
      MultipartHeaders(token.value);
      headers := WithoutHeader(headers, "Content-Type");
    } else {
      body := JsonBody(data);
    }
    sent := Some(Request("POST", ApiUrl, headers, body));
    result := Settle(reply, "Failed to add customer");
  }

  /** `getCustomersName`: a GET of the names URL. */
  method GetCustomersNames(token: Option<string>, reply: Reply) returns (sent: Option<Request>, result: Settled)
    ensures !HasToken(token) ==> sent.None? && result == Threw(NoTokenError())
    ensures HasToken(token) ==>
      sent == Some(Request("GET", ApiUrl + "/names", JsonHeaders(token.value), NoBody)) &&
      result == Settle(reply, "Failed to fetch customers names")
    ensures sent.Some? ==> Authorized(sent.value, token.value)
  {
    if !HasToken(token) {
      return None, Threw(NoTokenError());
    }
    sent := Some(Request("GET", ApiUrl + "/names", JsonHeaders(token.value), NoBody));
    result := Settle(reply, "Failed to fetch customers names");
  }

  /** `getCustomers`: a GET of the collection URL, without an accept header. */
  method GetCustomers(token: Option<string>, reply: Reply) returns (sent: Option<Request>, result: Settled)
    ensures !HasToken(token) ==> sent.None? && result == Threw(NoTokenError())
    ensures HasToken(token) ==>
      sent == Some(Request("GET", ApiUrl, [Header("Content-Type", "application/json"), Bearer(token.value)], NoBody)) &&
      result == Settle(reply, "Failed to fetch customers")
    ensures sent.Some? ==> Authorized(sent.value, token.value)
  {
    if !HasToken(token) {
      return None, Threw(NoTokenError());
    }
    sent := Some(Request("GET", ApiUrl, [Header("Content-Type", "application/json"), Bearer(token.value)], NoBody));
    result := Settle(reply, "Failed to fetch customers");
  }

  /** `deleteCustomer`: a DELETE of the record URL. */
  method DeleteCustomer(token: Option<string>, id: Value, reply: Reply) returns (sent: Option<Request>, result: Settled)
    ensures !HasToken(token) ==> sent.None? && result == Threw(NoTokenError())
    ensures HasToken(token) ==>
      sent == Some(Request("DELETE", RecordUrl(id), JsonHeaders(token.value), NoBody)) &&
      result == Settle(reply, "Failed to delete customer")
    ensures sent.Some? ==> Authorized(sent.value, token.value)
  {
    if !HasToken(token) {
      return None, Threw(NoTokenError());
    }
    sent := Some(Request("DELETE", RecordUrl(id), JsonHeaders(token.value), NoBody));
    result := Settle(reply, "Failed to delete customer");
  }

  /**
   * `updateCustomer`: a record whose `photo` is a file is PUT as multipart fields
   * without a content type; any other record is PUT whole as JSON.
   */
  method UpdateCustomer(token: Option<string>, id: Value, data: Value, reply: Reply) returns (sent: Option<Request>, result: Settled)
    requires data.Obj?
    ensures !HasToken(token) ==> sent.None? && result == Threw(NoTokenError())
    ensures HasToken(token) && Get(data, "photo").File? ==>
      sent == Some(Request("PUT", RecordUrl(id), [Bearer(token.value), Header("Accept", "application/json")],
                           MultipartBody(UpdateBody(data, ObjectKeys(data))))) &&
      result == Settle(reply, "Failed to update customer")
    ensures HasToken(token) && !Get(data, "photo").File? ==>
      sent == Some(Request("PUT", RecordUrl(id), JsonHeaders(token.value), JsonBody(data))) &&
      result == Settle(reply, "Failed to update customer")
    ensures sent.Some? ==> Authorized(sent.value, token.value) && ContentTypeMatchesBody(sent.value)
  {
    if !HasToken(token) {
      return None, Threw(NoTokenError());
    }
    if Get(data, "photo").File? {
      var parts := BuildUpdateBody(data);
      sent := Some(Request("PUT", RecordUrl(id), [Bearer(token.value), Header("Accept", "application/json")], MultipartBody(parts)));
    } else {
      sent := Some(Request("PUT", RecordUrl(id), JsonHeaders(token.value), JsonBody(data)));
    }
    result := Settle(reply, "Failed to update customer");
  }

  /** `showCustomer`: a GET of the record URL. */
  method ShowCustomer(token: Option<string>, id: Value, reply: Reply) returns (sent: Option<Request>, result: Settled)
    ensures !HasToken(token) ==> sent.None? && result == Threw(NoTokenError())
    ensures HasToken(token) ==>
      sent == Some(Request("GET", RecordUrl(id), JsonHeaders(token.value), NoBody)) &&
      result == Settle(reply, "Failed to fetch customer details")
    ensures sent.Some? ==> Authorized(sent.value, token.value)
  {
    if !HasToken(token) {
      return None, Threw(NoTokenError());
    }
    sent := Some(Request("GET", RecordUrl(id), JsonHeaders(token.value), NoBody));
    result := Settle(reply, "Failed to fetch customer details");
  }

  /** `bulkDeleteCustomers`: a DELETE of the bulk URL with the body `{ids}`. */
  method BulkDeleteCustomers(token: Option<string>, ids: Value, reply: Reply) returns (sent: Option<Request>, result: Settled)
    ensures !HasToken(token) ==> sent.None? && result == Threw(NoTokenError())
    ensures HasToken(token) ==>
      sent == Some(Request("DELETE", ApiUrl + "/bulk-delete", JsonHeaders(token.value), JsonBody(Obj([Entry("ids", ids)])))) &&
      result == Settle(reply, "Failed to delete customers")
    ensures sent.Some? ==> Authorized(sent.value, token.value) && Get(sent.value.body.payload, "ids") == ids
  {
    if !HasToken(token) {
      return None, Threw(NoTokenError());
    }
    sent := Some(Request("DELETE", ApiUrl + "/bulk-delete", JsonHeaders(token.value), JsonBody(Obj([Entry("ids", ids)]))));
    result := Settle(reply, "Failed to delete customers");
  }
}
