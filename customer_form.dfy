/**
 * The "Create New Customer" form: its validation rules and the tags
 * transform, the salesman picker (the list it loads, the name lookup, the
 * trigger text), the photo field, and what a submit does to the form.
 */
module AddCustomer {
  import opened Wrappers
  import opened JsValues
  import opened Text
  import opened Effects
  import opened FormRules

  /** The form's values as the user edits them. */
  datatype CustomerValues = CustomerValues(
    name: string,
    tel1: string,
    tel2: string,
    address: string,
    gender: string,
    subscriptionDate: Option<Day>,
    rate: NumInput,
    tags: Option<string>,
    salesmenCode: Value,
    photo: Option<string>)

  /** The values after validation: the date is present, the rate a number, the tags a list, the code a string. */
  datatype CustomerData = CustomerData(
    name: string,
    tel1: string,
    tel2: string,
    address: string,
    gender: string,
    subscriptionDate: Day,
    rate: real,
    tags: seq<string>,
    salesmenCode: string,
    photo: Option<string>)

  /** What the name lookup of the salesman picker finds. `NameNotText` is the lookup throwing on a name it cannot lower-case. */
  datatype FindOutcome = Found(salesman: Value) | NotFound | NameNotText

  /** The salesman trigger: a spinner while loading, else a text. */
  datatype Trigger = Spinner | Caption(text: string)

  /** What one press of "Create Customer" ends in. */
  datatype SubmitOutcome = Rejected(issues: seq<Issue>) | Added(data: CustomerData) | Failed(description: string)

  /** The values the form starts from and returns to: empty texts, the given day, rate 0, no photo. */
  function Defaults(today: Day): (v: CustomerValues)
    ensures v.name == "" && v.tel1 == "" && v.tel2 == "" && v.address == "" && v.gender == ""
    ensures v.tags == Some("") && v.salesmenCode == Str("")
    ensures v.subscriptionDate == Some(today) && v.rate == Finite(0.0) && v.photo.None?
  {
    CustomerValues("", "", "", "", "", Some(today), Finite(0.0), Some(""), Str(""), None)
  }

  /** What one piece contributes: its trim, unless that is empty. */
  function PieceTag(piece: string): (tag: seq<string>)
    ensures forall k :: 0 <= k < |tag| ==> tag[k] == Trim(piece) != ""
  {
    if Trim(piece) != "" then [Trim(piece)] else []
  }

  /** The tag pieces trimmed, with the empty ones dropped, in order. */
  function CleanTags(pieces: seq<string>): (tags: seq<string>)
    ensures |tags| <= |pieces|
    ensures |pieces| == 1 ==> tags == if Trim(pieces[0]) != "" then [Trim(pieces[0])] else []
  {
    if |pieces| == 0 then []
    else PieceTag(pieces[0]) + CleanTags(pieces[1..])
  }

  /** A usable tag: not empty, and no whitespace at either end. */
  predicate CleanTag(tag: string) {
    tag != "" && Trimmed(tag)
  }

  /** Every tag is non-empty and has no whitespace at either end. */
  lemma {:induction false} CleanTagsAreClean(pieces: seq<string>)
    ensures forall k :: 0 <= k < |CleanTags(pieces)| ==> CleanTag(CleanTags(pieces)[k])
  {
    if |pieces| > 0 {
      CleanTagsAreClean(pieces[1..]);
      AllCleanAppend(PieceTag(pieces[0]), CleanTags(pieces[1..]));
    }
  }

  lemma AllCleanAppend(h: seq<string>, t: seq<string>)
    requires forall k :: 0 <= k < |h| ==> CleanTag(h[k])
    requires forall k :: 0 <= k < |t| ==> CleanTag(t[k])
    ensures forall k :: 0 <= k < |h + t| ==> CleanTag((h + t)[k])
  {
    forall k | 0 <= k < |h + t|
      ensures CleanTag((h + t)[k])
    {
      if k >= |h| {
        assert (h + t)[k] == t[k - |h|];
      }
    }
  }

  /** Every piece trimmed, blank ones included. */
  function TrimAll(pieces: seq<string>): (r: seq<string>)
    ensures |r| == |pieces| && forall k :: 0 <= k < |pieces| ==> r[k] == Trim(pieces[k])
  {
    if |pieces| == 0 then [] else [Trim(pieces[0])] + TrimAll(pieces[1..])
  }

  /** When no piece is blank, every piece gives a tag: its trim, at its own position. */
  lemma {:induction false} CleanTagsOfNonBlank(pieces: seq<string>)
    requires forall k :: 0 <= k < |pieces| ==> Trim(pieces[k]) != ""
    ensures CleanTags(pieces) == TrimAll(pieces)
  {
    if |pieces| > 0 {
      var rest := pieces[1..];
      assert forall k :: 0 <= k < |rest| ==> rest[k] == pieces[k + 1];
      CleanTagsOfNonBlank(rest);
      NonBlankHead(pieces);
    }
  }

  lemma NonBlankHead(pieces: seq<string>)
    requires |pieces| > 0 && Trim(pieces[0]) != ""
    ensures CleanTags(pieces) == [Trim(pieces[0])] + CleanTags(pieces[1..])
  {
  }

  /** Cleaning works piece by piece: the tags of two lists of pieces are the tags of each, in order. */
  lemma {:induction false} CleanTagsAppend(a: seq<string>, b: seq<string>)
    ensures CleanTags(a + b) == CleanTags(a) + CleanTags(b)
  {
    if |a| > 0 {
      var head := PieceTag(a[0]);
      assert (a + b)[0] == a[0];
      assert (a + b)[1..] == a[1..] + b;
      assert CleanTags(a + b) == head + CleanTags(a[1..] + b);
      assert CleanTags(a) == head + CleanTags(a[1..]);
      CleanTagsAppend(a[1..], b);
      assert head + (CleanTags(a[1..]) + CleanTags(b)) == (head + CleanTags(a[1..])) + CleanTags(b);
    } else {
      assert a + b == b;
    }
  }

  /**
   * The `tags` transform: a missing or empty text gives no tags; otherwise the text is
   * split on ",", each piece trimmed, and the empty pieces dropped, in order.
   */
  function ParseTags(tags: Option<string>): (r: seq<string>)
    ensures tags.None? || tags.value == "" ==> r == []
    ensures tags.Some? && tags.value != "" ==> r == CleanTags(Split(tags.value, ','))
    ensures forall k :: 0 <= k < |r| ==> r[k] != "" && Trimmed(r[k]) && ',' !in r[k]
  {
    if tags.None? || tags.value == "" then []
    else
      var pieces := Split(tags.value, ',');
      var r := CleanTags(pieces);
      CleanTagsAreClean(pieces);
      CleanTagsHaveNoComma(pieces);
      r
  }

  lemma {:induction false} CleanTagsHaveNoComma(pieces: seq<string>)
    requires forall k :: 0 <= k < |pieces| ==> ',' !in pieces[k]
    ensures forall k :: 0 <= k < |CleanTags(pieces)| ==> ',' !in CleanTags(pieces)[k]
  {
    if |pieces| > 0 {
      CleanTagsHaveNoComma(pieces[1..]);
      TrimKeepsOut(pieces[0], ',');
    }
  }

  /** Pieces that are already clean come back unchanged. */
  lemma {:induction false} CleanTagsOfClean(tags: seq<string>)
    requires forall k :: 0 <= k < |tags| ==> tags[k] != "" && Trimmed(tags[k])
    ensures CleanTags(tags) == tags
  {
    if |tags| > 0 {
      var rest := tags[1..];
      forall k | 0 <= k < |rest|
        ensures rest[k] != "" && Trimmed(rest[k])
      {
        assert rest[k] == tags[k + 1];
      }
      CleanTagsOfClean(rest);
      TrimOfTrimmed(tags[0]);
      NonBlankHead(tags);
    }
  }

  /** Tags written back as a comma-separated text are read back as the same list. */
  lemma TagsRoundTrip(tags: seq<string>)
    requires |tags| >= 1
    requires forall k :: 0 <= k < |tags| ==> tags[k] != "" && Trimmed(tags[k]) && ',' !in tags[k]
    ensures ParseTags(Some(Join(tags, ','))) == tags
  {
    var text := Join(tags, ',');
    JoinStartsWithFirst(tags);
    assert text != "";
    SplitJoin(tags, ',');
    CleanTagsOfClean(tags);
  }

  lemma {:induction false} JoinStartsWithFirst(parts: seq<string>)
    requires |parts| >= 1
    ensures |Join(parts, ',')| >= |parts[0]|
  {
  }

  /** Parsing is stable: parsing the comma-joined result of a parse gives the same tags. */
  lemma ParseTagsStable(text: string)
    requires ParseTags(Some(text)) != []
    ensures ParseTags(Some(Join(ParseTags(Some(text)), ','))) == ParseTags(Some(text))
  {
    TagsRoundTrip(ParseTags(Some(text)));
  }

  /** The schema's acceptance: required texts present, a date picked, a non-negative rate, a salesman code text. */
  predicate Valid(v: CustomerValues) {
    v.name != "" && v.tel1 != "" && v.address != "" && v.gender != "" &&
    v.subscriptionDate.Some? && v.rate.Finite? && v.rate.r >= 0.0 &&
    v.salesmenCode.Str? && v.salesmenCode.s != ""
  }

  /**
   * The schema's messages, in field order. `tel2`, `tags` and `photo` never produce one:
   * they are optional.
   */
  function Issues(v: CustomerValues): (issues: seq<Issue>)
    ensures issues == [] <==> Valid(v)
  {
    MinLength(v.name, 1, "name", "Name is required") +
    MinLength(v.tel1, 1, "tel1", "Primary telephone is required") +
    MinLength(v.address, 1, "address", "Address is required") +
    MinLength(v.gender, 1, "gender", "Gender is required") +
    DatePicked(v.subscriptionDate, "subscription_date") +
    NonnegativeNumber(v.rate, "rate", "Rate cannot be negative") +
    TextAtLeast(v.salesmenCode, 1, "salesmen_code", "Salesman code is required")
  }

  /** Validation and transform: the submitted data when every rule holds, else the messages. */
  function Parse(v: CustomerValues): (r: Result<CustomerData, seq<Issue>>)
    ensures r.Ok? <==> Valid(v)
    ensures r.Err? ==> r.error == Issues(v) && r.error != []
    ensures r.Ok? ==> (r.value.tags == ParseTags(v.tags) && r.value.rate == v.rate.r &&
      Some(r.value.subscriptionDate) == v.subscriptionDate && Str(r.value.salesmenCode) == v.salesmenCode)
    ensures r.Ok? ==> (r.value.name == v.name && r.value.tel1 == v.tel1 && r.value.tel2 == v.tel2 &&
      r.value.address == v.address && r.value.gender == v.gender && r.value.photo == v.photo)
  {
    if Valid(v) then
      Ok(CustomerData(v.name, v.tel1, v.tel2, v.address, v.gender, v.subscriptionDate.value,
                      v.rate.r, ParseTags(v.tags), v.salesmenCode.s, v.photo))
    else Err(Issues(v))
  }

  /** An untouched form reports exactly the five required fields, in order; the default rate, tags and date pass. */
  lemma UntouchedFormIssues(today: Day)
    ensures Issues(Defaults(today)) == [
      Issue("name", "Name is required"),
      Issue("tel1", "Primary telephone is required"),
      Issue("address", "Address is required"),
      Issue("gender", "Gender is required"),
      Issue("salesmen_code", "Salesman code is required")]
  {
  }

  /** A negative rate is rejected with its message; zero and any positive rate pass that rule. */
  lemma RateRule(v: CustomerValues, r: real)
    ensures !Valid(v.(rate := Finite(r))) || r >= 0.0
    ensures r < 0.0 ==> Issue("rate", "Rate cannot be negative") in Issues(v.(rate := Finite(r)))
  {
    if r < 0.0 {
      var w := v.(rate := Finite(r));
      var before := MinLength(w.name, 1, "name", "Name is required") +
        MinLength(w.tel1, 1, "tel1", "Primary telephone is required") +
        MinLength(w.address, 1, "address", "Address is required") +
        MinLength(w.gender, 1, "gender", "Gender is required") +
        DatePicked(w.subscriptionDate, "subscription_date");
      var after := TextAtLeast(w.salesmenCode, 1, "salesmen_code", "Salesman code is required");
      assert Issues(w) == before + [Issue("rate", "Rate cannot be negative")] + after;
      assert Issues(w)[|before|] == Issue("rate", "Rate cannot be negative");
    }
  }

  /** The name of a salesman matches the chosen text ignoring case. */
  predicate NameMatches(salesman: Value, current: string) {
    Get(salesman, "name").Str? && ToLower(Get(salesman, "name").s) == ToLower(current)
  }

  /** A salesman the name lookup steps over: its name is text and does not match. */
  predicate PassedOver(salesman: Value, current: string) {
    Get(salesman, "name").Str? && !NameMatches(salesman, current)
  }

  /** The lookup steps over every salesman before position `k`. */
  predicate PassedOverBefore(salesmen: seq<Value>, current: string, k: nat)
    requires k <= |salesmen|
  {
    forall j :: 0 <= j < k ==> PassedOver(salesmen[j], current)
  }

  /**
   * `salesmen.find(s => s.name.toLowerCase() === currentValue.toLowerCase())`, scanning
   * in order; a salesman whose name is not text makes `toLowerCase` throw.
   */
  function FindByName(salesmen: seq<Value>, current: string): (r: FindOutcome)
    ensures r.Found? ==> r.salesman in salesmen && NameMatches(r.salesman, current)
  {
    if |salesmen| == 0 then NotFound
    else if !Get(salesmen[0], "name").Str? then NameNotText
    else if NameMatches(salesmen[0], current) then Found(salesmen[0])
    else FindByName(salesmen[1..], current)
  }

  /**
   * The lookup returns the FIRST matching salesman, reports none only when every name is
   * text and none matches, and throws only at a non-text name reached before any match.
   */
  lemma {:induction false} FindByNameIsFirstMatch(salesmen: seq<Value>, current: string)
    ensures FindByName(salesmen, current).Found? <==>
      exists k :: 0 <= k < |salesmen| && PassedOverBefore(salesmen, current, k) && NameMatches(salesmen[k], current)
    ensures FindByName(salesmen, current).Found? ==>
      exists k :: 0 <= k < |salesmen| && PassedOverBefore(salesmen, current, k) &&
        salesmen[k] == FindByName(salesmen, current).salesman
    ensures FindByName(salesmen, current).NotFound? <==> PassedOverBefore(salesmen, current, |salesmen|)
    ensures FindByName(salesmen, current).NameNotText? <==>
      exists k :: 0 <= k < |salesmen| && PassedOverBefore(salesmen, current, k) && !Get(salesmen[k], "name").Str?
  {
    if |salesmen| > 0 {
      var rest := salesmen[1..];
      FindByNameIsFirstMatch(rest, current);
      if PassedOver(salesmen[0], current) {
        // A prefix of `salesmen` passed over is the same as a prefix of `rest` one shorter.
        forall k | 1 <= k <= |salesmen|
          ensures PassedOverBefore(salesmen, current, k) <==> PassedOverBefore(rest, current, k - 1)
        {
          if PassedOverBefore(rest, current, k - 1) {
            forall j | 0 <= j < k
              ensures PassedOver(salesmen[j], current)
            {
              if j > 0 { assert salesmen[j] == rest[j - 1]; }
            }
          }
          if PassedOverBefore(salesmen, current, k) {
            forall j | 0 <= j < k - 1
              ensures PassedOver(rest[j], current)
            {
              assert rest[j] == salesmen[j + 1];
            }
          }
        }
        var r := FindByName(salesmen, current);
        assert r == FindByName(rest, current);
        if r.Found? {
          var k :| 0 <= k < |rest| && PassedOverBefore(rest, current, k) && rest[k] == r.salesman;
          assert salesmen[k + 1] == rest[k];
        }
        if exists k :: 0 <= k < |salesmen| && PassedOverBefore(salesmen, current, k) && NameMatches(salesmen[k], current) {
          var k :| 0 <= k < |salesmen| && PassedOverBefore(salesmen, current, k) && NameMatches(salesmen[k], current);
          assert k != 0;
          assert rest[k - 1] == salesmen[k];
        }
        if r.NameNotText? {
          var k :| 0 <= k < |rest| && PassedOverBefore(rest, current, k) && !Get(rest[k], "name").Str?;
          assert salesmen[k + 1] == rest[k];
        }
        if exists k :: 0 <= k < |salesmen| && PassedOverBefore(salesmen, current, k) && !Get(salesmen[k], "name").Str? {
          var k :| 0 <= k < |salesmen| && PassedOverBefore(salesmen, current, k) && !Get(salesmen[k], "name").Str?;
          assert k != 0;
          assert rest[k - 1] == salesmen[k];
        }
      } else {
        assert !PassedOverBefore(salesmen, current, |salesmen|) by {
          assert !PassedOver(salesmen[0], current);
        }
        assert PassedOverBefore(salesmen, current, 0);
      }
    }
  }

  /** No two salesmen in the list share a code. */
  predicate UniqueCodes(salesmen: seq<Value>) {
    forall i, j :: 0 <= i < j < |salesmen| ==> Get(salesmen[i], "code") != Get(salesmen[j], "code")
  }

  /**
   * The picker's trigger: a spinner while the list loads; otherwise the name of the
   * salesman whose code is the field's value, or "Select salesman" when the field is
   * empty, no salesman has that code, or the name is empty.
   */
  function TriggerText(isLoading: bool, salesmen: seq<Value>, code: Value): (t: Trigger)
    ensures isLoading <==> t.Spinner?
    ensures !isLoading && !Truthy(code) ==> t == Caption("Select salesman")
    ensures !isLoading && Truthy(code) && FindFirst(salesmen, "code", code).None? ==> t == Caption("Select salesman")
    ensures (!isLoading && Truthy(code) && FindFirst(salesmen, "code", code).Some? &&
      Truthy(Get(FindFirst(salesmen, "code", code).value, "name"))) ==>
      t == Caption(ToStr(Get(FindFirst(salesmen, "code", code).value, "name")))
    ensures (!isLoading && Truthy(code) && FindFirst(salesmen, "code", code).Some? &&
      !Truthy(Get(FindFirst(salesmen, "code", code).value, "name"))) ==> t == Caption("Select salesman")
  {
    if isLoading then Spinner
    else if !Truthy(code) then Caption("Select salesman")
    else match FindFirst(salesmen, "code", code)
      case Some(s) => if Truthy(Get(s, "name")) then Caption(ToStr(Get(s, "name"))) else Caption("Select salesman")
      case None => Caption("Select salesman")
  }

  /** After a salesman is picked from a list with distinct codes, the trigger shows that salesman's name. */
  lemma PickedSalesmanIsShown(salesmen: seq<Value>, current: string)
    requires UniqueCodes(salesmen)
    requires FindByName(salesmen, current).Found?
    requires Truthy(Get(FindByName(salesmen, current).salesman, "code"))
    ensures var s := FindByName(salesmen, current).salesman;
      TriggerText(false, salesmen, Get(s, "code")) ==
      Caption(if Truthy(Get(s, "name")) then ToStr(Get(s, "name")) else "Select salesman")
  {
    var s := FindByName(salesmen, current).salesman;
    var k :| 0 <= k < |salesmen| && salesmen[k] == s;
    FindFirstAt(salesmen, "code", k);
  }

  /**
   * The picker's list after the names request settles: `data.salesmen` when it is an
   * array; an empty list for any other shape, and when the request threw.
   */
  function SalesmenFromResponse(reply: Settled): (list: seq<Value>)
    ensures reply.Threw? ==> list == []
    ensures reply.Resolved? && Get(reply.value, "salesmen").Arr? ==> list == Get(reply.value, "salesmen").items
    ensures reply.Resolved? && !Get(reply.value, "salesmen").Arr? ==> list == []
  {
    match reply
    case Threw(_) => []
    case Resolved(data) => if Truthy(data) && Get(data, "salesmen").Arr? then Get(data, "salesmen").items else []
  }

  /**
   * The names request as the page makes it: the salesmen client has no `getSalesmenName`,
   * so calling it throws a TypeError before any request is sent.
   */
  function NamesRequestAsWritten(): (reply: Settled)
    ensures reply.Threw? && Get(reply.thrown, "message") == Str("getSalesmenName is not a function")
  {
    Threw(ErrorObject("getSalesmenName is not a function"))
  }

  /**
   * As written, the picker's list is always empty, so no name can be picked, the salesman
   * code keeps its default empty text, and the form cannot pass validation from its defaults.
   */
  lemma SalesmanNeverPickableAsWritten(current: string, today: Day)
    ensures SalesmenFromResponse(NamesRequestAsWritten()) == []
    ensures FindByName(SalesmenFromResponse(NamesRequestAsWritten()), current) == NotFound
    ensures !Valid(Defaults(today))
    ensures forall v: CustomerValues :: v.salesmenCode == Defaults(today).salesmenCode ==> !Valid(v)
  {
  }

  /**
   * With a names response that lists the salesmen, picking a listed name sets the code:
   * a form whose other fields are filled in then passes validation.
   */
  lemma PickingFromLoadedListCompletesForm(salesmen: seq<Value>, k: nat, v: CustomerValues)
    requires k < |salesmen|
    requires forall j :: 0 <= j < |salesmen| ==> Get(salesmen[j], "name").Str?
    requires forall j :: 0 <= j < k ==> !NameMatches(salesmen[j], Get(salesmen[k], "name").s)
    requires Get(salesmen[k], "code").Str? && Get(salesmen[k], "code").s != ""
    requires v.name != "" && v.tel1 != "" && v.address != "" && v.gender != ""
    requires v.subscriptionDate.Some? && v.rate.Finite? && v.rate.r >= 0.0
    ensures SalesmenFromResponse(Resolved(Obj([Entry("salesmen", Arr(salesmen))]))) == salesmen
    ensures FindByName(salesmen, Get(salesmen[k], "name").s) == Found(salesmen[k])
    ensures Valid(v.(salesmenCode := Get(salesmen[k], "code")))
  {
    FoundAt(salesmen, Get(salesmen[k], "name").s, k);
  }

  lemma {:induction false} FoundAt(salesmen: seq<Value>, current: string, k: nat)
    requires k < |salesmen| && NameMatches(salesmen[k], current)
    requires forall j :: 0 <= j < k ==> Get(salesmen[j], "name").Str? && !NameMatches(salesmen[j], current)
    ensures FindByName(salesmen, current) == Found(salesmen[k])
  {
    if k > 0 {
      assert salesmen[1..][k - 1] == salesmen[k];
      FoundAt(salesmen[1..], current, k - 1);
    }
  }

  /** The form with its page state. */
  class CustomerForm {
    /** The date of the form's current default values: the day the page opened, then the day of the last successful submit's reset. */
    var defaultDay: Day
    var values: CustomerValues
    var salesmen: seq<Value>
    var isLoadingSalesmen: bool
    var isSubmitting: bool
    var photoPreview: Option<string>

    constructor (today: Day)
      ensures defaultDay == today && values == Defaults(today)
      ensures salesmen == [] && isLoadingSalesmen && !isSubmitting && photoPreview.None?
    {
      defaultDay := today;
      values := Defaults(today);
      salesmen := [];
      isLoadingSalesmen := true;
      isSubmitting := false;
      photoPreview := None;
    }

    /** The names request settled: the list is set, loading ends, and a failure is announced with its message. */
    method LoadSalesmen(reply: Settled) returns (notice: Option<Notice>)
      modifies this
      ensures salesmen == SalesmenFromResponse(reply) && !isLoadingSalesmen
      ensures reply.Resolved? ==> notice.None?
      ensures reply.Threw? ==> notice == Some(ErrorNotice("Failed to load salesmen", ErrorDescription(reply.thrown, "")))
      ensures values == old(values) && isSubmitting == old(isSubmitting) && photoPreview == old(photoPreview) && defaultDay == old(defaultDay)
    {
      salesmen := SalesmenFromResponse(reply);
      notice := if reply.Threw? then Some(ErrorNotice("Failed to load salesmen", ErrorDescription(reply.thrown, ""))) else None;
      isLoadingSalesmen := false;
    }

    /** Choosing an entry of the picker: the first salesman with that name, ignoring case, gives the code. */
    method SelectSalesman(current: string) returns (outcome: FindOutcome)
      modifies this
      ensures outcome == FindByName(salesmen, current)
      ensures outcome.Found? ==> values == old(values).(salesmenCode := Get(outcome.salesman, "code"))
      ensures !outcome.Found? ==> values == old(values)
      ensures salesmen == old(salesmen) && isLoadingSalesmen == old(isLoadingSalesmen) && defaultDay == old(defaultDay)
      ensures isSubmitting == old(isSubmitting) && photoPreview == old(photoPreview)
    {
      outcome := FindByName(salesmen, current);
      if outcome.Found? {
        values := values.(salesmenCode := Get(outcome.salesman, "code"));
      }
    }

    /** A file was chosen: it becomes the photo; choosing nothing changes nothing. */
    method ChoosePhoto(file: Option<string>)
      modifies this
      ensures file.Some? ==> values == old(values).(photo := file)
      ensures file.None? ==> values == old(values)
      ensures photoPreview == old(photoPreview) && salesmen == old(salesmen) && isSubmitting == old(isSubmitting) && defaultDay == old(defaultDay)
      ensures isLoadingSalesmen == old(isLoadingSalesmen)
    {
      if file.Some? {
        values := values.(photo := file);
      }
    }

    /** The file reader finished: its data URL is the preview. */
    method PreviewLoaded(dataUrl: string)
      modifies this
      ensures photoPreview == Some(dataUrl)
      ensures values == old(values) && salesmen == old(salesmen) && isSubmitting == old(isSubmitting) && defaultDay == old(defaultDay)
      ensures isLoadingSalesmen == old(isLoadingSalesmen)
    {
      photoPreview := Some(dataUrl);
    }

    /** The remove button on the preview: no photo and no preview. */
    method RemovePhoto()
      modifies this
      ensures values == old(values).(photo := None) && photoPreview.None?
      ensures salesmen == old(salesmen) && isSubmitting == old(isSubmitting) && isLoadingSalesmen == old(isLoadingSalesmen) && defaultDay == old(defaultDay)
    {
      values := values.(photo := None);
      photoPreview := None;
    }

    /** Cancel: the values go back to the current defaults; the preview stays. */
    method Cancel()
      modifies this
      ensures values == Defaults(defaultDay) && defaultDay == old(defaultDay)
      ensures photoPreview == old(photoPreview) && salesmen == old(salesmen) && isSubmitting == old(isSubmitting)
      ensures isLoadingSalesmen == old(isLoadingSalesmen)
    {
      values := Defaults(defaultDay);
    }

    /**
     * "Create Customer": invalid values only show their messages; valid ones are sent.
     * When the add call succeeds the form returns to its defaults (dated `today`, which
     * become the defaults Cancel restores) and the preview is cleared; when it throws the values stay as entered and the error's
     * message, or "Please try again", is shown.
     */
    method Submit(reply: Settled, today: Day) returns (outcome: SubmitOutcome)
      modifies this
      ensures !Valid(old(values)) ==> outcome == Rejected(Issues(old(values)))
      ensures Valid(old(values)) && reply.Resolved? ==> outcome == Added(Parse(old(values)).value)
      ensures Valid(old(values)) && reply.Threw? ==> outcome == Failed(ErrorDescription(reply.thrown, "Please try again"))
      ensures outcome.Added? ==> values == Defaults(today) && photoPreview.None? && defaultDay == today
      ensures !outcome.Added? ==> values == old(values) && photoPreview == old(photoPreview) && defaultDay == old(defaultDay)
      ensures outcome.Rejected? ==> isSubmitting == old(isSubmitting)
      ensures !outcome.Rejected? ==> !isSubmitting
      ensures salesmen == old(salesmen) && isLoadingSalesmen == old(isLoadingSalesmen)
    {
      var parsed := Parse(values);
      if parsed.Err? {
        outcome := Rejected(parsed.error);
      } else {
        isSubmitting := true;
        if reply.Resolved? {
          values := Defaults(today);
          defaultDay := today;
          photoPreview := None;
          outcome := Added(parsed.value);
        } else {
          outcome := Failed(ErrorDescription(reply.thrown, "Please try again"));
        }
        isSubmitting := false;
      }
    }
  }
}
