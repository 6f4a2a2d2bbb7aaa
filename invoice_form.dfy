/**
 * The "Create New Invoice" form: the invoice and line-item rules, the
 * line-item list (append, guarded remove), the customer picker, the payload
 * that is sent, and what a submit does to the form.
 */
module AddInvoice {
  import opened Wrappers
  import opened JsValues
  import opened Effects
  import opened FormRules

  /** One line of the items table, with its number fields already coerced. */
  datatype LineItem = LineItem(itemCode: string, quantity: NumInput, unitPrice: NumInput)

  /** The form's values: the picked customer's id (whatever type it has), the date, the lines. */
  datatype InvoiceValues = InvoiceValues(customerId: Value, date: Option<Day>, items: seq<LineItem>)

  /** One line as sent: `quantity` went through `parseInt`, `unit_price` through `parseFloat`. */
  datatype PayloadItem = PayloadItem(itemCode: string, quantity: int, unitPrice: real)

  /** The request body of the add call (the date is formatted by the page; formatting is not modelled). */
  datatype InvoicePayload = InvoicePayload(customerId: string, date: Day, items: seq<PayloadItem>)

  /** The customer trigger: a spinner while loading, else a text. */
  datatype Trigger = Spinner | Caption(text: string)

  /** What one press of "Create Invoice" ends in. */
  datatype SubmitOutcome = Rejected(issues: seq<Issue>) | Added(payload: InvoicePayload) | Failed(description: string)

  /** The row "Add Item" appends and the form starts with. */
  function BlankItem(): (item: LineItem)
    ensures item.itemCode == "" && item.quantity == Finite(1.0) && item.unitPrice == Finite(0.0)
  {
    LineItem("", Finite(1.0), Finite(0.0))
  }

  /** The default values: no customer, the given day, one blank row. */
  function Defaults(today: Day): (v: InvoiceValues)
    ensures v.customerId == Str("") && v.date == Some(today) && v.items == [BlankItem()]
  {
    InvoiceValues(Str(""), Some(today), [BlankItem()])
  }

  /** The item rules: a code, a positive quantity, a non-negative unit price. */
  predicate ItemValid(item: LineItem) {
    item.itemCode != "" && item.quantity.Finite? && item.quantity.r > 0.0 &&
    item.unitPrice.Finite? && item.unitPrice.r >= 0.0
  }

  /** The messages of the line at position `k`, under the field names `items.<k>.<field>`. */
  function ItemIssues(item: LineItem, k: nat): (issues: seq<Issue>)
    ensures issues == [] <==> ItemValid(item)
  {
    var prefix := "items." + NatToString(k) + ".";
    MinLength(item.itemCode, 1, prefix + "item_code", "Item code is required") +
    PositiveNumber(item.quantity, prefix + "quantity", "Quantity must be positive") +
    NonnegativeNumber(item.unitPrice, prefix + "unit_price", "Price cannot be negative")
  }

  /** The messages of the lines from position `from` on, line by line. */
  function LinesIssues(items: seq<LineItem>, from: nat): (issues: seq<Issue>)
    requires from <= |items|
    ensures issues == [] <==> forall k :: from <= k < |items| ==> ItemValid(items[k])
    decreases |items| - from
  {
    if from == |items| then []
    else
      var here := ItemIssues(items[from], from);
      var rest := LinesIssues(items, from + 1);
      assert (forall k :: from <= k < |items| ==> ItemValid(items[k])) <==>
             ItemValid(items[from]) && forall k :: from + 1 <= k < |items| ==> ItemValid(items[k]);
      here + rest
  }

  /** The form rules: a customer id that is a non-empty text, a date, at least one line, every line valid. */
  predicate Valid(v: InvoiceValues) {
    v.customerId.Str? && v.customerId.s != "" && v.date.Some? && |v.items| >= 1 &&
    forall k :: 0 <= k < |v.items| ==> ItemValid(v.items[k])
  }

  /** The schema's messages in field order: customer, date, the list's length, then each line's. */
  function Issues(v: InvoiceValues): (issues: seq<Issue>)
    ensures issues == [] <==> Valid(v)
  {
    TextAtLeast(v.customerId, 1, "customer_id", "Customer is required") +
    DatePicked(v.date, "date") +
    Check(|v.items| >= 1, "items", "At least one item is required") +
    LinesIssues(v.items, 0)
  }

  /** `parseInt` of a positive number: its integer part. */
  function WholePart(x: real): (n: int)
    requires x > 0.0
    ensures n >= 0 && n as real <= x < n as real + 1.0
  {
    x.Floor
  }

  /** The lines as sent: one per form row, in order, codes unchanged, quantities cut to whole numbers. */
  function PayloadItems(items: seq<LineItem>): (sent: seq<PayloadItem>)
    requires forall k :: 0 <= k < |items| ==> ItemValid(items[k])
    ensures |sent| == |items|
    ensures forall k :: 0 <= k < |items| ==>
      (ItemValid(items[k]) && sent[k].itemCode == items[k].itemCode &&
       sent[k].unitPrice == items[k].unitPrice.r &&
       sent[k].quantity as real <= items[k].quantity.r < sent[k].quantity as real + 1.0)
  {
    if |items| == 0 then []
    else
      var item := items[0];
      assert ItemValid(item);
      [PayloadItem(item.itemCode, WholePart(item.quantity.r), item.unitPrice.r)] + PayloadItems(items[1..])
  }

  /** Validation and mapping: the payload when every rule holds, else the messages. */
  function Parse(v: InvoiceValues): (r: Result<InvoicePayload, seq<Issue>>)
    ensures r.Ok? <==> Valid(v)
    ensures r.Err? ==> r.error == Issues(v) && r.error != []
    ensures r.Ok? ==> (Str(r.value.customerId) == v.customerId && Some(r.value.date) == v.date &&
      r.value.items == PayloadItems(v.items))
  {
    if Valid(v) then Ok(InvoicePayload(v.customerId.s, v.date.value, PayloadItems(v.items)))
    else Err(Issues(v))
  }

  /** With no lines the form is rejected, with the list's own message. */
  lemma NoLinesRejected(customerId: Value, date: Option<Day>)
    ensures !Valid(InvoiceValues(customerId, date, []))
    ensures Issue("items", "At least one item is required") in Issues(InvoiceValues(customerId, date, []))
  {
    var v := InvoiceValues(customerId, date, []);
    var before := TextAtLeast(v.customerId, 1, "customer_id", "Customer is required") + DatePicked(v.date, "date");
    assert Issues(v) == before + [Issue("items", "At least one item is required")];
    assert Issues(v)[|before|] == Issue("items", "At least one item is required");
  }

  /** A form holding a line with a non-positive quantity or a negative price is rejected. */
  lemma BadLineRejected(v: InvoiceValues, k: nat)
    requires k < |v.items|
    requires v.items[k].quantity == Finite(0.0) || (v.items[k].unitPrice.Finite? && v.items[k].unitPrice.r < 0.0)
    ensures !Valid(v) && Parse(v).Err?
  {
  }

  /**
   * A line with a fractional quantity below one passes the rules (it is positive) and
   * is sent with quantity 0.
   */
  lemma FractionalQuantitySentAsZero(code: string)
    requires code != ""
    ensures ItemValid(LineItem(code, Finite(0.5), Finite(1.0)))
    ensures PayloadItems([LineItem(code, Finite(0.5), Finite(1.0))])[0].quantity == 0
  {
  }

  /**
   * The picker stores the picked customer's `id` as it is. A numeric id (the usual
   * shape of a record id) is not text, so the form is rejected with the type message
   * "Expected string, received number" however the rest is filled in.
   */
  lemma NumericCustomerIdRejected(id: int, v: InvoiceValues)
    ensures !Valid(v.(customerId := Num(id)))
    ensures Issues(v.(customerId := Num(id)))[0] == Issue("customer_id", "Expected string, received number")
  {
  }

  /** The customers the picker lists: the loaded value when it is an array. */
  function CustomerList(customers: Value): (list: seq<Value>)
    ensures customers.Arr? ==> list == customers.items
    ensures !customers.Arr? ==> list == []
  {
    if customers.Arr? then customers.items else []
  }

  /**
   * The picker's trigger: a spinner while loading; otherwise the name of the customer
   * whose id is the field's value, or "Select customer" when the field is empty, no
   * customer has that id, or the name is empty.
   */
  function TriggerText(isLoading: bool, customers: seq<Value>, customerId: Value): (t: Trigger)
    ensures isLoading <==> t.Spinner?
    ensures !isLoading && (!Truthy(customerId) || FindFirst(customers, "id", customerId).None?) ==> t == Caption("Select customer")
    ensures (!isLoading && Truthy(customerId) && FindFirst(customers, "id", customerId).Some? &&
      Truthy(Get(FindFirst(customers, "id", customerId).value, "name"))) ==>
      t == Caption(ToStr(Get(FindFirst(customers, "id", customerId).value, "name")))
    ensures (!isLoading && Truthy(customerId) && FindFirst(customers, "id", customerId).Some? &&
      !Truthy(Get(FindFirst(customers, "id", customerId).value, "name"))) ==> t == Caption("Select customer")
  {
    if isLoading then Spinner
    else if !Truthy(customerId) then Caption("Select customer")
    else match FindFirst(customers, "id", customerId)
      case Some(c) => if Truthy(Get(c, "name")) then Caption(ToStr(Get(c, "name"))) else Caption("Select customer")
      case None => Caption("Select customer")
  }

  /**
   * Picking a loaded customer whose id no earlier customer shares puts that customer's
   * name on the trigger (the placeholder when the name is empty); a customer whose id is
   * not truthy leaves the placeholder.
   */
  lemma PickedCustomerIsShown(list: seq<Value>, k: nat)
    requires k < |list|
    requires forall j :: 0 <= j < k ==> Get(list[j], "id") != Get(list[k], "id")
    ensures Truthy(Get(list[k], "id")) ==>
      TriggerText(false, CustomerList(Arr(list)), Get(list[k], "id")) ==
      Caption(if Truthy(Get(list[k], "name")) then ToStr(Get(list[k], "name")) else "Select customer")
    ensures !Truthy(Get(list[k], "id")) ==>
      TriggerText(false, CustomerList(Arr(list)), Get(list[k], "id")) == Caption("Select customer")
  {
    FindFirstAt(list, "id", k);
  }

  /** The form with its page state. */
  class InvoiceForm {
    /** The date of the form's current default values. */
    var defaultDay: Day
    var values: InvoiceValues
    /** What the customers request resolved with (the picker lists it when it is an array). */
    var customers: Value
    var isLoadingCustomers: bool
    var isSubmitting: bool

    /** What the customer trigger shows for the current state. */
    function ShownTrigger(): Trigger
      reads this
    {
      TriggerText(isLoadingCustomers, CustomerList(customers), values.customerId)
    }

    /** The form as the user can leave it: the line list is never empty. */
    predicate HasLines()
      reads this
    {
      |values.items| >= 1
    }

    constructor (today: Day)
      ensures defaultDay == today && values == Defaults(today)
      ensures customers == Arr([]) && isLoadingCustomers && !isSubmitting
      ensures HasLines()
    {
      defaultDay := today;
      values := Defaults(today);
      customers := Arr([]);
      isLoadingCustomers := true;
      isSubmitting := false;
    }

    /** The customers request settled: a value replaces the list; a failure is announced and keeps it. */
    method LoadCustomers(reply: Settled) returns (notice: Option<Notice>)
      modifies this
      ensures reply.Resolved? ==> customers == reply.value && notice.None?
      ensures reply.Threw? ==> (customers == old(customers) &&
        notice == Some(ErrorNotice("Failed to load customers", ErrorDescription(reply.thrown, ""))))
      ensures !isLoadingCustomers
      ensures values == old(values) && isSubmitting == old(isSubmitting) && defaultDay == old(defaultDay)
    {
      if reply.Resolved? {
        customers := reply.value;
        notice := None;
      } else {
        notice := Some(ErrorNotice("Failed to load customers", ErrorDescription(reply.thrown, "")));
      }
      isLoadingCustomers := false;
    }

    /** Picking a customer stores its `id`, whatever its type. */
    method SelectCustomer(customer: Value)
      modifies this
      ensures values == old(values).(customerId := Get(customer, "id"))
      ensures customers == old(customers) && isLoadingCustomers == old(isLoadingCustomers)
      ensures isSubmitting == old(isSubmitting) && defaultDay == old(defaultDay)
    {
      values := values.(customerId := Get(customer, "id"));
    }

    /** "Add Item": one blank line at the end; the other lines are untouched. */
    method AppendItem()
      modifies this
      ensures values == old(values).(items := old(values).items + [BlankItem()])
      ensures HasLines()
      ensures customers == old(customers) && isLoadingCustomers == old(isLoadingCustomers)
      ensures isSubmitting == old(isSubmitting) && defaultDay == old(defaultDay)
    {
      values := values.(items := values.items + [BlankItem()]);
    }

    /**
     * The remove button of line `i`: disabled while only one line exists; otherwise it
     * deletes exactly that line and keeps the others in order.
     */
    method RemoveItem(i: nat)
      requires i < |values.items|
      modifies this
      ensures |old(values).items| <= 1 ==> values == old(values)
      ensures |old(values).items| > 1 ==>
        values == old(values).(items := old(values).items[..i] + old(values).items[i + 1..])
      ensures old(HasLines()) ==> HasLines()
      ensures customers == old(customers) && isLoadingCustomers == old(isLoadingCustomers)
      ensures isSubmitting == old(isSubmitting) && defaultDay == old(defaultDay)
    {
      if |values.items| > 1 {
        values := values.(items := values.items[..i] + values.items[i + 1..]);
      }
    }

    /** Cancel: the values go back to the current defaults. */
    method Cancel()
      modifies this
      ensures values == Defaults(defaultDay) && HasLines()
      ensures customers == old(customers) && isLoadingCustomers == old(isLoadingCustomers)
      ensures isSubmitting == old(isSubmitting) && defaultDay == old(defaultDay)
    {
      values := Defaults(defaultDay);
    }

    /**
     * "Create Invoice": invalid values only show their messages; valid ones are mapped
     * to the payload and sent. On success the form returns to one blank line, no
     * customer and `today` (the new defaults); on failure the values stay and the
     * error's message, or "Please try again", is shown.
     */
    method Submit(reply: Settled, today: Day) returns (outcome: SubmitOutcome)
      modifies this
      ensures !Valid(old(values)) ==> outcome == Rejected(Issues(old(values)))
      ensures Valid(old(values)) && reply.Resolved? ==> outcome == Added(Parse(old(values)).value)
      ensures Valid(old(values)) && reply.Threw? ==> outcome == Failed(ErrorDescription(reply.thrown, "Please try again"))
      ensures outcome.Added? ==> values == Defaults(today) && defaultDay == today
      ensures !outcome.Added? ==> values == old(values) && defaultDay == old(defaultDay)
      ensures outcome.Rejected? ==> isSubmitting == old(isSubmitting)
      ensures !outcome.Rejected? ==> !isSubmitting
      ensures old(HasLines()) ==> HasLines()
      ensures customers == old(customers) && isLoadingCustomers == old(isLoadingCustomers)
    {
      match Parse(values) {
        case Err(issues) =>
          outcome := Rejected(issues);
        case Ok(payload) =>
          isSubmitting := true;
          if reply.Resolved? {
            values := Defaults(today);
            defaultDay := today;
            outcome := Added(payload);
          } else {
            outcome := Failed(ErrorDescription(reply.thrown, "Please try again"));
          }
          isSubmitting := false;
      }
    }
  }

  /**
   * The customers request resolves with a list and the user picks the customer at `k`:
   * the trigger then shows what `PickedCustomerIsShown` says.
   */
  method PickAfterLoad(form: InvoiceForm, list: seq<Value>, k: nat)
    requires k < |list|
    requires forall j :: 0 <= j < k ==> Get(list[j], "id") != Get(list[k], "id")
    modifies form
    ensures form.values == old(form.values).(customerId := Get(list[k], "id"))
    ensures Truthy(Get(list[k], "id")) ==>
      form.ShownTrigger() == Caption(if Truthy(Get(list[k], "name")) then ToStr(Get(list[k], "name")) else "Select customer")
    ensures !Truthy(Get(list[k], "id")) ==> form.ShownTrigger() == Caption("Select customer")
  {
    var notice := form.LoadCustomers(Resolved(Arr(list)));
    form.SelectCustomer(list[k]);
    PickedCustomerIsShown(list, k);
  }
}
