/**
 * The "Add New Item" form: its rules, its defaults, and what a submit does to
 * the form.
 */
module AddItem {
  import opened Effects
  import opened FormRules

  datatype ItemValues = ItemValues(code: string, name: string, description: string)

  /** What one press of "Add Item" ends in. */
  datatype SubmitOutcome = Rejected(issues: seq<Issue>) | Added(sent: ItemValues) | Failed(description: string)

  /** All three fields start empty. */
  function Defaults(): (v: ItemValues)
    ensures v.code == "" && v.name == "" && v.description == ""
  {
    ItemValues("", "", "")
  }

  /** The schema's acceptance: a code and a name; the description is optional. */
  predicate Valid(v: ItemValues) {
    v.code != "" && v.name != ""
  }

  /** The schema's messages in field order. */
  function Issues(v: ItemValues): (issues: seq<Issue>)
    ensures issues == [] <==> Valid(v)
    ensures Issue("code", "Item code is required") in issues <==> v.code == ""
    ensures Issue("name", "Item name is required") in issues <==> v.name == ""
    ensures |issues| <= 2
  {
    MinLength(v.code, 1, "code", "Item code is required") +
    MinLength(v.name, 1, "name", "Item name is required")
  }

  /** The description never decides validity. */
  lemma DescriptionIsOptional(v: ItemValues, d: string)
    ensures Valid(v.(description := d)) <==> Valid(v)
    ensures Issues(v.(description := d)) == Issues(v)
  {
  }

  /** The form with its page state. */
  class ItemForm {
    var values: ItemValues
    var isSubmitting: bool

    constructor ()
      ensures values == Defaults() && !isSubmitting
    {
      values := Defaults();
      isSubmitting := false;
    }

    /**
     * "Add Item": invalid values only show their messages; valid ones are sent as they
     * are. Only a successful add resets the form; a failure keeps the values and shows
     * the error's message, or "Please try again.".
     */
    method Submit(reply: Settled) returns (outcome: SubmitOutcome)
      modifies this
      ensures !Valid(old(values)) ==> outcome == Rejected(Issues(old(values)))
      ensures Valid(old(values)) && reply.Resolved? ==> outcome == Added(old(values))
      ensures Valid(old(values)) && reply.Threw? ==> outcome == Failed(ErrorDescription(reply.thrown, "Please try again."))
      ensures outcome.Added? ==> values == Defaults()
      ensures !outcome.Added? ==> values == old(values)
      ensures outcome.Rejected? ==> isSubmitting == old(isSubmitting)
      ensures !outcome.Rejected? ==> !isSubmitting
    {
      if !Valid(values) {
        outcome := Rejected(Issues(values));
      } else {
        isSubmitting := true;
        if reply.Resolved? {
          outcome := Added(values);
          values := Defaults();
        } else {
          outcome := Failed(ErrorDescription(reply.thrown, "Please try again."));
        }
        isSubmitting := false;
      }
    }
  }
}
