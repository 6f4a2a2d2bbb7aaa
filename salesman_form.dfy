/**
 * The "Add New Salesman" form: its rules (among them the phone character
 * class), its defaults, and what a submit does to the form.
 */
module AddSalesman {
  import opened Wrappers
  import opened Effects
  import opened FormRules
  import Text

  datatype SalesmanValues = SalesmanValues(code: string, name: string, phone: string, address: string, isInactive: bool)

  /** What one press of "Add Salesman" ends in. */
  datatype SubmitOutcome = Rejected(issues: seq<Issue>) | Added(sent: SalesmanValues) | Failed(description: string)

  /** Empty texts and an active salesman. */
  function Defaults(): (v: SalesmanValues)
    ensures v.code == "" && v.name == "" && v.phone == "" && v.address == "" && !v.isInactive
  {
    SalesmanValues("", "", "", "", false)
  }

  /** A character the phone pattern admits: a digit, `+`, `-`, whitespace, `(` or `)`. */
  predicate PhoneChar(c: char) {
    '0' <= c <= '9' || c == '+' || c == '-' || Text.IsWhitespace(c) || c == '(' || c == ')'
  }

  /** The phone pattern: any number (zero included) of admitted characters, end to end. */
  function MatchesPhonePattern(phone: string): (ok: bool)
    ensures ok <==> forall k :: 0 <= k < |phone| ==> PhoneChar(phone[k])
  {
    if |phone| == 0 then true
    else
      var ok := PhoneChar(phone[0]) && MatchesPhonePattern(phone[1..]);
      assert forall k :: 1 <= k < |phone| ==> phone[k] == phone[1..][k - 1];
      ok
  }

  /** The schema's acceptance: a code, a name, and a non-empty phone made of admitted characters. */
  predicate Valid(v: SalesmanValues) {
    v.code != "" && v.name != "" && v.phone != "" && forall k :: 0 <= k < |v.phone| ==> PhoneChar(v.phone[k])
  }

  /**
   * The schema's messages in field order. The phone field can report both of its
   * rules; an empty phone only fails the first, since the pattern admits the empty text.
   * `address` is optional and `is_inactive` is a switch, so neither reports anything.
   */
  function Issues(v: SalesmanValues): (issues: seq<Issue>)
    ensures issues == [] <==> Valid(v)
  {
    MinLength(v.code, 1, "code", "Salesman code is required") +
    MinLength(v.name, 1, "name", "Name is required") +
    MinLength(v.phone, 1, "phone", "Phone number is required") +
    Check(MatchesPhonePattern(v.phone), "phone", "Please enter a valid phone number")
  }

  /** An untouched form reports code, name and phone as required, and nothing else. */
  lemma UntouchedFormIssues()
    ensures Issues(Defaults()) == [
      Issue("code", "Salesman code is required"),
      Issue("name", "Name is required"),
      Issue("phone", "Phone number is required")]
  {
  }

  /** A phone holding a letter is rejected, and the message shown under it is the pattern's. */
  lemma LetterInPhoneRejected(v: SalesmanValues, k: nat)
    requires k < |v.phone| && 'a' <= v.phone[k] <= 'z'
    ensures !Valid(v)
    ensures ShownMessage(Issues(v), "phone") == Some("Please enter a valid phone number")
  {
    assert !PhoneChar(v.phone[k]);
    var head := MinLength(v.code, 1, "code", "Salesman code is required") +
      MinLength(v.name, 1, "name", "Name is required");
    var tail := [Issue("phone", "Please enter a valid phone number")];
    assert Issues(v) == head + [] + tail;
    ShownMessageOfAppend(head, tail, "phone");
    assert ShownMessage(head, "phone").None?;
  }

  /** The form with its page state. */
  class SalesmanForm {
    var values: SalesmanValues
    var isSubmitting: bool

    constructor ()
      ensures values == Defaults() && !isSubmitting
    {
      values := Defaults();
      isSubmitting := false;
    }

    /**
     * "Add Salesman": invalid values only show their messages; valid ones are sent as
     * they are. Only a successful add resets the form; a failure keeps the values and
     * shows the error's message, or "Please try again.".
     */
    method Submit(reply: Settled) returns (outcome: SubmitOutcome)
      modifies this
      ensures !Valid(old(values)) ==> outcome == Rejected(Issues(old(values)))
      ensures Valid(old(values)) && reply.Resolved? ==> outcome == Added(old(values))
      ensures Valid(old(values)) && reply.Threw? ==> outcome == Failed(ErrorDescription(reply.thrown, "Please try again."))
      ensures outcome.Added? ==> values == Defaults()
      ensures !outcome.Added? ==> values == old(values)
      ensures outcome.Rejected? ==> isSubmitting == old(isSubmitting)
      ensures !outcome.Rejected? ==> !isSubmitting
    {
      if !Valid(values) {
        outcome := Rejected(Issues(values));
      } else {
        isSubmitting := true;
        if reply.Resolved? {
          outcome := Added(values);
          values := Defaults();
        } else {
          outcome := Failed(ErrorDescription(reply.thrown, "Please try again."));
        }
        isSubmitting := false;
      }
    }
  }
}
