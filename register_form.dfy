/**
 * The sign-up form: its rules, the call it makes, and the navigation it
 * schedules. The email-format check belongs to the validation library and is
 * a parameter, `isEmail`.
 */
module RegisterForm {
  import opened Wrappers
  import opened Effects
  import opened FormRules

  datatype RegisterValues = RegisterValues(name: string, email: string, password: string)

  /** What one press of "Create account" ends in: the arguments of the register call, in order, and the navigation. */
  datatype SubmitOutcome =
    | Rejected(issues: seq<Issue>)
    | Registered(arguments: seq<string>, navigation: Navigation)
    | Failed(arguments: seq<string>, description: string)

  function Defaults(): (v: RegisterValues)
    ensures v.name == "" && v.email == "" && v.password == ""
  {
    RegisterValues("", "", "")
  }

  /** The schema's acceptance: a name of two characters or more, a well-formed email, a password of six or more. */
  predicate Valid(v: RegisterValues, isEmail: string -> bool) {
    |v.name| >= 2 && v.email != "" && isEmail(v.email) && |v.password| >= 6
  }

  /** The schema's messages in field order; the email field reports each of its two rules that fails. */
  function Issues(v: RegisterValues, isEmail: string -> bool): (issues: seq<Issue>)
    ensures issues == [] <==> Valid(v, isEmail)
  {
    MinLength(v.name, 2, "name", "Name must be at least 2 characters") +
    MinLength(v.email, 1, "email", "Email is required") +
    Check(isEmail(v.email), "email", "Please enter a valid email address") +
    MinLength(v.password, 6, "password", "Password must be at least 6 characters")
  }

  /** An empty email shows "Email is required", whatever the format check says of it. */
  lemma EmptyEmailShowsRequired(v: RegisterValues, isEmail: string -> bool)
    requires v.email == ""
    ensures !Valid(v, isEmail)
    ensures ShownMessage(Issues(v, isEmail), "email") == Some("Email is required")
  {
    var head := MinLength(v.name, 2, "name", "Name must be at least 2 characters");
    var rest := [Issue("email", "Email is required")] +
      Check(isEmail(v.email), "email", "Please enter a valid email address") +
      MinLength(v.password, 6, "password", "Password must be at least 6 characters");
    assert Issues(v, isEmail) == head + rest;
    ShownMessageOfAppend(head, rest, "email");
  }

  /** A name of one character and a password of five are each rejected, with their own messages. */
  lemma ShortNameAndPasswordRejected(v: RegisterValues, isEmail: string -> bool)
    requires |v.name| == 1 || |v.password| == 5
    ensures !Valid(v, isEmail)
    ensures |v.name| == 1 ==> Issues(v, isEmail)[0] == Issue("name", "Name must be at least 2 characters")
    ensures |v.password| == 5 ==> Issues(v, isEmail)[|Issues(v, isEmail)| - 1] == Issue("password", "Password must be at least 6 characters")
  {
  }

  /** The form with its page state. */
  class RegisterPage {
    var values: RegisterValues
    var isSubmitting: bool

    constructor ()
      ensures values == Defaults() && !isSubmitting
    {
      values := Defaults();
      isSubmitting := false;
    }

    /**
     * "Create account": invalid values only show their messages; valid ones are passed
     * to the register call as (name, email, password). Only a success schedules the
     * move to "/login", two seconds later; a failure shows the error's message or
     * "Please try again". The values are kept either way.
     */
    method Submit(isEmail: string -> bool, reply: Settled) returns (outcome: SubmitOutcome)
      modifies this
      ensures !Valid(old(values), isEmail) ==> outcome == Rejected(Issues(old(values), isEmail))
      ensures Valid(old(values), isEmail) && reply.Resolved? ==>
        outcome == Registered([old(values).name, old(values).email, old(values).password], NavigateTo("/login", 2000))
      ensures Valid(old(values), isEmail) && reply.Threw? ==>
        outcome == Failed([old(values).name, old(values).email, old(values).password], ErrorDescription(reply.thrown, "Please try again"))
      ensures values == old(values)
      ensures outcome.Rejected? ==> isSubmitting == old(isSubmitting)
      ensures !outcome.Rejected? ==> !isSubmitting
    {
      if !Valid(values, isEmail) {
        outcome := Rejected(Issues(values, isEmail));
      } else {
        isSubmitting := true;
        var arguments := [values.name, values.email, values.password];
        if reply.Resolved? {
          outcome := Registered(arguments, NavigateTo("/login", 2000));
        } else {
          outcome := Failed(arguments, ErrorDescription(reply.thrown, "Please try again"));
        }
        isSubmitting := false;
      }
    }
  }
}
