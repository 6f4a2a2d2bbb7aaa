/**
 * The sign-in form: its rules, the token it stores, and the navigation it
 * schedules. The email-format check is a parameter, `isEmail`; the browser's
 * storage is an `Effects.BrowserStorage`.
 */
module LoginForm {
  import opened Wrappers
  import opened JsValues
  import opened Effects
  import opened FormRules

  datatype LoginValues = LoginValues(email: string, password: string)

  /** What one press of "Sign in" ends in. */
  datatype SubmitOutcome = Rejected(issues: seq<Issue>) | LoggedIn(navigation: Navigation) | Failed(description: string)

  /** The storage key the sign-in writes the token under. */
  const TokenKey := "token"

  function Defaults(): (v: LoginValues)
    ensures v.email == "" && v.password == ""
  {
    LoginValues("", "")
  }

  /** The schema's acceptance: a well-formed email and a password of six characters or more. */
  predicate Valid(v: LoginValues, isEmail: string -> bool) {
    v.email != "" && isEmail(v.email) && |v.password| >= 6
  }

  /** The schema's messages in field order. */
  function Issues(v: LoginValues, isEmail: string -> bool): (issues: seq<Issue>)
    ensures issues == [] <==> Valid(v, isEmail)
  {
    MinLength(v.email, 1, "email", "Email is required") +
    Check(isEmail(v.email), "email", "Please enter a valid email address") +
    MinLength(v.password, 6, "password", "Password must be at least 6 characters")
  }

  /** An empty email shows "Email is required"; a short password shows its own message. */
  lemma FirstMessages(v: LoginValues, isEmail: string -> bool)
    ensures v.email == "" ==> ShownMessage(Issues(v, isEmail), "email") == Some("Email is required")
    ensures |v.password| < 6 ==> ShownMessage(Issues(v, isEmail), "password") == Some("Password must be at least 6 characters")
  {
    var emailPart := MinLength(v.email, 1, "email", "Email is required") +
      Check(isEmail(v.email), "email", "Please enter a valid email address");
    var passwordPart := MinLength(v.password, 6, "password", "Password must be at least 6 characters");
    ShownMessageOfAppend(emailPart, passwordPart, "password");
    ShownMessageOfAppend(MinLength(v.email, 1, "email", "Email is required"),
      Check(isEmail(v.email), "email", "Please enter a valid email address"), "email");
    ShownMessageOfAppend(emailPart, passwordPart, "email");
  }

  /**
   * `response.token` read from what the login call resolved with: reading a property
   * of `null` or `undefined` throws a TypeError, which the same catch handles.
   */
  function TokenOf(response: Value): (r: Settled)
    ensures !Nullish(response) ==> r == Resolved(Get(response, "token"))
    ensures Nullish(response) ==> (r.Threw? &&
      Get(r.thrown, "message") == Str("Cannot read properties of " + ToStr(response) + " (reading 'token')"))
  {
    if Nullish(response) then Threw(ErrorObject("Cannot read properties of " + ToStr(response) + " (reading 'token')"))
    else Resolved(Get(response, "token"))
  }

  /** The form with its page state. */
  class LoginPage {
    var values: LoginValues
    var isSubmitting: bool

    constructor ()
      ensures values == Defaults() && !isSubmitting
    {
      values := Defaults();
      isSubmitting := false;
    }

    /**
     * "Sign in": invalid values only show their messages. A successful login stores the
     * string form of `response.token` under "token" (a missing token is stored as the
     * text "undefined") and schedules the move to "/" one second later. When the call
     * throws, or the response has no properties to read, nothing is stored, nothing is
     * scheduled, and the error's message, or the credentials hint, is shown.
     */
    method Submit(isEmail: string -> bool, reply: Settled, storage: BrowserStorage) returns (outcome: SubmitOutcome)
      modifies this, storage
      ensures !Valid(old(values), isEmail) ==> outcome == Rejected(Issues(old(values), isEmail))
      ensures Valid(old(values), isEmail) && reply.Resolved? && TokenOf(reply.value).Resolved? ==>
        outcome == LoggedIn(NavigateTo("/", 1000)) &&
        storage.entries == old(storage.entries)[TokenKey := ToStr(TokenOf(reply.value).value)]
      ensures outcome.Failed? ==>
        Valid(old(values), isEmail) &&
        var failure := if reply.Threw? then reply.thrown else TokenOf(reply.value).thrown;
        outcome.description == ErrorDescription(failure, "Please check your credentials and try again")
      ensures Valid(old(values), isEmail) && (reply.Threw? || TokenOf(reply.value).Threw?) ==> outcome.Failed?
      ensures !outcome.LoggedIn? ==> storage.entries == old(storage.entries)
      ensures values == old(values)
      ensures outcome.Rejected? ==> isSubmitting == old(isSubmitting)
      ensures !outcome.Rejected? ==> !isSubmitting
    {
      if !Valid(values, isEmail) {
        outcome := Rejected(Issues(values, isEmail));
        return;
      }
      isSubmitting := true;
      var failure: Option<Value> := None;
      if reply.Threw? {
        failure := Some(reply.thrown);
      } else {
        var token := TokenOf(reply.value);
        if token.Threw? {
          failure := Some(token.thrown);
        } else {
          storage.SetItem(TokenKey, token.value);
        }
      }
      match failure {
        case None => outcome := LoggedIn(NavigateTo("/", 1000));
        case Some(thrown) => outcome := Failed(ErrorDescription(thrown, "Please check your credentials and try again"));
      }
      isSubmitting := false;
    }
  }
}
