/**
 * The invitation page of static/js/accept-invitation.js: the token guard,
 * the dispatch on the invitation's status, the signup redirect and the
 * signup form's checks. Replies are parameters; `encodeURIComponent` is a
 * function parameter. The page's translations are a map whose absent or
 * empty entries fall back to the English text.
 */
module AcceptInvitation {
  import opened Wrappers
  import opened Strings

  const Dashboard := "/users/dashboard/"

  /** How long the page waits before the dashboard redirect, in milliseconds. */
  const RedirectDelayMs := 2000

  /** What the page shows or does next. */
  datatype Screen =
    | ErrorScreen(title: string, message: string)
    | InfoThenDashboard(title: string, message: string, delayMs: int)
    | SuccessThenDashboard(delayMs: int)
    | Redirect(url: string)
    | AcceptDirectly

  function GenericError(t: map<string, string>): Screen
  {
    ErrorScreen(Tr(t, "acceptanceError", "Acceptance Error"), Tr(t, "acceptanceErrorMsg", "Failed to accept the invitation."))
  }

  /** What `checkInvitation` gives: a thrown error, a reply without data, or the invitation's status and e-mail. */
  datatype CheckReply = CheckThrown(message: string) | NoData | Checked(status: string, email: string)

  /** The signup page an invited person without an account is sent to. */
  function SignupUrl(token: string, email: string, encode: string -> string): (r: string)
    ensures StartsWith(r, "/users/signup/?invitation_token=" + token + "&email=")
  {
    var prefix := "/users/signup/?invitation_token=" + token + "&email=";
    var r := prefix + encode(email);
    assert r[..|prefix|] == prefix;
    r
  }

  /**
   * With a token free of '&' and an encoder that escapes '&', the query
   * string splits into exactly the token and the encoded e-mail.
   */
  lemma SignupUrlQuery(token: string, email: string, encode: string -> string)
    requires '&' !in token && '&' !in encode(email)
    ensures var url := SignupUrl(token, email, encode);
      Split(url[|"/users/signup/?"|..], '&') == ["invitation_token=" + token, "email=" + encode(email)]
  {
    var p := "/users/signup/?";
    var a := "invitation_token=" + token;
    var b := "email=" + encode(email);
    var url := SignupUrl(token, email, encode);
    assert url == p + (a + ['&'] + b);
    assert url[|p|..] == a + ['&'] + b;
    assert '&' !in "invitation_token=" && '&' !in "email=";
    SplitTwo(a, b, '&');
  }

  /** `checkAndValidateInvitation`'s dispatch on the status. */
  function Dispatch(reply: CheckReply, token: string, encode: string -> string, t: map<string, string>): (r: Screen)
    ensures reply.Checked? && reply.status == "user_exists" <==> r == AcceptDirectly
    ensures reply.Checked? && reply.status == "user_not_found" ==> r == Redirect(SignupUrl(token, reply.email, encode))
    ensures r.Redirect? <==> reply.Checked? && reply.status == "user_not_found"
    ensures r.InfoThenDashboard? <==> reply.Checked? && reply.status == "already_member"
    ensures r.InfoThenDashboard? ==> r.delayMs == RedirectDelayMs
    ensures reply.Checked? && reply.status == "invitation_expired" ==>
      r == ErrorScreen(Tr(t, "invitationExpired", "Invitation Expired"), Tr(t, "invitationExpiredMsg", "This invitation has expired."))
    ensures reply.NoData? || (reply.Checked? && reply.status !in {"user_exists", "user_not_found", "invitation_expired", "already_member"}) ==>
      r == GenericError(t)
    ensures reply.CheckThrown? ==> r.ErrorScreen? && r.title == Tr(t, "acceptanceError", "Acceptance Error")
  {
    match reply
    case CheckThrown(m) =>
      ErrorScreen(Tr(t, "acceptanceError", "Acceptance Error"), if m != "" then m else Tr(t, "acceptanceErrorMsg", "Failed to accept the invitation."))
    case NoData => GenericError(t)
    case Checked(status, email) =>
      match status
      case "user_exists" => AcceptDirectly
      case "user_not_found" => Redirect(SignupUrl(token, email, encode))
      case "invitation_expired" =>
        ErrorScreen(Tr(t, "invitationExpired", "Invitation Expired"), Tr(t, "invitationExpiredMsg", "This invitation has expired."))
      case "already_member" =>
        InfoThenDashboard(Tr(t, "alreadyMember", "Already a Member"),
                          Tr(t, "alreadyMemberMsg", "You are already a member of this company."), RedirectDelayMs)
      case _ => GenericError(t)
  }

  /** What an accept call gives: a thrown error, no response, or a reply whose `success` may be `false`. */
  datatype AcceptReply = AcceptThrown(message: string) | NoResponse | AcceptReplied(successFalse: bool, message: string)

  /** A truthy response whose `success` is not `false`. */
  predicate Succeeded(r: AcceptReply)
  {
    r.AcceptReplied? && !r.successFalse
  }

  /** The message of the error a failed accept ends with. */
  function FailureMessage(r: AcceptReply, fallback: string): (m: string)
    ensures r.AcceptReplied? && r.message != "" ==> m == r.message
  {
    match r
    case AcceptThrown(m) => if m != "" then m else fallback
    case NoResponse => "Failed to accept invitation"
    case AcceptReplied(_, m) => if m != "" then m else "Failed to accept invitation"
  }

  /** `handleUserExists`: success and the dashboard after two seconds, else the error. */
  function AcceptOutcome(reply: AcceptReply, t: map<string, string>): (r: Screen)
    ensures r == SuccessThenDashboard(RedirectDelayMs) <==> Succeeded(reply)
    ensures !Succeeded(reply) ==> r == ErrorScreen(Tr(t, "acceptanceError", "Acceptance Error"),
      FailureMessage(reply, Tr(t, "acceptanceErrorMsg", "Failed to accept the invitation.")))
  {
    if Succeeded(reply) then SuccessThenDashboard(RedirectDelayMs)
    else ErrorScreen(Tr(t, "acceptanceError", "Acceptance Error"),
                     FailureMessage(reply, Tr(t, "acceptanceErrorMsg", "Failed to accept the invitation.")))
  }

  /** The signup form; `None` for an input the page lacks. */
  datatype SignupForm = SignupForm(firstName: Option<string>, lastName: Option<string>, phone: string,
                                   password: Option<string>, confirm: Option<string>)

  /** The body of `acceptInvitationWithSignup`; an empty phone is left out (`undefined`). */
  datatype Signup = Signup(token: string, firstName: string, lastName: string, phone: Option<string>, password: string)

  datatype SignupCheck = MissingFields | PasswordMismatch | Send(body: Signup)

  /** Every input is there, the trimmed names are not empty and the password is not empty. */
  predicate Filled(f: SignupForm)
  {
    f.firstName.Some? && f.lastName.Some? && f.password.Some? && f.confirm.Some? &&
    !IsBlank(f.firstName.value) && !IsBlank(f.lastName.value) && f.password.value != ""
  }

  /** `handleSignupSubmit`'s checks before any request. */
  function CheckSignup(token: string, f: SignupForm): (r: SignupCheck)
    ensures r.Send? <==> (Filled(f) && f.password.value == f.confirm.value)
    ensures r == PasswordMismatch <==> (Filled(f) && f.password.value != f.confirm.value)
    ensures r.Send? ==> (r.body.firstName == Trim(f.firstName.value) && r.body.lastName == Trim(f.lastName.value) &&
      r.body.password == f.password.value && r.body.token == token &&
      (r.body.phone.None? <==> IsBlank(f.phone)) && (r.body.phone.Some? ==> r.body.phone.value == Trim(f.phone)))
  {
    if f.firstName.None? || f.lastName.None? || f.password.None? || f.confirm.None? then MissingFields
    else if Trim(f.firstName.value) == "" || Trim(f.lastName.value) == "" || f.password.value == "" then MissingFields
    else if f.password.value != f.confirm.value then PasswordMismatch
    else Send(Signup(token, Trim(f.firstName.value), Trim(f.lastName.value),
                     if Trim(f.phone) == "" then None else Some(Trim(f.phone)), f.password.value))
  }

  /** What the signup form shows after the request: the form's error text, or success and the dashboard. */
  datatype SignupScreen = SignupError(message: string, buttonEnabled: bool) | SignupSucceeded(delayMs: int)

  /**
   * `handleSignupSubmit` after `acceptInvitationWithSignup`: success hides
   * the form and redirects after two seconds; a failure shows its message
   * under the form and enables the submit button again.
   */
  function SignupOutcome(reply: AcceptReply, t: map<string, string>): (r: SignupScreen)
    ensures r.SignupSucceeded? <==> Succeeded(reply)
    ensures r.SignupSucceeded? ==> r.delayMs == RedirectDelayMs
    ensures r.SignupError? ==> r.buttonEnabled && r.message != ""
    ensures reply.AcceptThrown? && reply.message == "" ==> r == SignupError(Tr(t, "signupError", "Signup failed"), true)
    ensures reply.NoResponse? || (reply.AcceptReplied? && reply.successFalse && reply.message == "") ==>
      r == SignupError("Failed to accept invitation", true)
  {
    if Succeeded(reply) then SignupSucceeded(RedirectDelayMs)
    else SignupError(FailureMessage(reply, Tr(t, "signupError", "Signup failed")), true)
  }

  /** The `InvitationHandler` object. */
  class Handler {
    var token: Option<string>

    constructor ()
      ensures token.None?
    {
      token := None;
    }

    /**
     * `init`: the token comes from the query string; without one the error
     * is shown and no request is made, else the invitation is checked.
     */
    method Init(tokenParam: Option<string>, reply: CheckReply, encode: string -> string, t: map<string, string>)
      returns (checked: bool, screen: Screen)
      modifies this
      ensures token == tokenParam
      ensures checked <==> tokenParam.Some? && tokenParam.value != ""
      ensures !checked ==> screen == ErrorScreen(Tr(t, "invalidToken", "Invalid Invitation"),
        Tr(t, "invalidTokenMsg", "The invitation token is invalid or missing."))
      ensures checked ==> screen == Dispatch(reply, tokenParam.value, encode, t)
    {
      token := tokenParam;
      if token.None? || token.value == "" {
        return false, ErrorScreen(Tr(t, "invalidToken", "Invalid Invitation"),
                                  Tr(t, "invalidTokenMsg", "The invitation token is invalid or missing."));
      }
      checked := true;
      screen := Dispatch(reply, token.value, encode, t);
    }
  }
}
