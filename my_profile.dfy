/** The signed-in user's own profile form: `myProfileAction` checks the
    edited fields and sends `PATCH /users/updateMyProfile`; a changed
    password makes the page sign the user out. */
module MyProfile {
  import opened Common
  import opened ErrorBag
  import opened FieldValidation
  import opened UserEdit

  /** The action data: a redirect, `{ errors }`, `{ success: true }` or
      `{ logout: true }`. */
  datatype ProfileOutcome = ProfileRedirect(redirect: Redirect) | ProfileRejected(errors: Bag) | ProfileSaved | SignOutRequired

  const ProfileFailedMessage := "Failed to update profile."

  /** `myProfileAction`. `token` is the session cookie, `lookup` the
      availability answer for the email and `reply` the outcome of the
      update request. `originalEmail` is what the email check is told the
      current address is: the action as written gives it none (`None`);
      passing the loaded address is the corrected form. Without a session
      the browser is sent to sign in; otherwise the update is sent exactly
      when every applicable rule holds, and a success asks for a new
      sign-in exactly when the password changed. */
  method MyProfileAction(token: Option<string>, form: UserForm, env: Env, lookup: EmailLookup,
                         originalEmail: Option<string>, reply: Reply<()>)
    returns (outcome: ProfileOutcome, request: Option<UpdatePayload>)
    ensures !Truthy(token) ==> outcome == ProfileRedirect(Redirect("/login")) && request == None
    ensures Truthy(token) ==> (request.Some? <==> UserEditAccepted(form, env, lookup, originalEmail))
    ensures Truthy(token) && request.None? ==>
      outcome == ProfileRejected(Truthful(UserEditChecks(form, env, lookup, originalEmail))) && outcome.errors != map[]
    ensures request.Some? ==> request.value == PayloadOf(form)
    ensures request.Some? && reply.Ok? ==> outcome == (if PasswordChanged(form) then SignOutRequired else ProfileSaved)
    ensures request.Some? && reply.Fail? ==>
      outcome == ProfileRejected(map["general" := MessageOr(reply.message, ProfileFailedMessage)])
  {
    if !(token.Some? && token.value != "") {
      return ProfileRedirect(Redirect("/login")), None;
    }
    var errors, payload := CheckUserEdit(form, env, lookup, originalEmail);
    if |errors| > 0 {
      return ProfileRejected(errors), None;
    }
    request := Some(payload);
    match reply
    case Ok(_) =>
      outcome := if PasswordChanged(form) then SignOutRequired else ProfileSaved;
    case Fail(_, message) =>
      outcome := ProfileRejected(map["general" := MessageOr(message, ProfileFailedMessage)]);
  }
}
