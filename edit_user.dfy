/** The administrator's editor for another user's account: the loader
    fetches the user, `editUserAction` checks the edited fields and sends
    `PATCH /users/editProfile/:id`. */
module EditUser {
  import opened Common
  import opened ErrorBag
  import opened FieldValidation
  import opened UserEdit

  /** What the loader gives the page: the fetched user, or a redirect. */
  datatype LoadResult = Loaded(user: LoadedUser) | LoadRedirect(redirect: Redirect)

  /** `editUserLoader`: without a session the browser goes to sign in; a
      failed fetch goes back to the user list; otherwise the fetched user. */
  function EditUserLoader(token: Option<string>, reply: Reply<LoadedUser>): (r: LoadResult)
    ensures r.Loaded? <==> Truthy(token) && reply.Ok?
    ensures r.Loaded? ==> r.user == reply.data
    ensures !Truthy(token) ==> r == LoadRedirect(Redirect("/login"))
    ensures Truthy(token) && reply.Fail? ==> r == LoadRedirect(Redirect("/admin/all-users"))
  {
    if !(token.Some? && token.value != "") then LoadRedirect(Redirect("/login"))
    else match reply
      case Ok(user) => Loaded(user)
      case Fail(_, _) => LoadRedirect(Redirect("/admin/all-users"))
  }

  /** The action data: a redirect, `{ errors }` or `{ success: true }`;
      unlike the profile form there is no sign-out outcome. */
  datatype EditOutcome = EditRedirect(redirect: Redirect) | EditRejected(errors: Bag) | EditSaved

  const EditFailedMessage := "Failed to update user."

  /** `editUserAction` for the user `id`. The parameters are those of the
      profile action; `originalEmail` is `None` as written. The update goes
      to that user exactly when every applicable rule holds, and a success
      is always a plain success, even when the password changed. */
  method EditUserAction(token: Option<string>, id: string, form: UserForm, env: Env, lookup: EmailLookup,
                        originalEmail: Option<string>, reply: Reply<()>)
    returns (outcome: EditOutcome, request: Option<(string, UpdatePayload)>)
    ensures !Truthy(token) ==> outcome == EditRedirect(Redirect("/login")) && request == None
    ensures Truthy(token) ==> (request.Some? <==> UserEditAccepted(form, env, lookup, originalEmail))
    ensures Truthy(token) && request.None? ==>
      outcome == EditRejected(Truthful(UserEditChecks(form, env, lookup, originalEmail))) && outcome.errors != map[]
    ensures request.Some? ==> request.value == (id, PayloadOf(form))
    ensures request.Some? && reply.Ok? ==> outcome == EditSaved
    ensures request.Some? && reply.Fail? ==>
      outcome == EditRejected(map["general" := MessageOr(reply.message, EditFailedMessage)])
  {
    if !(token.Some? && token.value != "") {
      return EditRedirect(Redirect("/login")), None;
    }
    var errors, payload := CheckUserEdit(form, env, lookup, originalEmail);
    if |errors| > 0 {
      return EditRejected(errors), None;
    }
    request := Some((id, payload));
    match reply
    case Ok(_) =>
      outcome := EditSaved;
    case Fail(_, message) =>
      outcome := EditRejected(map["general" := MessageOr(message, EditFailedMessage)]);
  }
}
