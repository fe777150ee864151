/** The sign-in page: `loginAction` checks the address's format and the
    password's strength, then posts the credentials; the page signs the
    user in only when the answer carries both a user and a token. */
module Login {
  import opened Common
  import opened Text
  import opened ErrorBag
  import opened FieldValidation

  datatype LoginForm = LoginForm(email: string, password: string)

  /** The user document the server returns as `userDB`; the pages hand it on
      without looking inside. */
  datatype UserDocument = UserDocument(id: string)

  /** The body of a successful `POST /users/login`. */
  datatype LoginResponse = LoginResponse(userDB: Option<UserDocument>, token: Option<string>)

  /** The action data: `{ success: true, user, token }` or `{ errors }`. */
  datatype LoginOutcome = LoggedIn(user: Option<UserDocument>, token: Option<string>) | LoginRejected(errors: Bag)

  const LoginFailedMessage := "Login failed. Please try again."

  function LoginBag(email: string, password: string): (errors: Bag)
    ensures NoErrors(errors) <==> email == "" && password == ""
  {
    var errors := map["email" := email, "password" := password];
    assert errors["email"] == email && errors["password"] == password;
    errors
  }

  /** Both fields with the default context: the email's format only, the
      password's full strength rules. */
  function LoginChecks(form: LoginForm, env: Env): Bag
  {
    // Without `checkEmail` the availability answer is never consulted.
    LoginBag(
      Validate(Email, Str(form.email), NoContext, env, Failed),
      Validate(Password, Str(form.password), NoContext, env, Failed))
  }

  ghost predicate LoginAccepted(form: LoginForm)
  {
    form.email != "" && MatchesEmailPattern(form.email) && StrongPassword(form.password)
  }

  lemma LoginChecksPass(form: LoginForm, env: Env)
    ensures NoErrors(LoginChecks(form, env)) <==> LoginAccepted(form)
  {
    EmailRule(form.email, NoContext, env, Failed);
    PasswordRule(form.password, NoContext, env, Failed);
  }

  /** `loginAction`. The credentials are posted exactly when the address is
      well formed and the password strong; no availability check is made.
      A success hands on `userDB` as the user together with the token. */
  method LoginAction(form: LoginForm, env: Env, reply: Reply<LoginResponse>)
    returns (outcome: LoginOutcome, request: Option<LoginForm>)
    ensures request.Some? <==> LoginAccepted(form)
    ensures request.None? ==> outcome == LoginRejected(Truthful(LoginChecks(form, env))) && outcome.errors != map[]
    ensures request.Some? ==> request.value == form
    ensures request.Some? && reply.Ok? ==> outcome == LoggedIn(reply.data.userDB, reply.data.token)
    ensures request.Some? && reply.Fail? ==>
      outcome == LoginRejected(map["general" := MessageOr(reply.message, LoginFailedMessage)])
  {
    LoginChecksPass(form, env);
    NothingLeftIffNoErrors(LoginChecks(form, env));
    var errors := DropFalsy(LoginChecks(form, env));
    if |errors| > 0 {
      return LoginRejected(errors), None;
    }
    request := Some(form);
    match reply
    case Ok(data) =>
      outcome := LoggedIn(data.userDB, data.token);
    case Fail(_, message) =>
      outcome := LoginRejected(map["general" := MessageOr(message, LoginFailedMessage)]);
  }

  /** `actionData?.success && actionData.user && actionData.token`. */
  predicate SignsIn(outcome: LoginOutcome)
  {
    outcome.LoggedIn? && outcome.user.Some? && Truthy(outcome.token)
  }

  /** `actionData?.errors?.general` is truthy. */
  predicate ReportsGeneral(outcome: LoginOutcome)
  {
    outcome.LoginRejected? && "general" in outcome.errors && outcome.errors["general"] != ""
  }

  const LoginFields: set<string> := {"email", "password"}

  /** The page's state, and the session it starts through `login(user,
      token)` with the place it then navigates to. */
  class LoginPage {
    var formData: map<string, string>
    var fieldErrors: Bag
    var generalError: Option<string>
    var session: Option<(UserDocument, string)>
    var navigatedTo: Option<string>

    predicate Valid()
      reads this
    {
      formData.Keys == LoginFields
    }

    constructor ()
      ensures Valid() && formData == map["email" := "", "password" := ""]
      ensures fieldErrors == map[] && generalError == None && session == None && navigatedTo == None
    {
      formData := map["email" := "", "password" := ""];
      fieldErrors := map[];
      generalError := None;
      session := None;
      navigatedTo := None;
    }

    /** The effect on new action data: the session starts, and the page
        moves to `/`, only for a success that carries both a user and a
        non-empty token; a truthy `general` error is shown. */
    method ShowOutcome(outcome: LoginOutcome)
      modifies this
      ensures session != old(session) ==> SignsIn(outcome)
      ensures SignsIn(outcome) ==>
        && session == Some((outcome.user.value, outcome.token.value))
        && navigatedTo == Some("/") && generalError == None
      ensures ReportsGeneral(outcome) ==>
        generalError == Some(outcome.errors["general"]) && session == old(session) && navigatedTo == old(navigatedTo)
      ensures !SignsIn(outcome) && !ReportsGeneral(outcome) ==>
        generalError == old(generalError) && session == old(session) && navigatedTo == old(navigatedTo)
      ensures formData == old(formData) && fieldErrors == old(fieldErrors)
    {
      if outcome.LoggedIn? && outcome.user.Some? && outcome.token.Some? && outcome.token.value != "" {
        generalError := None;
        session := Some((outcome.user.value, outcome.token.value));
        navigatedTo := Some("/");
      }
      if outcome.LoginRejected? && "general" in outcome.errors && outcome.errors["general"] != "" {
        generalError := Some(outcome.errors["general"]);
      }
    }

    /** `handleBlur`: the field's rule with the default context. */
    method HandleBlur(name: string, value: string, env: Env)
      requires Valid() && name in LoginFields
      modifies this
      ensures Valid()
      ensures fieldErrors == old(fieldErrors)[name := Validate(FieldNamed(name), Str(value), NoContext, env, Failed)]
      ensures formData == old(formData) && generalError == old(generalError)
      ensures session == old(session) && navigatedTo == old(navigatedTo)
    {
      fieldErrors := fieldErrors[name := Validate(FieldNamed(name), Str(value), NoContext, env, Failed)];
    }

    /** `handleChange`: the value is stored, and that field's message and the
        banner are cleared. */
    method HandleChange(name: string, value: string)
      requires Valid() && name in LoginFields
      modifies this
      ensures Valid()
      ensures formData == old(formData)[name := value]
      ensures fieldErrors == old(fieldErrors)[name := ""] && generalError == None
      ensures session == old(session) && navigatedTo == old(navigatedTo)
    {
      formData := formData[name := value];
      fieldErrors := fieldErrors[name := ""];
      generalError := None;
    }
  }
}
