/** The page behind a password-reset link: `resetPasswordAction` checks the
    new password, its confirmation and the link's token before sending the
    new password. */
module ResetPassword {
  import opened Common
  import opened Text
  import opened ErrorBag
  import opened FieldValidation

  datatype ResetForm = ResetForm(password: string, confirmPassword: string)

  /** `PATCH /users/resetPassword/:token` with the new password. */
  datatype ResetRequest = ResetRequest(token: string, password: string)

  datatype ResetOutcome = PasswordReset | ResetRejected(errors: Bag)

  const MissingTokenMessage := "Invalid or missing token."
  const ResetFailedMessage := "Failed to reset password"

  /** The two messages, and `general` only when the token is missing. */
  function ResetBag(password: string, confirm: string, hasToken: bool): (errors: Bag)
    ensures NoErrors(errors) <==> password == "" && confirm == "" && hasToken
    ensures "general" in errors <==> !hasToken
  {
    var fields := map["password" := password, "confirmPassword" := confirm];
    var errors := if hasToken then fields else fields["general" := MissingTokenMessage];
    assert errors["password"] == password && errors["confirmPassword"] == confirm;
    assert !hasToken ==> errors["general"] == MissingTokenMessage;
    errors
  }

  function ResetChecks(form: ResetForm, token: Option<string>, env: Env): Bag
  {
    ResetBag(
      Validate(Password, Str(form.password), NoContext, env, Failed),
      Validate(ConfirmPassword, Str(form.confirmPassword), NoContext.(password := Some(form.password)), env, Failed),
      Truthy(token))
  }

  /** A strong password, typed twice alike, and a token in the link. */
  predicate ResetAccepted(form: ResetForm, token: Option<string>)
  {
    StrongPassword(form.password) && form.confirmPassword == form.password && Truthy(token)
  }

  lemma ResetChecksPass(form: ResetForm, token: Option<string>, env: Env)
    ensures NoErrors(ResetChecks(form, token, env)) <==> ResetAccepted(form, token)
  {
    PasswordRule(form.password, NoContext, env, Failed);
    ConfirmRule(form.confirmPassword, NoContext.(password := Some(form.password)), env, Failed);
  }

  /** `resetPasswordAction`: `token` is the route parameter. The new password
      is sent exactly when it is strong, confirmed and the link has a token;
      a failure reports the server's message or the fallback. */
  method ResetPasswordAction(form: ResetForm, token: Option<string>, env: Env, reply: Reply<()>)
    returns (outcome: ResetOutcome, request: Option<ResetRequest>)
    ensures request.Some? <==> ResetAccepted(form, token)
    ensures request.None? ==> outcome == ResetRejected(Truthful(ResetChecks(form, token, env))) && outcome.errors != map[]
    ensures !Truthy(token) ==> outcome.ResetRejected? && outcome.errors["general"] == MissingTokenMessage
    ensures request.Some? ==> request.value == ResetRequest(token.value, form.password)
    ensures request.Some? && reply.Ok? ==> outcome == PasswordReset
    ensures request.Some? && reply.Fail? ==>
      outcome == ResetRejected(map["general" := MessageOr(reply.message, ResetFailedMessage)])
  {
    ResetChecksPass(form, token, env);
    NothingLeftIffNoErrors(ResetChecks(form, token, env));
    var errors := DropFalsy(ResetChecks(form, token, env));
    if |errors| > 0 {
      return ResetRejected(errors), None;
    }
    request := Some(ResetRequest(token.value, form.password));
    match reply
    case Ok(_) =>
      outcome := PasswordReset;
    case Fail(_, message) =>
      outcome := ResetRejected(map["general" := MessageOr(message, ResetFailedMessage)]);
  }

  const ResetFields: set<string> := {"password", "confirmPassword"}

  class ResetPasswordPage {
    var formData: map<string, string>
    var fieldErrors: Bag
    var touched: bool

    predicate Valid()
      reads this
    {
      formData.Keys == ResetFields
    }

    /** `isFormValid`: touched, both fields non-blank, no message shown. */
    function IsFormValid(): (r: bool)
      reads this
      requires Valid()
      ensures r <==>
        touched && Trim(formData["password"]) != "" && Trim(formData["confirmPassword"]) != "" && Truthful(fieldErrors) == map[]
    {
      NothingLeftIffNoErrors(fieldErrors);
      touched && !IsBlank(formData["password"]) && !IsBlank(formData["confirmPassword"]) && NoErrors(fieldErrors)
    }

    /** The form starts untouched, so it cannot be submitted yet. */
    constructor ()
      ensures Valid() && formData == map["password" := "", "confirmPassword" := ""]
      ensures fieldErrors == map[] && !touched
      ensures !IsFormValid()
    {
      formData := map["password" := "", "confirmPassword" := ""];
      fieldErrors := map[];
      touched := false;
    }

    /** `handleChange`: the value is stored, its message cleared and the
        form marked touched. */
    method HandleChange(name: string, value: string)
      requires Valid() && name in ResetFields
      modifies this
      ensures Valid()
      ensures formData == old(formData)[name := value]
      ensures fieldErrors == old(fieldErrors)[name := ""]
      ensures touched
      ensures IsBlank(value) ==> !IsFormValid()
    {
      formData := formData[name := value];
      fieldErrors := fieldErrors[name := ""];
      touched := true;
    }

    /** `handleBlur`: the field's rule, with the typed password as context. */
    method HandleBlur(name: string, value: string, env: Env)
      requires Valid() && name in ResetFields
      modifies this
      ensures Valid()
      ensures fieldErrors == old(fieldErrors)[name :=
        Validate(FieldNamed(name), Str(value), NoContext.(password := Some(old(formData)["password"])), env, Failed)]
      ensures formData == old(formData) && touched == old(touched)
    {
      var error := Validate(FieldNamed(name), Str(value), NoContext.(password := Some(formData["password"])), env, Failed);
      fieldErrors := fieldErrors[name := error];
    }
  }
}
