/** The sign-up page: `registerAction` validates the six inputs and, only
    when all pass, posts the new account; the page validates on blur (the
    email first by format, then by availability) and clears on change. */
module Register {
  import opened Common
  import opened Text
  import opened ErrorBag
  import opened FieldValidation

  /** The submitted form, field by field. */
  datatype RegisterForm = RegisterForm(
    firstName: string, lastName: string, email: string,
    password: string, confirmPassword: string, birthDate: string)

  /** The body of `POST /users/register`: the form without the confirmation. */
  datatype RegisterRequest = RegisterRequest(
    firstName: string, lastName: string, email: string, password: string, birthDate: string)

  /** The action data: `{ success: true }` or `{ errors }`. */
  datatype RegisterOutcome = Registered | Rejected(errors: Bag)

  const RegisterFailedMessage := "Registration failed. Please try again."

  /** The error object the action builds from the six messages. */
  function RegisterBag(first: string, last: string, email: string, password: string, confirm: string, birth: string): (errors: Bag)
    ensures NoErrors(errors) <==> first == "" && last == "" && email == "" && password == "" && confirm == "" && birth == ""
  {
    var errors := map[
      "firstName" := first, "lastName" := last, "email" := email,
      "password" := password, "confirmPassword" := confirm, "birthDate" := birth];
    assert errors["firstName"] == first && errors["lastName"] == last && errors["email"] == email;
    assert errors["password"] == password && errors["confirmPassword"] == confirm && errors["birthDate"] == birth;
    errors
  }

  /** The six checks: the email also for availability, the confirmation
      against the submitted password. */
  function RegisterChecks(form: RegisterForm, env: Env, lookup: EmailLookup): Bag
  {
    RegisterBag(
      Validate(FirstName, Str(form.firstName), NoContext, env, lookup),
      Validate(LastName, Str(form.lastName), NoContext, env, lookup),
      Validate(Email, Str(form.email), NoContext.(checkEmail := true), env, lookup),
      Validate(Password, Str(form.password), NoContext, env, lookup),
      Validate(ConfirmPassword, Str(form.confirmPassword), NoContext.(password := Some(form.password)), env, lookup),
      Validate(BirthDate, Str(form.birthDate), NoContext, env, lookup))
  }

  /** Every field meets its rule: valid names, a well-formed address that
      is not taken, a strong password typed twice alike, an adult's birth
      date. */
  ghost predicate RegisterAccepted(form: RegisterForm, env: Env, lookup: EmailLookup)
  {
    && NameAccepted(Str(form.firstName))
    && NameAccepted(Str(form.lastName))
    && EmailAccepted(Str(form.email), NoContext.(checkEmail := true), lookup)
    && StrongPassword(form.password)
    && form.confirmPassword == form.password
    && form.birthDate != "" && env.parseDate(form.birthDate).Some? && 18 <= env.ageOf(Str(form.birthDate)) <= 120
  }

  lemma RegisterChecksPass(form: RegisterForm, env: Env, lookup: EmailLookup)
    ensures NoErrors(RegisterChecks(form, env, lookup)) <==> RegisterAccepted(form, env, lookup)
  {
    RegisterFieldsAccepted(form, env, lookup);
  }

  lemma RegisterFieldsAccepted(form: RegisterForm, env: Env, lookup: EmailLookup)
    ensures RegisterAccepted(form, env, lookup) <==>
      && Validate(FirstName, Str(form.firstName), NoContext, env, lookup) == ""
      && Validate(LastName, Str(form.lastName), NoContext, env, lookup) == ""
      && Validate(Email, Str(form.email), NoContext.(checkEmail := true), env, lookup) == ""
      && Validate(Password, Str(form.password), NoContext, env, lookup) == ""
      && Validate(ConfirmPassword, Str(form.confirmPassword), NoContext.(password := Some(form.password)), env, lookup) == ""
      && Validate(BirthDate, Str(form.birthDate), NoContext, env, lookup) == ""
  {
    NameRule(FirstName, form.firstName, NoContext, env, lookup);
    NameRule(LastName, form.lastName, NoContext, env, lookup);
    EmailRule(form.email, NoContext.(checkEmail := true), env, lookup);
    PasswordRule(form.password, NoContext, env, lookup);
    ConfirmRule(form.confirmPassword, NoContext.(password := Some(form.password)), env, lookup);
    BirthDateRule(form.birthDate, NoContext, env, lookup);
  }

  /** `registerAction`. `lookup` is the availability answer the email check
      would get and `reply` the outcome the register request would get. The
      request goes out exactly when every field passes, carries the form
      without the confirmation, and a failure reports the server's message
      or the fallback. */
  method RegisterAction(form: RegisterForm, env: Env, lookup: EmailLookup, reply: Reply<()>)
    returns (outcome: RegisterOutcome, request: Option<RegisterRequest>)
    ensures request.Some? <==> RegisterAccepted(form, env, lookup)
    ensures request.None? ==> outcome == Rejected(Truthful(RegisterChecks(form, env, lookup))) && outcome.errors != map[]
    ensures request.Some? ==>
      request.value == RegisterRequest(form.firstName, form.lastName, form.email, form.password, form.birthDate)
    ensures request.Some? && reply.Ok? ==> outcome == Registered
    ensures request.Some? && reply.Fail? ==>
      outcome == Rejected(map["general" := MessageOr(reply.message, RegisterFailedMessage)])
  {
    RegisterChecksPass(form, env, lookup);
    NothingLeftIffNoErrors(RegisterChecks(form, env, lookup));
    var errors := DropFalsy(RegisterChecks(form, env, lookup));
    if |errors| > 0 {
      return Rejected(errors), None;
    }
    request := Some(RegisterRequest(form.firstName, form.lastName, form.email, form.password, form.birthDate));
    match reply
    case Ok(_) =>
      outcome := Registered;
    case Fail(_, message) =>
      outcome := Rejected(map["general" := MessageOr(message, RegisterFailedMessage)]);
  }

  const RegisterFields: set<string> := {"firstName", "lastName", "email", "password", "confirmPassword", "birthDate"}
  const EmailUnavailableMessage := "Email address not available."

  /** The page's state: the typed values, the messages shown under the
      fields, the banner message and whether an availability check is in
      flight. */
  class RegisterPage {
    var formData: map<string, string>
    var fieldErrors: Bag
    var generalError: Option<string>
    var isCheckingEmail: bool

    /** The form always holds exactly the six inputs. */
    predicate Valid()
      reads this
    {
      formData.Keys == RegisterFields
    }

    constructor ()
      ensures Valid()
      ensures formData == map k | k in RegisterFields :: ""
      ensures fieldErrors == map[] && generalError == None && !isCheckingEmail
    {
      formData := map k | k in RegisterFields :: "";
      fieldErrors := map[];
      generalError := None;
      isCheckingEmail := false;
    }

    /** `isFormValid`: no message shown, every input non-blank, no check in
        flight. */
    function IsFormValid(): (r: bool)
      reads this
      ensures r <==> Truthful(fieldErrors) == map[] && (forall k :: k in formData ==> Trim(formData[k]) != "") && !isCheckingEmail
    {
      NothingLeftIffNoErrors(fieldErrors);
      && NoErrors(fieldErrors)
      && (forall k :: k in formData ==> !IsBlank(formData[k]))
      && !isCheckingEmail
    }

    /** `handleChange`: the new value is stored and its field's message and
        the banner are cleared; a blank value keeps the form invalid. */
    method HandleChange(name: string, value: string)
      requires Valid() && name in RegisterFields
      modifies this
      ensures Valid()
      ensures formData == old(formData)[name := value]
      ensures fieldErrors == old(fieldErrors)[name := ""]
      ensures generalError == None && isCheckingEmail == old(isCheckingEmail)
      ensures IsBlank(value) ==> !IsFormValid()
    {
      formData := formData[name := value];
      fieldErrors := fieldErrors[name := ""];
      generalError := None;
    }

    /** `handleBlur` on any input but the email: the validator with the
        current password as context. */
    method BlurField(name: string, value: string, env: Env)
      requires Valid() && name in RegisterFields && name != "email"
      modifies this
      ensures Valid()
      ensures fieldErrors == old(fieldErrors)[name :=
        Validate(FieldNamed(name), Str(value), NoContext.(password := Some(old(formData)["password"])), env, Failed)]
      ensures formData == old(formData) && generalError == old(generalError) && isCheckingEmail == old(isCheckingEmail)
    {
      var error := Validate(FieldNamed(name), Str(value), NoContext.(password := Some(formData["password"])), env, Failed);
      fieldErrors := fieldErrors[name := error];
    }

    /** The first half of `handleBlur` on the email: a format error is shown
        and nothing else happens; a well-formed address starts the
        availability check, during which the form cannot be submitted. */
    method BlurEmail(value: string, env: Env) returns (checking: bool)
      requires Valid()
      modifies this
      ensures Valid()
      ensures checking <==> EmailWellFormed(Str(value))
      ensures !checking ==>
        && fieldErrors == old(fieldErrors)["email" := EmailFormatMessage]
        && isCheckingEmail == old(isCheckingEmail)
      ensures checking ==> fieldErrors == old(fieldErrors) && isCheckingEmail && !IsFormValid()
      ensures formData == old(formData) && generalError == old(generalError)
    {
      // Without `checkEmail` the validator checks the format only, so the
      // lookup it is handed is never consulted.
      var formatError := Validate(Email, Str(value), NoContext, env, Failed);
      if formatError != "" {
        fieldErrors := fieldErrors["email" := formatError];
        return false;
      }
      isCheckingEmail := true;
      checking := true;
    }

    /** The second half: `available` is the truthiness of
        `res.data?.available`, or the request failed. The check is over in
        every case. */
    method EmailCheckSettled(available: Reply<bool>)
      requires Valid()
      modifies this
      ensures Valid()
      ensures fieldErrors == old(fieldErrors)["email" :=
        match available
        case Ok(true) => ""
        case Ok(false) => EmailUnavailableMessage
        case Fail(_, _) => EmailCheckFailedMessage]
      ensures !isCheckingEmail
      ensures formData == old(formData) && generalError == old(generalError)
    {
      var error := match available
        case Ok(true) => ""
        case Ok(false) => EmailUnavailableMessage
        case Fail(_, _) => EmailCheckFailedMessage;
      fieldErrors := fieldErrors["email" := error];
      isCheckingEmail := false;
    }
  }
}
