/** What the profile page and the administrator's user editor share: the
    six-field form in which a blank password means "unchanged", the checks
    the actions run before sending an update, the payload they send, and
    the page state with its blur and change handlers. */
module UserEdit {
  import opened Common
  import opened Text
  import opened ErrorBag
  import opened FieldValidation

  datatype UserForm = UserForm(
    firstName: string, lastName: string, email: string,
    password: string, confirmPassword: string, birthDate: string)

  /** The update body: the four profile fields, and `newPassword` only when
      a new password was typed. */
  datatype UpdatePayload = UpdatePayload(
    firstName: string, lastName: string, email: string, birthDate: string, newPassword: Option<string>)

  /** `isPasswordChanged`: the password field is not blank. */
  predicate PasswordChanged(form: UserForm)
  {
    !IsBlank(form.password)
  }

  /** The error object: four messages, and the two password messages only
      when the password is being changed. */
  function UserEditBag(first: string, last: string, email: string, birth: string, passwords: Option<(string, string)>): (errors: Bag)
    ensures NoErrors(errors) <==>
      first == "" && last == "" && email == "" && birth == ""
      && (passwords.Some? ==> passwords.value.0 == "" && passwords.value.1 == "")
    ensures "password" in errors <==> passwords.Some?
    ensures "email" in errors && errors["email"] == email
  {
    var errors := map["firstName" := first, "lastName" := last, "email" := email, "birthDate" := birth];
    assert errors["firstName"] == first && errors["lastName"] == last && errors["email"] == email && errors["birthDate"] == birth;
    match passwords
    case None => errors
    case Some((password, confirm)) =>
      var all := errors["password" := password]["confirmPassword" := confirm];
      assert all["firstName"] == first && all["lastName"] == last && all["email"] == email && all["birthDate"] == birth;
      assert all["password"] == password && all["confirmPassword"] == confirm;
      all
  }

  /** The context the actions give the email check. As written they pass
      `{ checkEmail: true }` alone (`originalEmail` is `None`), so the
      availability request is made even for the address the account
      already has. */
  function EmailContext(originalEmail: Option<string>): Context
  {
    NoContext.(checkEmail := true, originalEmail := originalEmail)
  }

  function UserEditChecks(form: UserForm, env: Env, lookup: EmailLookup, originalEmail: Option<string>): Bag
  {
    UserEditBag(
      Validate(FirstName, Str(form.firstName), NoContext, env, lookup),
      Validate(LastName, Str(form.lastName), NoContext, env, lookup),
      Validate(Email, Str(form.email), EmailContext(originalEmail), env, lookup),
      Validate(BirthDate, Str(form.birthDate), NoContext, env, lookup),
      if PasswordChanged(form) then
        Some((Validate(Password, Str(form.password), NoContext, env, lookup),
              Validate(ConfirmPassword, Str(form.confirmPassword), NoContext.(password := Some(form.password)), env, lookup)))
      else None)
  }

  /** Valid names, a well-formed address that is free (or, when the
      original address is given, unchanged), an adult's birth date, and,
      only when a new password is typed, a strong password confirmed. */
  ghost predicate UserEditAccepted(form: UserForm, env: Env, lookup: EmailLookup, originalEmail: Option<string>)
  {
    && NameAccepted(Str(form.firstName))
    && NameAccepted(Str(form.lastName))
    && EmailAccepted(Str(form.email), EmailContext(originalEmail), lookup)
    && form.birthDate != "" && env.parseDate(form.birthDate).Some? && 18 <= env.ageOf(Str(form.birthDate)) <= 120
    && (PasswordChanged(form) ==> StrongPassword(form.password) && form.confirmPassword == form.password)
  }

  lemma UserEditChecksPass(form: UserForm, env: Env, lookup: EmailLookup, originalEmail: Option<string>)
    ensures NoErrors(UserEditChecks(form, env, lookup, originalEmail)) <==> UserEditAccepted(form, env, lookup, originalEmail)
  {
    NameRule(FirstName, form.firstName, NoContext, env, lookup);
    NameRule(LastName, form.lastName, NoContext, env, lookup);
    EmailRule(form.email, EmailContext(originalEmail), env, lookup);
    BirthDateRule(form.birthDate, NoContext, env, lookup);
    PasswordRule(form.password, NoContext, env, lookup);
    ConfirmRule(form.confirmPassword, NoContext.(password := Some(form.password)), env, lookup);
  }

  function PayloadOf(form: UserForm): UpdatePayload
  {
    UpdatePayload(form.firstName, form.lastName, form.email, form.birthDate,
      if PasswordChanged(form) then Some(form.password) else None)
  }

  /** The part both actions share: run the checks, drop the empty messages
      and build the payload. The update may be sent exactly when nothing is
      left, that is when every rule holds; a blank password is neither
      checked nor sent. */
  method CheckUserEdit(form: UserForm, env: Env, lookup: EmailLookup, originalEmail: Option<string>)
    returns (errors: Bag, payload: UpdatePayload)
    ensures errors == Truthful(UserEditChecks(form, env, lookup, originalEmail))
    ensures errors == map[] <==> UserEditAccepted(form, env, lookup, originalEmail)
    ensures payload == PayloadOf(form)
    ensures payload.newPassword.Some? <==> PasswordChanged(form)
  {
    UserEditChecksPass(form, env, lookup, originalEmail);
    NothingLeftIffNoErrors(UserEditChecks(form, env, lookup, originalEmail));
    errors := DropFalsy(UserEditChecks(form, env, lookup, originalEmail));
    payload := PayloadOf(form);
  }

  /** As written (no `originalEmail`), keeping one's well-formed address is
      refused with the availability message whenever the server reports it
      as registered, which it is: the account itself holds it. */
  lemma UnchangedEmailIsRefused(form: UserForm, env: Env)
    requires EmailWellFormed(Str(form.email))
    ensures var errors := Truthful(UserEditChecks(form, env, Exists, None));
      "email" in errors && errors["email"] == EmailTakenMessage
    ensures !UserEditAccepted(form, env, Exists, None)
  {
    var ctx := EmailContext(None);
    assert LookupUsed(Str(form.email), ctx);
    EmailValidation(form.email, ctx, env, Exists);
    var checks := UserEditChecks(form, env, Exists, None);
    assert checks["email"] == EmailTakenMessage;
    assert "email" in Truthful(checks);
  }

  /** With the loaded address as `originalEmail`, an unchanged address is
      never looked up: every message, and so the decision to send the
      update, is the same whatever the server would answer. */
  lemma UnchangedEmailNeedsNoLookup(form: UserForm, env: Env, a: EmailLookup, b: EmailLookup)
    ensures UserEditChecks(form, env, a, Some(form.email)) == UserEditChecks(form, env, b, Some(form.email))
    ensures UserEditAccepted(form, env, a, Some(form.email)) <==> UserEditAccepted(form, env, b, Some(form.email))
  {
    assert !LookupUsed(Str(form.email), EmailContext(Some(form.email)));
    ChecksIgnoreLookup(form, env, a, b);
  }

  lemma ChecksIgnoreLookup(form: UserForm, env: Env, a: EmailLookup, b: EmailLookup)
    ensures UserEditChecks(form, env, a, Some(form.email)) == UserEditChecks(form, env, b, Some(form.email))
  {
    EmailCheckIgnoresLookup(form, env, a, b);
    PersonalChecksIgnoreLookup(form, env, a, b);
    PasswordChecksIgnoreLookup(form, env, a, b);
  }

  /** The unchanged address is accepted without a request. */
  lemma EmailCheckIgnoresLookup(form: UserForm, env: Env, a: EmailLookup, b: EmailLookup)
    ensures Validate(Email, Str(form.email), EmailContext(Some(form.email)), env, a)
         == Validate(Email, Str(form.email), EmailContext(Some(form.email)), env, b)
  {
    var ctx := EmailContext(Some(form.email));
    assert !LookupUsed(Str(form.email), ctx);
    LookupMattersOnlyForEmail(Email, Str(form.email), ctx, env, a, b);
  }

  /** The name and birth-date messages never consult the lookup. */
  lemma PersonalChecksIgnoreLookup(form: UserForm, env: Env, a: EmailLookup, b: EmailLookup)
    ensures Validate(FirstName, Str(form.firstName), NoContext, env, a) == Validate(FirstName, Str(form.firstName), NoContext, env, b)
    ensures Validate(LastName, Str(form.lastName), NoContext, env, a) == Validate(LastName, Str(form.lastName), NoContext, env, b)
    ensures Validate(BirthDate, Str(form.birthDate), NoContext, env, a) == Validate(BirthDate, Str(form.birthDate), NoContext, env, b)
  {
    LookupMattersOnlyForEmail(FirstName, Str(form.firstName), NoContext, env, a, b);
    LookupMattersOnlyForEmail(LastName, Str(form.lastName), NoContext, env, a, b);
    LookupMattersOnlyForEmail(BirthDate, Str(form.birthDate), NoContext, env, a, b);
  }

  /** Nor do the two password messages. */
  lemma PasswordChecksIgnoreLookup(form: UserForm, env: Env, a: EmailLookup, b: EmailLookup)
    ensures Validate(Password, Str(form.password), NoContext, env, a) == Validate(Password, Str(form.password), NoContext, env, b)
    ensures Validate(ConfirmPassword, Str(form.confirmPassword), NoContext.(password := Some(form.password)), env, a)
         == Validate(ConfirmPassword, Str(form.confirmPassword), NoContext.(password := Some(form.password)), env, b)
  {
    LookupMattersOnlyForEmail(Password, Str(form.password), NoContext, env, a, b);
    LookupMattersOnlyForEmail(ConfirmPassword, Str(form.confirmPassword), NoContext.(password := Some(form.password)), env, a, b);
  }

  /** The user as loaded: the fields the form starts from. */
  datatype LoadedUser = LoadedUser(firstName: string, lastName: string, email: string, birthDate: Option<string>)

  /** `userData.birthDate?.split('T')[0] || ''`: the date part of the stored
      timestamp. */
  function LoadedBirthDate(user: LoadedUser): (d: string)
    ensures user.birthDate.Some? ==> d <= user.birthDate.value && 'T' !in d
    ensures user.birthDate.None? ==> d == ""
  {
    match user.birthDate
    case None => ""
    case Some(b) => Before(b, 'T')
  }

  const UserEditFields: set<string> := {"firstName", "lastName", "email", "password", "confirmPassword", "birthDate"}
  const EmailInUseMessage := "This email is already taken. Please use another."

  /** The form state of either page, for the user `loaded`. */
  /** The form's values for a loaded user: the password fields empty. */
  function LoadedEntries(user: LoadedUser): (m: map<string, string>)
    ensures m.Keys == UserEditFields
  {
    map[
      "firstName" := user.firstName, "lastName" := user.lastName, "email" := user.email,
      "password" := "", "confirmPassword" := "", "birthDate" := LoadedBirthDate(user)]
  }

  class UserEditPage {
    var loaded: LoadedUser
    var formData: map<string, string>
    var fieldErrors: Bag
    var isCheckingEmail: bool

    predicate Valid()
      reads this
    {
      formData.Keys == UserEditFields
    }

    /** `hasChanges`: a profile field differs from the loaded user (the
        birth date by its date part) or a password field is not blank. */
    function HasChanges(): (r: bool)
      reads this
      requires Valid()
      ensures formData == LoadedEntries(loaded) ==> !r
      ensures Trim(formData["password"]) != "" ==> r
    {
      || formData["firstName"] != loaded.firstName
      || formData["lastName"] != loaded.lastName
      || formData["email"] != loaded.email
      || formData["birthDate"] != LoadedBirthDate(loaded)
      || !IsBlank(formData["password"])
      || !IsBlank(formData["confirmPassword"])
    }

    /** `isFormValid`. */
    function IsFormValid(): (r: bool)
      reads this
      requires Valid()
      ensures r <==> Truthful(fieldErrors) == map[] && HasChanges() && !isCheckingEmail
      ensures formData == LoadedEntries(loaded) ==> !r
    {
      NothingLeftIffNoErrors(fieldErrors);
      NoErrors(fieldErrors) && HasChanges() && !isCheckingEmail
    }

    /** The loading effect: the form starts from the loaded user with empty
        password fields, so nothing can be saved before something changes. */
    constructor (user: LoadedUser)
      ensures Valid() && loaded == user
      ensures formData == LoadedEntries(user)
      ensures fieldErrors == map[] && !isCheckingEmail
      ensures !IsFormValid()
    {
      loaded := user;
      formData := LoadedEntries(user);
      fieldErrors := map[];
      isCheckingEmail := false;
    }

    /** `validateFieldLocal` on the email. The loaded address needs no
        request and is accepted; another one is judged by `available`, the
        truthiness of `res.data?.available`, or the request failed. The
        address's format is not checked here. The check is over afterwards. */
    method BlurEmail(value: string, available: Reply<bool>)
      requires Valid()
      modifies this
      ensures Valid()
      ensures value == loaded.email ==> fieldErrors == old(fieldErrors)["email" := ""]
      ensures value != loaded.email ==> fieldErrors == old(fieldErrors)["email" :=
        match available
        case Ok(true) => ""
        case Ok(false) => EmailInUseMessage
        case Fail(_, _) => EmailCheckFailedMessage]
      ensures !isCheckingEmail
      ensures formData == old(formData) && loaded == old(loaded)
    {
      isCheckingEmail := true;
      var error := "";
      if value != loaded.email {
        error := match available
          case Ok(true) => ""
          case Ok(false) => EmailInUseMessage
          case Fail(_, _) => EmailCheckFailedMessage;
      }
      isCheckingEmail := false;
      fieldErrors := fieldErrors["email" := error];
    }

    /** `validateFieldLocal` on any other field: the validator with the
        typed password as context and an empty password allowed. */
    method BlurField(name: string, value: string, env: Env)
      requires Valid() && name in UserEditFields && name != "email"
      modifies this
      ensures Valid()
      ensures fieldErrors == old(fieldErrors)[name := Validate(FieldNamed(name), Str(value),
        NoContext.(password := Some(old(formData)["password"]), allowEmptyPassword := true), env, Failed)]
      ensures formData == old(formData) && loaded == old(loaded) && isCheckingEmail == old(isCheckingEmail)
    {
      var error := Validate(FieldNamed(name), Str(value),
        NoContext.(password := Some(formData["password"]), allowEmptyPassword := true), env, Failed);
      fieldErrors := fieldErrors[name := error];
    }

    /** `handleChange`: the value is stored and its message cleared. */
    method HandleChange(name: string, value: string)
      requires Valid() && name in UserEditFields
      modifies this
      ensures Valid()
      ensures formData == old(formData)[name := value]
      ensures fieldErrors == old(fieldErrors)[name := ""]
      ensures loaded == old(loaded) && isCheckingEmail == old(isCheckingEmail)
    {
      formData := formData[name := value];
      fieldErrors := fieldErrors[name := ""];
    }
  }

  /** A blank password leaves the stored one alone and is accepted by the
      blur check of either page. */
  lemma BlankPasswordAllowedOnBlur(value: string, typed: string, env: Env)
    ensures Validate(Password, Str(""), NoContext.(password := Some(typed), allowEmptyPassword := true), env, Failed) == ""
    ensures value != "" && !StrongPassword(value) ==>
      Validate(Password, Str(value), NoContext.(password := Some(typed), allowEmptyPassword := true), env, Failed) != ""
  {
  }
}
