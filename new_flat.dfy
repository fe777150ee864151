/** The form that lists a new flat: `newFlatAction` turns the `YYYY-MM-DD`
    input into a UTC time value, checks nine fields and, only when all pass,
    posts the flat with its image; the page keeps the typed values and the
    messages. */
module NewFlat {
  import opened Common
  import opened Text
  import opened ErrorBag
  import opened FieldValidation
  import opened UtcDate

  /** A chosen file: its name and its size in bytes. */
  datatype ImageFile = ImageFile(name: string, size: nat)

  /** What the page stores under a field name: typed text, a number loaded
      from the server, a checkbox state, or a chosen file (`null` when none). */
  datatype Entry = Text(s: string) | Number(x: real) | Flag(b: bool) | Upload(file: Option<ImageFile>)

  /** The submitted form; `image` is `None` when the form holds no file
      entry at all. */
  datatype FlatForm = FlatForm(
    adTitle: string, city: string, streetName: string, streetNumber: string, areaSize: string,
    hasAC: bool, yearBuilt: string, rentPrice: string, dateAvailable: string, image: Option<ImageFile>)

  /** The multipart body of `POST /flats`. `hasAC` is `String(hasAC)`; the
      date is the time value, whose `toString` is not modelled. */
  datatype NewFlatRequest = NewFlatRequest(
    adTitle: string, city: string, streetName: string, streetNumber: string, areaSize: string,
    hasAC: string, yearBuilt: string, rentPrice: string, dateAvailable: real, image: ImageFile)

  datatype NewFlatOutcome = FlatAdded | FlatRejected(errors: Bag)

  const NotAuthenticatedMessage := "Not authenticated"
  const ImageRequiredMessage := "Image is required"
  const AddFlatFailedMessage := "Failed to add flat. Please try again."

  /** The value the date check receives: the number `Date.UTC` returns. */
  function DateValue(raw: string, env: Env): (v: Value)
    ensures v == NaN <==> InputDateUtc(raw, env).None?
    ensures v != NaN ==> v == Num(InputDateUtc(raw, env).value)
  {
    match InputDateUtc(raw, env)
    case None => NaN
    case Some(t) => Num(t)
  }

  /** A new flat's date is a day from today to one year from today; `NaN`
      and the time value 0 are falsy and so "required". */
  predicate DateAccepted(raw: string, env: Env)
  {
    var t := InputDateUtc(raw, env);
    t.Some? && t.value != 0.0 && env.todayUtc as real <= t.value <= env.oneYearUtc as real
  }

  lemma DateRule(raw: string, env: Env, lookup: EmailLookup)
    ensures Validate(DateAvailable, DateValue(raw, env), NoContext, env, lookup) == "" <==> DateAccepted(raw, env)
  {
    var v := DateValue(raw, env);
    assert Validate(DateAvailable, v, NoContext, env, lookup) == DateError(DateAvailable, v, NoContext, env);
    assert LowerBound(DateAvailable, OriginalUtc(NoContext, env), env.todayUtc) == Some(env.todayUtc as real);
  }

  /** The image entry: a file with a non-empty name goes through the
      validator; otherwise the message is the action's own. */
  function ImageCheck(image: Option<ImageFile>, env: Env): (r: string)
    ensures r == "" <==> image.Some? && image.value.name != ""
    ensures r != "" ==> r == ImageRequiredMessage
  {
    if image.Some? && image.value.name != "" then Validate(Image, Str(image.value.name), NoContext, env, Failed)
    else ImageRequiredMessage
  }

  function NewFlatBag(title: string, city: string, street: string, number: string, area: string,
                      year: string, rent: string, date: string, image: string): (errors: Bag)
    ensures NoErrors(errors) <==>
      title == "" && city == "" && street == "" && number == "" && area == ""
      && year == "" && rent == "" && date == "" && image == ""
  {
    var errors := map[
      "adTitle" := title, "city" := city, "streetName" := street, "streetNumber" := number,
      "areaSize" := area, "yearBuilt" := year, "rentPrice" := rent, "dateAvailable" := date, "image" := image];
    assert errors["adTitle"] == title && errors["city"] == city && errors["streetName"] == street;
    assert errors["streetNumber"] == number && errors["areaSize"] == area && errors["yearBuilt"] == year;
    assert errors["rentPrice"] == rent && errors["dateAvailable"] == date && errors["image"] == image;
    errors
  }

  function NewFlatChecks(form: FlatForm, env: Env): Bag
  {
    // No email is checked, so the availability answer is never consulted.
    NewFlatBag(
      Validate(AdTitle, Str(form.adTitle), NoContext, env, Failed),
      Validate(City, Str(form.city), NoContext, env, Failed),
      Validate(StreetName, Str(form.streetName), NoContext, env, Failed),
      Validate(StreetNumber, Str(form.streetNumber), NoContext, env, Failed),
      Validate(AreaSize, Str(form.areaSize), NoContext, env, Failed),
      Validate(YearBuilt, Str(form.yearBuilt), NoContext, env, Failed),
      Validate(RentPrice, Str(form.rentPrice), NoContext, env, Failed),
      Validate(DateAvailable, DateValue(form.dateAvailable, env), NoContext, env, Failed),
      ImageCheck(form.image, env))
  }

  /** A title of 5 to 60 code units, a city and street of at least 2, a
      street number of at least 1, a positive area and rent, a year from
      1900 to this year, a date in the window and a named image. */
  ghost predicate NewFlatAccepted(form: FlatForm, env: Env)
  {
    && LengthWithin(Str(form.adTitle), 5, 60)
    && form.city != "" && Utf16Length(form.city) >= 2
    && form.streetName != "" && Utf16Length(form.streetName) >= 2
    && NumberAbove(Str(form.streetNumber), env, 1.0, false)
    && NumberAbove(Str(form.areaSize), env, 0.0, true)
    && form.yearBuilt != "" && env.toNumber(form.yearBuilt).Some?
    && 1900.0 <= env.toNumber(form.yearBuilt).value <= env.currentYear as real
    && NumberAbove(Str(form.rentPrice), env, 0.0, true)
    && DateAccepted(form.dateAvailable, env)
    && form.image.Some? && form.image.value.name != ""
  }

  lemma NewFlatChecksPass(form: FlatForm, env: Env)
    ensures NoErrors(NewFlatChecks(form, env)) <==> NewFlatAccepted(form, env)
  {
    TextRules(form, env);
    NumberRules(form, env);
    DateRule(form.dateAvailable, env, Failed);
  }

  lemma TextRules(form: FlatForm, env: Env)
    ensures Validate(AdTitle, Str(form.adTitle), NoContext, env, Failed) == "" <==> LengthWithin(Str(form.adTitle), 5, 60)
    ensures Validate(City, Str(form.city), NoContext, env, Failed) == "" <==> form.city != "" && Utf16Length(form.city) >= 2
    ensures Validate(StreetName, Str(form.streetName), NoContext, env, Failed) == "" <==>
      form.streetName != "" && Utf16Length(form.streetName) >= 2
  {
    assert Validate(AdTitle, Str(form.adTitle), NoContext, env, Failed) == AdTitleError(Str(form.adTitle));
    assert Validate(City, Str(form.city), NoContext, env, Failed) == MinLengthError(Str(form.city), false);
    assert Validate(StreetName, Str(form.streetName), NoContext, env, Failed) == MinLengthError(Str(form.streetName), true);
  }

  lemma NumberRules(form: FlatForm, env: Env)
    ensures Validate(StreetNumber, Str(form.streetNumber), NoContext, env, Failed) == "" <==>
      NumberAbove(Str(form.streetNumber), env, 1.0, false)
    ensures Validate(AreaSize, Str(form.areaSize), NoContext, env, Failed) == "" <==> NumberAbove(Str(form.areaSize), env, 0.0, true)
    ensures Validate(YearBuilt, Str(form.yearBuilt), NoContext, env, Failed) == "" <==>
      form.yearBuilt != "" && env.toNumber(form.yearBuilt).Some?
      && 1900.0 <= env.toNumber(form.yearBuilt).value <= env.currentYear as real
    ensures Validate(RentPrice, Str(form.rentPrice), NoContext, env, Failed) == "" <==> NumberAbove(Str(form.rentPrice), env, 0.0, true)
  {
    assert Validate(StreetNumber, Str(form.streetNumber), NoContext, env, Failed) == StreetNumberError(Str(form.streetNumber), env);
    assert Validate(AreaSize, Str(form.areaSize), NoContext, env, Failed) == PositiveError(Str(form.areaSize), env, false);
    assert Validate(YearBuilt, Str(form.yearBuilt), NoContext, env, Failed) == YearBuiltError(Str(form.yearBuilt), env);
    assert Validate(RentPrice, Str(form.rentPrice), NoContext, env, Failed) == PositiveError(Str(form.rentPrice), env, true);
  }

  /** `newFlatAction`. Without a session nothing is posted and the only
      message is "Not authenticated"; otherwise the flat is posted exactly
      when every check passes, and a failure always reports the form's own
      message, never the server's. */
  method NewFlatAction(token: Option<string>, form: FlatForm, env: Env, reply: Reply<()>)
    returns (outcome: NewFlatOutcome, request: Option<NewFlatRequest>)
    ensures !Truthy(token) ==> outcome == FlatRejected(map["general" := NotAuthenticatedMessage]) && request == None
    ensures Truthy(token) ==> (request.Some? <==> NewFlatAccepted(form, env))
    ensures Truthy(token) && request.None? ==>
      outcome == FlatRejected(Truthful(NewFlatChecks(form, env))) && outcome.errors != map[]
    ensures request.Some? ==>
      && form.image.Some? && InputDateUtc(form.dateAvailable, env).Some?
      && request.value == NewFlatRequest(
        form.adTitle, form.city, form.streetName, form.streetNumber, form.areaSize,
        if form.hasAC then "true" else "false", form.yearBuilt, form.rentPrice,
        InputDateUtc(form.dateAvailable, env).value, form.image.value)
    ensures request.Some? && reply.Ok? ==> outcome == FlatAdded
    ensures request.Some? && reply.Fail? ==> outcome == FlatRejected(map["general" := AddFlatFailedMessage])
  {
    if !(token.Some? && token.value != "") {
      return FlatRejected(map["general" := NotAuthenticatedMessage]), None;
    }
    NewFlatChecksPass(form, env);
    NothingLeftIffNoErrors(NewFlatChecks(form, env));
    var errors := DropFalsy(NewFlatChecks(form, env));
    if |errors| > 0 {
      return FlatRejected(errors), None;
    }
    var date := InputDateUtc(form.dateAvailable, env);
    request := Some(NewFlatRequest(
      form.adTitle, form.city, form.streetName, form.streetNumber, form.areaSize,
      if form.hasAC then "true" else "false", form.yearBuilt, form.rentPrice, date.value, form.image.value));
    match reply
    case Ok(_) =>
      outcome := FlatAdded;
    case Fail(_, _) =>
      outcome := FlatRejected(map["general" := AddFlatFailedMessage]);
  }

  const FlatFields: set<string> := {
    "adTitle", "city", "streetName", "streetNumber", "areaSize",
    "yearBuilt", "rentPrice", "dateAvailable", "image", "hasAC"}

  /** `value !== '' && value !== null`: a checkbox always counts as filled. */
  predicate Filled(e: Entry)
  {
    e != Text("") && e != Upload(None)
  }

  /** The page's state. */
  class NewFlatPage {
    var formData: map<string, Entry>
    var fieldErrors: Bag
    var generalError: Option<string>

    predicate Valid()
      reads this
    {
      formData.Keys == FlatFields
    }

    /** Every text field empty, no file, the checkbox off. */
    constructor ()
      ensures Valid()
      ensures formData == (map k | k in FlatFields - {"image", "hasAC"} :: Text(""))["image" := Upload(None)]["hasAC" := Flag(false)]
      ensures fieldErrors == map[] && generalError == None
      ensures !IsFormValid()
    {
      formData := (map k | k in FlatFields - {"image", "hasAC"} :: Text(""))["image" := Upload(None)]["hasAC" := Flag(false)];
      fieldErrors := map[];
      generalError := None;
      new;
      assert formData["image"] == Upload(None);
    }

    /** `isFormValid`: no message shown and every entry filled. */
    function IsFormValid(): (r: bool)
      reads this
      ensures r <==> Truthful(fieldErrors) == map[] && forall k :: k in formData ==> Filled(formData[k])
    {
      NothingLeftIffNoErrors(fieldErrors);
      NoErrors(fieldErrors) && forall k :: k in formData ==> Filled(formData[k])
    }

    /** `handleChange`: the entry is stored, its message and the banner
        cleared; emptying a text field or the file makes the form invalid. */
    method HandleChange(name: string, entry: Entry)
      requires Valid() && name in FlatFields
      modifies this
      ensures Valid()
      ensures formData == old(formData)[name := entry]
      ensures fieldErrors == old(fieldErrors)[name := ""] && generalError == None
      ensures !Filled(entry) ==> !IsFormValid()
    {
      formData := formData[name := entry];
      fieldErrors := fieldErrors[name := ""];
      generalError := None;
      assert formData[name] == entry;
    }

    /** `handleBlur`: `value` is the typed text, or for the image the chosen
        file's name or `''`; the rule is that of the field's name. */
    method HandleBlur(name: string, value: string, env: Env)
      requires Valid() && name in FlatFields
      modifies this
      ensures Valid()
      ensures fieldErrors == old(fieldErrors)[name := Validate(FieldNamed(name), Str(value), NoContext, env, Failed)]
      ensures formData == old(formData) && generalError == old(generalError)
    {
      fieldErrors := fieldErrors[name := Validate(FieldNamed(name), Str(value), NoContext, env, Failed)];
    }
  }

  /** A flat without air conditioning is still a filled form. */
  lemma UncheckedBoxIsFilled()
    ensures Filled(Flag(false))
    ensures !Filled(Text("")) && !Filled(Upload(None))
  {
  }
}
