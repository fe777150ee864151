/** The owner's editor for one of their flats: the loader admits only the
    owner, the action converts the date and sends the update without
    checking the fields, and the page validates on blur with the loaded
    date as the original one. */
module EditFlat {
  import opened Common
  import opened Text
  import opened ErrorBag
  import opened FieldValidation
  import opened UtcDate
  import opened NewFlat

  /** `flat.owner` as the server sends it: a populated user document with
      its `_id`, or a bare id. */
  datatype Owner = OwnerDocument(docId: Option<string>) | OwnerId(id: string)

  /** The flat as `GET /flats/:id` returns it. Numbers come from JSON, so
      none is `NaN`. */
  datatype FlatRecord = FlatRecord(
    docId: string, owner: Option<Owner>, adTitle: string, city: string, streetName: string,
    streetNumber: Option<string>, areaSize: real, hasAC: bool, yearBuilt: real, rentPrice: real,
    dateAvailable: string, imageUrl: Option<string>)

  /** The loader's flat: id from `_id`, the date's part before `T`, the
      image's URL or `''`, the street number or `''`. */
  datatype FlatView = FlatView(
    id: string, adTitle: string, city: string, streetName: string, streetNumber: string,
    areaSize: real, hasAC: bool, yearBuilt: real, rentPrice: real, dateAvailable: string, image: string)

  /** `flat.owner?._id || flat.owner`: the id to compare, or `None` when it
      is the document itself, which equals no id. */
  function OwnerIdOf(owner: Option<Owner>): (r: Option<string>)
    ensures owner.None? ==> r.None?
    ensures owner.Some? && owner.value.OwnerId? ==> r == Some(owner.value.id)
    ensures owner.Some? && owner.value.OwnerDocument? && owner.value.docId.Some? && owner.value.docId.value != ""
      ==> r == owner.value.docId
    ensures owner.Some? && owner.value.OwnerDocument? && (owner.value.docId.None? || owner.value.docId.value == "")
      ==> r.None?
  {
    match owner
    case Some(OwnerDocument(Some(id))) => if id != "" then Some(id) else None
    case Some(OwnerDocument(None)) => None
    case Some(OwnerId(id)) => Some(id)
    case None => None
  }

  predicate OwnedBy(flat: FlatRecord, userId: string)
  {
    OwnerIdOf(flat.owner) == Some(userId)
  }

  function ViewOf(flat: FlatRecord): (v: FlatView)
    ensures v.id == flat.docId && 'T' !in v.dateAvailable && v.dateAvailable <= flat.dateAvailable
    ensures flat.imageUrl.Some? ==> v.image == flat.imageUrl.value
  {
    FlatView(flat.docId, flat.adTitle, flat.city, flat.streetName,
      if flat.streetNumber.Some? then flat.streetNumber.value else "",
      flat.areaSize, flat.hasAC, flat.yearBuilt, flat.rentPrice,
      Before(flat.dateAvailable, 'T'),
      if flat.imageUrl.Some? then flat.imageUrl.value else "")
  }

  /** What the loader ends in. */
  datatype FlatLoad = FlatLoaded(view: FlatView) | FlatLoadRedirect(redirect: Redirect) | Forbidden(status: int, message: string)

  const AccessDeniedMessage := "Access denied or flat not found."

  /** `editFlatLoader`. `flat` and `me` are the two fetches (the second made
      only after the first succeeds; `me` is the current user's `_id`). The
      "not the owner" response is thrown inside the `try`, so its own
      message never leaves: every refusal is the catch's 403. */
  function EditFlatLoader(token: Option<string>, flat: Reply<FlatRecord>, me: Reply<string>): (r: FlatLoad)
    ensures !Truthy(token) ==> r == FlatLoadRedirect(Redirect("/login"))
    ensures r.FlatLoaded? <==> Truthy(token) && flat.Ok? && me.Ok? && OwnedBy(flat.data, me.data)
    ensures r.FlatLoaded? ==> r.view == ViewOf(flat.data)
    ensures Truthy(token) && !r.FlatLoaded? ==> r == Forbidden(403, AccessDeniedMessage)
  {
    if !(token.Some? && token.value != "") then FlatLoadRedirect(Redirect("/login"))
    else if flat.Fail? || me.Fail? then Forbidden(403, AccessDeniedMessage)
    else if !OwnedBy(flat.data, me.data) then Forbidden(403, AccessDeniedMessage)
    else FlatLoaded(ViewOf(flat.data))
  }

  /** The update body: the text fields as typed, the numbers through
      `Number`, the checkbox, and the date's UTC midnight (the ISO string of
      it is not modelled). */
  datatype FlatUpdate = FlatUpdate(
    adTitle: string, city: string, streetName: string, streetNumber: string, areaSize: JsNumber,
    hasAC: bool, yearBuilt: JsNumber, rentPrice: JsNumber, dateAvailable: real)

  /** `PATCH /flats/:id`, as multipart with the file when a new image was
      chosen, as JSON otherwise. */
  datatype EditFlatRequest = EditFlatRequest(flatId: string, update: FlatUpdate, image: Option<ImageFile>)

  datatype EditFlatOutcome = EditFlatRedirect(redirect: Redirect) | EditFlatRejected(errors: Bag)

  const UpdateFlatFailedMessage := "Failed to update flat. Please try again."

  /** `imageFile && imageFile.size > 0`. */
  predicate IsNewImage(image: Option<ImageFile>)
  {
    image.Some? && image.value.size > 0
  }

  /** `editFlatAction`. No field is validated: with a session, the update
      is sent exactly when the date converts (an invalid date makes
      `toISOString` throw before the request, which the catch reports with
      the fallback message). A success goes to the owner's flats; a failure
      reports the server's message or the fallback, overridden by the
      server's own field errors (`serverErrors`, empty when it sent none). */
  method EditFlatAction(token: Option<string>, flatId: string, form: FlatForm, env: Env,
                        reply: Reply<()>, serverErrors: Bag)
    returns (outcome: EditFlatOutcome, request: Option<EditFlatRequest>)
    ensures !Truthy(token) ==> outcome == EditFlatRedirect(Redirect("/login")) && request == None
    ensures Truthy(token) ==> (request.Some? <==> InputDateUtc(form.dateAvailable, env).Some?)
    ensures Truthy(token) && request.None? ==> outcome == EditFlatRejected(map["general" := UpdateFlatFailedMessage])
    ensures request.Some? ==>
      request.value == EditFlatRequest(flatId,
        FlatUpdate(form.adTitle, form.city, form.streetName, form.streetNumber, env.toNumber(form.areaSize),
          form.hasAC, env.toNumber(form.yearBuilt), env.toNumber(form.rentPrice),
          InputDateUtc(form.dateAvailable, env).value),
        if IsNewImage(form.image) then form.image else None)
    ensures request.Some? && reply.Ok? ==> outcome == EditFlatRedirect(Redirect("/myFlats"))
    ensures request.Some? && reply.Fail? ==>
      outcome == EditFlatRejected(map["general" := MessageOr(reply.message, UpdateFlatFailedMessage)] + serverErrors)
  {
    if !(token.Some? && token.value != "") {
      return EditFlatRedirect(Redirect("/login")), None;
    }
    var date := InputDateUtc(form.dateAvailable, env);
    if date.None? {
      return EditFlatRejected(map["general" := UpdateFlatFailedMessage]), None;
    }
    var update := FlatUpdate(form.adTitle, form.city, form.streetName, form.streetNumber, env.toNumber(form.areaSize),
      form.hasAC, env.toNumber(form.yearBuilt), env.toNumber(form.rentPrice), date.value);
    request := Some(EditFlatRequest(flatId, update, if IsNewImage(form.image) then form.image else None));
    match reply
    case Ok(_) =>
      outcome := EditFlatRedirect(Redirect("/myFlats"));
    case Fail(_, message) =>
      outcome := EditFlatRejected(map["general" := MessageOr(message, UpdateFlatFailedMessage)] + serverErrors);
  }

  /** The server's field errors win over the general message, even for the
      key `general` itself. */
  lemma ServerErrorsWin(message: Option<string>, serverErrors: Bag, k: string)
    requires k in serverErrors
    ensures (map["general" := MessageOr(message, UpdateFlatFailedMessage)] + serverErrors)[k] == serverErrors[k]
  {
  }

  /** The blur's field: the date is checked as an edited date. */
  function BlurField(name: string): (f: Field)
    ensures name == "dateAvailable" ==> f == UpdatedDateAvailable
    ensures name != "dateAvailable" ==> f == FieldNamed(name)
  {
    if name == "dateAvailable" then UpdatedDateAvailable else FieldNamed(name)
  }

  /** `new Date(original.dateAvailable)`. */
  function OriginalDate(view: FlatView, env: Env): Value
  {
    match env.parseDate(view.dateAvailable)
    case Some(t) => Day(t)
    case None => InvalidDay
  }

  /** `Number(entry)`: a loaded number is itself, typed text is converted. */
  function EntryNumber(e: Entry, env: Env): JsNumber
  {
    match e
    case Number(x) => Some(x)
    case Text(s) => env.toNumber(s)
    case _ => None
  }

  /** `!==` of a number with a loaded one: `NaN` differs from everything. */
  predicate NumberChanged(e: Entry, original: real, env: Env)
  {
    EntryNumber(e, env) != Some(original)
  }

  /** The page's state: the values, the loaded flat they started from, the
      messages and the banner. */
  /** The form's entries for a loaded flat. */
  function InitialEntries(view: FlatView): (m: map<string, Entry>)
    ensures m.Keys == FlatFields
  {
    map[
      "adTitle" := Text(view.adTitle), "city" := Text(view.city), "streetName" := Text(view.streetName),
      "streetNumber" := Text(view.streetNumber), "areaSize" := Number(view.areaSize),
      "yearBuilt" := Number(view.yearBuilt), "rentPrice" := Number(view.rentPrice),
      "dateAvailable" := Text(view.dateAvailable), "image" := Text(view.image), "hasAC" := Flag(view.hasAC)]
  }

  class EditFlatPage {
    var original: FlatView
    var formData: map<string, Entry>
    var fieldErrors: Bag
    var generalError: Option<string>

    predicate Valid()
      reads this
    {
      formData.Keys == FlatFields
    }

    /** The form starts as the loaded flat, so nothing has changed yet. */
    constructor (view: FlatView)
      ensures Valid() && original == view
      ensures formData == InitialEntries(view)
      ensures fieldErrors == map[] && generalError == None
      ensures forall env :: !HasChanges(env)
    {
      original := view;
      formData := InitialEntries(view);
      fieldErrors := map[];
      generalError := None;
    }

    /** `hasChanges`: a text field or the date differs, a number differs
        after `Number`, the checkbox differs, or a new file was chosen. */
    function HasChanges(env: Env): (r: bool)
      reads this
      requires Valid()
      ensures formData == InitialEntries(original) ==> !r
      ensures formData["image"].Upload? && formData["image"].file.Some? ==> r
      ensures formData["hasAC"] != Flag(original.hasAC) ==> r
    {
      || formData["adTitle"] != Text(original.adTitle)
      || formData["city"] != Text(original.city)
      || formData["streetName"] != Text(original.streetName)
      || formData["streetNumber"] != Text(original.streetNumber)
      || NumberChanged(formData["areaSize"], original.areaSize, env)
      || NumberChanged(formData["yearBuilt"], original.yearBuilt, env)
      || NumberChanged(formData["rentPrice"], original.rentPrice, env)
      || formData["dateAvailable"] != Text(original.dateAvailable)
      || formData["hasAC"] != Flag(original.hasAC)
      || (formData["image"].Upload? && formData["image"].file.Some?)
    }

    /** `isFormValid`: no message shown and something changed. */
    function IsFormValid(env: Env): (r: bool)
      reads this
      requires Valid()
      ensures r <==> Truthful(fieldErrors) == map[] && HasChanges(env)
      ensures formData == InitialEntries(original) ==> !r
    {
      NothingLeftIffNoErrors(fieldErrors);
      NoErrors(fieldErrors) && HasChanges(env)
    }

    /** `handleChange`: the entry is stored, its message and the banner
        cleared. */
    method HandleChange(name: string, entry: Entry)
      requires Valid() && name in FlatFields
      modifies this
      ensures Valid() && original == old(original)
      ensures formData == old(formData)[name := entry]
      ensures fieldErrors == old(fieldErrors)[name := ""] && generalError == None
    {
      formData := formData[name := entry];
      fieldErrors := fieldErrors[name := ""];
      generalError := None;
    }

    /** `handleBlur`: the rule of the field's name, the date's as an edited
        date, with the loaded date as the original one. */
    method HandleBlur(name: string, value: string, env: Env)
      requires Valid() && name in FlatFields
      modifies this
      ensures Valid()
      ensures fieldErrors == old(fieldErrors)[name :=
        Validate(BlurField(name), Str(value), NoContext.(originalDate := Some(OriginalDate(original, env))), env, Failed)]
      ensures formData == old(formData) && original == old(original) && generalError == old(generalError)
    {
      var error := Validate(BlurField(name), Str(value), NoContext.(originalDate := Some(OriginalDate(original, env))), env, Failed);
      fieldErrors := fieldErrors[name := error];
    }
  }

  /** A newly chosen file is a change by itself. */
  lemma NewFileIsAChange(page: EditFlatPage, env: Env, file: ImageFile)
    requires page.Valid() && page.formData["image"] == Upload(Some(file))
    ensures page.HasChanges(env)
  {
  }
}
