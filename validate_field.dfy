/** `validateField`: the one client-side field validator every form calls.
    Given a field name, a value and a context it yields an error message,
    or `""` when the value is acceptable. Its hidden dependencies (the
    clock, the date helpers and the email-existence request) are inputs. */
module FieldValidation {
  import opened Common
  import opened Text

  /** The field names the validator knows; any other name is `Unlisted`. */
  datatype Field =
    | FirstName | LastName | Email | Password | ConfirmPassword | BirthDate
    | AdTitle | City | StreetName | StreetNumber | AreaSize | YearBuilt | RentPrice
    | DateAvailable | UpdatedDateAvailable | Image | MessageContent
    | Unlisted(name: string)

  function NameOf(f: Field): string
  {
    match f
    case FirstName => "firstName"
    case LastName => "lastName"
    case Email => "email"
    case Password => "password"
    case ConfirmPassword => "confirmPassword"
    case BirthDate => "birthDate"
    case AdTitle => "adTitle"
    case City => "city"
    case StreetName => "streetName"
    case StreetNumber => "streetNumber"
    case AreaSize => "areaSize"
    case YearBuilt => "yearBuilt"
    case RentPrice => "rentPrice"
    case DateAvailable => "dateAvailable"
    case UpdatedDateAvailable => "updatedDateAvailable"
    case Image => "image"
    case MessageContent => "messageContent"
    case Unlisted(name) => name
  }

  /** The `case` label a name selects in the `switch`. */
  function FieldNamed(name: string): (f: Field)
    ensures NameOf(f) == name
    ensures f.Unlisted? <==> forall g: Field :: !g.Unlisted? ==> NameOf(g) != name
  {
    if name == "firstName" then FirstName
    else if name == "lastName" then LastName
    else if name == "email" then Email
    else if name == "password" then Password
    else if name == "confirmPassword" then ConfirmPassword
    else if name == "birthDate" then BirthDate
    else if name == "adTitle" then AdTitle
    else if name == "city" then City
    else if name == "streetName" then StreetName
    else if name == "streetNumber" then StreetNumber
    else if name == "areaSize" then AreaSize
    else if name == "yearBuilt" then YearBuilt
    else if name == "rentPrice" then RentPrice
    else if name == "dateAvailable" then DateAvailable
    else if name == "updatedDateAvailable" then UpdatedDateAvailable
    else if name == "image" then Image
    else if name == "messageContent" then MessageContent
    else Unlisted(name)
  }

  /** The argument `value: string | number | Date | undefined`. A `Date` is
      `Day` with its time value in milliseconds when it is valid, and
      `InvalidDay` otherwise; the number `NaN` is `NaN`. */
  datatype Value = Missing | Str(s: string) | Num(x: real) | NaN | Day(t: int) | InvalidDay

  /** `!!value`: `undefined`, `''`, `0` and `NaN` are falsy; every `Date`
      object is truthy, even an invalid one. */
  predicate IsTruthy(v: Value)
  {
    match v
    case Missing => false
    case Str(s) => s != ""
    case Num(x) => x != 0.0
    case NaN => false
    case Day(_) => true
    case InvalidDay => true
  }

  /** A JavaScript number other than an infinity: `None` is `NaN`. */
  type JsNumber = Option<real>

  /** `a < b` on JavaScript numbers: false whenever either side is `NaN`. */
  predicate Less(a: JsNumber, b: JsNumber)
  {
    a.Some? && b.Some? && a.value < b.value
  }

  /** `value === other` for an optional string from the context; an absent
      context entry is `undefined`, which only `undefined` equals. */
  predicate SameAs(v: Value, other: Option<string>)
  {
    match other
    case None => v == Missing
    case Some(s) => v == Str(s)
  }

  /** `ValidationContext`; every entry is optional, `{}` is `NoContext`. */
  datatype Context = Context(
    checkEmail: bool,
    originalEmail: Option<string>,
    allowEmptyPassword: bool,
    password: Option<string>,
    originalDate: Option<Value>)

  const NoContext := Context(false, None, false, None, None)

  /** The outcome of `axios.post('/users/checkEmail', …)`: the address is
      taken (`res.data.exists` truthy), free, or the request failed. */
  datatype EmailLookup = Exists | NotExists | Failed

  /** What the validator reads from outside its own text: the clock and the
      date helpers `normalizeDateUTC`, `getOneYearFromToday` and
      `calculateAge`, the string-to-number conversion and the date
      formatting of `toLocaleDateString('en-US')`. */
  datatype Env = Env(
    /** `normalizeDateUTC(new Date())`. */
    todayUtc: int,
    /** `normalizeDateUTC(getOneYearFromToday(today))`. */
    oneYearUtc: int,
    /** `new Date().getFullYear()`. */
    currentYear: int,
    /** `normalizeDateUTC(value)`; `None` when it yields `NaN`. */
    normalizeUtc: Value -> Option<int>,
    /** `new Date(s).getTime()` for a string; `None` for an invalid date. */
    parseDate: string -> Option<int>,
    /** `calculateAge(value)`. */
    ageOf: Value -> int,
    /** `Number(s)` for a string; `None` for `NaN`. */
    toNumber: string -> JsNumber,
    /** `new Date(t).toLocaleDateString('en-US')`. */
    formatDate: int -> string)

  /** `Number(value)`. */
  function NumberOf(v: Value, env: Env): JsNumber
  {
    match v
    case Missing => None
    case Str(s) => env.toNumber(s)
    case Num(x) => Some(x)
    case NaN => None
    case Day(t) => Some(t as real)
    case InvalidDay => None
  }

  /** Rounding toward zero, as ToIntegerOrInfinity does. */
  function Truncate(x: real): (n: int)
    ensures x >= 0.0 ==> n as real <= x < n as real + 1.0
    ensures x < 0.0 ==> n as real - 1.0 < x <= n as real
  {
    if x >= 0.0 then x.Floor else -((-x).Floor)
  }

  /** The largest time value a `Date` can hold, in milliseconds. */
  const MaxTime: int := 8_640_000_000_000_000

  /** `new Date(value).getTime()`; `None` for an invalid date. A number is
      taken through TimeClip. */
  function TimeOf(v: Value, env: Env): (t: Option<int>)
    ensures v.Num? && (v.x > MaxTime as real || v.x < -MaxTime as real) ==> t == None
    ensures v.Num? && -MaxTime as real <= v.x <= MaxTime as real ==> t.Some? && -MaxTime <= t.value <= MaxTime
  {
    match v
    case Missing => None
    case Str(s) => env.parseDate(s)
    case Num(x) => if x > MaxTime as real || x < -MaxTime as real then None else Some(Truncate(x))
    case NaN => None
    case Day(t) => Some(t)
    case InvalidDay => None
  }

  // ----- firstName, lastName -----

  /** `[a-zA-ZăâîșțĂÂÎȘȚ -]`. */
  predicate IsNameChar(c: char)
  {
    || IsAsciiLetter(c) || c == ' ' || c == '-'
    || c == '\U{0103}' || c == '\U{00E2}' || c == '\U{00EE}' || c == '\U{0219}' || c == '\U{021B}'
    || c == '\U{0102}' || c == '\U{00C2}' || c == '\U{00CE}' || c == '\U{0218}' || c == '\U{021A}'
  }

  function NameLabel(first: bool): string
  {
    if first then "First" else "Last"
  }

  // Each name message starts with the field's label, and no two are equal.
  function NameTooShort(first: bool): (m: string)
    ensures |NameLabel(first)| < |m| && m[..|NameLabel(first)|] == NameLabel(first)
  {
    NameLabel(first) + " name must be at least 2 characters."
  }

  function NameTooLong(first: bool): (m: string)
    ensures |NameLabel(first)| < |m| && m[..|NameLabel(first)|] == NameLabel(first)
    ensures m != NameTooShort(first)
  {
    var m := NameLabel(first) + " name must be at most 50 characters.";
    assert m[|NameLabel(first)| + 17] != NameTooShort(first)[|NameLabel(first)| + 17];
    m
  }

  function NameBadChars(first: bool): (m: string)
    ensures |NameLabel(first)| < |m| && m[..|NameLabel(first)|] == NameLabel(first)
    ensures m != NameTooShort(first) && m != NameTooLong(first)
  {
    var m := NameLabel(first) + " name can only contain letters and spaces.";
    assert |m| != |NameTooShort(first)| && |m| != |NameTooLong(first)|;
    m
  }

  /** A string with at least two characters that are not white space at
      either end. */
  predicate NameLongEnough(v: Value)
  {
    v.Str? && Utf16Length(Trim(v.s)) >= 2
  }

  /** The accepted names: at least 2 code units once trimmed, at most 50 as
      typed, made of letters, the Romanian diacritics, spaces and hyphens. */
  function NameAccepted(v: Value): (r: bool)
    ensures r ==> v.Str? && !IsBlank(v.s) && |v.s| <= 50
  {
    && v.Str?
    && 2 <= Utf16Length(Trim(v.s))
    && Utf16Length(v.s) <= 50
    && forall i :: 0 <= i < |v.s| ==> IsNameChar(v.s[i])
  }

  /** The three checks run in order and the first one that fails names the
      error. */
  function NameError(first: bool, v: Value): (r: string)
    ensures r == "" <==> NameAccepted(v)
    ensures r == NameTooShort(first) <==> !NameLongEnough(v)
    ensures r == NameTooLong(first) <==> NameLongEnough(v) && Utf16Length(v.s) > 50
    ensures r == NameBadChars(first) <==>
      NameLongEnough(v) && Utf16Length(v.s) <= 50 && exists i :: 0 <= i < |v.s| && !IsNameChar(v.s[i])
  {
    if !IsTruthy(v) || !v.Str? || Utf16Length(Trim(v.s)) < 2 then NameTooShort(first)
    else if Utf16Length(v.s) > 50 then NameTooLong(first)
    else if !(|v.s| > 0 && forall i :: 0 <= i < |v.s| ==> IsNameChar(v.s[i])) then NameBadChars(first)
    else ""
  }

  // ----- email -----

  const EmailFormatMessage := "Email must be in a valid format."
  const EmailTakenMessage := "This email is not available. Please try another or log in if you already have an account."
  const EmailCheckFailedMessage := "Failed to check email availability. Please try again."

  /** The value passes the format test: truthy, and of the shape
      `local@domain.tld` when it is a string. */
  predicate EmailWellFormed(v: Value)
  {
    IsTruthy(v) && (v.Str? ==> IsEmailShape(v.s))
  }

  /** The availability request is made: the format passed, the caller asked
      for the check and the value differs from the original address. */
  predicate LookupUsed(v: Value, ctx: Context)
  {
    EmailWellFormed(v) && ctx.checkEmail && !SameAs(v, ctx.originalEmail)
  }

  ghost predicate EmailAccepted(v: Value, ctx: Context, lookup: EmailLookup)
  {
    && IsTruthy(v)
    && (v.Str? ==> MatchesEmailPattern(v.s))
    && (LookupUsed(v, ctx) ==> lookup == NotExists)
  }

  function EmailError(v: Value, ctx: Context, lookup: EmailLookup): (r: string)
    ensures r == "" <==> EmailAccepted(v, ctx, lookup)
    ensures r == EmailFormatMessage <==> !EmailWellFormed(v)
    ensures r == EmailTakenMessage <==> LookupUsed(v, ctx) && lookup == Exists
    ensures r == EmailCheckFailedMessage <==> LookupUsed(v, ctx) && lookup == Failed
  {
    EmailShapeIsPattern(if v.Str? then v.s else "");
    if !IsTruthy(v) || (v.Str? && !IsEmailShape(v.s)) then EmailFormatMessage
    else if ctx.checkEmail && !SameAs(v, ctx.originalEmail) then
      match lookup
      case Exists => EmailTakenMessage
      case NotExists => ""
      case Failed => EmailCheckFailedMessage
    else ""
  }

  /** Without the request being made its outcome cannot matter. */
  lemma EmailLookupUnused(v: Value, ctx: Context, a: EmailLookup, b: EmailLookup)
    requires !LookupUsed(v, ctx)
    ensures EmailError(v, ctx, a) == EmailError(v, ctx, b)
  {
  }

  // ----- password, confirmPassword -----

  const PasswordShortMessage := "Password must be at least 6 characters long."
  const PasswordWeakMessage := "Password must include letters, numbers, and a special character."
  const PasswordMismatchMessage := "Passwords do not match."

  predicate HasLetter(s: string) { exists i :: 0 <= i < |s| && IsAsciiLetter(s[i]) }
  predicate HasDigit(s: string) { exists i :: 0 <= i < |s| && IsAsciiDigit(s[i]) }
  /** `[^\w\s]`: a character that is neither a word character nor white space. */
  predicate HasSpecial(s: string) { exists i :: 0 <= i < |s| && !IsWordChar(s[i]) && !IsSpace(s[i]) }

  predicate StrongPassword(s: string)
  {
    Utf16Length(s) >= 6 && HasLetter(s) && HasDigit(s) && HasSpecial(s)
  }

  /** An empty password is accepted exactly in the profile forms, which
      allow it; otherwise a string must be strong, and any other truthy
      value passes. */
  predicate PasswordAccepted(v: Value, ctx: Context)
  {
    if IsTruthy(v) then v.Str? ==> StrongPassword(v.s) else ctx.allowEmptyPassword
  }

  function PasswordError(v: Value, ctx: Context): (r: string)
    ensures r == "" <==> PasswordAccepted(v, ctx)
    ensures r == PasswordShortMessage <==>
      (!IsTruthy(v) && !ctx.allowEmptyPassword) || (IsTruthy(v) && v.Str? && Utf16Length(v.s) < 6)
    ensures r == PasswordWeakMessage <==>
      IsTruthy(v) && v.Str? && Utf16Length(v.s) >= 6 && !StrongPassword(v.s)
  {
    if !IsTruthy(v) && ctx.allowEmptyPassword then ""
    else if !IsTruthy(v) || (v.Str? && Utf16Length(v.s) < 6) then PasswordShortMessage
    else if v.Str? && (!HasLetter(v.s) || !HasDigit(v.s) || !HasSpecial(v.s)) then PasswordWeakMessage
    else ""
  }

  /** The confirmation must be strictly equal to the password in the context. */
  function ConfirmPasswordError(v: Value, ctx: Context): (r: string)
    ensures r == "" <==> (if ctx.password.Some? then v == Str(ctx.password.value) else v == Missing)
    ensures r != "" ==> r == PasswordMismatchMessage
  {
    if !SameAs(v, ctx.password) then PasswordMismatchMessage else ""
  }

  // ----- birthDate -----

  const BirthDateRequiredMessage := "Birth date is required."
  const AgeRangeMessage := "Age must be between 18 and 120."

  function BirthDateError(v: Value, env: Env): (r: string)
    ensures r == "" <==> IsTruthy(v) && TimeOf(v, env).Some? && 18 <= env.ageOf(v) <= 120
    ensures r == BirthDateRequiredMessage <==> !IsTruthy(v) || TimeOf(v, env).None?
    ensures IsTruthy(v) && TimeOf(v, env).Some? && !(18 <= env.ageOf(v) <= 120) ==> r == AgeRangeMessage
  {
    if !IsTruthy(v) || TimeOf(v, env).None? then BirthDateRequiredMessage
    else if env.ageOf(v) < 18 || env.ageOf(v) > 120 then AgeRangeMessage
    else ""
  }

  // ----- flat fields -----

  const AdTitleMessage := "Ad title must be between 5 and 60 characters."
  const CityMessage := "City name must be at least 2 characters."
  const StreetNameMessage := "Street name must be at least 2 characters."
  const StreetNumberMessage := "Street number must be at least 1."
  const AreaSizeMessage := "Area size must be a valid positive number."
  const YearBuiltMessage := "Year built must be between 1900 and the current year."
  const RentPriceMessage := "Rent price must be greater than zero."

  /** A truthy value whose length, when it is a string, is at least `lo`
      and at most `hi` code units. */
  predicate LengthWithin(v: Value, lo: nat, hi: nat)
  {
    IsTruthy(v) && (v.Str? ==> lo <= Utf16Length(v.s) <= hi)
  }

  function AdTitleError(v: Value): (r: string)
    ensures r == "" <==> LengthWithin(v, 5, 60)
    ensures r != "" ==> r == AdTitleMessage
  {
    if !IsTruthy(v) || (v.Str? && (Utf16Length(v.s) < 5 || Utf16Length(v.s) > 60)) then AdTitleMessage else ""
  }

  /** `city` and `streetName` share the rule and differ in the message. */
  function MinLengthError(v: Value, street: bool): (r: string)
    ensures r == "" <==> IsTruthy(v) && (v.Str? ==> Utf16Length(v.s) >= 2)
    ensures r != "" ==> r == if street then StreetNameMessage else CityMessage
  {
    if !IsTruthy(v) || (v.Str? && Utf16Length(v.s) < 2) then
      (if street then StreetNameMessage else CityMessage)
    else ""
  }

  /** A truthy value that converts to a number of at least `lo`, or above
      `lo` when `strict`. */
  predicate NumberAbove(v: Value, env: Env, lo: real, strict: bool)
  {
    IsTruthy(v) && NumberOf(v, env).Some? && (if strict then NumberOf(v, env).value > lo else NumberOf(v, env).value >= lo)
  }

  function StreetNumberError(v: Value, env: Env): (r: string)
    ensures r == "" <==> NumberAbove(v, env, 1.0, false)
    ensures r != "" ==> r == StreetNumberMessage
  {
    if !IsTruthy(v) || NumberOf(v, env).None? || NumberOf(v, env).value < 1.0 then StreetNumberMessage else ""
  }

  /** `areaSize` and `rentPrice`: a positive number. */
  function PositiveError(v: Value, env: Env, rent: bool): (r: string)
    ensures r == "" <==> NumberAbove(v, env, 0.0, true)
    ensures r != "" ==> r == if rent then RentPriceMessage else AreaSizeMessage
  {
    if !IsTruthy(v) || NumberOf(v, env).None? || NumberOf(v, env).value <= 0.0 then
      (if rent then RentPriceMessage else AreaSizeMessage)
    else ""
  }

  function YearBuiltError(v: Value, env: Env): (r: string)
    ensures r == "" <==>
      IsTruthy(v) && NumberOf(v, env).Some? && 1900.0 <= NumberOf(v, env).value <= env.currentYear as real
    ensures r != "" ==> r == YearBuiltMessage
  {
    if !IsTruthy(v) || NumberOf(v, env).None? || NumberOf(v, env).value < 1900.0
      || NumberOf(v, env).value > env.currentYear as real
    then YearBuiltMessage
    else ""
  }

  // ----- dateAvailable, updatedDateAvailable -----

  const DateRequiredMessage := "Date available is required."

  /** `selectedUTC`: a number is used as it is, anything else goes through
      `normalizeDateUTC`. */
  function SelectedUtc(v: Value, env: Env): (r: JsNumber)
    ensures v.Num? ==> r == Some(v.x)
    ensures v == NaN ==> r.None?
    ensures !v.Num? && r.Some? ==> r.value == r.value.Floor as real
  {
    if v.Num? then Some(v.x)
    else if v == NaN then None
    else match env.normalizeUtc(v)
      case None => None
      case Some(t) => Some(t as real)
  }

  /** `originalUTC`: the normalized original date, or today without one. */
  function OriginalUtc(ctx: Context, env: Env): (r: JsNumber)
    ensures ctx.originalDate.None? || !IsTruthy(ctx.originalDate.value) ==> r == Some(env.todayUtc as real)
    ensures r.Some? ==> r.value == r.value.Floor as real
  {
    if ctx.originalDate.Some? && IsTruthy(ctx.originalDate.value) then
      match env.normalizeUtc(ctx.originalDate.value)
      case None => None
      case Some(t) => Some(t as real)
    else Some(env.todayUtc as real)
  }

  /** The earliest date a field accepts: today for a new flat; for an edit
      the earlier of today and the original date, so a lapsed original lets
      the date stay where it was, and an unreadable original leaves no
      lower bound. */
  function LowerBound(f: Field, original: JsNumber, today: int): (lo: JsNumber)
    ensures f == DateAvailable ==> lo == Some(today as real)
    ensures f != DateAvailable && original.Some? ==>
      lo.Some? && lo.value <= today as real && lo.value <= original.value
      && (lo.value == today as real || lo.value == original.value)
    ensures f != DateAvailable && original.None? ==> lo.None?
  {
    if f == DateAvailable then Some(today as real)
    else match original
      case None => None
      case Some(o) => if o > today as real then Some(today as real) else Some(o)
  }

  /** `toLocaleDateString('en-US')` of `new Date(t)`. */
  function Format(t: JsNumber, env: Env): string
  {
    match t
    case None => "Invalid Date"
    case Some(x) => env.formatDate(Truncate(x))
  }

  /** The message names the window's start: "today" when the original date
      is not before today, and otherwise the original date; the date shown
      is the lower bound an edit has. */
  function DateRangeMessage(original: JsNumber, env: Env): (r: string)
    ensures r == "Date available must be between "
        + (if original.Some? && original.value >= env.todayUtc as real then "today" else "the original date") + " ("
        + Format(LowerBound(UpdatedDateAvailable, original, env.todayUtc), env)
        + ") and one year from today (" + Format(Some(env.oneYearUtc as real), env) + ")."
  {
    var today := Some(env.todayUtc as real);
    var startLabel := if Less(original, today) || original.None? then "the original date" else "today";
    var start := if Less(today, original) then today else original;
    "Date available must be between " + startLabel + " (" + Format(start, env) + ") and one year from today ("
      + Format(Some(env.oneYearUtc as real), env) + ")."
  }

  /** `isOutOfRange` as the nested conditional is written. */
  function OutOfRange(f: Field, selected: JsNumber, original: JsNumber, env: Env): (r: bool)
    ensures r <==> !DateInWindow(f, selected, original, env)
  {
    var today := Some(env.todayUtc as real);
    var oneYear := Some(env.oneYearUtc as real);
    if f == DateAvailable then Less(selected, today) || Less(oneYear, selected)
    else if Less(today, original) then Less(selected, today) || Less(oneYear, selected)
    else Less(selected, original) || Less(oneYear, selected)
  }

  /** The window is closed at both ends: from the lower bound to one year
      from today. A `NaN` selection compares false everywhere and passes. */
  function DateInWindow(f: Field, selected: JsNumber, original: JsNumber, env: Env): (r: bool)
    ensures selected.None? ==> r
    ensures r && selected.Some? ==> selected.value <= env.oneYearUtc as real
    ensures r && selected.Some? && f == DateAvailable ==> env.todayUtc as real <= selected.value
  {
    selected.Some? ==>
      && selected.value <= env.oneYearUtc as real
      && (LowerBound(f, original, env.todayUtc).Some? ==> LowerBound(f, original, env.todayUtc).value <= selected.value)
  }

  function DateError(f: Field, v: Value, ctx: Context, env: Env): (r: string)
    requires f == DateAvailable || f == UpdatedDateAvailable
    ensures r == "" <==> IsTruthy(v) && DateInWindow(f, SelectedUtc(v, env), OriginalUtc(ctx, env), env)
    ensures r == DateRequiredMessage <==> !IsTruthy(v)
    ensures IsTruthy(v) && !DateInWindow(f, SelectedUtc(v, env), OriginalUtc(ctx, env), env) ==>
      r == DateRangeMessage(OriginalUtc(ctx, env), env)
  {
    if !IsTruthy(v) then DateRequiredMessage
    else
      var selected := SelectedUtc(v, env);
      var original := OriginalUtc(ctx, env);
      if OutOfRange(f, selected, original, env) then DateRangeMessage(original, env) else ""
  }

  // ----- image, messageContent -----

  const ImageMessage := "Image file is required."
  const MessageEmptyMessage := "Message content cannot be empty."
  const MessageTooLongMessage := "Message cannot exceed 1000 characters."

  function ImageError(v: Value): (r: string)
    ensures r == "" <==> IsTruthy(v)
    ensures r != "" ==> r == ImageMessage
  {
    if !IsTruthy(v) then ImageMessage else ""
  }

  function MessageContentError(v: Value): (r: string)
    ensures r == "" <==> IsTruthy(v) && (v.Str? ==> !IsBlank(v.s) && Utf16Length(v.s) <= 1000)
    ensures r == MessageEmptyMessage <==> !IsTruthy(v) || (v.Str? && IsBlank(v.s))
    ensures IsTruthy(v) && v.Str? && !IsBlank(v.s) && Utf16Length(v.s) > 1000 ==> r == MessageTooLongMessage
  {
    if !IsTruthy(v) || (v.Str? && Trim(v.s) == "") then MessageEmptyMessage
    else if v.Str? && Utf16Length(v.s) > 1000 then MessageTooLongMessage
    else ""
  }

  // ----- the dispatch -----

  /** The acceptance rule of each field, stated without the messages. */
  ghost function Accepts(f: Field, v: Value, ctx: Context, env: Env, lookup: EmailLookup): (r: bool)
    ensures f.Unlisted? ==> r
    ensures r && !f.Unlisted? && f != Password && f != ConfirmPassword ==> IsTruthy(v)
  {
    match f
    case FirstName => NameAccepted(v)
    case LastName => NameAccepted(v)
    case Email => EmailAccepted(v, ctx, lookup)
    case Password => PasswordAccepted(v, ctx)
    case ConfirmPassword => SameAs(v, ctx.password)
    case BirthDate => IsTruthy(v) && TimeOf(v, env).Some? && 18 <= env.ageOf(v) <= 120
    case AdTitle => LengthWithin(v, 5, 60)
    case City => IsTruthy(v) && (v.Str? ==> Utf16Length(v.s) >= 2)
    case StreetName => IsTruthy(v) && (v.Str? ==> Utf16Length(v.s) >= 2)
    case StreetNumber => NumberAbove(v, env, 1.0, false)
    case AreaSize => NumberAbove(v, env, 0.0, true)
    case YearBuilt => IsTruthy(v) && NumberOf(v, env).Some? && 1900.0 <= NumberOf(v, env).value <= env.currentYear as real
    case RentPrice => NumberAbove(v, env, 0.0, true)
    case DateAvailable => IsTruthy(v) && DateInWindow(f, SelectedUtc(v, env), OriginalUtc(ctx, env), env)
    case UpdatedDateAvailable => IsTruthy(v) && DateInWindow(f, SelectedUtc(v, env), OriginalUtc(ctx, env), env)
    case Image => IsTruthy(v)
    case MessageContent => IsTruthy(v) && (v.Str? ==> !IsBlank(v.s) && Utf16Length(v.s) <= 1000)
    case Unlisted(_) => true
  }

  /** `validateField(name, value, context)`. */
  function Validate(f: Field, v: Value, ctx: Context, env: Env, lookup: EmailLookup): (r: string)
    ensures f.Unlisted? ==> r == ""
  {
    match f
    case FirstName => NameError(true, v)
    case LastName => NameError(false, v)
    case Email => EmailError(v, ctx, lookup)
    case Password => PasswordError(v, ctx)
    case ConfirmPassword => ConfirmPasswordError(v, ctx)
    case BirthDate => BirthDateError(v, env)
    case AdTitle => AdTitleError(v)
    case City => MinLengthError(v, false)
    case StreetName => MinLengthError(v, true)
    case StreetNumber => StreetNumberError(v, env)
    case AreaSize => PositiveError(v, env, false)
    case YearBuilt => YearBuiltError(v, env)
    case RentPrice => PositiveError(v, env, true)
    case DateAvailable => DateError(f, v, ctx, env)
    case UpdatedDateAvailable => DateError(f, v, ctx, env)
    case Image => ImageError(v)
    case MessageContent => MessageContentError(v)
    case Unlisted(_) => ""
  }

  /** A value draws no message exactly when it meets its field's rule. */
  lemma ValidateAccepts(f: Field, v: Value, ctx: Context, env: Env, lookup: EmailLookup)
    ensures Validate(f, v, ctx, env, lookup) == "" <==> Accepts(f, v, ctx, env, lookup)
  {
  }

  // The rule of one field at a time, for callers that validate several.

  lemma NameRule(f: Field, s: string, ctx: Context, env: Env, lookup: EmailLookup)
    requires f == FirstName || f == LastName
    ensures Validate(f, Str(s), ctx, env, lookup) == "" <==> NameAccepted(Str(s))
  {
  }

  lemma EmailRule(s: string, ctx: Context, env: Env, lookup: EmailLookup)
    ensures Validate(Email, Str(s), ctx, env, lookup) == "" <==> EmailAccepted(Str(s), ctx, lookup)
  {
  }

  lemma EmailValidation(s: string, ctx: Context, env: Env, lookup: EmailLookup)
    ensures Validate(Email, Str(s), ctx, env, lookup) == EmailError(Str(s), ctx, lookup)
  {
  }

  lemma PasswordRule(s: string, ctx: Context, env: Env, lookup: EmailLookup)
    ensures Validate(Password, Str(s), ctx, env, lookup) == "" <==> PasswordAccepted(Str(s), ctx)
  {
  }

  lemma ConfirmRule(s: string, ctx: Context, env: Env, lookup: EmailLookup)
    ensures Validate(ConfirmPassword, Str(s), ctx, env, lookup) == "" <==> SameAs(Str(s), ctx.password)
  {
  }

  lemma BirthDateRule(s: string, ctx: Context, env: Env, lookup: EmailLookup)
    ensures Validate(BirthDate, Str(s), ctx, env, lookup) == "" <==>
      s != "" && env.parseDate(s).Some? && 18 <= env.ageOf(Str(s)) <= 120
  {
  }

  lemma MessageRule(s: string, ctx: Context, env: Env, lookup: EmailLookup)
    ensures Validate(MessageContent, Str(s), ctx, env, lookup) == MessageContentError(Str(s))
    ensures Validate(MessageContent, Str(s), ctx, env, lookup) == "" <==> !IsBlank(s) && Utf16Length(s) <= 1000
  {
    MessageDispatch(Str(s), ctx, env, lookup);
    MessageTextRule(s);
  }

  // The dispatch step on its own, for any value: keeps the string rules out of it.
  lemma MessageDispatch(v: Value, ctx: Context, env: Env, lookup: EmailLookup)
    ensures Validate(MessageContent, v, ctx, env, lookup) == MessageContentError(v)
  {
  }

  lemma MessageTextRule(s: string)
    ensures MessageContentError(Str(s)) == "" <==> !IsBlank(s) && Utf16Length(s) <= 1000
  {
    if s == "" {
      assert IsBlank(s);
    }
  }

  /** The validator never consults the availability request except for an
      email whose request is made. */
  lemma LookupMattersOnlyForEmail(f: Field, v: Value, ctx: Context, env: Env, a: EmailLookup, b: EmailLookup)
    requires !(f == Email && LookupUsed(v, ctx))
    ensures Validate(f, v, ctx, env, a) == Validate(f, v, ctx, env, b)
  {
    if f == Email {
      EmailLookupUnused(v, ctx, a, b);
    }
  }

  /** In edit mode an original date later than today does not raise the
      lower bound: today itself is accepted. */
  lemma FutureOriginalAcceptsToday(ctx: Context, env: Env, original: int)
    requires ctx.originalDate == Some(Day(original))
    requires env.normalizeUtc(Day(original)) == Some(env.todayUtc + 86_400_000)
    requires env.normalizeUtc(Day(env.todayUtc)) == Some(env.todayUtc)
    requires env.todayUtc <= env.oneYearUtc
    ensures Validate(UpdatedDateAvailable, Day(env.todayUtc), ctx, env, NotExists) == ""
  {
  }

  /** In edit mode a lapsed original date may be kept although it lies
      before today. */
  lemma LapsedOriginalMayStay(ctx: Context, env: Env, original: int)
    requires ctx.originalDate == Some(Day(original))
    requires env.normalizeUtc(Day(original)) == Some(env.todayUtc - 86_400_000)
    requires env.todayUtc <= env.oneYearUtc
    ensures Validate(UpdatedDateAvailable, Day(original), ctx, env, NotExists) == ""
    ensures Validate(DateAvailable, Day(original), ctx, env, NotExists) != ""
  {
  }
}
