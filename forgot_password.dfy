/** The page that asks for a reset link: the action sends the address
    without any check, and the page itself checks the address on blur. */
module ForgotPassword {
  import opened Common
  import opened Text
  import opened ErrorBag

  /** The action data: `{ success: true, message }` or `{ errors }`. */
  datatype ForgotOutcome = LinkSent(message: Option<string>) | ForgotRejected(errors: Bag)

  const ForgotFailedMessage := "Failed to send reset email"
  const EmailRequiredMessage := "Email is required"
  const EmailFormatMessage := "Email must be in a valid format"

  /** `forgotPasswordAction`: the error bag it builds stays empty, so
      `POST /users/forgotPassword` is sent for whatever address was typed.
      `reply` carries `res.data.message` on success. */
  method ForgotPasswordAction(email: string, reply: Reply<Option<string>>)
    returns (outcome: ForgotOutcome, request: string)
    ensures request == email
    ensures reply.Ok? ==> outcome == LinkSent(reply.data)
    ensures reply.Fail? ==> outcome == ForgotRejected(map["general" := MessageOr(reply.message, ForgotFailedMessage)])
  {
    request := email;
    match reply
    case Ok(message) =>
      outcome := LinkSent(message);
    case Fail(_, message) =>
      outcome := ForgotRejected(map["general" := MessageOr(message, ForgotFailedMessage)]);
  }

  class ForgotPasswordPage {
    var email: string
    var fieldErrors: Bag
    var generalError: Option<string>
    var wasSubmitted: bool

    constructor ()
      ensures email == "" && fieldErrors == map[] && generalError == None && !wasSubmitted
    {
      email := "";
      fieldErrors := map[];
      generalError := None;
      wasSubmitted := false;
    }

    /** The submit button's `disabled`: while submitting, with no address,
        or while an address message is shown. */
    function SubmitDisabled(isSubmitting: bool): (r: bool)
      reads this
      ensures r <==> isSubmitting || email == "" || "email" in Truthful(fieldErrors)
    {
      isSubmitting || email == "" || ("email" in fieldErrors && fieldErrors["email"] != "")
    }

    /** The effect on new action data. A success empties the form and shows
        the confirmation; errors replace the messages and set the banner to
        the `general` one, if truthy. */
    method ShowOutcome(outcome: ForgotOutcome)
      modifies this
      ensures outcome.LinkSent? ==> email == "" && fieldErrors == map[] && generalError == None && wasSubmitted
      ensures outcome.ForgotRejected? ==>
        && fieldErrors == outcome.errors
        && generalError == (if "general" in outcome.errors && outcome.errors["general"] != "" then Some(outcome.errors["general"]) else None)
        && email == old(email) && wasSubmitted == old(wasSubmitted)
    {
      if outcome.LinkSent? {
        email := "";
        fieldErrors := map[];
        generalError := None;
        wasSubmitted := true;
      }
      if outcome.ForgotRejected? {
        fieldErrors := outcome.errors;
        generalError := if "general" in outcome.errors && outcome.errors["general"] != "" then Some(outcome.errors["general"]) else None;
      }
    }

    /** `handleBlur`: an empty address is required, a malformed one gets the
        format message, a well-formed one clears it. Afterwards the button is
        enabled (when not submitting) exactly for a well-formed address. */
    method HandleBlur()
      modifies this
      ensures email == "" ==> fieldErrors == old(fieldErrors)["email" := EmailRequiredMessage]
      ensures email != "" && !IsEmailShape(email) ==> fieldErrors == old(fieldErrors)["email" := EmailFormatMessage]
      ensures IsEmailShape(email) ==> fieldErrors == old(fieldErrors)["email" := ""]
      ensures !SubmitDisabled(false) <==> email != "" && MatchesEmailPattern(email)
      ensures email == old(email) && generalError == old(generalError) && wasSubmitted == old(wasSubmitted)
    {
      EmailShapeIsPattern(email);
      if email == "" {
        fieldErrors := fieldErrors["email" := EmailRequiredMessage];
      } else if !IsEmailShape(email) {
        fieldErrors := fieldErrors["email" := EmailFormatMessage];
      } else {
        fieldErrors := fieldErrors["email" := ""];
      }
    }

    /** `handleChange`: the confirmation, the address message and the banner
        go away as soon as the address is edited. */
    method HandleChange(value: string)
      modifies this
      ensures email == value && !wasSubmitted
      ensures fieldErrors == old(fieldErrors)["email" := ""] && generalError == None
    {
      if wasSubmitted {
        wasSubmitted := false;
      }
      email := value;
      fieldErrors := fieldErrors["email" := ""];
      generalError := None;
    }
  }
}
