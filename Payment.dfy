/**
 * The payment form: a message chosen from the payment intent's status when
 * the page is reached with a client secret, a message chosen from the
 * error, if any, that confirming the payment reports, a loading flag
 * around the confirmation, and the request marking the order paid.
 */
module Payment {
  import opened Types

  const Succeeded := "Payment succeeded!"
  const Processing := "Your payment is processing."
  const NotSuccessful := "Your payment was not successful, please try again."
  const WentWrong := "Something went wrong."
  const Unexpected := "An unexpected error occurred."

  /** An error reported by confirming the payment: its type and, possibly,
      a message. */
  datatype ConfirmError = ConfirmError(errorType: string, message: Option<string>)

  /** The message for a retrieved payment intent's status; `None` is a
      missing intent. */
  function IntentMessage(status: Option<string>): (m: string)
    ensures status == Some("succeeded") ==> m == Succeeded
    ensures status == Some("processing") ==> m == Processing
    ensures status == Some("requires_payment_method") ==> m == NotSuccessful
    ensures status !in {Some("succeeded"), Some("processing"), Some("requires_payment_method")} ==> m == WentWrong
  {
    match status
    case Some("succeeded") => Succeeded
    case Some("processing") => Processing
    case Some("requires_payment_method") => NotSuccessful
    case _ => WentWrong
  }

  /** The four messages are distinct, so the message shown tells which of
      the four cases the status fell into. */
  lemma IntentMessageDistinguishes(status: Option<string>)
    ensures IntentMessage(status) == Succeeded <==> status == Some("succeeded")
    ensures IntentMessage(status) == Processing <==> status == Some("processing")
    ensures IntentMessage(status) == NotSuccessful <==> status == Some("requires_payment_method")
  {
    assert Succeeded != Processing && Succeeded != NotSuccessful && Succeeded != WentWrong;
    assert Processing != NotSuccessful && Processing != WentWrong && NotSuccessful != WentWrong;
  }

  /** Whether an error type's own message is shown to the customer. */
  predicate ShowsOwnMessage(errorType: string)
  {
    errorType == "card_error" || errorType == "validation_error"
  }

  /** The message a confirmation error sets, if any: card and validation
      errors show their own (non-empty) message, any other type the generic
      one. `None` leaves the message as it was. */
  function ErrorMessage(error: ConfirmError): (m: Option<string>)
    ensures !ShowsOwnMessage(error.errorType) ==> m == Some(Unexpected)
    ensures ShowsOwnMessage(error.errorType) ==>
      (m.Some? <==> error.message.Some? && error.message.value != "") && (m.Some? ==> m == error.message)
  {
    if ShowsOwnMessage(error.errorType) then
      if error.message.Some? && error.message.value != "" then error.message else None
    else Some(Unexpected)
  }

  /** The message after the status check on page load: set only when the
      SDK is ready, a non-empty client secret is in the query string and
      the retrieval resolves. */
  function StatusCheck(current: Option<string>, stripeReady: bool, clientSecret: Option<string>,
                       retrieval: Fetch<Option<string>>): (m: Option<string>)
    ensures !stripeReady || clientSecret.None? || clientSecret == Some("") || retrieval.Failed? ==> m == current
    ensures stripeReady && clientSecret.Some? && clientSecret != Some("") && retrieval.Ok? ==>
      m == Some(IntentMessage(retrieval.data))
  {
    if !stripeReady || clientSecret.None? || clientSecret.value == "" then current
    else match retrieval
      case Ok(status) => Some(IntentMessage(status))
      case Failed(_) => current
  }

  /** The Pay button is disabled while loading or while the SDK or its
      elements are absent. */
  function SubmitDisabled(isLoading: bool, stripeReady: bool, elementsReady: bool): (d: bool)
    ensures !d <==> !isLoading && stripeReady && elementsReady
  {
    isLoading || !stripeReady || !elementsReady
  }

  class PaymentForm {
    var message: Option<string>
    var isLoading: bool

    constructor ()
      ensures message == None && !isLoading
    {
      message := None;
      isLoading := false;
    }

    /** The mount effect's status check. */
    method CheckStatus(stripeReady: bool, clientSecret: Option<string>, retrieval: Fetch<Option<string>>)
      modifies this`message
      ensures message == StatusCheck(old(message), stripeReady, clientSecret, retrieval)
    {
      if !stripeReady {
        return;
      }
      if clientSecret.None? || clientSecret.value == "" {
        return;
      }
      match retrieval
      case Ok(status) =>
        message := Some(IntentMessage(status));
      case Failed(_) =>
    }

    /** `handleSubmit`: nothing without the SDK and its elements; otherwise
        confirm, set the message from a reported error, clear the loading
        flag and, error or not, request that the order be marked paid. */
    method HandleSubmit(stripeReady: bool, elementsReady: bool, confirmation: Option<ConfirmError>)
      returns (markPaidRequested: bool)
      modifies this
      ensures markPaidRequested <==> stripeReady && elementsReady
      ensures !(stripeReady && elementsReady) ==> message == old(message) && isLoading == old(isLoading)
      ensures stripeReady && elementsReady ==> !isLoading
      ensures stripeReady && elementsReady && confirmation.None? ==> message == old(message)
      ensures stripeReady && elementsReady && confirmation.Some? ==>
        message == (match ErrorMessage(confirmation.value) case Some(m) => Some(m) case None => old(message))
    {
      if !stripeReady || !elementsReady {
        return false;
      }
      isLoading := true;
      if confirmation.Some? {
        var error := confirmation.value;
        if error.errorType == "card_error" || error.errorType == "validation_error" {
          if error.message.Some? && error.message.value != "" {
            message := error.message;
          }
        } else {
          message := Some(Unexpected);
        }
      }
      isLoading := false;
      markPaidRequested := true;
    }
  }
}
