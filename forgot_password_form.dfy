/**
 * The forgotten-password form (`ForgotPasswordForm`): the email is posted to
 * `forgot-password`, and after a success the form is replaced by the
 * confirmation for good.
 */
module ForgotPasswordForm {
  import opened Common
  import opened Http
  import opened Api

  const SentMessage := "Un lien de réinitialisation a été envoyé à votre adresse email si elle existe dans notre système."
  const RequestError := "Une erreur est survenue lors de la demande de réinitialisation."

  class ForgotPasswordForm {
    var email: string
    var loading: bool
    var message: string
    var error: string
    var submitted: bool

    constructor ()
      ensures email == "" && !loading && message == "" && error == "" && !submitted
    {
      email := "";
      loading := false;
      message := "";
      error := "";
      submitted := false;
    }

    /** The form is shown until a request has succeeded, and the confirmation after. */
    predicate ShowForm()
      reads this
    {
      !submitted
    }

    /**
     * `handleSubmit`: posts `{ email }`; success shows the message and marks
     * the form submitted; failure shows the server message, else its field
     * errors, else the fallback, and leaves `submitted` as it was.
     */
    method HandleSubmit(outcome: Outcome<()>, browser: Browser)
      modifies this, browser
      ensures email == old(email) && !loading
      ensures browser.requests == old(browser.requests) + [ClientRequest(old(browser.storage), Post, "forgot-password", map["email" := email])]
      ensures browser.storage == StorageAfter(old(browser.storage), outcome)
      ensures browser.location == LocationAfter(old(browser.location), outcome)
      ensures browser.events == old(browser.events)
      ensures outcome.Ok? ==> message == SentMessage && error == "" && submitted
      ensures outcome.Failed? ==>
                message == "" && error == MessageFirst(outcome.error, RequestError) && submitted == old(submitted)
      ensures old(submitted) ==> submitted
      ensures outcome.Ok? ==> !ShowForm()
      ensures outcome.Failed? ==> ShowForm() == old(ShowForm())
    {
      error := "";
      message := "";
      loading := true;
      var r := browser.Send(Post, "forgot-password", map["email" := email], outcome);
      if r.Ok? {
        message := SentMessage;
        submitted := true;
      } else {
        error := MessageFirst(r.error, RequestError);
      }
      loading := false;
    }
  }
}
