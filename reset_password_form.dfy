/**
 * The password reset form (`ResetPasswordForm`): the token and the email
 * are taken from the link's query string, the new password is checked, and
 * everything is posted to `reset-password`.
 */
module ResetPasswordForm {
  import opened Common
  import opened Http
  import opened Api
  import opened Forms

  const InvalidLinkError := "Le lien de réinitialisation est invalide ou a expiré."
  const ResetError := "Une erreur est survenue lors de la réinitialisation du mot de passe."
  const ResetMessage := "Votre mot de passe a été réinitialisé avec succès."

  /** The form's `formData` state. */
  datatype ResetFields = ResetFields(email: string, password: string, confirmation: string, token: string)

  /** The inputs wired to `handleChange` (the email input is read-only). */
  datatype Field = Password | PasswordConfirmation

  function SetField(f: ResetFields, field: Field, value: string): (g: ResetFields)
    ensures field == Password ==> g == f.(password := value)
    ensures field == PasswordConfirmation ==> g == f.(confirmation := value)
    ensures g.email == f.email && g.token == f.token
  {
    match field
    case Password => f.(password := value)
    case PasswordConfirmation => f.(confirmation := value)
  }

  /** The JSON body posted: the whole form, token included. */
  function ResetBody(f: ResetFields): (body: map<string, string>)
    ensures body.Keys == {"email", "password", "password_confirmation", "token"}
    ensures body["email"] == f.email && body["token"] == f.token
    ensures body["password"] == f.password && body["password_confirmation"] == f.confirmation
  {
    map["email" := f.email, "password" := f.password, "password_confirmation" := f.confirmation, "token" := f.token]
  }

  class ResetPasswordForm {
    var form: ResetFields
    var loading: bool
    var message: string
    var error: string
    /** The navigation a `setTimeout` has scheduled, if any. */
    var scheduled: Option<string>

    constructor ()
      ensures form == ResetFields("", "", "", "") && !loading && message == "" && error == "" && scheduled.None?
    {
      form := ResetFields("", "", "", "");
      loading := false;
      message := "";
      error := "";
      scheduled := None;
    }

    /** The form is rendered only once the link supplied both a token and an email. */
    predicate ShowForm()
      reads this
    {
      form.token != "" && form.email != ""
    }

    /**
     * The effect on the query string: with both `token` and `email` present
     * and non-empty, they fill the form, the email percent-decoded by
     * `decode`; otherwise the link is reported invalid.
     */
    method ApplyLink(token: Option<string>, email: Option<string>, decode: string -> string)
      modifies this
      ensures Truthy(token) && Truthy(email) ==>
                form == old(form).(token := token.value, email := decode(email.value)) && error == old(error)
      ensures !(Truthy(token) && Truthy(email)) ==> form == old(form) && error == InvalidLinkError
      ensures loading == old(loading) && message == old(message) && scheduled == old(scheduled)
      ensures Truthy(token) && Truthy(email) ==> (ShowForm() <==> decode(email.value) != "")
      ensures !(Truthy(token) && Truthy(email)) ==> ShowForm() == old(ShowForm())
    {
      if Truthy(token) && Truthy(email) {
        form := form.(token := token.value, email := decode(email.value));
      } else {
        error := InvalidLinkError;
      }
    }

    method HandleChange(field: Field, value: string)
      modifies this
      ensures form == SetField(old(form), field, value)
      ensures loading == old(loading) && message == old(message) && error == old(error) && scheduled == old(scheduled)
    {
      form := SetField(form, field, value);
    }

    /**
     * `handleSubmit`: a password problem is reported without a request and
     * without touching `loading`; otherwise the form is posted; success shows
     * the message and schedules the way to the login page, failure shows the
     * server message, else its field errors, else the fallback.
     */
    method HandleSubmit(outcome: Outcome<()>, browser: Browser)
      modifies this, browser
      ensures form == old(form)
      ensures PasswordProblem(form.password, form.confirmation).Some? ==>
                && error == PasswordProblem(form.password, form.confirmation).value && message == ""
                && loading == old(loading) && scheduled == old(scheduled)
                && browser.requests == old(browser.requests) && browser.storage == old(browser.storage)
                && browser.location == old(browser.location)
      ensures PasswordProblem(form.password, form.confirmation).None? ==>
                && !loading
                && browser.requests == old(browser.requests) + [ClientRequest(old(browser.storage), Post, "reset-password", ResetBody(form))]
                && browser.storage == StorageAfter(old(browser.storage), outcome)
                && browser.location == LocationAfter(old(browser.location), outcome)
                && (outcome.Ok? ==> message == ResetMessage && error == "" && scheduled == Some(LoginRoute))
                && (outcome.Failed? ==>
                      message == "" && error == MessageFirst(outcome.error, ResetError) && scheduled == old(scheduled))
      ensures browser.events == old(browser.events)
      ensures ShowForm() == old(ShowForm())
    {
      error := "";
      message := "";
      var problem := PasswordProblem(form.password, form.confirmation);
      if problem.Some? {
        error := problem.value;
        return;
      }
      loading := true;
      var r := browser.Send(Post, "reset-password", ResetBody(form), outcome);
      if r.Ok? {
        message := ResetMessage;
        scheduled := Some(LoginRoute);
      } else {
        error := MessageFirst(r.error, ResetError);
      }
      loading := false;
    }
  }
}
