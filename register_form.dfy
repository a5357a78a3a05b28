/**
 * The sign-up form (`RegisterForm`): the confirmation must match, the
 * account is registered, and the new user is then signed in with the same
 * email and password.
 */
module RegisterForm {
  import opened Common
  import opened Http
  import opened Session
  import opened Api
  import opened Forms

  const RegisterError := "Une erreur est survenue lors de l'inscription."
  const HomeRoute := "/"

  /** The body posted to `api/register`. */
  function RegisterBody(name: string, email: string, password: string, confirmation: string): (body: map<string, string>)
    ensures body.Keys == {"name", "email", "password", "password_confirmation"}
    ensures body["name"] == name && body["email"] == email
    ensures body["password"] == password && body["password_confirmation"] == confirmation
  {
    map["name" := name, "email" := email, "password" := password, "password_confirmation" := confirmation]
  }

  /** The credentials posted to `api/login` right after: the same email and password, nothing else. */
  function Credentials(email: string, password: string): (body: map<string, string>)
    ensures body.Keys == {"email", "password"}
    ensures body["email"] == email && body["password"] == password
  {
    map["email" := email, "password" := password]
  }

  class RegisterForm {
    var name: string
    var email: string
    var password: string
    var passwordConfirmation: string
    var error: string
    var loading: bool
    /** The route `navigate` was called with, if any. */
    var navigatedTo: Option<string>

    constructor ()
      ensures name == "" && email == "" && password == "" && passwordConfirmation == ""
      ensures error == "" && !loading && navigatedTo.None?
    {
      name := "";
      email := "";
      password := "";
      passwordConfirmation := "";
      error := "";
      loading := false;
      navigatedTo := None;
    }

    /**
     * `handleSubmit`. A mismatch is reported without a request and without
     * touching `loading`; no length rule applies here. Otherwise the account
     * is registered; only if that succeeds is the user signed in, and only if
     * both succeed does the form go to the home page. The first failure is
     * shown as the server message, else its field errors, else the fallback.
     */
    method HandleSubmit(registration: Outcome<()>, login: Outcome<LoginData>, browser: Browser)
      modifies this, browser
      ensures name == old(name) && email == old(email) && password == old(password)
      ensures passwordConfirmation == old(passwordConfirmation)
      ensures password != passwordConfirmation ==>
                && error == MismatchError && loading == old(loading) && navigatedTo == old(navigatedTo)
                && browser.requests == old(browser.requests) && browser.storage == old(browser.storage)
                && browser.location == old(browser.location) && browser.events == old(browser.events)
      ensures password == passwordConfirmation && registration.Failed? ==>
                && error == MessageFirst(registration.error, RegisterError) && !loading && navigatedTo == old(navigatedTo)
                && browser.requests == old(browser.requests) + [ClientRequest(old(browser.storage), Post, "api/register", RegisterBody(name, email, password, passwordConfirmation))]
                && browser.storage == StorageAfterError(old(browser.storage), registration.error)
                && browser.location == LocationAfterError(old(browser.location), registration.error)
                && browser.events == old(browser.events)
      ensures password == passwordConfirmation && registration.Ok? ==>
                && !loading
                && browser.requests == old(browser.requests) + [
                     ClientRequest(old(browser.storage), Post, "api/register", RegisterBody(name, email, password, passwordConfirmation)),
                     ClientRequest(old(browser.storage), Post, "api/login", Credentials(email, password))]
                && (login.Ok? ==>
                      && error == "" && navigatedTo == Some(HomeRoute)
                      && browser.storage == WithLogin(login.value.token, login.value.user)
                      && browser.events == old(browser.events) + [Dispatch(StorageSignal, browser.storage), Dispatch(AuthChange(true), browser.storage)]
                      && browser.location == old(browser.location))
                && (login.Failed? ==>
                      && error == MessageFirst(login.error, RegisterError) && navigatedTo == old(navigatedTo)
                      && browser.storage == StorageAfterError(old(browser.storage), login.error)
                      && browser.location == LocationAfterError(old(browser.location), login.error)
                      && browser.events == old(browser.events))
    {
      error := "";
      if password != passwordConfirmation {
        error := MismatchError;
        return;
      }
      loading := true;
      var r := browser.Register(RegisterBody(name, email, password, passwordConfirmation), registration);
      if r.Ok? {
        var l := browser.Login(Credentials(email, password), login);
        if l.Ok? {
          navigatedTo := Some(HomeRoute);
        } else {
          error := MessageFirst(l.error, RegisterError);
        }
      } else {
        error := MessageFirst(r.error, RegisterError);
      }
      loading := false;
    }
  }
}
