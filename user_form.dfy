/**
 * The user create/edit form (`UserForm`): loading an existing user, the
 * controlled inputs, the password rules that apply on creation or when the
 * password is being changed, the payload sent, and the rewrite of the stored
 * profile when users edit themselves.
 */
module UserForm {
  import opened Common
  import opened Http
  import opened Session
  import opened Api
  import opened Forms

  const LoadUserError := "Impossible de charger les détails de l'utilisateur."
  const SaveError := "Une erreur est survenue lors de l'enregistrement de l'utilisateur."
  const UpdatedMessage := "Utilisateur mis à jour avec succès !"
  const CreatedMessage := "Utilisateur créé avec succès !"
  const UsersRoute := "/users"
  const DefaultRole := "user"

  /** The form's `user` state. */
  datatype UserFields = UserFields(name: string, email: string, password: string, confirmation: string, role: string)

  /** The inputs wired to `handleChange`, by their `name` attribute. */
  datatype Field = Name | Email | Password | PasswordConfirmation | Role

  /** A user as `api/users/{id}` returns it under `data`; any field may be missing. */
  datatype FetchedUser = FetchedUser(name: Option<string>, email: Option<string>, role: Option<string>)

  /** The response body of `api/users/{id}`. */
  datatype UserBody = UserBody(data: Option<FetchedUser>)

  const EmptyForm := UserFields("", "", "", "", DefaultRole)

  /** `value || fallback` on an optional string. */
  function OrElse(v: Option<string>, fallback: string): (r: string)
    ensures Truthy(v) ==> r == v.value
    ensures !Truthy(v) ==> r == fallback
  {
    if Truthy(v) then v.value else fallback
  }

  /** The form filled from a fetched user: missing fields become empty, a missing role `user`, and both passwords are cleared. */
  function FormOf(u: FetchedUser): (f: UserFields)
    ensures f.password == "" && f.confirmation == ""
    ensures f.name == OrElse(u.name, "") && f.email == OrElse(u.email, "")
    ensures f.role != ""
    ensures Truthy(u.role) ==> f.role == u.role.value
    ensures !Truthy(u.role) ==> f.role == DefaultRole
  {
    UserFields(OrElse(u.name, ""), OrElse(u.email, ""), "", "", OrElse(u.role, DefaultRole))
  }

  /** `handleChange`: `{ ...user, [name]: value }`. */
  function SetField(f: UserFields, field: Field, value: string): (g: UserFields)
    ensures FieldValue(g, field) == value
    ensures forall other :: other != field ==> FieldValue(g, other) == FieldValue(f, other)
  {
    match field
    case Name => f.(name := value)
    case Email => f.(email := value)
    case Password => f.(password := value)
    case PasswordConfirmation => f.(confirmation := value)
    case Role => f.(role := value)
  }

  function FieldValue(f: UserFields, field: Field): string
  {
    match field
    case Name => f.name
    case Email => f.email
    case Password => f.password
    case PasswordConfirmation => f.confirmation
    case Role => f.role
  }

  /** Editing the same input twice keeps only the last value. */
  lemma SetFieldLastWins(f: UserFields, field: Field, first: string, second: string)
    ensures SetField(SetField(f, field, first), field, second) == SetField(f, field, second)
  {
  }

  /** The password rules apply when creating a user, or when editing with "change password" ticked. */
  predicate NeedsPasswordCheck(hasId: bool, changePassword: bool)
  {
    !hasId || changePassword
  }

  /** The password goes into the payload when creating, or when changing it to a non-empty value. */
  predicate SendsPassword(hasId: bool, changePassword: bool, password: string)
  {
    !hasId || (changePassword && password != "")
  }

  /** The body sent to create or update a user. */
  function Payload(f: UserFields, hasId: bool, changePassword: bool): (body: map<string, string>)
    ensures SendsPassword(hasId, changePassword, f.password) ==>
              body.Keys == {"name", "email", "role", "password", "password_confirmation"}
              && body["password"] == f.password && body["password_confirmation"] == f.confirmation
    ensures !SendsPassword(hasId, changePassword, f.password) ==> body.Keys == {"name", "email", "role"}
    ensures body["name"] == f.name && body["email"] == f.email && body["role"] == f.role
  {
    var base := map["name" := f.name, "email" := f.email, "role" := f.role];
    if SendsPassword(hasId, changePassword, f.password) then
      base["password" := f.password]["password_confirmation" := f.confirmation]
    else base
  }

  /**
   * Among submissions that pass validation, the password is sent exactly
   * when it was checked: the non-empty test in the payload adds nothing,
   * because the length rule already rejects an empty password.
   */
  lemma PasswordSentIffChecked(f: UserFields, hasId: bool, changePassword: bool)
    requires !NeedsPasswordCheck(hasId, changePassword) || PasswordProblem(f.password, f.confirmation).None?
    ensures "password" in Payload(f, hasId, changePassword) <==> NeedsPasswordCheck(hasId, changePassword)
  {
    AcceptedPasswordIsNonEmpty(f.password, f.confirmation);
  }

  /** The form edits the signed-in user: `currentUser.id === parseInt(id)`. */
  predicate IsOwnProfile(currentUser: Option<UserProfile>, id: Option<string>)
  {
    currentUser.Some? && id.Some? && ParseInt(id.value) == Some(currentUser.value.id)
  }

  /** Opening the form at a user's own id, as the list links to it, is recognised as their own profile. */
  lemma OwnIdIsOwnProfile(u: UserProfile)
    ensures IsOwnProfile(Some(u), Some(IntText(u.id)))
  {
    ParseIntText(u.id);
  }

  /** Another user's id is never taken for one's own profile. */
  lemma OtherIdIsNotOwnProfile(u: UserProfile, other: int)
    requires other != u.id
    ensures !IsOwnProfile(Some(u), Some(IntText(other)))
  {
    ParseIntText(other);
  }

  /** `{ ...currentUser, name, email, role }`: the id and every other stored field are kept. */
  function UpdatedProfile(current: UserProfile, f: UserFields): (u: UserProfile)
    ensures u.id == current.id && u.extra == current.extra
    ensures u.name == f.name && u.email == f.email && u.role == f.role
  {
    current.(name := f.name, email := f.email, role := f.role)
  }

  class UserForm {
    /** The `:id` route parameter, absent on the create route. */
    const id: Option<string>
    /** `Auth.getUser()` as read when the form rendered. */
    const currentUser: Option<UserProfile>
    var form: UserFields
    var loading: bool
    var message: string
    var error: string
    var changePassword: bool
    /** The navigation a `setTimeout` has scheduled, if any. */
    var scheduled: Option<string>

    constructor (id: Option<string>, currentUser: Option<UserProfile>)
      ensures this.id == id && this.currentUser == currentUser
      ensures form == EmptyForm && !loading && message == "" && error == ""
      ensures !changePassword && scheduled.None?
    {
      this.id := id;
      this.currentUser := currentUser;
      form := EmptyForm;
      loading := false;
      message := "";
      error := "";
      changePassword := false;
      scheduled := None;
    }

    predicate HasId()
    {
      Truthy(id)
    }

    /** The role select is disabled while saving and on one's own profile. */
    predicate RoleLocked()
      reads this
    {
      loading || IsOwnProfile(currentUser, id)
    }

    /** The password inputs are shown, and required, when creating or changing the password. */
    predicate ShowsPasswordInputs()
      reads this
    {
      NeedsPasswordCheck(HasId(), changePassword)
    }

    /** The effect on `id`: with an id, the user is fetched and the form filled from it. */
    method LoadUser(outcome: Outcome<Option<UserBody>>, browser: Browser)
      modifies this, browser
      ensures !HasId() ==>
                && form == old(form) && error == old(error) && loading == old(loading)
                && browser.requests == old(browser.requests) && browser.storage == old(browser.storage)
                && browser.location == old(browser.location)
      ensures HasId() ==>
                && browser.requests == old(browser.requests) + [ClientRequest(old(browser.storage), Get, ItemPathOf(Users, id.value), map[])]
                && browser.storage == StorageAfter(old(browser.storage), outcome)
                && browser.location == LocationAfter(old(browser.location), outcome)
                && !loading
                && (outcome.Ok? && outcome.value.Some? && outcome.value.value.data.Some? ==>
                      form == FormOf(outcome.value.value.data.value) && error == old(error))
                && (outcome.Ok? && (outcome.value.None? || outcome.value.value.data.None?) ==>
                      form == old(form) && error == old(error))
                && (outcome.Failed? ==> form == old(form) && error == LoadUserError)
      ensures message == old(message) && changePassword == old(changePassword) && scheduled == old(scheduled)
      ensures browser.events == old(browser.events)
      ensures HasId() ==> (RoleLocked() <==> IsOwnProfile(currentUser, id))
    {
      if Truthy(id) {
        loading := true;
        var r := browser.Send(Get, ItemPathOf(Users, id.value), map[], outcome);
        if r.Ok? {
          if r.value.Some? && r.value.value.data.Some? {
            form := FormOf(r.value.value.data.value);
          }
        } else {
          error := LoadUserError;
        }
        loading := false;
      }
    }

    method HandleChange(field: Field, value: string)
      modifies this
      ensures form == SetField(old(form), field, value)
      ensures loading == old(loading) && message == old(message) && error == old(error)
      ensures changePassword == old(changePassword) && scheduled == old(scheduled)
    {
      form := SetField(form, field, value);
    }

    /** The "change password" checkbox. */
    method ToggleChangePassword()
      modifies this
      ensures changePassword == !old(changePassword)
      ensures form == old(form) && loading == old(loading) && message == old(message) && error == old(error)
      ensures scheduled == old(scheduled)
      ensures HasId() ==> ShowsPasswordInputs() == !old(ShowsPasswordInputs())
      ensures !HasId() ==> ShowsPasswordInputs()
    {
      changePassword := !changePassword;
    }

    /**
     * `handleSubmit`. A password problem is reported without any request.
     * Otherwise the payload is sent (PUT to the user's path when editing,
     * POST to the collection when creating); on success the message is
     * shown, one's own stored profile is rewritten after an edit, and the
     * return to the list is scheduled; on failure the field errors, else the
     * server message, else the fallback is shown.
     */
    method HandleSubmit(outcome: Outcome<()>, browser: Browser)
      modifies this, browser
      ensures !loading && form == old(form) && changePassword == old(changePassword)
      ensures NeedsPasswordCheck(HasId(), changePassword) && PasswordProblem(form.password, form.confirmation).Some? ==>
                && error == PasswordProblem(form.password, form.confirmation).value && message == ""
                && scheduled == old(scheduled)
                && browser.requests == old(browser.requests) && browser.storage == old(browser.storage)
                && browser.location == old(browser.location)
      ensures !NeedsPasswordCheck(HasId(), changePassword) || PasswordProblem(form.password, form.confirmation).None? ==>
                && browser.requests == old(browser.requests) + [
                     if HasId() then ClientRequest(old(browser.storage), Put, ItemPathOf(Users, id.value), Payload(form, true, changePassword))
                     else ClientRequest(old(browser.storage), Post, CollectionPath(Users), Payload(form, false, changePassword))]
                && browser.location == LocationAfter(old(browser.location), outcome)
                && (outcome.Ok? ==>
                      && error == "" && message == (if HasId() then UpdatedMessage else CreatedMessage)
                      && scheduled == Some(UsersRoute)
                      && browser.storage == (if HasId() && IsOwnProfile(currentUser, id)
                                             then WithProfile(old(browser.storage), UpdatedProfile(currentUser.value, form))
                                             else old(browser.storage)))
                && (outcome.Failed? ==>
                      && error == ErrorsFirst(outcome.error, SaveError) && message == ""
                      && scheduled == old(scheduled)
                      && browser.storage == StorageAfterError(old(browser.storage), outcome.error))
      ensures browser.events == old(browser.events)
      ensures RoleLocked() <==> IsOwnProfile(currentUser, id)
      ensures ShowsPasswordInputs() == old(ShowsPasswordInputs())
    {
      error := "";
      message := "";
      loading := true;
      if NeedsPasswordCheck(Truthy(id), changePassword) {
        var problem := PasswordProblem(form.password, form.confirmation);
        if problem.Some? {
          error := problem.value;
          loading := false;
          return;
        }
      }
      var payload := Payload(form, Truthy(id), changePassword);
      var r;
      if Truthy(id) {
        r := browser.Send(Put, ItemPathOf(Users, id.value), payload, outcome);
        if r.Ok? {
          message := UpdatedMessage;
          if IsOwnProfile(currentUser, id) {
            browser.storage := WithProfile(browser.storage, UpdatedProfile(currentUser.value, form));
          }
          scheduled := Some(UsersRoute);
        }
      } else {
        r := browser.Send(Post, CollectionPath(Users), payload, outcome);
        if r.Ok? {
          message := CreatedMessage;
          scheduled := Some(UsersRoute);
        }
      }
      if r.Failed? {
        error := ErrorsFirst(r.error, SaveError);
      }
      loading := false;
    }
  }

  /** After editing one's own profile, the store reads back the edited name, email and role under the same id. */
  lemma OwnEditIsReadBack(s: Storage, current: UserProfile, f: UserFields)
    ensures GetUser(WithProfile(s, UpdatedProfile(current, f))) == Parsed(current.(name := f.name, email := f.email, role := f.role))
    ensures IsAuthenticated(WithProfile(s, UpdatedProfile(current, f))) <==> IsAuthenticated(s)
  {
  }
}
