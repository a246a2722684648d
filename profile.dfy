/** The EcoTrack profile page (`client/pages/Profile.tsx`): the edit form, its
    defaults, its synchronisation with the signed-in user and the save,
    cancel and edit-toggle handlers. */
module Profile {
  import opened Wrappers
  import opened Text
  import AuthContext

  const DefaultName: string := "John Doe"
  const DefaultEmail: string := "john.doe@example.com"
  const DefaultPhone: string := "+1 (555) 123-4567"
  const DefaultLocation: string := "New York, NY"

  datatype FormData = FormData(name: string, email: string, phone: string, location: string)

  /** The four inputs of the form. */
  datatype Field = Name | Email | Phone | Location

  /** The form as first rendered, and as restored by Cancel: each field from
      the user when present and non-empty, else its fixed default. */
  function FormFromUser(user: Option<AuthContext.User>): (f: FormData)
    ensures user.None? ==> f == FormData(DefaultName, DefaultEmail, DefaultPhone, DefaultLocation)
    ensures user.Some? ==> f.name == (if user.value.name != "" then user.value.name else DefaultName)
    ensures user.Some? ==> f.email == (if user.value.email != "" then user.value.email else DefaultEmail)
    ensures user.Some? ==> f.phone == (if Truthy(user.value.phone) then user.value.phone.value else DefaultPhone)
    ensures user.Some? ==> f.location == (if Truthy(user.value.location) then user.value.location.value else DefaultLocation)
  {
    match user
    case None => FormData(DefaultName, DefaultEmail, DefaultPhone, DefaultLocation)
    case Some(u) =>
      FormData(OrElse(Some(u.name), DefaultName), OrElse(Some(u.email), DefaultEmail),
               OrElse(u.phone, DefaultPhone), OrElse(u.location, DefaultLocation))
  }

  /** The form after the user changes: name and email copied as they are,
      phone and location falling back to the defaults. */
  function SyncedForm(u: AuthContext.User): (f: FormData)
    ensures f.name == u.name && f.email == u.email
    ensures f.phone == (if Truthy(u.phone) then u.phone.value else DefaultPhone)
    ensures f.location == (if Truthy(u.location) then u.location.value else DefaultLocation)
  {
    FormData(u.name, u.email, OrElse(u.phone, DefaultPhone), OrElse(u.location, DefaultLocation))
  }

  /** Synchronising and cancelling give the same form exactly when the user
      has a name and an email; an empty one is shown empty after a sync but
      as the default after a cancel. */
  lemma SyncAgreesWithCancel(u: AuthContext.User)
    ensures SyncedForm(u) == FormFromUser(Some(u)) <==> u.name != "" && u.email != ""
  {
  }

  /** `handleInputChange(field, value)`. */
  function WithField(f: FormData, field: Field, value: string): (g: FormData)
    ensures field == Name ==> g == f.(name := value)
    ensures field == Email ==> g == f.(email := value)
    ensures field == Phone ==> g == f.(phone := value)
    ensures field == Location ==> g == f.(location := value)
  {
    match field
    case Name => f.(name := value)
    case Email => f.(email := value)
    case Phone => f.(phone := value)
    case Location => f.(location := value)
  }

  /** The value of one field. */
  function FieldValue(f: FormData, field: Field): string {
    match field
    case Name => f.name
    case Email => f.email
    case Phone => f.phone
    case Location => f.location
  }

  /** An edit sets its own field and no other. */
  lemma WithFieldFrame(f: FormData, field: Field, value: string, other: Field)
    ensures FieldValue(WithField(f, field, value), field) == value
    ensures other != field ==> FieldValue(WithField(f, field, value), other) == FieldValue(f, other)
  {
  }

  /** The update the form sends: all four fields, as typed. */
  function UpdateFor(f: FormData): AuthContext.ProfileUpdate {
    AuthContext.ProfileUpdate(Some(f.name), Some(f.email), Some(f.phone), Some(f.location))
  }

  /** Saving with the name field emptied does not blank the name: the store
      falls back to the current one. The phone and location are always sent
      as typed. */
  lemma EmptiedNameKeepsCurrent(current: AuthContext.User, f: FormData)
    requires f.name == ""
    ensures AuthContext.ProfilePayloadFor(current, UpdateFor(f)).name == current.name
    ensures AuthContext.ProfilePayloadFor(current, UpdateFor(f)).phone == Some(f.phone)
    ensures AuthContext.ProfilePayloadFor(current, UpdateFor(f)).location == Some(f.location)
  {
  }

  class ProfilePage {
    var formData: FormData
    var isEditing: bool
    var isSaving: bool
    var saveSuccess: bool

    constructor (user: Option<AuthContext.User>)
      ensures formData == FormFromUser(user) && !isEditing && !isSaving && !saveSuccess
    {
      formData := FormFromUser(user);
      isEditing := false;
      isSaving := false;
      saveSuccess := false;
    }

    /** The effect on a change of user: a signed-in user overwrites the form;
        signing out leaves it. */
    method SyncFromUser(user: Option<AuthContext.User>)
      modifies this
      ensures user.Some? ==> formData == SyncedForm(user.value)
      ensures user.None? ==> formData == old(formData)
      ensures isEditing == old(isEditing) && isSaving == old(isSaving) && saveSuccess == old(saveSuccess)
    {
      if user.Some? {
        formData := SyncedForm(user.value);
      }
    }

    method HandleInputChange(field: Field, value: string)
      modifies this
      ensures formData == WithField(old(formData), field, value)
      ensures isEditing == old(isEditing) && isSaving == old(isSaving) && saveSuccess == old(saveSuccess)
    {
      formData := WithField(formData, field, value);
    }

    /** `handleSave`: the form goes to the session store; success leaves edit
        mode and shows the confirmation, failure stays in edit mode. Saving
        has ended afterwards either way. */
    method HandleSave(auth: AuthContext.AuthStore, outcome: Outcome<AuthContext.User>)
      returns (ok: bool, sent: Option<AuthContext.ProfilePayload>)
      modifies this, auth
      ensures !isSaving
      ensures old(auth.user).None? ==> !ok && sent == None
      ensures old(auth.user).Some? ==> ok == outcome.Ok? && sent == Some(AuthContext.ProfilePayloadFor(old(auth.user).value, UpdateFor(old(formData))))
      ensures ok ==> !isEditing && saveSuccess && auth.user == Some(outcome.value)
      ensures !ok ==> isEditing == old(isEditing) && saveSuccess == old(saveSuccess) && auth.user == old(auth.user)
      ensures formData == old(formData) && auth.token == old(auth.token) && auth.isLoading == old(auth.isLoading)
    {
      isSaving := true;
      ok, sent := auth.UpdateProfile(UpdateFor(formData), outcome);
      if ok {
        isEditing := false;
        saveSuccess := true;
      }
      isSaving := false;
    }

    /** The delayed hiding of the confirmation. */
    method HideSaveSuccess()
      modifies this
      ensures !saveSuccess
      ensures formData == old(formData) && isEditing == old(isEditing) && isSaving == old(isSaving)
    {
      saveSuccess := false;
    }

    /** `handleCancel`: the form is restored from the user with defaults and
        edit mode ends. */
    method HandleCancel(user: Option<AuthContext.User>)
      modifies this
      ensures formData == FormFromUser(user) && !isEditing
      ensures isSaving == old(isSaving) && saveSuccess == old(saveSuccess)
    {
      formData := FormFromUser(user);
      isEditing := false;
    }

    /** The Edit Profile / Cancel header button. */
    method ToggleEditing()
      modifies this
      ensures isEditing == !old(isEditing)
      ensures formData == old(formData) && isSaving == old(isSaving) && saveSuccess == old(saveSuccess)
    {
      isEditing := !isEditing;
    }
  }

  /** The page opens (the first render, then the effect that syncs the form
      with a signed-in user), the user edits the phone and cancels. Cancel
      gives back the form shown on opening exactly when there is no user or
      the user has a name and an email: an empty name or email is shown
      empty after the sync but comes back as the default after Cancel. */
  method EditThenCancelRestores(user: Option<AuthContext.User>, typed: string) returns (initial: FormData, restored: FormData)
    ensures restored == initial <==> user.None? || (user.value.name != "" && user.value.email != "")
  {
    var page := new ProfilePage(user);
    page.SyncFromUser(user);
    initial := page.formData;
    page.ToggleEditing();
    page.HandleInputChange(Phone, typed);
    page.HandleCancel(user);
    restored := page.formData;
    if user.Some? {
      SyncAgreesWithCancel(user.value);
    }
  }
}
