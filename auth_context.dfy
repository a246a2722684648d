/** The EcoTrack session store (`client/contexts/auth-context.tsx`): the
    current user, the loading flag and the stored session token. Each server
    call is one step whose settled outcome is a parameter; the token's
    storage slot (`localStorage["ecotrack-token"]`) is the field `token`. */
module AuthContext {
  import opened Wrappers
  import opened Text

  datatype User = User(
    id: string,
    name: string,
    email: string,
    avatar: Option<string>,
    points: int,
    joinedDate: string,
    phone: Option<string>,
    location: Option<string>)

  /** The `{ token, user }` answer of login and registration. */
  datatype Session = Session(token: string, user: User)

  /** The fields of `Partial<User>` that `updateProfile` reads. */
  datatype ProfileUpdate = ProfileUpdate(
    name: Option<string>,
    email: Option<string>,
    phone: Option<string>,
    location: Option<string>)

  /** The body of the profile update request. */
  datatype ProfilePayload = ProfilePayload(
    name: string,
    email: string,
    phone: Option<string>,
    location: Option<string>)

  /** `name: updates.name || user.name, email: updates.email || user.email,
      phone: updates.phone, location: updates.location`. */
  function ProfilePayloadFor(current: User, updates: ProfileUpdate): (p: ProfilePayload)
    ensures p.name == (if Truthy(updates.name) then updates.name.value else current.name)
    ensures p.email == (if Truthy(updates.email) then updates.email.value else current.email)
    ensures p.phone == updates.phone && p.location == updates.location
  {
    ProfilePayload(OrElse(updates.name, current.name), OrElse(updates.email, current.email),
                   updates.phone, updates.location)
  }

  /** An update can never blank out a name or an email the user has: an
      absent or empty value keeps the current one. */
  lemma ProfilePayloadKeepsIdentity(current: User, updates: ProfileUpdate)
    requires current.name != "" && current.email != ""
    ensures ProfilePayloadFor(current, updates).name != ""
    ensures ProfilePayloadFor(current, updates).email != ""
    ensures !Truthy(updates.name) ==> ProfilePayloadFor(current, updates).name == current.name
  {
  }

  class AuthStore {
    var user: Option<User>
    var isLoading: bool
    /** The session token slot of local storage. */
    var token: Option<string>

    /** The provider as first rendered, before its mount check has run. */
    constructor (storedToken: Option<string>)
      ensures user == None && isLoading && token == storedToken
    {
      user := None;
      isLoading := true;
      token := storedToken;
    }

    /** The mount check: with a stored (truthy) token the profile is fetched;
        a fetched user is kept, any failure removes the token. Loading ends
        in every case. Returns whether the profile was requested. */
    method CheckAuthStatus(profile: Outcome<User>) returns (fetched: bool)
      modifies this
      ensures fetched == Truthy(old(token))
      ensures !isLoading
      ensures fetched && profile.Ok? ==> user == Some(profile.value) && token == old(token)
      ensures fetched && profile.Err? ==> user == old(user) && token == None
      ensures !fetched ==> user == old(user) && token == old(token)
    {
      fetched := Truthy(token);
      if fetched {
        match profile
        case Ok(u) => user := Some(u);
        case Err(_) => token := None;
      }
      isLoading := false;
    }

    /** Stores the session of a successful login or registration. */
    method Authenticate(outcome: Outcome<Session>) returns (ok: bool)
      modifies this
      ensures ok == outcome.Ok?
      ensures !isLoading
      ensures ok ==> user == Some(outcome.value.user) && token == Some(outcome.value.token)
      ensures !ok ==> user == old(user) && token == old(token)
    {
      isLoading := true;
      match outcome
      case Ok(session) =>
        token := Some(session.token);
        user := Some(session.user);
        isLoading := false;
        ok := true;
      case Err(_) =>
        isLoading := false;
        ok := false;
    }

    /** `login`: the outcome of the login call decides. */
    method Login(outcome: Outcome<Session>) returns (ok: bool)
      modifies this
      ensures ok == outcome.Ok?
      ensures !isLoading
      ensures ok ==> user == Some(outcome.value.user) && token == Some(outcome.value.token)
      ensures !ok ==> user == old(user) && token == old(token)
    {
      ok := Authenticate(outcome);
    }

    /** `signup`: the same contract as `login`, for the registration call. */
    method Signup(outcome: Outcome<Session>) returns (ok: bool)
      modifies this
      ensures ok == outcome.Ok?
      ensures !isLoading
      ensures ok ==> user == Some(outcome.value.user) && token == Some(outcome.value.token)
      ensures !ok ==> user == old(user) && token == old(token)
    {
      ok := Authenticate(outcome);
    }

    /** `logout`: no server call; user and token are both cleared. */
    method Logout()
      modifies this
      ensures user == None && token == None
      ensures isLoading == old(isLoading)
    {
      user := None;
      token := None;
    }

    /** `updateProfile`: refused without a user (no request is sent);
        otherwise the merged payload is sent and the server's user replaces
        the current one on success. Returns the payload sent, if any. */
    method UpdateProfile(updates: ProfileUpdate, outcome: Outcome<User>) returns (ok: bool, sent: Option<ProfilePayload>)
      modifies this
      ensures old(user).None? ==> !ok && sent == None && user == old(user)
      ensures old(user).Some? ==> sent == Some(ProfilePayloadFor(old(user).value, updates))
      ensures old(user).Some? ==> ok == outcome.Ok?
      ensures ok ==> user == Some(outcome.value)
      ensures !ok ==> user == old(user)
      ensures token == old(token) && isLoading == old(isLoading)
    {
      if user.None? {
        return false, None;
      }
      sent := Some(ProfilePayloadFor(user.value, updates));
      match outcome
      case Ok(u) =>
        user := Some(u);
        ok := true;
      case Err(_) =>
        ok := false;
    }
  }

  /** A stored token the server rejects (for instance with a 401) leaves no
      session behind: the token is removed, nobody is signed in and loading
      has ended, without an error reaching the caller. */
  method RejectedTokenOnMount(storedToken: string, rejection: string)
    returns (user: Option<User>, token: Option<string>, loading: bool)
    requires storedToken != ""
    ensures user == None && token == None && !loading
  {
    var store := new AuthStore(Some(storedToken));
    var _ := store.CheckAuthStatus(Err(rejection));
    user, token, loading := store.user, store.token, store.isLoading;
  }

  /** Without a stored token nothing is fetched and loading ends signed out. */
  method NoTokenOnMount(profile: Outcome<User>)
    returns (fetched: bool, user: Option<User>, loading: bool)
    ensures !fetched && user == None && !loading
  {
    var store := new AuthStore(None);
    fetched := store.CheckAuthStatus(profile);
    user, loading := store.user, store.isLoading;
  }
}
