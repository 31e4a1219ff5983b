/** The session store: the signed-in user, cached in `localStorage` under
    "token" and "user" and checked for consistency when the page loads. The
    authentication endpoints are represented by the reply they gave. */
module Session {
  import opened Browser

  /** A user record as JSON carries it: any field may be missing. */
  datatype User = User(
    id: Option<string>,
    name: Option<string>,
    email: Option<string>,
    role: Option<string>,
    isAdmin: Option<bool>)

  const TokenKey: string := "token"
  const UserKey: string := "user"

  /** What the login or registration endpoint answered: a rejected request,
      or a response body holding user data and a token. */
  datatype AuthReply = RequestFailed | Reply(data: Option<User>, token: Option<string>)

  datatype AuthError =
    | RequestError        // the request itself was rejected and is re-thrown
    | MissingUserOrToken  // login's explicit check
    | NoUserPayload       // register reads `userData._id` of a missing payload

  datatype LoginOutcome = SignedIn(user: User) | LoginFailed(error: AuthError)

  /** The record login and register build from the response's user data. */
  function BuildUser(raw: User): User {
    User(
      raw.id,
      Some(if Truthy(raw.name) then raw.name.value else "User"),
      raw.email,
      Some(if Truthy(raw.role) then raw.role.value else "User"),
      Some(raw.role == Some("Admin") || raw.isAdmin == Some(true)))
  }

  /** The context's derived `isAdmin`. */
  function IsAdmin(user: Option<User>): (r: bool)
    ensures user.None? ==> !r
  {
    user.Some? && (user.value.role == Some("Admin") || user.value.isAdmin == Some(true))
  }

  /** The built record: id and email copied, name and role defaulted to
      "User" when falsy, and it is an administrator exactly when the raw
      role is "Admin" or the raw flag is true, which is also exactly when
      its own stored flag is true. */
  lemma BuildUserFields(raw: User)
    ensures BuildUser(raw).id == raw.id && BuildUser(raw).email == raw.email
    ensures BuildUser(raw).name == if Truthy(raw.name) then raw.name else Some("User")
    ensures BuildUser(raw).role == if Truthy(raw.role) then raw.role else Some("User")
    ensures IsAdmin(Some(BuildUser(raw))) <==> raw.role == Some("Admin") || raw.isAdmin == Some(true)
    ensures IsAdmin(Some(BuildUser(raw))) <==> BuildUser(raw).isAdmin == Some(true)
  {
  }

  /** The string stored under "token": storage stringifies a missing token
      to "undefined". */
  function StoredToken(token: Option<string>): string {
    if token.Some? then token.value else "undefined"
  }

  /** What the load effect decides: the user to restore, and whether both
      keys are removed. */
  datatype LoadDecision = LoadDecision(user: Option<User>, clearKeys: bool)

  function DecideLoad(token: Option<string>, stored: Option<string>, decode: string -> Option<User>): LoadDecision {
    if Truthy(token) && Truthy(stored) && stored.value != "undefined" then
      match decode(stored.value)
      case Some(u) => LoadDecision(Some(u), false)
      case None => LoadDecision(None, true)
    else if !Truthy(token) || !Truthy(stored) then LoadDecision(None, true)
    else LoadDecision(None, false)
  }

  /** The load effect's four cases at once: a user is restored exactly when
      both keys are present, the stored user is not "undefined" and parses;
      the keys are cleared exactly when no user is restored, except for a
      token stored beside the literal "undefined". */
  lemma LoadCases(token: Option<string>, stored: Option<string>, decode: string -> Option<User>)
    ensures DecideLoad(token, stored, decode).user.Some?
        <==> Truthy(token) && Truthy(stored) && stored.value != "undefined" && decode(stored.value).Some?
    ensures DecideLoad(token, stored, decode).user.Some? ==> DecideLoad(token, stored, decode).user == decode(stored.value)
    ensures DecideLoad(token, stored, decode).clearKeys
        <==> DecideLoad(token, stored, decode).user.None? && !(Truthy(token) && stored == Some("undefined"))
  {
  }

  /** A session written by a successful login is restored by the next load. */
  lemma LoginSurvivesReload(token: string, raw: User, codec: Codec<User>)
    requires RoundTrips(codec) && token != "" && codec.encode(BuildUser(raw)) != "undefined"
    ensures DecideLoad(Some(token), Some(codec.encode(BuildUser(raw))), codec.decode)
         == LoadDecision(Some(BuildUser(raw)), false)
  {
  }

  /** A registration whose reply had no token stores "undefined" as the
      token, which the next load takes for a real one. */
  lemma TokenlessRegisterSurvivesReload(raw: User, codec: Codec<User>)
    requires RoundTrips(codec) && codec.encode(BuildUser(raw)) != "undefined"
    ensures DecideLoad(Some(StoredToken(None)), Some(codec.encode(BuildUser(raw))), codec.decode).user
         == Some(BuildUser(raw))
  {
  }

  /** The user provider: its `user` and `loading` state over the shared
      storage. */
  class UserStore {
    var user: Option<User>
    var loading: bool
    const storage: LocalStorage
    const codec: Codec<User>

    /** Mounting the provider runs the load effect once. */
    constructor Mount(storage: LocalStorage, codec: Codec<User>)
      modifies storage
      ensures this.storage == storage && this.codec == codec && !loading
      ensures user == DecideLoad(old(storage.GetItem(TokenKey)), old(storage.GetItem(UserKey)), codec.decode).user
      ensures storage.entries
           == if DecideLoad(old(storage.GetItem(TokenKey)), old(storage.GetItem(UserKey)), codec.decode).clearKeys
              then old(storage.entries) - {TokenKey, UserKey}
              else old(storage.entries)
    {
      this.storage := storage;
      this.codec := codec;
      user := None;
      loading := true;
      new;
      var decision := DecideLoad(storage.GetItem(TokenKey), storage.GetItem(UserKey), codec.decode);
      user := decision.user;
      if decision.clearKeys {
        storage.RemoveItem(TokenKey);
        storage.RemoveItem(UserKey);
      }
      loading := false;
    }

    /** The context's `isAdmin`. */
    function Admin(): bool
      reads this
    {
      IsAdmin(user)
    }

    /** `login`, given the reply of the login endpoint. */
    method Login(reply: AuthReply) returns (outcome: LoginOutcome)
      modifies this, storage
      ensures reply.RequestFailed? ==> outcome == LoginFailed(RequestError)
      ensures reply.Reply? && (reply.data.None? || !Truthy(reply.token))
              ==> outcome == LoginFailed(MissingUserOrToken)
      ensures outcome.LoginFailed? ==> user == old(user) && storage.entries == old(storage.entries)
      ensures reply.Reply? && reply.data.Some? && Truthy(reply.token) ==>
              && outcome == SignedIn(BuildUser(reply.data.value))
              && user == Some(outcome.user)
              && storage.entries
                 == old(storage.entries)[TokenKey := reply.token.value][UserKey := codec.encode(outcome.user)]
      ensures loading == old(loading)
    {
      if reply.RequestFailed? {
        return LoginFailed(RequestError);
      }
      if reply.data.None? || !Truthy(reply.token) {
        return LoginFailed(MissingUserOrToken);
      }
      var u := BuildUser(reply.data.value);
      storage.SetItem(TokenKey, reply.token.value);
      storage.SetItem(UserKey, codec.encode(u));
      user := Some(u);
      outcome := SignedIn(u);
    }

    /** `register`, given the reply of the registration endpoint. There is
        no token check: a missing token is stored as "undefined". */
    method Register(reply: AuthReply) returns (failure: Option<AuthError>)
      modifies this, storage
      ensures reply.RequestFailed? ==> failure == Some(RequestError)
      ensures reply.Reply? && reply.data.None? ==> failure == Some(NoUserPayload)
      ensures failure.Some? ==> user == old(user) && storage.entries == old(storage.entries)
      ensures reply.Reply? && reply.data.Some? ==>
              && failure.None?
              && user == Some(BuildUser(reply.data.value))
              && storage.entries
                 == old(storage.entries)[TokenKey := StoredToken(reply.token)]
                                        [UserKey := codec.encode(BuildUser(reply.data.value))]
      ensures loading == old(loading)
    {
      if reply.RequestFailed? {
        return Some(RequestError);
      }
      if reply.data.None? {
        return Some(NoUserPayload);
      }
      var u := BuildUser(reply.data.value);
      storage.SetItem(TokenKey, StoredToken(reply.token));
      storage.SetItem(UserKey, codec.encode(u));
      user := Some(u);
      failure := None;
    }

    /** `logout`: whatever the prior state. */
    method Logout()
      modifies this, storage
      ensures user == None && !Admin()
      ensures storage.entries == old(storage.entries) - {TokenKey, UserKey}
      ensures loading == old(loading)
    {
      storage.RemoveItem(TokenKey);
      storage.RemoveItem(UserKey);
      user := None;
    }
  }
}
