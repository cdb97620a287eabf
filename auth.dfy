/** The session state held by `AuthProvider` (src/hooks/auth.tsx): the signed-in
    user, the restore-in-progress flag, and the one storage record they mirror. */
module Auth {
  import opened Js

  /** The storage key under which the user record is kept. */
  const StorageCollectionKey := "@gofinances:user"

  /** The `response_type` the Google authorization request asks for. */
  const ResponseType := "token"

  /** The fixed `name` given to every Apple user. The source file stores the
      UTF-8 bytes of "Usuário" mis-decoded; this is the text as written there. */
  const AppleUserName := "Usu\U{221A}\U{00B0}rio"

  /** The avatar service URL to which the Apple given name is appended. */
  const AvatarUrlPrefix := "https://ui-avatars.com/api/?length=1&background=0D8ABC&color=fff&name="

  datatype User = User(
    id: JsString,
    email: JsString,
    name: JsString,
    given_name: JsString,
    family_name: JsString,
    picture: JsString)

  /** The terminal outcome of the browser redirect session: `{type, params}`. */
  datatype AuthSessionResponse = AuthSessionResponse(responseType: string, accessToken: JsString)

  datatype FullName = FullName(givenName: JsString, familyName: JsString)

  /** The native credential; `fullName` is `None` when the platform sends `null`. */
  datatype AppleCredential = AppleCredential(
    authorizationCode: JsString,
    email: JsString,
    fullName: Option<FullName>)

  /** An awaited provider call: it either threw or resolved to a value. */
  datatype Attempt<T> = Threw(message: string) | Resolved(value: T)

  /** Why a sign-in was rethrown to its caller. */
  datatype AuthError =
    | ProviderError(message: string)  // the provider call itself threw
    | MissingFullName                 // `credentials.fullName` was null, so reading `givenName` threw

  datatype SignInResult = Completed | Failed(error: AuthError)

  /** A snapshot of the provider's state: the in-memory `user` (`None` is the
      empty record `{}`), `loginLoading`, and the key/value storage. */
  datatype Session = Session(user: Option<User>, loginLoading: bool, storage: map<string, User>)

  /** Memory and storage agree: a user is in memory exactly when a record is
      stored under the key, and then they are the same record. */
  predicate Agree(s: Session)
  {
    (s.user.Some? <==> StorageCollectionKey in s.storage) &&
    (s.user.Some? ==> s.storage[StorageCollectionKey] == s.user.value)
  }

  /** The invariant every transition keeps: memory and storage agree, except
      before the first restore, when memory is still empty. */
  predicate Valid(s: Session)
  {
    Agree(s) || (s.loginLoading && s.user.None?)
  }

  /** The state before the stored record has been read. */
  function Initial(storage: map<string, User>): (s: Session)
    ensures s.loginLoading && s.user.None? && s.storage == storage
    ensures Valid(s)
  {
    Session(None, true, storage)
  }

  /** `loadUserDataFromStorage`: adopt the stored record when there is one,
      and in every case end the loading phase. */
  function Restored(s: Session): (r: Session)
    ensures !r.loginLoading && r.storage == s.storage
    ensures StorageCollectionKey in s.storage ==> r.user == Some(s.storage[StorageCollectionKey])
    ensures StorageCollectionKey !in s.storage ==> r.user == s.user
    ensures Valid(s) ==> Agree(r)
  {
    if StorageCollectionKey in s.storage then
      s.(user := Some(s.storage[StorageCollectionKey]), loginLoading := false)
    else
      s.(loginLoading := false)
  }

  /** Replace the user wholesale and write the same record to storage. */
  function SignedIn(s: Session, u: User): (r: Session)
    ensures r.user == Some(u) && StorageCollectionKey in r.storage && r.storage[StorageCollectionKey] == u
    ensures r.loginLoading == s.loginLoading
    ensures forall k :: k != StorageCollectionKey ==> (k in r.storage <==> k in s.storage)
    ensures forall k :: k != StorageCollectionKey && k in s.storage ==> r.storage[k] == s.storage[k]
    ensures Agree(r)
  {
    s.(user := Some(u), storage := s.storage[StorageCollectionKey := u])
  }

  /** `GoogleSignIn`: the redirect outcome, then the profile the userinfo
      endpoint returns for the access token (`None` when that fetch fails). */
  function AfterGoogle(s: Session, response: Attempt<AuthSessionResponse>, profileFor: JsString -> Option<User>)
    : (r: (Session, SignInResult))
    ensures r.1.Failed? <==> response.Threw?
    ensures response.Threw? ==> r.1.error == ProviderError(response.message)
    ensures r.0 != s ==>
              response.Resolved? && response.value.responseType == "success" &&
              profileFor(response.value.accessToken).Some?
    ensures response.Resolved? && response.value.responseType == "success" &&
            profileFor(response.value.accessToken).Some? ==>
              r.0 == SignedIn(s, profileFor(response.value.accessToken).value)
    ensures Valid(s) ==> Valid(r.0)
  {
    match response
    case Threw(message) => (s, Failed(ProviderError(message)))
    case Resolved(outcome) =>
      if outcome.responseType == "success" then
        match profileFor(outcome.accessToken)
        case Some(userInfo) => (SignedIn(s, userInfo), Completed)
        case None => (s, Completed)
      else
        (s, Completed)
  }

  /** The user built from an Apple credential, or `None` when the credential
      has no `fullName` and the code reading it throws. */
  function AppleUser(c: AppleCredential): (r: Option<User>)
    ensures r.Some? <==> c.fullName.Some?
    ensures r.Some? ==>
              r.value.id == c.authorizationCode &&
              r.value.email == c.email &&
              r.value.name == Text(AppleUserName) &&
              r.value.given_name == c.fullName.value.givenName &&
              r.value.family_name == c.fullName.value.familyName
    ensures r.Some? ==>
              r.value.picture.Text? &&
              |AvatarUrlPrefix| <= |r.value.picture.s| &&
              r.value.picture.s[..|AvatarUrlPrefix|] == AvatarUrlPrefix &&
              r.value.picture.s[|AvatarUrlPrefix|..] == Interpolate(r.value.given_name)
  {
    match c.fullName
    case None => None
    case Some(fullName) =>
      var given_name := fullName.givenName;
      var picture := AvatarUrlPrefix + Interpolate(given_name);
      Some(User(
        id := c.authorizationCode,
        email := c.email,
        name := Text(AppleUserName),
        given_name := given_name,
        family_name := fullName.familyName,
        picture := Text(picture)))
  }

  /** `AppleSignIn`: the awaited credential request (`Resolved(None)` is a
      falsy credential, which the code skips). */
  function AfterApple(s: Session, response: Attempt<Option<AppleCredential>>): (r: (Session, SignInResult))
    ensures r.1.Failed? <==>
              response.Threw? || (response.Resolved? && response.value.Some? && response.value.value.fullName.None?)
    ensures response.Threw? ==> r == (s, Failed(ProviderError(response.message)))
    ensures response.Resolved? && response.value.Some? && response.value.value.fullName.None? ==>
              r == (s, Failed(MissingFullName))
    ensures r.1.Failed? ==> r.0 == s
    ensures response == Resolved(None) ==> r == (s, Completed)
    ensures r.0 != s ==> response.Resolved? && response.value.Some? && response.value.value.fullName.Some?
    ensures response.Resolved? && response.value.Some? && response.value.value.fullName.Some? ==>
              r.0 == SignedIn(s, AppleUser(response.value.value).value)
    ensures Valid(s) ==> Valid(r.0)
  {
    match response
    case Threw(message) => (s, Failed(ProviderError(message)))
    case Resolved(None) => (s, Completed)
    case Resolved(Some(credentials)) =>
      match AppleUser(credentials)
      case None => (s, Failed(MissingFullName))
      case Some(formattedUser) => (SignedIn(s, formattedUser), Completed)
  }

  /** `signOut`: empty the in-memory user and remove the stored record. */
  function SignedOut(s: Session): (r: Session)
    ensures r.user.None? && StorageCollectionKey !in r.storage
    ensures r.storage == s.storage - {StorageCollectionKey}
    ensures r.loginLoading == s.loginLoading
    ensures Agree(r)
  {
    s.(user := None, storage := s.storage - {StorageCollectionKey})
  }

  /** Signing out twice leaves the same state as signing out once. */
  lemma SignOutIdempotent(s: Session)
    ensures SignedOut(SignedOut(s)) == SignedOut(s)
  {
  }

  /** A restore that finds no stored record leaves the user empty; one that
      finds a record adopts it. Either way loading is over. */
  lemma RestoreFromStart(storage: map<string, User>)
    ensures var r := Restored(Initial(storage));
            !r.loginLoading && Agree(r) &&
            r.user == (if StorageCollectionKey in storage then Some(storage[StorageCollectionKey]) else None)
  {
  }

  /** `AuthProvider` itself: the two React state cells and the shared storage. */
  class AuthProvider {
    var user: Option<User>
    var loginLoading: bool
    var storage: map<string, User>

    function State(): Session
      reads this
    {
      Session(user, loginLoading, storage)
    }

    /** Mounting the provider: empty user, loading, storage as found. */
    constructor (persisted: map<string, User>)
      ensures State() == Initial(persisted)
    {
      user := None;
      loginLoading := true;
      storage := persisted;
    }

    method LoadUserDataFromStorage()
      modifies this
      ensures State() == Restored(old(State()))
    {
      if StorageCollectionKey in storage {
        var formattedData := storage[StorageCollectionKey];
        user := Some(formattedData);
      }
      loginLoading := false;
    }

    method GoogleSignIn(response: Attempt<AuthSessionResponse>, profileFor: JsString -> Option<User>)
      returns (result: SignInResult)
      modifies this
      ensures (State(), result) == AfterGoogle(old(State()), response, profileFor)
    {
      if response.Threw? {
        return Failed(ProviderError(response.message));
      }
      var outcome := response.value;
      if outcome.responseType == "success" {
        var userInfo := profileFor(outcome.accessToken);
        if userInfo.Some? {
          user := userInfo;
          storage := storage[StorageCollectionKey := userInfo.value];
        }
      }
      result := Completed;
    }

    method AppleSignIn(response: Attempt<Option<AppleCredential>>) returns (result: SignInResult)
      modifies this
      ensures (State(), result) == AfterApple(old(State()), response)
    {
      if response.Threw? {
        return Failed(ProviderError(response.message));
      }
      var credentials := response.value;
      if credentials.Some? {
        var formattedUser := AppleUser(credentials.value);
        if formattedUser.None? {
          return Failed(MissingFullName);
        }
        user := formattedUser;
        storage := storage[StorageCollectionKey := formattedUser.value];
      }
      result := Completed;
    }

    method SignOut()
      modifies this
      ensures State() == SignedOut(old(State()))
    {
      user := None;
      storage := storage - {StorageCollectionKey};
    }
  }
}
