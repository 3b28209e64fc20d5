/** The session store (src/stores/useAuthStore.ts): whether a user is signed in, the
    user record and the bearer token, derived from durable storage when the application
    starts and changed only by login, logout and the flag setter. */
module AuthStore {
  import opened Common
  import opened BrowserStorage

  /** The three observable fields of the store. The user record is kept as the opaque
      text it is stored as. */
  datatype Session = Session(isAuthenticated: bool, user: Option<string>, token: Option<string>)

  const SignedOut := Session(false, None, None)

  /** The parts of a successful login response the store keeps. */
  datatype LoginBody = LoginBody(token: string, user: string)

  /** Why `login` rejected: the backend answered with a non-2xx status ('Login failed'),
      or the request itself failed and its error is passed on unchanged. */
  datatype LoginError = LoginFailed | RequestFailed

  /** The state the store is created with: signed in exactly when a non-empty token is
      stored, the token as stored (or none), the user as stored when it is non-empty. */
  function SessionFromStorage(entries: map<string, string>): (s: Session)
    ensures s.isAuthenticated ==> s.token.Some? && s.token.value != ""
    ensures s.token.Some? && s.token.value != "" ==> s.isAuthenticated
    ensures s.token == if TokenKey in entries then Some(entries[TokenKey]) else None
    ensures s.user == if UserKey in entries && entries[UserKey] != "" then Some(entries[UserKey]) else None
  {
    Session(
      TokenKey in entries && entries[TokenKey] != "",
      if UserKey in entries && entries[UserKey] != "" then Some(entries[UserKey]) else None,
      if TokenKey in entries then Some(entries[TokenKey]) else None)
  }

  /** Storage emptied by logout yields the signed-out state on the next start. */
  lemma RestartAfterLogout()
    ensures SessionFromStorage(map[]) == SignedOut
  {
  }

  /** What a successful login writes is read back on the next start as the same session,
      provided the backend sent a non-empty token and user record. */
  lemma RestartAfterLogin(entries: map<string, string>, body: LoginBody)
    requires body.token != "" && body.user != ""
    ensures SessionFromStorage(entries[TokenKey := body.token][UserKey := body.user])
         == Session(true, Some(body.user), Some(body.token))
  {
    var after := entries[TokenKey := body.token][UserKey := body.user];
    assert TokenKey != UserKey;
    assert after[TokenKey] == body.token;
  }

  /** An empty token is stored but does not sign the user in on the next start. */
  lemma EmptyTokenIsSignedOut(entries: map<string, string>)
    requires TokenKey in entries && entries[TokenKey] == ""
    ensures !SessionFromStorage(entries).isAuthenticated
    ensures SessionFromStorage(entries).token == Some("")
  {
  }

  class Store {
    const storage: LocalStorage
    var isAuthenticated: bool
    var user: Option<string>
    var token: Option<string>

    function State(): Session
      reads this
    {
      Session(isAuthenticated, user, token)
    }

    /** The store is created once, from what durable storage holds at start. */
    constructor (storage: LocalStorage)
      ensures this.storage == storage
      ensures State() == SessionFromStorage(storage.entries)
    {
      this.storage := storage;
      var s := SessionFromStorage(storage.entries);
      isAuthenticated := s.isAuthenticated;
      user := s.user;
      token := s.token;
    }

    /** `setIsAuthenticated`: changes the flag and nothing else. */
    method SetIsAuthenticated(value: bool)
      modifies this
      ensures isAuthenticated == value
      ensures user == old(user) && token == old(token)
    {
      isAuthenticated := value;
    }

    /** `login`: on a 2xx response stores the token and the user record and signs in;
        otherwise rejects and leaves both the store and durable storage as they were.
        The credentials travel only in the request, which is not represented. The result
        is the error the returned promise rejects with, or None when it resolves. */
    method Login(outcome: Outcome<LoginBody>) returns (rejected: Option<LoginError>)
      modifies this, storage
      ensures outcome.Ok? ==> rejected == None
      ensures outcome.Ok? ==> State() == Session(true, Some(outcome.body.user), Some(outcome.body.token))
      ensures outcome.Ok? ==>
        storage.entries == old(storage.entries)[TokenKey := outcome.body.token][UserKey := outcome.body.user]
      ensures outcome.HttpError? ==> rejected == Some(LoginFailed)
      ensures outcome.Thrown? ==> rejected == Some(RequestFailed)
      ensures !outcome.Ok? ==> State() == old(State()) && storage.entries == old(storage.entries)
      ensures storage.cartItems == old(storage.cartItems)
    {
      match outcome
      case HttpError(_, _) =>
        rejected := Some(LoginFailed);
      case Thrown =>
        rejected := Some(RequestFailed);
      case Ok(body) =>
        storage.entries := storage.entries[TokenKey := body.token];
        storage.entries := storage.entries[UserKey := body.user];
        isAuthenticated, token, user := true, Some(body.token), Some(body.user);
        rejected := None;
    }

    /** `logout`: empties durable storage and resets the store, whatever it held. */
    method Logout()
      modifies this, storage
      ensures State() == SignedOut
      ensures storage.entries == map[] && storage.cartItems == None
    {
      storage.entries := map[];
      storage.cartItems := None;
      isAuthenticated, token, user := false, None, None;
    }

    /** The application shell's effect (src/App.tsx:16-20): whenever the flag is false,
        durable storage is emptied. */
    method ClearIfSignedOut()
      modifies storage
      ensures !isAuthenticated ==> storage.entries == map[] && storage.cartItems == None
      ensures isAuthenticated ==>
        storage.entries == old(storage.entries) && storage.cartItems == old(storage.cartItems)
    {
      if !isAuthenticated {
        storage.entries := map[];
        storage.cartItems := None;
      }
    }
  }

  /** Logging out twice leaves exactly the state one logout leaves. */
  method LogoutIsIdempotent(s: Store)
    modifies s, s.storage
    ensures s.State() == SignedOut
    ensures s.storage.entries == map[] && s.storage.cartItems == None
  {
    s.Logout();
    var once, onceEntries := s.State(), s.storage.entries;
    s.Logout();
    assert s.State() == once && s.storage.entries == onceEntries;
  }
}
