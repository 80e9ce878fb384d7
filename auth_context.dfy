/**
 * The session store of components/AuthContext.tsx: the provider's state
 * `(user, token, isLoading)`, the two localStorage entries it persists, and
 * its four operations (restore on mount, login, register, logout).
 *
 * The state transitions are given once as functions on `Session` values;
 * the `AuthProvider` class performs them step by step on its fields and is
 * proved to agree with them.  JSON.parse and JSON.stringify are parameters:
 * `parse` returns None where JSON.parse throws.
 */
module AuthContext {
  import opened Wrappers
  import opened Types
  import opened Constants

  /** localStorage, as a map from key to stored string. */
  type Storage = map<string, string>

  /** JSON.parse applied to a stored user record: None when it throws. */
  type Parser = string -> Option<User>

  /** JSON.stringify applied to a user record. */
  type Serializer = User -> string

  /** The state of the provider together with the storage it persists to. */
  datatype Session = Session(
    user: Option<User>,
    token: Option<string>,
    isLoading: bool,
    storage: Storage)

  /** `localStorage.getItem(key)`: null when the key is absent. */
  function GetItem(storage: Storage, key: string): (item: Option<string>)
    ensures item.Some? <==> key in storage
    ensures item.Some? ==> item.value == storage[key]
  {
    if key in storage then Some(storage[key]) else None
  }

  /** Both entries removed (lines 40-41 and 76-77); any other key is kept. */
  function WithoutSession(storage: Storage): (r: Storage)
    ensures JWT_TOKEN_KEY !in r && USER_INFO_KEY !in r
    ensures forall k :: k in storage && k != JWT_TOKEN_KEY && k != USER_INFO_KEY ==> k in r && r[k] == storage[k]
    ensures forall k :: k in r ==> k in storage
  {
    storage - {JWT_TOKEN_KEY, USER_INFO_KEY}
  }

  /** `!!user && !!token` (line 82). */
  predicate IsAuthenticated(s: Session): (b: bool)
    ensures b ==> Role(s).Some? && s.token.Some?
    ensures s.user.None? || s.token.None? || s.token == Some("") ==> !b
    ensures s.user.Some? && s.token.Some? && s.token.value != "" ==> b
  {
    s.user.Some? && Truthy(s.token)
  }

  /** `user ? user.role : null` (line 83). */
  function Role(s: Session): (r: Option<string>)
    ensures r.Some? <==> s.user.Some?
    ensures r.Some? ==> r.value == s.user.value.role
  {
    if s.user.Some? then Some(s.user.value.role) else None
  }

  /** The derived values agree: an authenticated session has its user's role. */
  lemma AuthenticatedHasRole(s: Session)
    ensures IsAuthenticated(s) ==> Role(s) == Some(s.user.value.role)
    ensures Role(s).None? ==> !IsAuthenticated(s)
    ensures IsAuthenticated(s) <==> Role(s).Some? && Truthy(s.token)
  {
  }

  /** The state on mount: nobody logged in, still loading (lines 25-27). */
  function Initial(storage: Storage): (s: Session)
    ensures s.user.None? && s.token.None? && s.isLoading && s.storage == storage
    ensures !IsAuthenticated(s) && Role(s).None?
  {
    Session(None, None, true, storage)
  }

  /** What the mount effect finds in storage (lines 30-33). */
  predicate BothStored(storage: Storage) {
    Truthy(GetItem(storage, JWT_TOKEN_KEY)) && Truthy(GetItem(storage, USER_INFO_KEY))
  }

  /**
   * The mount effect (lines 29-45).  When both entries are present and
   * non-empty, the stored user is parsed; on success token and user are
   * taken from storage, on failure both entries are removed.  In every other
   * case nothing is touched.  Loading ends in every branch.
   */
  function Restored(s: Session, parse: Parser): (r: Session)
    ensures !r.isLoading
    ensures BothStored(s.storage) && parse(s.storage[USER_INFO_KEY]).Some? ==>
      r.token == Some(s.storage[JWT_TOKEN_KEY]) &&
      r.user == parse(s.storage[USER_INFO_KEY]) &&
      r.storage == s.storage
    ensures BothStored(s.storage) && parse(s.storage[USER_INFO_KEY]).None? ==>
      r.user == s.user && r.token == s.token && r.storage == WithoutSession(s.storage)
    ensures !BothStored(s.storage) ==>
      r.user == s.user && r.token == s.token && r.storage == s.storage
  {
    var storedToken := GetItem(s.storage, JWT_TOKEN_KEY);
    var storedUser := GetItem(s.storage, USER_INFO_KEY);
    var after :=
      if Truthy(storedToken) && Truthy(storedUser) then
        match parse(storedUser.value)
        case Some(parsedUser) => s.(token := storedToken, user := Some(parsedUser))
        case None => s.(storage := WithoutSession(s.storage))
      else s;
    after.(isLoading := false)
  }

  /**
   * The common completion of login and register (lines 48-58, 62-72): a
   * response with `success` and `data` is persisted and adopted; any other
   * response leaves user, token and storage as they were.  Loading ends
   * either way.
   */
  function AfterExchange(s: Session, response: ApiResponse<AuthResponse>, stringify: Serializer): (r: Session)
    ensures !r.isLoading
    ensures HasData(response) ==>
      var data := response.data.value;
      r.token == Some(data.token) && r.user == Some(data.user) &&
      r.storage == s.storage[JWT_TOKEN_KEY := data.token][USER_INFO_KEY := stringify(data.user)]
    ensures !HasData(response) ==> r == s.(isLoading := false)
  {
    if HasData(response) then
      var data := response.data.value;
      var storage := s.storage[JWT_TOKEN_KEY := data.token];
      var storage := storage[USER_INFO_KEY := stringify(data.user)];
      Session(Some(data.user), Some(data.token), false, storage)
    else
      s.(isLoading := false)
  }

  /** Logout (lines 75-80): both entries removed, user and token cleared. */
  function LoggedOut(s: Session): (r: Session)
    ensures r.user.None? && r.token.None? && r.isLoading == s.isLoading
    ensures r.storage == WithoutSession(s.storage)
    ensures !IsAuthenticated(r) && Role(r).None?
  {
    s.(user := None, token := None, storage := WithoutSession(s.storage))
  }

  /** What a page reload would restore from the storage `s` left behind. */
  function Reloaded(s: Session, parse: Parser): Session {
    Restored(Initial(s.storage), parse)
  }

  // ---------------------------------------------------------------------
  // Properties of the session transitions
  // ---------------------------------------------------------------------

  /** Restore with nothing stored ends logged out and no longer loading. */
  lemma RestoreEmptyStorage(storage: Storage, parse: Parser)
    requires JWT_TOKEN_KEY !in storage && USER_INFO_KEY !in storage
    ensures Restored(Initial(storage), parse) == Session(None, None, false, storage)
  {
  }

  /** Restoring twice is the same as restoring once. */
  lemma RestoreIdempotent(s: Session, parse: Parser)
    ensures Restored(Restored(s, parse), parse) == Restored(s, parse)
  {
    if BothStored(s.storage) && parse(s.storage[USER_INFO_KEY]).None? {
      assert !BothStored(Restored(s, parse).storage);
    }
  }

  /**
   * Restoring from a stored session that parses makes the provider
   * authenticated exactly as that record says.
   */
  lemma RestoreAuthenticates(storage: Storage, parse: Parser)
    requires BothStored(storage) && parse(storage[USER_INFO_KEY]).Some?
    ensures var r := Restored(Initial(storage), parse);
      IsAuthenticated(r) && Role(r) == Some(parse(storage[USER_INFO_KEY]).value.role) && r.storage == storage
  {
  }

  /** A stored user record that does not parse: both entries go, nobody logs in. */
  lemma RestoreCorruptUser(storage: Storage, parse: Parser)
    requires BothStored(storage) && parse(storage[USER_INFO_KEY]).None?
    ensures var r := Restored(Initial(storage), parse);
      !IsAuthenticated(r) && r.user.None? && r.token.None? &&
      JWT_TOKEN_KEY !in r.storage && USER_INFO_KEY !in r.storage
  {
  }

  /**
   * A lone entry (or an empty one) is not cleared: restore leaves storage
   * exactly as it found it and stays logged out.
   */
  lemma RestoreLoneKeyKept(storage: Storage, parse: Parser)
    requires (JWT_TOKEN_KEY in storage) != (USER_INFO_KEY in storage)
    ensures var r := Restored(Initial(storage), parse);
      r.storage == storage && !IsAuthenticated(r) && !r.isLoading
  {
  }

  /**
   * Login/restore round trip: after an accepted exchange with a non-empty
   * token, a reload restores the same user and token, provided JSON.parse
   * inverts JSON.stringify on that user.
   */
  lemma ExchangeThenReload(s: Session, response: ApiResponse<AuthResponse>, stringify: Serializer, parse: Parser)
    requires HasData(response)
    requires response.data.value.token != ""
    requires stringify(response.data.value.user) != ""
    requires parse(stringify(response.data.value.user)) == Some(response.data.value.user)
    ensures var after := AfterExchange(s, response, stringify);
      var reloaded := Reloaded(after, parse);
      reloaded.user == after.user && reloaded.token == after.token &&
      reloaded.storage == after.storage && IsAuthenticated(reloaded)
  {
    var after := AfterExchange(s, response, stringify);
    assert GetItem(after.storage, JWT_TOKEN_KEY) == Some(response.data.value.token);
    assert GetItem(after.storage, USER_INFO_KEY) == Some(stringify(response.data.value.user));
  }

  /**
   * An exchange that returns an empty token is adopted in memory but is not
   * authenticated, and a reload does not bring the user back.
   */
  lemma ExchangeEmptyTokenNotRestored(s: Session, response: ApiResponse<AuthResponse>, stringify: Serializer, parse: Parser)
    requires HasData(response) && response.data.value.token == ""
    ensures var after := AfterExchange(s, response, stringify);
      after.user == Some(response.data.value.user) && !IsAuthenticated(after) &&
      Reloaded(after, parse).user.None?
  {
    var after := AfterExchange(s, response, stringify);
    assert GetItem(after.storage, JWT_TOKEN_KEY) == Some("");
  }

  /** Logout twice equals logout once. */
  lemma LogoutIdempotent(s: Session)
    ensures LoggedOut(LoggedOut(s)) == LoggedOut(s)
  {
  }

  /** After a logout a reload restores nobody, whatever the parser does. */
  lemma LogoutThenReload(s: Session, parse: Parser)
    ensures Reloaded(LoggedOut(s), parse) == Session(None, None, false, LoggedOut(s).storage)
  {
  }

  /**
   * The two entries are present together or absent together.  Login,
   * register and logout keep this; restore keeps it too (it never writes
   * a single entry).
   */
  predicate Paired(storage: Storage) {
    (JWT_TOKEN_KEY in storage) <==> (USER_INFO_KEY in storage)
  }

  lemma TransitionsKeepPaired(s: Session, response: ApiResponse<AuthResponse>, stringify: Serializer, parse: Parser)
    requires Paired(s.storage)
    ensures Paired(AfterExchange(s, response, stringify).storage)
    ensures Paired(LoggedOut(s).storage)
    ensures Paired(Restored(s, parse).storage)
  {
  }

  // ---------------------------------------------------------------------
  // The provider
  // ---------------------------------------------------------------------

  /** AuthProvider: the three pieces of React state plus localStorage. */
  class AuthProvider {
    var user: Option<User>
    var token: Option<string>
    var isLoading: bool
    var storage: Storage

    /** The provider's state as a value. */
    function Current(): Session
      reads this
    {
      Session(user, token, isLoading, storage)
    }

    /** Mounting the provider over whatever localStorage holds. */
    constructor (stored: Storage)
      ensures Current() == Initial(stored)
    {
      user := None;
      token := None;
      isLoading := true;
      storage := stored;
    }

    /** The mount effect (lines 29-45). */
    method Restore(parse: Parser)
      modifies this
      ensures Current() == Restored(old(Current()), parse)
    {
      var storedToken := GetItem(storage, JWT_TOKEN_KEY);
      var storedUser := GetItem(storage, USER_INFO_KEY);
      if Truthy(storedToken) && Truthy(storedUser) {
        var parsedUser := parse(storedUser.value);
        if parsedUser.Some? {
          token := storedToken;
          user := parsedUser;
        } else {
          storage := storage - {JWT_TOKEN_KEY};
          storage := storage - {USER_INFO_KEY};
        }
      }
      isLoading := false;
    }

    /** Shared tail of login and register once the exchange has returned. */
    method Accept(response: ApiResponse<AuthResponse>, stringify: Serializer)
      modifies this
      ensures Current() == AfterExchange(old(Current()).(isLoading := true), response, stringify)
    {
      if response.success && response.data.Some? {
        var receivedToken := response.data.value.token;
        var receivedUser := response.data.value.user;
        storage := storage[JWT_TOKEN_KEY := receivedToken];
        storage := storage[USER_INFO_KEY := stringify(receivedUser)];
        token := Some(receivedToken);
        user := Some(receivedUser);
      }
      isLoading := false;
    }

    /** login (lines 47-59): the response is returned unchanged. */
    method Login(email: string, password: string,
                 authenticate: (string, string) -> ApiResponse<AuthResponse>,
                 stringify: Serializer)
      returns (response: ApiResponse<AuthResponse>)
      modifies this
      ensures response == authenticate(email, password)
      ensures Current() == AfterExchange(old(Current()), response, stringify)
    {
      isLoading := true;
      response := authenticate(email, password);
      Accept(response, stringify);
    }

    /** register (lines 61-73): the same contract over the registration call. */
    method Register(name: string, email: string, password: string, phone: Option<string>,
                    createAccount: (string, string, string, Option<string>) -> ApiResponse<AuthResponse>,
                    stringify: Serializer)
      returns (response: ApiResponse<AuthResponse>)
      modifies this
      ensures response == createAccount(name, email, password, phone)
      ensures Current() == AfterExchange(old(Current()), response, stringify)
    {
      isLoading := true;
      response := createAccount(name, email, password, phone);
      Accept(response, stringify);
    }

    /** logout (lines 75-80). */
    method Logout()
      modifies this
      ensures Current() == LoggedOut(old(Current()))
    {
      storage := storage - {JWT_TOKEN_KEY};
      storage := storage - {USER_INFO_KEY};
      token := None;
      user := None;
    }
  }
}
