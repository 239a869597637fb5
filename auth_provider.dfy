/** The session store of client/src/components/AuthProvider.js: the signed-in user, the
    token, the `loading` flag, the token the request layer sends as its header, and the
    two durable storage keys. JSON encoding and decoding of the user are the parameters
    `stringify` and `parse`; `parse` answers `None` both for text that does not parse and
    for text that parses to `null`. */
module Auth {
  import opened Common
  import Api

  datatype User = User(id: int, role: string, firstName: string, lastName: string)

  /** The body of a successful login or sign-up response. */
  datatype AuthData = AuthData(token: string, user: User)

  const TokenKey: string := "auth_token"
  const UserKey: string := "auth_user"

  /** Everything the provider holds; `header` is the token installed by `setAuthToken`. */
  datatype Session = Session(
    user: Option<User>,
    token: Option<string>,
    loading: bool,
    header: Option<string>,
    storage: map<string, string>)

  /** `localStorage.getItem(key)` read for truthiness: a missing key reads as "". */
  function Stored(storage: map<string, string>, key: string): (v: string)
    ensures key !in storage ==> v == []
    ensures key in storage ==> v == storage[key]
  {
    if key in storage then storage[key] else []
  }

  /** The state before the mount effect runs. */
  function Initial(storage: map<string, string>): (s: Session)
    ensures s.user.None? && s.token.None? && s.header.None?
    ensures s.loading
    ensures s.storage == storage
  {
    Session(None, None, true, None, storage)
  }

  /** The mount effect: a stored token (when non-empty) becomes both the token and the
      header; a stored user (when non-empty) is decoded on its own, a failed decode
      giving no user; `loading` ends in every case. Storage is only read. */
  function Restored(s: Session, parse: string -> Option<User>): (r: Session)
    ensures !r.loading
    ensures r.storage == s.storage
    ensures Stored(s.storage, TokenKey) != [] ==>
              r.token == Some(Stored(s.storage, TokenKey)) && r.header == r.token
    ensures Stored(s.storage, TokenKey) == [] ==> r.token == s.token && r.header == s.header
    ensures Stored(s.storage, UserKey) != [] ==> r.user == parse(Stored(s.storage, UserKey))
    ensures Stored(s.storage, UserKey) == [] ==> r.user == s.user
  {
    var stored := Stored(s.storage, TokenKey);
    var storedUser := Stored(s.storage, UserKey);
    var s1 := if stored != [] then s.(header := Some(stored), token := Some(stored)) else s;
    var s2 := if storedUser != [] then s1.(user := parse(storedUser)) else s1;
    s2.(loading := false)
  }

  /** `handleAuth(nextToken, nextUser)`: the header, the token, the user and both storage
      keys take the new pair together; `loading` and every other key are left alone. */
  function Authenticated(s: Session, token: string, user: User, stringify: User -> string): (r: Session)
    ensures r.token == Some(token) && r.header == Some(token) && r.user == Some(user)
    ensures r.loading == s.loading
    ensures TokenKey in r.storage && r.storage[TokenKey] == token
    ensures UserKey in r.storage && r.storage[UserKey] == stringify(user)
    ensures forall k :: k in s.storage && k != TokenKey && k != UserKey ==> k in r.storage && r.storage[k] == s.storage[k]
    ensures r.storage.Keys == s.storage.Keys + {TokenKey, UserKey}
  {
    s.(header := Some(token), token := Some(token), user := Some(user),
       storage := s.storage[TokenKey := token][UserKey := stringify(user)])
  }

  /** The part of `logout` after the request, reached whether it succeeded or not: no
      token, no header, no user, neither key; `loading` untouched. */
  function SignedOut(s: Session): (r: Session)
    ensures r.token.None? && r.header.None? && r.user.None?
    ensures r.loading == s.loading
    ensures TokenKey !in r.storage && UserKey !in r.storage
    ensures forall k :: k in s.storage && k != TokenKey && k != UserKey ==> k in r.storage && r.storage[k] == s.storage[k]
    ensures r.storage.Keys == s.storage.Keys - {TokenKey, UserKey}
  {
    s.(header := None, token := None, user := None, storage := s.storage - {TokenKey, UserKey})
  }

  /** A session saved by `handleAuth` comes back on the next mount, provided the token is
      non-empty and decoding undoes encoding for this user. */
  lemma RestoreAfterHandleAuth(s: Session, token: string, user: User,
                               parse: string -> Option<User>, stringify: User -> string)
    requires token != [] && stringify(user) != [] && parse(stringify(user)) == Some(user)
    ensures var r := Restored(Initial(Authenticated(s, token, user, stringify).storage), parse);
            r.token == Some(token) && r.header == Some(token) && r.user == Some(user) && !r.loading
  {
    var saved := Authenticated(s, token, user, stringify).storage;
    assert Stored(saved, TokenKey) == token;
    assert Stored(saved, UserKey) == stringify(user);
  }

  /** After `logout` the next mount finds nobody signed in. */
  lemma RestoreAfterLogout(s: Session, parse: string -> Option<User>)
    ensures var r := Restored(Initial(SignedOut(s).storage), parse);
            r.token.None? && r.header.None? && r.user.None? && !r.loading
  {
    var saved := SignedOut(s).storage;
    assert Stored(saved, TokenKey) == [] && Stored(saved, UserKey) == [];
  }

  /** Token and user are restored independently: a stored token whose user is missing or
      does not decode yields a token with no user. */
  lemma TokenWithoutUser(storage: map<string, string>, parse: string -> Option<User>)
    requires Stored(storage, TokenKey) != []
    requires Stored(storage, UserKey) == [] || parse(Stored(storage, UserKey)).None?
    ensures var r := Restored(Initial(storage), parse);
            r.token == Some(storage[TokenKey]) && r.header == r.token && r.user.None?
  {
  }

  /** Logging out twice is logging out once. */
  lemma LogoutIdempotent(s: Session)
    ensures SignedOut(SignedOut(s)) == SignedOut(s)
  {
    assert SignedOut(s).storage - {TokenKey, UserKey} == SignedOut(s).storage;
  }

  /** The provider as a component instance. `calls` records the requests it sent. */
  class AuthProvider {
    var user: Option<User>
    var token: Option<string>
    var loading: bool
    var header: Option<string>
    var storage: map<string, string>
    var calls: seq<Api.Call>
    const parse: string -> Option<User>
    const stringify: User -> string

    function State(): Session
      reads this
    {
      Session(user, token, loading, header, storage)
    }

    /** `useState(null)`, `useState(null)`, `useState(true)` over the storage found. */
    constructor (storage0: map<string, string>, parse0: string -> Option<User>, stringify0: User -> string)
      ensures State() == Initial(storage0)
      ensures calls == [] && parse == parse0 && stringify == stringify0
    {
      user, token, loading, header, storage := None, None, true, None, storage0;
      calls := [];
      parse, stringify := parse0, stringify0;
    }

    /** The mount effect. */
    method Restore()
      modifies this
      ensures State() == Restored(old(State()), parse)
      ensures calls == old(calls)
    {
      var stored := Stored(storage, TokenKey);
      var storedUser := Stored(storage, UserKey);
      if stored != [] {
        header := Some(stored);
        token := Some(stored);
      }
      if storedUser != [] {
        user := parse(storedUser);
      }
      loading := false;
    }

    method HandleAuth(nextToken: string, nextUser: User)
      modifies this
      ensures State() == Authenticated(old(State()), nextToken, nextUser, stringify)
      ensures calls == old(calls)
    {
      header := Some(nextToken);
      token := Some(nextToken);
      user := Some(nextUser);
      storage := storage[TokenKey := nextToken];
      storage := storage[UserKey := stringify(nextUser)];
    }

    /** `login(payload)`: `response` is what the login request settled to. On failure the
        error propagates and nothing changes. */
    method Login(email: string, password: string, response: Result<AuthData>) returns (r: Result<AuthData>)
      modifies this
      ensures calls == old(calls) + [Api.LoginCall(email, password)]
      ensures r == response
      ensures response.Ok? ==>
                State() == Authenticated(old(State()), response.value.token, response.value.user, stringify)
      ensures response.Err? ==> State() == old(State())
    {
      calls := calls + [Api.LoginCall(email, password)];
      if response.Ok? {
        HandleAuth(response.value.token, response.value.user);
      }
      r := response;
    }

    /** `signup(role, payload)`: the senior endpoint exactly for the role "senior". */
    method Signup(role: string, payload: Api.AccountPayload, response: Result<AuthData>)
      returns (r: Result<AuthData>)
      modifies this
      ensures calls == old(calls) + [SignupCall(role, payload)]
      ensures r == response
      ensures response.Ok? ==>
                State() == Authenticated(old(State()), response.value.token, response.value.user, stringify)
      ensures response.Err? ==> State() == old(State())
    {
      if role == "senior" {
        calls := calls + [Api.SignupSeniorCall(payload)];
      } else {
        calls := calls + [Api.SignupStudentCall(payload)];
      }
      if response.Ok? {
        HandleAuth(response.value.token, response.value.user);
      }
      r := response;
    }

    /** `logout()`: the request's failure is swallowed; the session is cleared either way. */
    method Logout(response: Result<()>)
      modifies this
      ensures calls == old(calls) + [Api.LogoutCall]
      ensures State() == SignedOut(old(State()))
    {
      calls := calls + [Api.LogoutCall];
      header := None;
      token := None;
      user := None;
      storage := storage - {TokenKey, UserKey};
    }
  }

  /** The endpoint `signup` picks for a role. */
  function SignupCall(role: string, payload: Api.AccountPayload): (c: Api.Call)
    ensures c.SignupSeniorCall? <==> role == "senior"
    ensures c.SignupStudentCall? <==> role != "senior"
    ensures c.account == payload
  {
    if role == "senior" then Api.SignupSeniorCall(payload) else Api.SignupStudentCall(payload)
  }
}
