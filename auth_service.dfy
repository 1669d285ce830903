/** The client's authentication service (client/src/services/authService.ts):
    the `token` and `user` entries it keeps in the browser's local storage,
    the header it derives from them, and how each API call changes them.
    The HTTP exchange itself is an outcome parameter of each call, and
    `JSON.stringify`/`JSON.parse` are function parameters. */
module AuthClient {
  import opened Wrappers
  import opened Text

  /** The browser's local storage: string keys to string values. */
  type Storage = map<string, string>

  const TokenKey: string := "token"
  const UserKey: string := "user"

  /** What `localStorage.setItem` stores for `JSON.stringify(undefined)`. */
  const UndefinedText: string := "undefined"

  /** The client's view of a user; the fields the service never inspects are
      not part of this model. */
  datatype UserRecord = UserRecord(id: string, name: string, email: string, role: string)

  /** The body of a register or login reply; either field may be missing. */
  datatype AuthResponse = AuthResponse(token: Option<string>, user: Option<UserRecord>)

  /** How an awaited API call ends: the reply's payload, or an error whose
      reply body may carry a `message`. */
  datatype ApiOutcome<T> = Response(payload: T) | Failure(message: Option<string>)

  /** A request the service sends: verb, path under the API base and the
      `Authorization` header, when there is one. */
  datatype ApiRequest = ApiRequest(verb: string, path: string, authorization: Option<string>)

  // ---------------------------------------------------------------------
  // The storage as the service reads it

  /** `localStorage.getItem('token')`. */
  function Token(st: Storage): (r: Option<string>)
    ensures r.Some? <==> TokenKey in st
    ensures r.Some? ==> r.value == st[TokenKey]
  {
    if TokenKey in st then Some(st[TokenKey]) else None
  }

  /** `isAuthenticated`: a stored, non-empty token. */
  predicate Authenticated(st: Storage)
  {
    Truthy(Token(st))
  }

  /** `getAuthHeader`: a Bearer header when a token is stored, otherwise
      no header at all. */
  function AuthHeader(st: Storage): (r: Option<string>)
    ensures r.Some? <==> Authenticated(st)
    ensures r.Some? ==> r.value == "Bearer " + st[TokenKey] && |r.value| > |"Bearer "|
  {
    if Truthy(Token(st)) then Some("Bearer " + st[TokenKey]) else None
  }

  /** `getStoredUser`: nothing when the entry is missing or empty, otherwise
      what parsing it gives (nothing when the text does not parse). */
  function StoredUser(st: Storage, parse: string -> Option<UserRecord>): (r: Option<UserRecord>)
    ensures UserKey !in st ==> r.None?
    ensures r.Some? ==> st[UserKey] != [] && r == parse(st[UserKey])
  {
    if UserKey in st && st[UserKey] != [] then parse(st[UserKey]) else None
  }

  /** The text `JSON.stringify` gives for a user that may be missing. */
  function Serialized(user: Option<UserRecord>, stringify: UserRecord -> string): string
  {
    if user.Some? then stringify(user.value) else UndefinedText
  }

  /** The storage after a reply with a token: both entries written. */
  function SignedIn(st: Storage, token: string, user: Option<UserRecord>, stringify: UserRecord -> string): (r: Storage)
    ensures r.Keys == st.Keys + {TokenKey, UserKey}
    ensures r[TokenKey] == token && r[UserKey] == Serialized(user, stringify)
    ensures forall k :: k in st && k != TokenKey && k != UserKey ==> r[k] == st[k]
  {
    st[TokenKey := token][UserKey := Serialized(user, stringify)]
  }

  /** `logout`: both entries removed. */
  function SignedOut(st: Storage): (r: Storage)
    ensures r.Keys == st.Keys - {TokenKey, UserKey}
    ensures forall k :: k in r ==> r[k] == st[k]
  {
    st - {TokenKey, UserKey}
  }

  /** `error.response?.data?.message || fallback`. */
  function Reason(message: Option<string>, fallback: string): string
  {
    if Truthy(message) then message.value else fallback
  }

  /** A failure's message is the server's, or the fixed fallback when the
      server gave none, and it is never empty when the fallback is not. */
  lemma ReasonPrefersServer(message: Option<string>, fallback: string)
    requires fallback != []
    ensures Reason(message, fallback) != []
    ensures Reason(message, fallback) == fallback || Some(Reason(message, fallback)) == message
    ensures message.Some? && message.value != [] ==> Reason(message, fallback) == message.value
  {
  }

  // ---------------------------------------------------------------------
  // Properties of the storage transitions

  /** Storing a reply's token signs the user in, and the header carries
      exactly that token. */
  lemma SignInAuthenticates(st: Storage, token: string, user: Option<UserRecord>, stringify: UserRecord -> string)
    requires token != []
    ensures Authenticated(SignedIn(st, token, user, stringify))
    ensures Token(SignedIn(st, token, user, stringify)) == Some(token)
    ensures AuthHeader(SignedIn(st, token, user, stringify)) == Some("Bearer " + token)
  {
  }

  /** After logout nobody is signed in, no header is sent and no user is
      stored; every other entry is kept. */
  lemma SignOutClears(st: Storage, parse: string -> Option<UserRecord>)
    ensures !Authenticated(SignedOut(st)) && AuthHeader(SignedOut(st)).None?
    ensures StoredUser(SignedOut(st), parse).None?
    ensures forall k :: k != TokenKey && k != UserKey ==> (k in SignedOut(st) <==> k in st)
  {
  }

  /** A user stored at sign-in is read back, provided parsing undoes
      serialising (as `JSON.parse` does for `JSON.stringify`'s output). */
  lemma StoredUserRoundTrip(st: Storage, token: string, u: UserRecord,
                            stringify: UserRecord -> string, parse: string -> Option<UserRecord>)
    requires stringify(u) != [] && parse(stringify(u)) == Some(u)
    ensures StoredUser(SignedIn(st, token, Some(u), stringify), parse) == Some(u)
  {
    var after := SignedIn(st, token, Some(u), stringify);
    assert after[UserKey] == stringify(u);
  }

  /** A reply with a token but no user stores the text "undefined", which
      does not parse, so no user is read back although the token is set. */
  lemma MissingUserReadsBackAsNothing(st: Storage, token: string,
                                      stringify: UserRecord -> string, parse: string -> Option<UserRecord>)
    requires parse(UndefinedText) == None
    ensures StoredUser(SignedIn(st, token, None, stringify), parse).None?
    ensures Token(SignedIn(st, token, None, stringify)) == Some(token)
  {
    var after := SignedIn(st, token, None, stringify);
    assert after[UserKey] == UndefinedText;
  }

  // ---------------------------------------------------------------------
  // The service

  class AuthService {
    /** The browser's local storage. */
    var storage: Storage
    /** The requests sent so far, in order. */
    var sent: seq<ApiRequest>

    constructor (st: Storage)
      ensures storage == st && sent == []
    {
      storage := st;
      sent := [];
    }

    /** `getToken`. */
    function GetToken(): (r: Option<string>)
      reads this
      ensures r == Token(storage)
    {
      Token(storage)
    }

    /** `isAuthenticated`. */
    predicate IsAuthenticated()
      reads this
    {
      Authenticated(storage)
    }

    /** `getStoredUser`. */
    function GetStoredUser(parse: string -> Option<UserRecord>): (r: Option<UserRecord>)
      reads this
      ensures r == StoredUser(storage, parse)
    {
      StoredUser(storage, parse)
    }

    /** What `register` and `login` do with a reply: both entries are
        written only when the reply carries a non-empty token. */
    method Remember(reply: AuthResponse, stringify: UserRecord -> string)
      modifies this
      ensures Truthy(reply.token) ==> storage == SignedIn(old(storage), reply.token.value, reply.user, stringify)
      ensures !Truthy(reply.token) ==> storage == old(storage)
      ensures sent == old(sent)
    {
      if Truthy(reply.token) {
        storage := SignedIn(storage, reply.token.value, reply.user, stringify);
      }
    }

    /** `register`: posts the new user without a header; a reply with a
        token signs the user in; a failure changes nothing and throws the
        server's message or 'Registration failed'. */
    method Register(outcome: ApiOutcome<AuthResponse>, stringify: UserRecord -> string) returns (r: Result<AuthResponse>)
      modifies this
      ensures sent == old(sent) + [ApiRequest("POST", "/auth/register", None)]
      ensures outcome.Response? ==> r == Ok(outcome.payload)
      ensures outcome.Response? && Truthy(outcome.payload.token) ==>
        storage == SignedIn(old(storage), outcome.payload.token.value, outcome.payload.user, stringify)
      ensures outcome.Response? && !Truthy(outcome.payload.token) ==> storage == old(storage)
      ensures outcome.Failure? ==> r == Err(Reason(outcome.message, "Registration failed")) && storage == old(storage)
    {
      sent := sent + [ApiRequest("POST", "/auth/register", None)];
      if outcome.Response? {
        Remember(outcome.payload, stringify);
        r := Ok(outcome.payload);
      } else {
        r := Err(Reason(outcome.message, "Registration failed"));
      }
    }

    /** `login`: as `register`, with the fallback 'Login failed'. */
    method Login(outcome: ApiOutcome<AuthResponse>, stringify: UserRecord -> string) returns (r: Result<AuthResponse>)
      modifies this
      ensures sent == old(sent) + [ApiRequest("POST", "/auth/login", None)]
      ensures outcome.Response? ==> r == Ok(outcome.payload)
      ensures outcome.Response? && Truthy(outcome.payload.token) ==>
        storage == SignedIn(old(storage), outcome.payload.token.value, outcome.payload.user, stringify)
      ensures outcome.Response? && !Truthy(outcome.payload.token) ==> storage == old(storage)
      ensures outcome.Failure? ==> r == Err(Reason(outcome.message, "Login failed")) && storage == old(storage)
    {
      sent := sent + [ApiRequest("POST", "/auth/login", None)];
      if outcome.Response? {
        Remember(outcome.payload, stringify);
        r := Ok(outcome.payload);
      } else {
        r := Err(Reason(outcome.message, "Login failed"));
      }
    }

    /** `getCurrentUser`: asks with the stored token's header; a returned
        user replaces the stored one; a failure logs out before throwing. */
    method GetCurrentUser(outcome: ApiOutcome<Option<UserRecord>>, stringify: UserRecord -> string)
      returns (r: Result<Option<UserRecord>>)
      modifies this
      ensures sent == old(sent) + [ApiRequest("GET", "/auth/me", AuthHeader(old(storage)))]
      ensures outcome.Response? ==> r == Ok(outcome.payload)
      ensures outcome.Response? && outcome.payload.Some? ==>
        storage == old(storage)[UserKey := stringify(outcome.payload.value)]
      ensures outcome.Response? && outcome.payload.None? ==> storage == old(storage)
      ensures outcome.Failure? ==> r == Err(Reason(outcome.message, "Failed to get user")) && storage == SignedOut(old(storage))
    {
      sent := sent + [ApiRequest("GET", "/auth/me", AuthHeader(storage))];
      if outcome.Response? {
        if outcome.payload.Some? {
          storage := storage[UserKey := stringify(outcome.payload.value)];
        }
        r := Ok(outcome.payload);
      } else {
        Logout();
        r := Err(Reason(outcome.message, "Failed to get user"));
      }
    }

    /** `updateDetails`: as `getCurrentUser`, but a failure keeps the
        storage and throws the fallback 'Failed to update details'. */
    method UpdateDetails(outcome: ApiOutcome<Option<UserRecord>>, stringify: UserRecord -> string)
      returns (r: Result<Option<UserRecord>>)
      modifies this
      ensures sent == old(sent) + [ApiRequest("PUT", "/auth/updatedetails", AuthHeader(old(storage)))]
      ensures outcome.Response? ==> r == Ok(outcome.payload)
      ensures outcome.Response? && outcome.payload.Some? ==>
        storage == old(storage)[UserKey := stringify(outcome.payload.value)]
      ensures outcome.Response? && outcome.payload.None? ==> storage == old(storage)
      ensures outcome.Failure? ==> r == Err(Reason(outcome.message, "Failed to update details")) && storage == old(storage)
    {
      sent := sent + [ApiRequest("PUT", "/auth/updatedetails", AuthHeader(storage))];
      if outcome.Response? {
        if outcome.payload.Some? {
          storage := storage[UserKey := stringify(outcome.payload.value)];
        }
        r := Ok(outcome.payload);
      } else {
        r := Err(Reason(outcome.message, "Failed to update details"));
      }
    }

    /** `updatePassword`: never touches the storage. */
    method UpdatePassword(outcome: ApiOutcome<()>) returns (r: Result<()>)
      modifies this
      ensures sent == old(sent) + [ApiRequest("PUT", "/auth/updatepassword", AuthHeader(old(storage)))]
      ensures storage == old(storage)
      ensures outcome.Response? ==> r == Ok(())
      ensures outcome.Failure? ==> r == Err(Reason(outcome.message, "Failed to update password"))
    {
      sent := sent + [ApiRequest("PUT", "/auth/updatepassword", AuthHeader(storage))];
      if outcome.Response? {
        r := Ok(());
      } else {
        r := Err(Reason(outcome.message, "Failed to update password"));
      }
    }

    /** `logout`. */
    method Logout()
      modifies this
      ensures storage == SignedOut(old(storage)) && sent == old(sent)
      ensures !IsAuthenticated()
    {
      storage := SignedOut(storage);
    }
  }
}
