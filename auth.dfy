/** The session store of the authentication service: `login` and
    `register` write the token and the serialised user into the browser's
    key/value storage, `logout` removes both, and the read operations
    derive the signed-in state from what is stored. */
module Auth {

  import opened Wrappers
  import opened Json
  import opened JsonText

  const TokenKey := "auth_token"
  const UserKey := "user"

  const LoginFailed := "Login failed. Please try again."
  const RegisterFailed := "Registration failed. Please try again."
  const LoggedOutText := "Logged out successfully"
  const LogoutFailedText := "Error during logout"

  /** The browser's storage: keys to strings. */
  type Store = map<string, string>

  /** What the POST to `/login` or `/register` settles to: the response
      body, or a rejection carrying the error response's body when the
      server answered at all. */
  datatype Post = Answered(data: Json) | Refused(errorData: Option<Json>)

  /** How the operation ends: it returns the response body, or it rethrows
      after showing an error toast with the given argument (`None` for
      `undefined`). */
  datatype Outcome = Returned(data: Json) | Thrown(toast: Option<Json>)

  /** `response.data.token` is truthy. A `null` body throws a `TypeError`
      at the read, which ends the same way as a missing token. */
  predicate HasToken(data: Json) {
    Truthy(Get(Some(data), "token"))
  }

  /** The toast for an `errors` object: its first own value, the first
      element when that value is an array, otherwise `String(value)`. */
  function FirstErrorText(errors: Json): Option<Json> {
    var values := ObjectValues(errors);
    if values == [] then Some(Str("undefined"))
    else
      match values[0]
      case Arr(items) => if items == [] then None else Some(items[0])
      case first => Some(Str(ToJsString(first)))
  }

  /** The error toast: the server's `message` when truthy, else the first
      entry of a truthy `errors`, else the operation's fallback text. A
      rejection without a response, and a response without a token, carry
      no error body. */
  function ErrorToast(errorData: Option<Json>, fallback: string): (r: Option<Json>)
    ensures Truthy(Get(errorData, "message")) ==> r == Get(errorData, "message")
    ensures !Truthy(Get(errorData, "message")) && Truthy(Get(errorData, "errors")) ==>
      var values := ObjectValues(Get(errorData, "errors").value);
      && (values == [] ==> r == Some(Str("undefined")))
      && (values != [] && values[0].Arr? ==>
            r == if values[0].items == [] then None else Some(values[0].items[0]))
      && (values != [] && !values[0].Arr? ==> r == Some(Str(ToJsString(values[0]))))
    ensures !Truthy(Get(errorData, "message")) && !Truthy(Get(errorData, "errors")) ==>
      r == Some(Str(fallback))
  {
    var message := Get(errorData, "message");
    var errors := Get(errorData, "errors");
    if Truthy(message) then message
    else if Truthy(errors) then FirstErrorText(errors.value)
    else Some(Str(fallback))
  }

  /** What `localStorage.setItem('user', JSON.stringify(user))` stores:
      the JSON text, or `"undefined"` when the response has no user. */
  function StoredUser(user: Option<Json>): string {
    match user
    case None => "undefined"
    case Some(v) => Stringify(v)
  }

  /** The store after a response `data` that carries a token: the token as
      `String(token)`, and the serialised user; every other key kept. */
  function SignedIn(store: Store, data: Json): (r: Store)
    ensures r.Keys == store.Keys + {TokenKey, UserKey}
    ensures r[TokenKey] == OptionToJsString(Get(Some(data), "token"))
    ensures r[UserKey] == StoredUser(Get(Some(data), "user"))
    ensures forall k :: k in store && k != TokenKey && k != UserKey ==> r[k] == store[k]
  {
    store[TokenKey := OptionToJsString(Get(Some(data), "token"))][UserKey := StoredUser(Get(Some(data), "user"))]
  }

  /** The store after `logout`: both session keys removed, every other
      key kept. */
  function LoggedOut(store: Store): (r: Store)
    ensures r.Keys == store.Keys - {TokenKey, UserKey}
    ensures forall k :: k in r ==> r[k] == store[k]
  {
    store - {TokenKey, UserKey}
  }

  /** `getToken()`, with `None` for `null`. */
  function Token(store: Store): (r: Option<string>)
    ensures r.Some? <==> TokenKey in store
    ensures r.Some? ==> r.value == store[TokenKey]
  {
    if TokenKey in store then Some(store[TokenKey]) else None
  }

  /** `isAuthenticated()`: a stored, non-empty token. */
  predicate IsAuthenticated(store: Store) {
    Token(store).Some? && Token(store).value != ""
  }

  /** `getAuthHeader()`: a bearer header exactly when the stored token is
      truthy, an empty header map otherwise. */
  function AuthHeader(store: Store): (r: map<string, string>)
    ensures r != map[] <==> IsAuthenticated(store)
    ensures IsAuthenticated(store) ==> r == map["Authorization" := "Bearer " + Token(store).value]
  {
    if IsAuthenticated(store) then
      var r := map["Authorization" := "Bearer " + Token(store).value];
      assert "Authorization" in r;
      r
    else map[]
  }

  /** What `getCurrentUser()` yields: `null` when no non-empty user text
      is stored, the parsed value otherwise; `Unreadable` where
      `JSON.parse` throws. */
  datatype UserRead = NoUser | User(user: Json) | Unreadable

  function CurrentUser(store: Store): (r: UserRead)
    ensures r.NoUser? <==> UserKey !in store || store[UserKey] == ""
    ensures r.User? ==> Decode(store[UserKey]) == Some(r.user)
    ensures r.Unreadable? ==> Decode(store[UserKey]) == None
  {
    if UserKey in store && store[UserKey] != "" then
      match Decode(store[UserKey])
      case Some(v) => User(v)
      case None => Unreadable
    else NoUser
  }

  /** The signed-in user reads back from the store as the response's
      user (every value a response carries has pairwise different keys). */
  lemma SignedInUser(store: Store, data: Json, user: Json)
    requires Get(Some(data), "user") == Some(user) && WellFormed(user)
    ensures CurrentUser(SignedIn(store, data)) == User(user)
  {
    RoundTrip(user);
  }

  /** A response without a user leaves `"undefined"` in the store, which
      `getCurrentUser()` then fails to parse. */
  lemma SignedInWithoutUser(store: Store, data: Json)
    requires Get(Some(data), "user") == None
    ensures CurrentUser(SignedIn(store, data)) == Unreadable
  {
    UndefinedIsNotJson();
  }

  /** After a sign-in the session is authenticated exactly when
      `String(token)` is non-empty: a non-empty string token or a non-zero
      number is, a truthy empty array (stored as `""`) is not. */
  lemma SignedInAuthenticated(store: Store, data: Json)
    requires HasToken(data)
    ensures var token := Get(Some(data), "token").value;
      IsAuthenticated(SignedIn(store, data)) <==> !Blank(token)
    ensures var token := Get(Some(data), "token").value;
      !Blank(token) ==>
        AuthHeader(SignedIn(store, data)) == map["Authorization" := "Bearer " + ToJsString(token)]
  {
    BlankIffEmpty(Get(Some(data), "token").value);
  }

  /** A string token is stored as it is and makes the bearer header. */
  lemma StringTokenSession(store: Store, data: Json, token: string)
    requires Get(Some(data), "token") == Some(Str(token)) && token != ""
    ensures IsAuthenticated(SignedIn(store, data))
    ensures Token(SignedIn(store, data)) == Some(token)
    ensures AuthHeader(SignedIn(store, data)) == map["Authorization" := "Bearer " + token]
  {
    SignedInAuthenticated(store, data);
  }

  /** An empty array is a truthy token, so it is accepted, but it is stored
      as `""` and the session is not authenticated. */
  lemma EmptyArrayToken(store: Store)
    ensures var data := Obj([("token", Arr([]))]);
      HasToken(data) && !IsAuthenticated(SignedIn(store, data))
  {
    SignedInAuthenticated(store, Obj([("token", Arr([]))]));
  }

  /** After `logout` there is no session: no token, no user, no header;
      every other key is as it was. */
  lemma LoggedOutClears(store: Store)
    ensures Token(LoggedOut(store)) == None && !IsAuthenticated(LoggedOut(store))
    ensures CurrentUser(LoggedOut(store)) == NoUser
    ensures AuthHeader(LoggedOut(store)) == map[]
    ensures forall k :: k in store && k != TokenKey && k != UserKey ==>
      k in LoggedOut(store) && LoggedOut(store)[k] == store[k]
  {
  }

  /** Signing in and then out leaves the store as logging out alone
      would: the session leaves nothing behind. */
  lemma SignInThenOut(store: Store, data: Json)
    ensures LoggedOut(SignedIn(store, data)) == LoggedOut(store)
  {
    assert LoggedOut(SignedIn(store, data)).Keys == LoggedOut(store).Keys;
  }

  /** The toast depends on the operation only through its fallback text:
      a message or an `errors` entry reads the same for login and for
      registration. */
  lemma FallbackOnlyWithoutDetail(errorData: Option<Json>)
    ensures ErrorToast(errorData, LoginFailed) == ErrorToast(errorData, RegisterFailed) <==>
      Truthy(Get(errorData, "message")) || Truthy(Get(errorData, "errors"))
  {
  }

  /** A validation failure in the usual shape, `errors: {field: [text,
      ...]}`, shows the first field's first text. */
  lemma FieldErrorShown(field: string, text: Json, more: seq<Json>, others: seq<(string, Json)>)
    ensures var errors := Obj([(field, Arr([text] + more))] + others);
      ErrorToast(Some(Obj([("errors", errors)])), LoginFailed) == Some(text)
  {
    var errors := Obj([(field, Arr([text] + more))] + others);
    var fields := [(field, Arr([text] + more))] + others;
    assert OwnValues(fields)[0] == Arr([text] + more);
  }

  /** The session: the browser's storage as the service reads and writes
      it. */
  class Session {
    var store: Store

    constructor (initial: Store)
      ensures store == initial
    {
      store := initial;
    }

    /** The body `login` and `register` share, with the operation's
        fallback toast. */
    method SignIn(post: Post, fallback: string) returns (r: Outcome)
      modifies this
      ensures post.Answered? && HasToken(post.data) ==>
        r == Returned(post.data) && store == SignedIn(old(store), post.data)
      ensures post.Answered? && !HasToken(post.data) ==>
        r == Thrown(Some(Str(fallback))) && store == old(store)
      ensures post.Refused? ==>
        r == Thrown(ErrorToast(post.errorData, fallback)) && store == old(store)
    {
      match post {
        case Answered(data) =>
          if HasToken(data) {
            store := store[TokenKey := OptionToJsString(Get(Some(data), "token"))];
            store := store[UserKey := StoredUser(Get(Some(data), "user"))];
            r := Returned(data);
          } else {
            r := Thrown(ErrorToast(None, fallback));
          }
        case Refused(errorData) =>
          r := Thrown(ErrorToast(errorData, fallback));
      }
    }

    /** `authService.login`. */
    method Login(post: Post) returns (r: Outcome)
      modifies this
      ensures post.Answered? && HasToken(post.data) ==>
        r == Returned(post.data) && store == SignedIn(old(store), post.data)
      ensures !(post.Answered? && HasToken(post.data)) ==>
        store == old(store) && r == Thrown(ErrorToast(if post.Refused? then post.errorData else None, LoginFailed))
    {
      r := SignIn(post, LoginFailed);
    }

    /** `authService.register`. */
    method Register(post: Post) returns (r: Outcome)
      modifies this
      ensures post.Answered? && HasToken(post.data) ==>
        r == Returned(post.data) && store == SignedIn(old(store), post.data)
      ensures !(post.Answered? && HasToken(post.data)) ==>
        store == old(store) && r == Thrown(ErrorToast(if post.Refused? then post.errorData else None, RegisterFailed))
    {
      r := SignIn(post, RegisterFailed);
    }

    /** `authService.logout`: the server is contacted, with the bearer
        header, only when a token is stored; whether or not that call
        fails, both session keys are removed. */
    method Logout(serverFails: bool) returns (sent: map<string, string>, toast: string)
      modifies this
      ensures sent == AuthHeader(old(store))
      ensures store == LoggedOut(old(store))
      ensures toast == if sent != map[] && serverFails then LogoutFailedText else LoggedOutText
    {
      var token := Token(store);
      sent := map[];
      var failed := false;
      if token.Some? && token.value != "" {
        sent := map["Authorization" := "Bearer " + token.value];
        failed := serverFails;
      }
      store := store - {TokenKey};
      store := store - {UserKey};
      toast := if failed then LogoutFailedText else LoggedOutText;
    }
  }
}
