/** The authentication store of src/stores/auth.ts (`useAuthStore`).

    Three reactive refs (`token`, `authType`, `isAuthenticated`) and two
    `localStorage` keys (`lmtk` for the token, `lmtk_a_t` for the account type)
    are overwritten step by step by `setToken`, `setAuthType`, `login` and
    `logout`. The login request is not executed: the backend's reply is a
    parameter, and the page `login` navigates to is returned as a value. */
module Auth {
  import opened Js

  const TokenName: string := "lmtk"
  const AuthTypeName: string := "lmtk_a_t"
  /** 0: teacher, 1: student, 2: parent. */
  const AuthTypes: seq<int> := [0, 1, 2]

  /** `localStorage.getItem(key)`: null when the key is absent. */
  function GetItem(storage: map<string, string>, key: string): Option<string> {
    if key in storage then Some(storage[key]) else None
  }

  /** `response.data.data` of a successful login request. */
  datatype LoginData = LoginData(authType: int, accessToken: Option<string>)

  /** `response.data`: the backend's code and message, and the payload if any. */
  datatype LoginBody = LoginBody(code: string, message: string, data: Option<LoginData>)

  /** What `axios.post("/auths/login", credentials)` produced: a 2xx response,
      a rejection carrying an HTTP status, or a rejection with no response. */
  datatype LoginReply =
    | Replied(body: LoginBody)
    | HttpError(status: int)
    | NoResponse

  /** The error `login` rethrows. */
  datatype LoginError =
    | Rejected(message: string)       // `new Error(response.data.message)`
    | MalformedBody                   // destructuring a missing `data` throws
    | RequestFailed(reply: LoginReply) // the axios error itself

  /** How `login` ends: it returns `response.data`, returns nothing (404), or throws. */
  datatype LoginOutcome =
    | LoggedIn(body: LoginBody)
    | ReturnedNothing
    | Thrown(error: LoginError)

  /** The account-type and token test in `login`: a known account type and a truthy token. */
  predicate Accepts(reply: LoginReply) {
    && reply.Replied?
    && reply.body.data.Some?
    && reply.body.data.value.authType in AuthTypes
    && Truthy(reply.body.data.value.accessToken)
  }

  class AuthStore {
    var token: Option<string>
    var authType: Option<string>
    var isAuthenticated: bool
    /** The browser's `localStorage`. */
    var storage: map<string, string>

    /** The `token` ref agrees with the stored `lmtk`. */
    predicate TokenMirrored()
      reads this
    {
      token == GetItem(storage, TokenName)
    }

    /** `isAuthenticated` is the truthiness of `token`. */
    predicate FlagMatchesToken()
      reads this
    {
      isAuthenticated == Truthy(token)
    }

    predicate Valid()
      reads this
    {
      TokenMirrored() && FlagMatchesToken()
    }

    /** The store as created: the refs are read from `localStorage`. */
    constructor (initialStorage: map<string, string>)
      ensures storage == initialStorage
      ensures token == GetItem(initialStorage, TokenName)
      ensures authType == GetItem(initialStorage, AuthTypeName)
      ensures isAuthenticated <==> Truthy(GetItem(initialStorage, TokenName))
      ensures Valid()
    {
      storage := initialStorage;
      token := GetItem(initialStorage, TokenName);
      authType := GetItem(initialStorage, AuthTypeName);
      isAuthenticated := Truthy(GetItem(initialStorage, TokenName));
    }

    /** `setToken(newToken)`. It marks the store authenticated even for an empty
        token, so the store stays consistent exactly when the token is non-empty. */
    method SetToken(newToken: string)
      modifies this
      ensures token == Some(newToken) && isAuthenticated
      ensures storage == old(storage)[TokenName := newToken]
      ensures authType == old(authType)
      ensures TokenMirrored()
      ensures Valid() <==> |newToken| > 0
    {
      token := Some(newToken);
      isAuthenticated := true;
      storage := storage[TokenName := newToken];
    }

    /** `setAuthType(newAuthType)`: the decimal text goes to the ref and to `lmtk_a_t`. */
    method SetAuthType(newAuthType: int)
      modifies this
      ensures authType == Some(IntToString(newAuthType))
      ensures storage == old(storage)[AuthTypeName := IntToString(newAuthType)]
      ensures token == old(token) && isAuthenticated == old(isAuthenticated)
      ensures ParseInt(storage[AuthTypeName]) == Some(newAuthType)
      ensures old(Valid()) ==> Valid()
    {
      var text := IntToString(newAuthType);
      authType := Some(text);
      storage := storage[AuthTypeName := text];
      IntToStringRoundTrip(newAuthType);
    }

    /** `login(credentials)`, given the backend's reply; `route` is the page it navigates to. */
    method Login(reply: LoginReply) returns (outcome: LoginOutcome, route: Option<string>)
      modifies this
      ensures outcome.LoggedIn? <==> Accepts(reply)
      ensures Accepts(reply) ==>
        var data := reply.body.data.value;
        && outcome == LoggedIn(reply.body)
        && route == Some(if data.authType == 0 then "/admin" else "/grades")
        && token == data.accessToken && isAuthenticated
        && authType == Some(IntToString(data.authType))
        && storage == old(storage)[AuthTypeName := IntToString(data.authType)][TokenName := data.accessToken.value]
        && Valid()
      ensures !Accepts(reply) ==>
        && route == None
        && token == old(token) && authType == old(authType)
        && isAuthenticated == old(isAuthenticated) && storage == old(storage)
      ensures reply == HttpError(404) ==> outcome == ReturnedNothing
      ensures outcome.Thrown? <==> !Accepts(reply) && reply != HttpError(404)
      ensures reply.Replied? && reply.body.data.Some? && !Accepts(reply) ==>
        outcome == Thrown(Rejected(reply.body.message))
      ensures reply.NoResponse? || (reply.HttpError? && reply.status != 404) ==>
        outcome == Thrown(RequestFailed(reply))
      ensures reply.Replied? && reply.body.data.None? ==> outcome == Thrown(MalformedBody)
      ensures old(Valid()) ==> Valid()
    {
      route := None;
      match reply
      case NoResponse =>
        return Thrown(RequestFailed(reply)), route;
      case HttpError(status) =>
        if status == 404 {
          return ReturnedNothing, route;
        }
        return Thrown(RequestFailed(reply)), route;
      case Replied(body) =>
        if body.data.None? {
          return Thrown(MalformedBody), route;
        }
        var newAuthType := body.data.value.authType;
        var newToken := body.data.value.accessToken;
        if newAuthType !in AuthTypes || !Truthy(newToken) {
          return Thrown(Rejected(body.message)), route;
        }
        if newAuthType == 0 {
          route := Some("/admin");
        }
        if newAuthType == 1 {
          route := Some("/grades");
        }
        if newAuthType == 2 {
          route := Some("/grades");
        }
        SetAuthType(newAuthType);
        SetToken(newToken.value);
        outcome := LoggedIn(body);
    }

    /** `logout()`: clears the token and both keys but keeps the `authType` ref. */
    method Logout()
      modifies this
      ensures token == None && !isAuthenticated
      ensures storage == old(storage) - {TokenName, AuthTypeName}
      ensures GetItem(storage, TokenName) == None && GetItem(storage, AuthTypeName) == None
      ensures authType == old(authType)
      ensures Valid()
    {
      token := None;
      isAuthenticated := false;
      storage := storage - {TokenName};
      storage := storage - {AuthTypeName};
    }
  }
}
