/** The login and account decisions of HTTPClient+Auth.swift: the Basic
    credentials sent to `/login` (section 2 of RFC 7617), the guard chain
    that turns the login response into a bearer token or an error, and the
    effect of login and logout on the client's default headers. */
module Auth {
  import opened Wrappers
  import opened Errors
  import opened Http

  /** SampleHTTPClient.kAuthorizationKey */
  const AuthorizationKey: string := "Authorization"

  /** How a server reads a user-pass string: the user-id ends at the first
      colon; a string without a colon is not a credential. */
  function SplitCredentials(s: string): (r: Option<(string, string)>)
    ensures r.Some? ==> r.value.0 + ":" + r.value.1 == s && ':' !in r.value.0
  {
    if s == [] then None
    else if s[0] == ':' then Some(([], s[1..]))
    else
      match SplitCredentials(s[1..])
      case None => None
      case Some(parts) => Some(([s[0]] + parts.0, parts.1))
  }

  /** A user-id without a colon, as RFC 7617 requires, is recovered from
      "user-id:password" together with the password, whatever the password
      holds. */
  lemma {:induction false} CredentialsRoundTrip(username: string, password: string)
    requires ':' !in username
    ensures SplitCredentials(username + ":" + password) == Some((username, password))
  {
    var s := username + ":" + password;
    if username == [] {
      assert s == [':'] + password;
    } else {
      assert s[0] == username[0];
      assert s[1..] == username[1..] + ":" + password;
      CredentialsRoundTrip(username[1..], password);
      assert [username[0]] + username[1..] == username;
    }
  }

  /** The user-pass string of RFC 7617 that login builds: user-id, a colon,
      the password. When the user-id has no colon, a server splits it back
      into exactly that user-id and password. */
  function Credentials(username: string, password: string): (c: string)
    ensures |c| == |username| + 1 + |password|
    ensures ':' !in username ==> SplitCredentials(c) == Some((username, password))
  {
    assert ':' !in username ==> SplitCredentials(username + ":" + password) == Some((username, password)) by {
      if ':' !in username {
        CredentialsRoundTrip(username, password);
      }
    }
    username + ":" + password
  }

  /** The Authorization value login sends: "Basic " and the base64 form of
      the credentials. */
  function BasicAuthorization(username: string, password: string, base64: string -> string): (h: string)
    ensures |h| >= 6 && h[..6] == "Basic "
    ensures h[6..] == base64(Credentials(username, password))
  {
    "Basic " + base64(Credentials(username, password))
  }

  /** The per-call headers of the `/login` request. */
  function LoginHeaders(username: string, password: string, base64: string -> string): (h: Headers)
    ensures h.Keys == {AuthorizationKey}
    ensures |h[AuthorizationKey]| >= 6 && h[AuthorizationKey][..6] == "Basic "
  {
    map[AuthorizationKey := BasicAuthorization(username, password, base64)]
  }

  /** A server that decodes the base64 part of the Authorization value
      login sends recovers the user-id and the password, as long as the
      user-id has no colon. */
  lemma BasicAuthorizationRoundTrip(username: string, password: string,
                                    base64: string -> string, decode: string -> string)
    requires ':' !in username
    requires forall s :: decode(base64(s)) == s
    ensures var h := BasicAuthorization(username, password, base64);
            h[..6] == "Basic " && SplitCredentials(decode(h[6..])) == Some((username, password))
  {
  }

  /** Different colon-free user-ids or different passwords give different
      Authorization values whenever base64 encodes different strings
      differently. */
  lemma BasicAuthorizationInjective(u1: string, p1: string, u2: string, p2: string, base64: string -> string)
    requires ':' !in u1 && ':' !in u2
    requires forall a, b :: base64(a) == base64(b) ==> a == b
    ensures BasicAuthorization(u1, p1, base64) == BasicAuthorization(u2, p2, base64) <==> u1 == u2 && p1 == p2
  {
    if BasicAuthorization(u1, p1, base64) == BasicAuthorization(u2, p2, base64) {
      assert Credentials(u1, p1) == Credentials(u2, p2);
    }
  }

  /** The header fields of the `/login` request: the client's default
      fields unchanged apart from Authorization, which holds the Basic value
      after the old value and a comma when the client is already logged in
      (addValue joins them), and the Basic value alone otherwise. */
  lemma LoginRequestHeaders(defaults: Headers, username: string, password: string, base64: string -> string)
    ensures var h := MergeHeaders(defaults, LoginHeaders(username, password, base64));
            && h.Keys == defaults.Keys + {AuthorizationKey}
            && (forall k :: k in defaults && k != AuthorizationKey ==> h[k] == defaults[k])
            && h[AuthorizationKey] == (if LoggedIn(defaults) then defaults[AuthorizationKey] + "," else "") +
                                      BasicAuthorization(username, password, base64)
  {
  }

  /** `body["string"] as? String`, accepted only when it is not empty. */
  function BearerToken(body: KeyedData): (t: Option<string>)
    ensures t.Some? <==> "string" in body && body["string"].JString? && body["string"].s != ""
    ensures t.Some? ==> body["string"] == JString(t.value)
  {
    if "string" in body && body["string"].JString? && body["string"].s != "" then Some(body["string"].s)
    else None
  }

  /** The guard chain of both `login` variants: the post's own failure,
      then 401, then any status other than 200, then a missing or empty
      token. The result is the bearer token or the error reported. */
  function LoginOutcome(resp: Result<KeyedResponse, Error>): (r: Result<string, Error>)
    ensures resp.Failure? ==> r == Failure(resp.error)
    ensures resp.Success? && resp.value.response.statusCode == 401 ==> r == Failure(InvalidCredentials)
    ensures resp.Success? && resp.value.response.statusCode !in {200, 401} ==> r == Failure(UnknownLoginFailure)
    ensures resp.Success? && resp.value.response.statusCode == 200 && BearerToken(resp.value.body).None? ==>
              r == Failure(NoBearerToken)
    ensures r.Success? <==> resp.Success? && resp.value.response.statusCode == 200 && BearerToken(resp.value.body).Some?
    ensures r.Success? ==> r.value != "" && resp.value.body["string"] == JString(r.value)
  {
    match resp
    case Failure(e) => Failure(e)
    case Success(KeyedResponse(response, body)) =>
      if response.statusCode == 401 then Failure(InvalidCredentials)
      else if response.statusCode != 200 then Failure(UnknownLoginFailure)
      else
        match BearerToken(body)
        case None => Failure(NoBearerToken)
        case Some(token) => Success(token)
  }

  /** The error a `login` throws or hands to its completion, None on success. */
  function ErrorOf(outcome: Result<string, Error>): (e: Option<Error>)
    ensures e.None? <==> outcome.Success?
    ensures e.Some? ==> e.value == outcome.error
  {
    match outcome
    case Success(_) => None
    case Failure(err) => Some(err)
  }

  /** `isLoggedIn`: an Authorization default header is present. */
  predicate LoggedIn(defaults: Headers)
  {
    AuthorizationKey in defaults
  }

  /** The default headers after a login with the given outcome: a token
      becomes "Bearer <token>" under Authorization; an error leaves them. */
  function AfterLogin(defaults: Headers, outcome: Result<string, Error>): (h: Headers)
    ensures outcome.Failure? ==> h == defaults
    ensures outcome.Success? ==> h.Keys == defaults.Keys + {AuthorizationKey} &&
                                 h[AuthorizationKey] == "Bearer " + outcome.value
    ensures forall k :: k in defaults && k != AuthorizationKey ==> k in h && h[k] == defaults[k]
  {
    match outcome
    case Failure(_) => defaults
    case Success(token) => defaults[AuthorizationKey := "Bearer " + token]
  }

  /** The default headers after `logout`: Authorization removed, nothing else. */
  function AfterLogout(defaults: Headers): (h: Headers)
    ensures h.Keys == defaults.Keys - {AuthorizationKey}
    ensures forall k :: k in h ==> h[k] == defaults[k]
  {
    defaults - {AuthorizationKey}
  }

  /** A successful login logs in; a failed one leaves the logged-in state
      as it was. */
  lemma LoginEffect(defaults: Headers, outcome: Result<string, Error>)
    ensures outcome.Success? ==> LoggedIn(AfterLogin(defaults, outcome))
    ensures outcome.Failure? ==> (LoggedIn(AfterLogin(defaults, outcome)) <==> LoggedIn(defaults))
  {
  }

  /** Logout logs out, is idempotent, and undoes exactly what a login did. */
  lemma LogoutEffect(defaults: Headers, outcome: Result<string, Error>)
    ensures !LoggedIn(AfterLogout(defaults))
    ensures AfterLogout(AfterLogout(defaults)) == AfterLogout(defaults)
    ensures AfterLogout(AfterLogin(defaults, outcome)) == AfterLogout(defaults)
    ensures !LoggedIn(defaults) ==> AfterLogout(defaults) == defaults
  {
  }

  /** `createUser`: the post's own failure passes through, then 409 is
      userAlreadyExists, then any status other than 200 is cannotCreateUser. */
  function CreateUserOutcome(resp: Result<KeyedResponse, Error>): (e: Option<Error>)
    ensures resp.Failure? ==> e == Some(resp.error)
    ensures resp.Success? && resp.value.response.statusCode == 409 ==> e == Some(UserAlreadyExists)
    ensures resp.Success? && resp.value.response.statusCode !in {200, 409} ==> e == Some(CannotCreateUser)
    ensures e.None? <==> resp.Success? && resp.value.response.statusCode == 200
  {
    match resp
    case Failure(err) => Some(err)
    case Success(KeyedResponse(response, _)) =>
      if response.statusCode == 409 then Some(UserAlreadyExists)
      else if response.statusCode != 200 then Some(CannotCreateUser)
      else None
  }

  /** The JSON body `createUser` posts to `/users`. */
  function UserInfo(username: string, password: string, email: string): (b: KeyedData)
    ensures b.Keys == {"name", "email", "password"}
    ensures b["name"] == JString(username) && b["email"] == JString(email) && b["password"] == JString(password)
  {
    map["name" := JString(username), "email" := JString(email), "password" := JString(password)]
  }
}
