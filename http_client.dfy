/** SampleHTTPClient, the object: its base URL and the default headers that
    login and logout update in place, the synchronous and asynchronous calls
    that build a request, send it and classify the answer, and the account
    calls of HTTPClient+Auth.swift. */
module HttpClient {
  import opened Wrappers
  import opened Errors
  import opened Http
  import Auth

  /** `baseUrl.appendingPathComponent(endPoint)` for the absolute end points
      the core uses ("/login", "/users"). */
  function AppendPath(baseUrl: string, endPoint: string): (url: string)
    ensures |url| == |baseUrl| + |endPoint|
    ensures url[..|baseUrl|] == baseUrl && url[|baseUrl|..] == endPoint
  {
    baseUrl + endPoint
  }

  class SampleHttpClient {
    var baseUrl: string
    var defaultHeaders: Headers

    constructor (baseUrl: string)
      ensures this.baseUrl == baseUrl && defaultHeaders == map[]
    {
      this.baseUrl := baseUrl;
      defaultHeaders := map[];
    }

    /** `isLoggedIn` */
    predicate IsLoggedIn()
      reads this
    {
      Auth.LoggedIn(defaultHeaders)
    }

    /** `sync(request:timeout:)`: the completion handler stores what the data
        task delivers, the caller waits, then checks the timeout, the error,
        the response and the data in that order. This is the step-by-step
        form of Http.SyncOutcome, proved equal to it. */
    method SyncRequest(request: Request, env: Env) returns (r: Result<RawResponse, Error>)
      ensures r == SyncOutcome(env.timesOut(request), env.send(request))
      ensures r.Success? ==> r.value.response == env.send(request).response.value &&
                             r.value.data == env.send(request).data.value
    {
      var returnData: Option<Bytes> := None;
      var returnError: Option<Error> := None;
      var returnResponse: Option<HttpResponse> := None;
      var delivered := env.send(request);
      returnData := delivered.data;
      returnError := delivered.error;
      returnResponse := delivered.response;
      if env.timesOut(request) {
        return Failure(Timeout);
      }
      if returnError.Some? {
        return Failure(returnError.value);
      }
      if returnResponse.None? {
        return Failure(NoHTTPResponse);
      }
      if returnData.None? {
        return Failure(NoData);
      }
      return Success(RawResponse(returnResponse.value, returnData.value));
    }

    /** `async(request:completion:)`: the value the completion receives.
        This is the step-by-step form of Http.RawOutcome, proved equal to it. */
    method AsyncRequest(request: Request, env: Env) returns (delivered: Result<RawResponse, Error>)
      ensures delivered == RawOutcome(env.send(request))
    {
      var c := env.send(request);
      if c.error.Some? {
        return Failure(c.error.value);
      }
      if c.response.None? {
        return Failure(NoHTTPResponse);
      }
      if c.data.None? {
        return Failure(NoData);
      }
      return Success(RawResponse(c.response.value, c.data.value));
    }

    /** The request-building part of `sync(method:...)` and `async(method:...)`:
        the method token, every default header and then every per-call
        header added with addValue, and the serialised body when there is
        one. */
    method BuildRequest(m: HttpMethod, url: string, headers: Headers, body: Option<KeyedData>,
                        serialize: KeyedData -> Result<Bytes, Error>) returns (r: Result<Request, Error>)
      ensures r == RequestFor(m, url, defaultHeaders, headers, body, serialize)
      ensures r.Success? ==> r.value.headers == MergeHeaders(defaultHeaders, headers)
      ensures body.None? ==> r.Success? && r.value.body.None?
    {
      var fields: Headers := map[];
      var pending := defaultHeaders.Keys;
      while pending != {}
        invariant pending <= defaultHeaders.Keys
        invariant fields == Visited(defaultHeaders, pending)
        decreases pending
      {
        var key :| key in pending;
        AddDefaultStep(defaultHeaders, pending, key);
        fields := AddValue(fields, key, defaultHeaders[key]);
        pending := pending - {key};
      }
      assert fields == defaultHeaders == MergeHeaders(defaultHeaders, Visited(headers, headers.Keys));
      pending := headers.Keys;
      while pending != {}
        invariant pending <= headers.Keys
        invariant fields == MergeHeaders(defaultHeaders, Visited(headers, pending))
        decreases pending
      {
        var key :| key in pending;
        AddExtraStep(defaultHeaders, headers, pending, key);
        fields := AddValue(fields, key, headers[key]);
        pending := pending - {key};
      }
      assert Visited(headers, {}) == headers;
      var httpBody: Option<Bytes> := None;
      if body.Some? {
        var encoded := serialize(body.value);
        if encoded.Failure? {
          return Failure(encoded.error);
        }
        httpBody := Some(encoded.value);
      }
      r := Success(Request(url, Description(m), fields, httpBody));
      assert body.Some? ==> httpBody == Some(serialize(body.value).value);
    }

    /** `sync(method:url:headers:body:timeout:)`: build, send and wait, then
        decode the data as a keyed dictionary; every failure is thrown.
        This is the step-by-step form of Http.SyncKeyed, proved equal to it. */
    method Sync(m: HttpMethod, url: string, headers: Headers, body: Option<KeyedData>, env: Env)
      returns (r: Result<KeyedResponse, Error>)
      ensures r == SyncKeyed(defaultHeaders, m, url, headers, body, env)
    {
      var req := BuildRequest(m, url, headers, body, env.serialize);
      if req.Failure? {
        return Failure(req.error);
      }
      var raw := SyncRequest(req.value, env);
      if raw.Failure? {
        return Failure(raw.error);
      }
      var parsed := env.parse(raw.value.data);
      if parsed.Failure? {
        return Failure(parsed.error);
      }
      var keyed := AsKeyed(parsed.value);
      if keyed.Failure? {
        return Failure(CannotDecodeData);
      }
      return Success(KeyedResponse(raw.value.response, keyed.value));
    }

    /** `async(method:url:headers:body:completion:)`: a body that cannot be
        serialised is reported to the completion at once and no task is
        returned; otherwise the data task's answer is decoded as a keyed
        dictionary. This is the step-by-step form of Http.AsyncKeyed, proved
        equal to it. */
    method Async(m: HttpMethod, url: string, headers: Headers, body: Option<KeyedData>, env: Env)
      returns (sent: bool, delivered: Result<KeyedResponse, Error>)
      ensures AsyncCall(sent, delivered) == AsyncKeyed(defaultHeaders, m, url, headers, body, env)
    {
      var req := BuildRequest(m, url, headers, body, env.serialize);
      if req.Failure? {
        return false, Failure(req.error);
      }
      var raw := AsyncRequest(req.value, env);
      sent := true;
      match raw
      case Failure(e) =>
        delivered := Failure(e);
      case Success(RawResponse(response, data)) =>
        var parsed := env.parse(data);
        if parsed.Failure? {
          delivered := Failure(parsed.error);
        } else if !parsed.value.JObject? {
          delivered := Failure(CannotDecodeData);
        } else {
          delivered := Success(KeyedResponse(response, parsed.value.fields));
        }
    }

    /** `createUser(username:password:email:)` (synchronous). */
    method CreateUser(username: string, password: string, email: string, env: Env) returns (err: Option<Error>)
      ensures err == Auth.CreateUserOutcome(
                SyncKeyed(defaultHeaders, Post, AppendPath(baseUrl, "/users"), map[],
                          Some(Auth.UserInfo(username, password, email)), env))
    {
      var resp := Sync(Post, AppendPath(baseUrl, "/users"), map[], Some(Auth.UserInfo(username, password, email)), env);
      if resp.Failure? {
        return Some(resp.error);
      }
      if resp.value.response.statusCode == 409 {
        return Some(UserAlreadyExists);
      }
      if resp.value.response.statusCode != 200 {
        return Some(CannotCreateUser);
      }
      return None;
    }

    /** The part both `login` variants share once the `/login` post has
        answered: the guard chain, and on success the bearer header. */
    method FinishLogin(resp: Result<KeyedResponse, Error>) returns (err: Option<Error>)
      modifies this
      ensures baseUrl == old(baseUrl)
      ensures err == Auth.ErrorOf(Auth.LoginOutcome(resp))
      ensures defaultHeaders == Auth.AfterLogin(old(defaultHeaders), Auth.LoginOutcome(resp))
      ensures err.None? ==> IsLoggedIn()
      ensures err.Some? ==> defaultHeaders == old(defaultHeaders)
    {
      if resp.Failure? {
        return Some(resp.error);
      }
      var status := resp.value.response.statusCode;
      if status == 401 {
        return Some(InvalidCredentials);
      }
      if status != 200 {
        return Some(UnknownLoginFailure);
      }
      var body := resp.value.body;
      if !("string" in body && body["string"].JString?) {
        return Some(NoBearerToken);
      }
      var authToken := body["string"].s;
      if authToken == "" {
        return Some(NoBearerToken);
      }
      defaultHeaders := defaultHeaders[Auth.AuthorizationKey := "Bearer " + authToken];
      return None;
    }

    /** `login(username:password:)` (synchronous, throwing). */
    method Login(username: string, password: string, env: Env) returns (err: Option<Error>)
      modifies this
      ensures baseUrl == old(baseUrl)
      ensures var outcome := Auth.LoginOutcome(
                SyncKeyed(old(defaultHeaders), Post, AppendPath(baseUrl, "/login"),
                          Auth.LoginHeaders(username, password, env.base64), Some(map[]), env));
              err == Auth.ErrorOf(outcome) && defaultHeaders == Auth.AfterLogin(old(defaultHeaders), outcome)
      ensures err.None? ==> IsLoggedIn()
      ensures err.Some? ==> defaultHeaders == old(defaultHeaders)
    {
      var headers := Auth.LoginHeaders(username, password, env.base64);
      var resp := Sync(Post, AppendPath(baseUrl, "/login"), headers, Some(map[]), env);
      err := FinishLogin(resp);
    }

    /** `login(username:password:completion:)`: the error handed to the
        completion, None on success. */
    method LoginAsync(username: string, password: string, env: Env) returns (err: Option<Error>)
      modifies this
      ensures baseUrl == old(baseUrl)
      ensures var outcome := Auth.LoginOutcome(
                AsyncKeyed(old(defaultHeaders), Post, AppendPath(baseUrl, "/login"),
                           Auth.LoginHeaders(username, password, env.base64), Some(map[]), env).delivered);
              err == Auth.ErrorOf(outcome) && defaultHeaders == Auth.AfterLogin(old(defaultHeaders), outcome)
      ensures err.None? ==> IsLoggedIn()
      ensures err.Some? ==> defaultHeaders == old(defaultHeaders)
    {
      var headers := Auth.LoginHeaders(username, password, env.base64);
      var sent, resp := Async(Post, AppendPath(baseUrl, "/login"), headers, Some(map[]), env);
      err := FinishLogin(resp);
    }

    /** `logout()` and `logout(completion:)`: drop the Authorization header. */
    method Logout()
      modifies this
      ensures baseUrl == old(baseUrl)
      ensures defaultHeaders == Auth.AfterLogout(old(defaultHeaders))
      ensures !IsLoggedIn()
    {
      defaultHeaders := defaultHeaders - {Auth.AuthorizationKey};
    }
  }
}
