/** The decision logic of SampleHTTPClient (HTTPClient.swift and
    HTTPClient+Async.swift) as values and functions: method names, requests,
    the classification of a data task's completion, header merging and the
    keyed-dictionary decode step. The client object itself is in module
    HttpClient. */
module Http {
  import opened Wrappers
  import opened Errors

  type Bytes = seq<bv8>

  /** Header fields of a request, after URLRequest has joined repeated fields. */
  type Headers = map<string, string>

  /** A decoded JSON value, the result of JSONSerialization.jsonObject. */
  datatype Json =
    | JNull
    | JBool(b: bool)
    | JNumber(n: int)
    | JString(s: string)
    | JArray(items: seq<Json>)
    | JObject(fields: map<string, Json>)

  /** SampleHTTPClient.KeyedData, `[String: Any]`. */
  type KeyedData = map<string, Json>

  /** SampleHTTPClient.HTTPMethod */
  datatype HttpMethod = Get | Post | Put | Delete | Custom(verb: string)

  datatype HttpResponse = HttpResponse(statusCode: int)

  /** The success case of AsyncRawResponse and of `sync(request:timeout:)`. */
  datatype RawResponse = RawResponse(response: HttpResponse, data: Bytes)

  /** The success case of AsyncKeyedResponse and of `sync(method:...)`. */
  datatype KeyedResponse = KeyedResponse(response: HttpResponse, body: KeyedData)

  /** The parts of a URLRequest the client sets. */
  datatype Request = Request(url: string, httpMethod: string, headers: Headers, body: Option<Bytes>)

  /** The three optionals a URLSession data task hands to its completion
      handler; `response` is already cast to HTTPURLResponse (a response of
      any other kind is None). */
  datatype Completion = Completion(data: Option<Bytes>, response: Option<HttpResponse>, error: Option<Error>)

  /** What the model does not compute itself: the server reached through
      URLSession, whether a synchronous caller's wait gives up before the
      completion handler runs, JSON serialisation and parsing, and base64. */
  datatype Env = Env(
    send: Request -> Completion,
    timesOut: Request -> bool,
    serialize: KeyedData -> Result<Bytes, Error>,
    parse: Bytes -> Result<Json, Error>,
    base64: string -> string)

  /** `HTTPMethod.description`, the method token of the request line. */
  function Description(m: HttpMethod): (s: string)
    ensures m.Custom? ==> s == m.verb
    ensures !m.Custom? ==> 3 <= |s| <= 6 && forall i :: 0 <= i < |s| ==> 'A' <= s[i] <= 'Z'
  {
    match m
    case Get => "GET"
    case Put => "PUT"
    case Post => "POST"
    case Delete => "DELETE"
    case Custom(verb) => verb
  }

  /** Every method can be spelled as a custom method with the same token,
      and the four built-in methods have four different tokens. */
  lemma DescriptionFaithful(m: HttpMethod, n: HttpMethod)
    ensures Description(Custom(Description(m))) == Description(m)
    ensures !m.Custom? && !n.Custom? && Description(m) == Description(n) ==> m == n
  {
  }

  /** The completion handler of `async(request:completion:)`: a transport
      error first, then a missing HTTP response, then missing data. */
  function RawOutcome(c: Completion): (r: Result<RawResponse, Error>)
    ensures c.error.Some? ==> r == Failure(c.error.value)
    ensures c.error.None? && c.response.None? ==> r == Failure(NoHTTPResponse)
    ensures c.error.None? && c.response.Some? && c.data.None? ==> r == Failure(NoData)
    ensures r.Success? <==> c.error.None? && c.response.Some? && c.data.Some?
    ensures r.Success? ==> r.value == RawResponse(c.response.value, c.data.value)
  {
    match c.error
    case Some(e) => Failure(e)
    case None =>
      match c.response
      case None => Failure(NoHTTPResponse)
      case Some(response) =>
        match c.data
        case None => Failure(NoData)
        case Some(data) => Success(RawResponse(response, data))
  }

  /** The checks of `sync(request:timeout:)` after the semaphore wait: the
      timeout first, whatever the handler delivered, then the same checks as
      the asynchronous path. */
  function SyncOutcome(timedOut: bool, c: Completion): (r: Result<RawResponse, Error>)
    ensures timedOut ==> r == Failure(Timeout)
    ensures !timedOut && c.error.Some? ==> r == Failure(c.error.value)
    ensures !timedOut && c.error.None? && c.response.None? ==> r == Failure(NoHTTPResponse)
    ensures !timedOut && c.error.None? && c.response.Some? && c.data.None? ==> r == Failure(NoData)
    ensures r.Success? <==> !timedOut && c.error.None? && c.response.Some? && c.data.Some?
    ensures r.Success? ==> r.value == RawResponse(c.response.value, c.data.value)
  {
    if timedOut then Failure(Timeout)
    else if c.error.Some? then Failure(c.error.value)
    else if c.response.None? then Failure(NoHTTPResponse)
    else if c.data.None? then Failure(NoData)
    else Success(RawResponse(c.response.value, c.data.value))
  }

  /** Without a timeout the synchronous and the asynchronous calls classify
      a completion identically. */
  lemma SyncAgreesWithAsync(timedOut: bool, c: Completion)
    ensures !timedOut ==> SyncOutcome(timedOut, c) == RawOutcome(c)
  {
  }

  /** `returnData as? [String: Any]`: only a JSON object is keyed data. */
  function AsKeyed(j: Json): (r: Result<KeyedData, Error>)
    ensures r.Success? <==> j.JObject?
    ensures r.Success? ==> r.value == j.fields
    ensures r.Failure? ==> r.error == CannotDecodeData
  {
    match j
    case JObject(fields) => Success(fields)
    case _ => Failure(CannotDecodeData)
  }

  /** The decode step shared by `sync(method:...)` and `async(method:...)`:
      a raw failure passes through unchanged, a parse error passes through,
      and a top level that is not a dictionary is CannotDecodeData. */
  function KeyedOutcome(raw: Result<RawResponse, Error>, parse: Bytes -> Result<Json, Error>): (r: Result<KeyedResponse, Error>)
    ensures raw.Failure? ==> r == Failure(raw.error)
    ensures raw.Success? && parse(raw.value.data).Failure? ==> r == Failure(parse(raw.value.data).error)
    ensures raw.Success? && parse(raw.value.data).Success? && !parse(raw.value.data).value.JObject? ==>
              r == Failure(CannotDecodeData)
    ensures r.Success? ==> raw.Success? && r.value.response == raw.value.response &&
                           parse(raw.value.data) == Success(JObject(r.value.body))
    ensures raw.Success? && parse(raw.value.data).Success? && parse(raw.value.data).value.JObject? ==>
              r == Success(KeyedResponse(raw.value.response, parse(raw.value.data).value.fields))
  {
    match raw
    case Failure(e) => Failure(e)
    case Success(RawResponse(response, data)) =>
      match parse(data)
      case Failure(e) => Failure(e)
      case Success(j) =>
        match AsKeyed(j)
        case Failure(e) => Failure(e)
        case Success(body) => Success(KeyedResponse(response, body))
  }

  /** URLRequest.addValue(_:forHTTPHeaderField:): a field that is already
      present gets the new value appended after a comma. */
  function AddValue(fields: Headers, key: string, value: string): (r: Headers)
    ensures r.Keys == fields.Keys + {key}
    ensures r[key] == if key in fields then fields[key] + "," + value else value
    ensures forall k :: k in fields && k != key ==> r[k] == fields[k]
  {
    if key in fields then fields[key := fields[key] + "," + value] else fields[key := value]
  }

  /** The header fields of a request built from `defaultHeaders`, then the
      per-call `headers`, each added in turn. Swift visits a dictionary in no
      fixed order; because a dictionary's keys are distinct, the result is
      the same in every order. */
  function MergeHeaders(defaults: Headers, extra: Headers): (r: Headers)
    ensures r.Keys == defaults.Keys + extra.Keys
    ensures forall k :: k in defaults && k !in extra ==> r[k] == defaults[k]
    ensures forall k :: k in extra && k !in defaults ==> r[k] == extra[k]
    ensures forall k :: k in extra && k in defaults ==> r[k] == defaults[k] + "," + extra[k]
  {
    map k | k in defaults.Keys + extra.Keys ::
      if k in defaults && k in extra then defaults[k] + "," + extra[k]
      else if k in defaults then defaults[k]
      else extra[k]
  }

  /** The fields of `m` whose keys are not in `pending`: the part of a
      dictionary a loop over it has already visited. */
  function Visited(m: Headers, pending: set<string>): (r: Headers)
    ensures r.Keys == m.Keys - pending
    ensures forall k :: k in r ==> r[k] == m[k]
  {
    map k | k in m && k !in pending :: m[k]
  }

  /** One turn of the loop over `defaultHeaders`: a key not visited yet is
      absent from the request, so addValue sets it. */
  lemma AddDefaultStep(defaults: Headers, pending: set<string>, key: string)
    requires key in pending && pending <= defaults.Keys
    ensures AddValue(Visited(defaults, pending), key, defaults[key]) == Visited(defaults, pending - {key})
  {
    var before := Visited(defaults, pending);
    assert key !in before;
    var after := AddValue(before, key, defaults[key]);
    var want := Visited(defaults, pending - {key});
    assert after.Keys == want.Keys;
    forall k | k in after
      ensures after[k] == want[k]
    {
    }
  }

  /** Adding a per-call field that is not there yet to the merged fields
      gives the merge with that field. */
  lemma AddValueMerge(defaults: Headers, extra: Headers, key: string, value: string)
    requires key !in extra
    ensures AddValue(MergeHeaders(defaults, extra), key, value) == MergeHeaders(defaults, extra[key := value])
  {
    var after := AddValue(MergeHeaders(defaults, extra), key, value);
    var want := MergeHeaders(defaults, extra[key := value]);
    forall k | k in after
      ensures k in want && after[k] == want[k]
    {
    }
  }

  /** One turn of the loop over the per-call headers: addValue on the merge
      so far is the merge with one more per-call field. */
  lemma AddExtraStep(defaults: Headers, extra: Headers, pending: set<string>, key: string)
    requires key in pending && pending <= extra.Keys
    ensures AddValue(MergeHeaders(defaults, Visited(extra, pending)), key, extra[key])
            == MergeHeaders(defaults, Visited(extra, pending - {key}))
  {
    var seen := Visited(extra, pending);
    assert Visited(extra, pending - {key}) == seen[key := extra[key]];
    AddValueMerge(defaults, seen, key, extra[key]);
  }

  /** When the per-call headers name no default field, merging is plain
      union; a per-call header never replaces a default one. */
  lemma MergeHeadersDisjoint(defaults: Headers, extra: Headers)
    requires defaults.Keys !! extra.Keys
    ensures MergeHeaders(defaults, extra) == defaults + extra
  {
  }

  /** The request `sync(method:...)` and `async(method:...)` send, or the
      serialisation error that stops them; a nil body leaves httpBody unset. */
  function RequestFor(m: HttpMethod, url: string, defaults: Headers, headers: Headers,
                      body: Option<KeyedData>, serialize: KeyedData -> Result<Bytes, Error>): (r: Result<Request, Error>)
    ensures r.Failure? <==> body.Some? && serialize(body.value).Failure?
    ensures r.Failure? ==> r.error == serialize(body.value).error
    ensures r.Success? ==> r.value.url == url && r.value.httpMethod == Description(m) &&
                           r.value.headers == MergeHeaders(defaults, headers)
    ensures r.Success? ==> r.value.body == if body.None? then None else Some(serialize(body.value).value)
  {
    match body
    case None => Success(Request(url, Description(m), MergeHeaders(defaults, headers), None))
    case Some(b) =>
      match serialize(b)
      case Failure(e) => Failure(e)
      case Success(bytes) => Success(Request(url, Description(m), MergeHeaders(defaults, headers), Some(bytes)))
  }

  /** What `sync(method:url:headers:body:timeout:)` returns or throws. A
      body that cannot be serialised stops the call before any request; a
      wait that gives up is a timeout; a success carries the response the
      server sent and the dictionary its data parses to. */
  function SyncKeyed(defaults: Headers, m: HttpMethod, url: string, headers: Headers,
                     body: Option<KeyedData>, env: Env): (r: Result<KeyedResponse, Error>)
    ensures body.Some? && env.serialize(body.value).Failure? ==> r == Failure(env.serialize(body.value).error)
    ensures var req := RequestFor(m, url, defaults, headers, body, env.serialize);
            req.Success? && env.timesOut(req.value) ==> r == Failure(Timeout)
    ensures var req := RequestFor(m, url, defaults, headers, body, env.serialize);
            r.Success? ==> && req.Success? && !env.timesOut(req.value)
                           && env.send(req.value).response == Some(r.value.response)
                           && env.send(req.value).data.Some?
                           && env.parse(env.send(req.value).data.value) == Success(JObject(r.value.body))
    ensures var req := RequestFor(m, url, defaults, headers, body, env.serialize);
            req.Success? && !env.timesOut(req.value) && env.send(req.value).error.None? &&
            env.send(req.value).response.Some? && env.send(req.value).data.Some? &&
            env.parse(env.send(req.value).data.value).Success? &&
            env.parse(env.send(req.value).data.value).value.JObject? ==>
              r == Success(KeyedResponse(env.send(req.value).response.value,
                                         env.parse(env.send(req.value).data.value).value.fields))
  {
    match RequestFor(m, url, defaults, headers, body, env.serialize)
    case Failure(e) => Failure(e)
    case Success(req) => KeyedOutcome(SyncOutcome(env.timesOut(req), env.send(req)), env.parse)
  }

  /** Whether `async(method:...)` sent a request (returned a task) and the
      value its completion handler receives. */
  datatype AsyncCall = AsyncCall(sent: bool, delivered: Result<KeyedResponse, Error>)

  /** What `async(method:url:headers:body:completion:)` does: a task is
      returned exactly when the request could be built; otherwise the
      serialisation error goes to the completion at once. A success carries
      the response the server sent and the dictionary its data parses to. */
  function AsyncKeyed(defaults: Headers, m: HttpMethod, url: string, headers: Headers,
                      body: Option<KeyedData>, env: Env): (r: AsyncCall)
    ensures r.sent <==> RequestFor(m, url, defaults, headers, body, env.serialize).Success?
    ensures !r.sent ==> r.delivered == Failure(env.serialize(body.value).error)
    ensures var req := RequestFor(m, url, defaults, headers, body, env.serialize);
            r.delivered.Success? ==> && r.sent
                                     && env.send(req.value).response == Some(r.delivered.value.response)
                                     && env.send(req.value).data.Some?
                                     && env.parse(env.send(req.value).data.value) == Success(JObject(r.delivered.value.body))
    ensures var req := RequestFor(m, url, defaults, headers, body, env.serialize);
            req.Success? && env.send(req.value).error.None? &&
            env.send(req.value).response.Some? && env.send(req.value).data.Some? &&
            env.parse(env.send(req.value).data.value).Success? &&
            env.parse(env.send(req.value).data.value).value.JObject? ==>
              r.delivered == Success(KeyedResponse(env.send(req.value).response.value,
                                                   env.parse(env.send(req.value).data.value).value.fields))
  {
    match RequestFor(m, url, defaults, headers, body, env.serialize)
    case Failure(e) => AsyncCall(false, Failure(e))
    case Success(req) => AsyncCall(true, KeyedOutcome(RawOutcome(env.send(req)), env.parse))
  }

  /** The two keyed calls agree unless the synchronous wait times out: a body
      that cannot be serialised stops both before any request, and
      otherwise they decode the same completion the same way. */
  lemma SyncKeyedAgreesWithAsync(defaults: Headers, m: HttpMethod, url: string, headers: Headers,
                                 body: Option<KeyedData>, env: Env)
    ensures var call := AsyncKeyed(defaults, m, url, headers, body, env);
            var req := RequestFor(m, url, defaults, headers, body, env.serialize);
            && (!call.sent <==> body.Some? && env.serialize(body.value).Failure?)
            && (!call.sent ==> call.delivered == SyncKeyed(defaults, m, url, headers, body, env))
            && (call.sent && !env.timesOut(req.value) ==>
                  call.delivered == SyncKeyed(defaults, m, url, headers, body, env))
            && (call.sent && env.timesOut(req.value) ==>
                  SyncKeyed(defaults, m, url, headers, body, env) == Failure(Timeout))
  {
    var req := RequestFor(m, url, defaults, headers, body, env.serialize);
    if req.Success? {
      SyncAgreesWithAsync(env.timesOut(req.value), env.send(req.value));
    }
  }
}
