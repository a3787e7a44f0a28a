/**
 * The request engine, `LegitSocialAPI._request`: resolve the operation, pick
 * the user and their session, substitute the declared path parameters, shape
 * query, body and headers, send with retry and backoff, and classify the
 * final response. The transport is a given sequence of responses (the i-th
 * call receives the i-th one; a call past the end raises), and sleeping is
 * the list of delays the engine asks for.
 */
module Engine {
  import opened Wrappers
  import opened Json
  import opened Text
  import opened Sessions
  import opened Registry

  /** The keyword arguments of `_request`. Query values equal to `JNull` stand for Python `None`. */
  datatype Call = Call(
    userKey: Option<string>,
    pathParams: map<string, string>,
    query: Object,
    body: Option<Object>,
    headers: Headers,
    allowRedirects: bool,
    timeout: int)

  /** A call with every keyword argument at its default. */
  const DefaultCall := Call(None, map[], map[], None, map[], true, 90)

  /** What the transport answers: a status, the body if it parses as JSON, and the raw text. */
  datatype Response = Response(status: int, body: Option<Json>, text: string)

  /** What `sess.request(...)` is handed, together with the session's cookie jar that goes with it. */
  datatype HttpRequest = HttpRequest(
    verb: string,
    url: string,
    params: Object,
    json: Option<Object>,
    headers: Headers,
    cookies: Cookies,
    allowRedirects: bool,
    timeout: int)

  /** Everything `_request` (and a namespace proxy) can raise. */
  datatype Failure =
    | UnknownOperation(opId: string)
    | MissingPathParam(name: string, opId: string)
    | UnknownNamespace(ns: string)
    | UnknownName(ns: string, name: string)
    | ApiError(status: int, message: Json, payload: Object)
    | ErrorBodyNotObject(status: int)
    | TransportFailure

  // ---- picking the user ----

  /** `user_key or self.default_user`: an absent or empty key means the default user. */
  function ResolveUser(userKey: Option<string>, defaultUser: string): (u: string)
    ensures userKey.Some? && userKey.value != "" ==> u == userKey.value
    ensures userKey.None? || userKey.value == "" ==> u == defaultUser
  {
    if userKey.Some? && userKey.value != "" then userKey.value else defaultUser
  }

  // ---- path parameters ----

  /**
   * The substitution loop as a recursive definition: each declared name in
   * order must be supplied, and every `{name}` is replaced by its value; the
   * first declared name that is missing is the error.
   */
  function Substitute(path: string, names: seq<string>, params: map<string, string>): (r: Result<string, string>)
    ensures r.Err? ==> r.error in names && r.error !in params
    decreases |names|
  {
    if names == [] then Ok(path)
    else if names[0] !in params then Err(names[0])
    else Substitute(ReplaceAll(path, Placeholder(names[0]), params[names[0]]), names[1..], params)
  }

  /** The loop of `_request` that rewrites `url_path` one declared name at a time. */
  method SubstitutePath(path: string, names: seq<string>, params: map<string, string>) returns (r: Result<string, string>)
    ensures r == Substitute(path, names, params)
  {
    var urlPath := path;
    var i := 0;
    while i < |names|
      invariant 0 <= i <= |names|
      invariant Substitute(path, names, params) == Substitute(urlPath, names[i..], params)
    {
      var name := names[i];
      assert names[i..][1..] == names[i + 1..];
      if name !in params {
        return Err(name);
      }
      urlPath := ReplaceAll(urlPath, Placeholder(name), params[name]);
      i := i + 1;
    }
    r := Ok(urlPath);
  }

  /**
   * Substitution fails exactly when a declared name is missing, and then it
   * names the first missing one in declaration order.
   */
  lemma {:induction false} SubstituteFailsOnFirstMissing(path: string, names: seq<string>, params: map<string, string>)
    ensures Substitute(path, names, params).Ok? <==> forall i :: 0 <= i < |names| ==> names[i] in params
    ensures Substitute(path, names, params).Err? ==>
      exists i :: 0 <= i < |names| && names[i] == Substitute(path, names, params).error && names[i] !in params &&
        forall j :: 0 <= j < i ==> names[j] in params
    decreases |names|
  {
    if names != [] && names[0] in params {
      var next := ReplaceAll(path, Placeholder(names[0]), params[names[0]]);
      SubstituteFailsOnFirstMissing(next, names[1..], params);
      var r := Substitute(next, names[1..], params);
      if r.Err? {
        var i :| 0 <= i < |names[1..]| && names[1..][i] == r.error && names[1..][i] !in params &&
          forall j :: 0 <= j < i ==> names[1..][j] in params;
        assert names[i + 1] == r.error;
        forall j | 0 <= j < i + 1 ensures names[j] in params {
          if j > 0 { assert names[j] == names[1..][j - 1]; }
        }
      } else {
        forall i | 0 <= i < |names| ensures names[i] in params {
          if i > 0 { assert names[i] == names[1..][i - 1]; }
        }
      }
    }
  }

  /** Path parameters that are not declared play no part: only the declared names are read. */
  lemma {:induction false} SubstituteIgnoresUndeclared(path: string, names: seq<string>, params: map<string, string>, extra: map<string, string>)
    requires forall k :: k in extra ==> k !in params && k !in names
    ensures Substitute(path, names, params + extra) == Substitute(path, names, params)
    decreases |names|
  {
    if names != [] {
      assert names[0] !in extra;
      if names[0] in params {
        assert (params + extra)[names[0]] == params[names[0]];
        SubstituteIgnoresUndeclared(ReplaceAll(path, Placeholder(names[0]), params[names[0]]), names[1..], params, extra);
      }
    }
  }

  /** Filling the placeholders of the declared names, one name after the other. */
  function FillAll(t: seq<Seg>, names: seq<string>, params: map<string, string>): seq<Seg>
    requires forall i :: 0 <= i < |names| ==> names[i] in params
    decreases |names|
  {
    if names == [] then t else FillAll(Fill(t, names[0], params[names[0]]), names[1..], params)
  }

  /** Filling one name removes exactly that placeholder and keeps a template well formed. */
  lemma {:induction false} FillRemovesHole(t: seq<Seg>, name: string, v: string)
    requires WellFormed(t) && BraceFree(v)
    ensures WellFormed(Fill(t, name, v))
    ensures Holes(Fill(t, name, v)) == Holes(t) - {name}
  {
    if t != [] {
      FillRemovesHole(t[1..], name, v);
      assert Fill(t, name, v)[1..] == Fill(t[1..], name, v);
    }
  }

  /**
   * On a well-formed template whose values contain no braces, the loop
   * performs exactly the template fill: nothing but placeholders changes,
   * and the placeholders of undeclared names stay.
   */
  lemma {:induction false} SubstituteIsFill(t: seq<Seg>, names: seq<string>, params: map<string, string>)
    requires WellFormed(t)
    requires forall i :: 0 <= i < |names| ==> names[i] in params && BraceFree(names[i]) && BraceFree(params[names[i]])
    ensures Substitute(Render(t), names, params) == Ok(Render(FillAll(t, names, params)))
    ensures WellFormed(FillAll(t, names, params))
    ensures Holes(FillAll(t, names, params)) == Holes(t) - set i | 0 <= i < |names| :: names[i]
    decreases |names|
  {
    if names != [] {
      var n := names[0];
      ReplaceFills(t, n, params[n]);
      FillRemovesHole(t, n, params[n]);
      SubstituteIsFill(Fill(t, n, params[n]), names[1..], params);
      var all, rest := set i | 0 <= i < |names| :: names[i], set i | 0 <= i < |names[1..]| :: names[1..][i];
      forall x ensures x in all <==> x in rest + {n} {
        if x in all {
          var i :| 0 <= i < |names| && names[i] == x;
          if i > 0 { assert names[1..][i - 1] == x; }
        }
        if x in rest {
          var i :| 0 <= i < |names[1..]| && names[1..][i] == x;
          assert names[i + 1] == x;
        }
      }
    }
  }

  /**
   * When the declared names cover every placeholder of the template and all
   * names and values are free of braces, the substituted path has no
   * placeholder left: it contains no `{` at all.
   */
  lemma NoPlaceholderRemains(t: seq<Seg>, names: seq<string>, params: map<string, string>)
    requires WellFormed(t)
    requires forall i :: 0 <= i < |names| ==> names[i] in params && BraceFree(names[i]) && BraceFree(params[names[i]])
    requires forall h :: h in Holes(t) ==> exists i :: 0 <= i < |names| && names[i] == h
    ensures Substitute(Render(t), names, params).Ok?
    ensures '{' !in Substitute(Render(t), names, params).value
  {
    SubstituteIsFill(t, names, params);
    RenderNoHoles(FillAll(t, names, params));
  }

  // ---- query, body, headers ----

  /** `{k: v for k, v in query.items() if v is not None}`. */
  function FilterQuery(q: Object): (r: Object)
    ensures forall k :: k in r <==> k in q && q[k] != JNull
    ensures forall k :: k in r ==> r[k] == q[k]
  {
    map k | k in q && q[k] != JNull :: q[k]
  }

  /** `json_body or {}` when the operation has a body, and no body at all otherwise. */
  function SelectBody(hasBody: bool, body: Option<Object>): (r: Option<Object>)
    ensures r.Some? <==> hasBody
    ensures hasBody && body.Some? ==> r.value == body.value
    ensures hasBody && body.None? ==> r.value == map[]
  {
    if hasBody then Some(body.GetOr(map[])) else None
  }

  /** `dict(sess.headers)` updated with the call's headers: the call wins on a clash. */
  function MergeHeaders(session: Headers, call: Headers): (r: Headers)
    ensures r.Keys == session.Keys + call.Keys
    ensures forall h :: h in call ==> r[h] == call[h]
    ensures forall h :: h in session && h !in call ==> r[h] == session[h]
  {
    session + call
  }

  // ---- retry and backoff ----

  /** 429 and the 5xx statuses 500, 502, 503 and 504 are retried. */
  predicate Retryable(status: int) {
    status == 429 || status == 500 || status == 502 || status == 503 || status == 504
  }

  function Pow2(n: nat): (r: nat)
    ensures r >= 1
  {
    if n == 0 then 1 else 2 * Pow2(n - 1)
  }

  /** How the retry loop ended: the calls made, the delays slept, and the last response (none if the transport raised). */
  datatype Trace = Trace(calls: nat, sleeps: seq<nat>, last: Option<Response>)

  /** The retry loop from attempt `attempt` on, whose backoff is then `2^attempt`. */
  function RetryFrom(transport: seq<Response>, attempt: nat): (t: Trace)
    requires attempt <= 3
    ensures attempt < t.calls <= 4
    ensures |t.sleeps| == t.calls - attempt - 1
    decreases 3 - attempt
  {
    if attempt >= |transport| then Trace(attempt + 1, [], None)
    else if Retryable(transport[attempt].status) && attempt < 3 then
      var t := RetryFrom(transport, attempt + 1);
      Trace(t.calls, [Pow2(attempt)] + t.sleeps, t.last)
    else Trace(attempt + 1, [], Some(transport[attempt]))
  }

  /**
   * At most four calls; the delays are 1, 2, 4 in order, each one following a
   * retryable answer; the loop stops on the first answer that is not
   * retryable, or on the fourth answer whatever it is.
   */
  lemma {:induction false} RetryShape(transport: seq<Response>, attempt: nat)
    requires attempt <= 3 && attempt <= |transport|
    ensures attempt < RetryFrom(transport, attempt).calls <= 4
    ensures |RetryFrom(transport, attempt).sleeps| == RetryFrom(transport, attempt).calls - attempt - 1
    ensures forall i :: 0 <= i < |RetryFrom(transport, attempt).sleeps| ==>
      RetryFrom(transport, attempt).sleeps[i] == Pow2(attempt + i) &&
      attempt + i < |transport| && Retryable(transport[attempt + i].status)
    ensures RetryFrom(transport, attempt).last.Some? ==>
      RetryFrom(transport, attempt).calls <= |transport| &&
      RetryFrom(transport, attempt).last.value == transport[RetryFrom(transport, attempt).calls - 1] &&
      (RetryFrom(transport, attempt).calls == 4 || !Retryable(RetryFrom(transport, attempt).last.value.status))
    ensures RetryFrom(transport, attempt).last.None? ==> RetryFrom(transport, attempt).calls == |transport| + 1
    decreases 3 - attempt
  {
    if attempt < |transport| && Retryable(transport[attempt].status) && attempt < 3 {
      RetryShape(transport, attempt + 1);
    }
  }

  /** The retry loop of `_request`; `backoff` doubles after every sleep. */
  method SendWithRetry(transport: seq<Response>) returns (t: Trace)
    ensures t == RetryFrom(transport, 0)
  {
    var sleeps: seq<nat> := [];
    var backoff: nat := 1;
    var attempt := 0;
    if |transport| == 0 {
      return Trace(1, [], None);
    }
    var resp := transport[0];
    ghost var whole := RetryFrom(transport, 0);
    while Retryable(resp.status) && attempt < 3
      invariant 0 <= attempt <= 3 && attempt < |transport|
      invariant resp == transport[attempt]
      invariant backoff == Pow2(attempt)
      invariant whole.calls == RetryFrom(transport, attempt).calls
      invariant whole.last == RetryFrom(transport, attempt).last
      invariant whole.sleeps == sleeps + RetryFrom(transport, attempt).sleeps
      decreases 3 - attempt
    {
      ghost var next := RetryFrom(transport, attempt + 1);
      assert RetryFrom(transport, attempt).sleeps == [backoff] + next.sleeps;
      assert sleeps + ([backoff] + next.sleeps) == (sleeps + [backoff]) + next.sleeps;
      sleeps := sleeps + [backoff];
      backoff := backoff * 2;
      attempt := attempt + 1;
      if attempt >= |transport| {
        return Trace(attempt + 1, sleeps, None);
      }
      resp := transport[attempt];
    }
    t := Trace(attempt + 1, sleeps, Some(resp));
  }

  // ---- classifying the final response ----

  /** `payload.get("message") or resp.text`. */
  function ErrorMessage(payload: Object, text: string): (m: Json)
    ensures Truthy(DictGet(payload, "message")) ==> "message" in payload && m == payload["message"]
    ensures !Truthy(DictGet(payload, "message")) ==> m == JStr(text)
  {
    if Truthy(DictGet(payload, "message")) then DictGet(payload, "message") else JStr(text)
  }

  /**
   * A status of 400 or more raises `APIError` with that status, the message
   * and the parsed body (`{}` when it does not parse); an error body that
   * parses to something other than an object makes `payload.get` raise. A
   * status below 400 returns the parsed body, or `{"raw": text}`.
   */
  function Classify(resp: Response): (r: Result<Json, Failure>)
    ensures r.Ok? <==> resp.status < 400
    ensures r.Ok? ==> r.value == if resp.body.Some? then resp.body.value else JObj(map["raw" := JStr(resp.text)])
    ensures r.Err? ==> r.error.ApiError? || r.error.ErrorBodyNotObject?
    ensures r.Err? && r.error.ApiError? ==> r.error.status == resp.status
    ensures r.Err? && r.error.ApiError? && resp.body.Some? ==> resp.body.value == JObj(r.error.payload)
    ensures r.Err? && r.error.ApiError? && resp.body.None? ==> r.error.payload == map[]
    ensures r.Err? && r.error.ErrorBodyNotObject? <==> resp.status >= 400 && resp.body.Some? && !resp.body.value.JObj?
  {
    if resp.status >= 400 then
      match resp.body
      case None => Err(ApiError(resp.status, ErrorMessage(map[], resp.text), map[]))
      case Some(JObj(m)) => Err(ApiError(resp.status, ErrorMessage(m, resp.text), m))
      case Some(_) => Err(ErrorBodyNotObject(resp.status))
    else if resp.body.Some? then Ok(resp.body.value)
    else Ok(JObj(map["raw" := JStr(resp.text)]))
  }

  /** The message of an `APIError` is the body's `message` when that is truthy, and the raw text otherwise. */
  lemma ErrorMessagePreference(resp: Response)
    requires resp.status >= 400 && Classify(resp).Err? && Classify(resp).error.ApiError?
    ensures var e := Classify(resp).error;
      e.message == if Truthy(DictGet(e.payload, "message")) then e.payload["message"] else JStr(resp.text)
  {
  }

  /** The result of the whole exchange: a transport that raised, or the last response classified. */
  function Conclude(t: Trace): Result<Json, Failure> {
    if t.last.None? then Err(TransportFailure) else Classify(t.last.value)
  }

  // ---- the whole dispatch ----

  /** What one `_request` call did: its result, the request it sent, how many calls and which sleeps. */
  datatype Exchange = Exchange(outcome: Result<Json, Failure>, request: Option<HttpRequest>, calls: nat, sleeps: seq<nat>)

  /** The request `_request` builds for a resolved operation and a substituted path. */
  function BuildRequest(ep: Endpoint, baseUrl: string, path: string, session: Session, call: Call): HttpRequest {
    HttpRequest(ep.verb, baseUrl + path, FilterQuery(call.query), SelectBody(ep.hasBody, call.body),
      MergeHeaders(session.headers, call.headers), session.jar, call.allowRedirects, call.timeout)
  }

  /**
   * `_request(op_id, ...)` as a function of the registry, the client's base
   * URL and default user, and the session store; it gives the exchange and
   * the store afterwards.
   */
  function Dispatch(endpoints: map<string, Endpoint>, baseUrl: string, defaultUser: string, st: Store,
                    opId: string, call: Call, transport: seq<Response>): (res: (Exchange, Store))
    ensures opId !in endpoints ==> res.1 == st
    ensures opId in endpoints ==> res.1 == WithSession(st, ResolveUser(call.userKey, defaultUser))
    ensures res.0.request.None? <==> res.0.calls == 0
    ensures res.0.request.None? ==> res.0.outcome.Err? && res.0.sleeps == []
    ensures res.0.request.Some? ==>
      res.0.outcome == Conclude(RetryFrom(transport, 0)) &&
      res.0.calls == RetryFrom(transport, 0).calls && res.0.sleeps == RetryFrom(transport, 0).sleeps
  {
    match Resolve(endpoints, opId)
    case None => (Exchange(Err(UnknownOperation(opId)), None, 0, []), st)
    case Some(ep) =>
      var user := ResolveUser(call.userKey, defaultUser);
      var st' := WithSession(st, user);
      match Substitute(ep.path, ep.pathParams, call.pathParams)
      case Err(name) => (Exchange(Err(MissingPathParam(name, opId)), None, 0, []), st')
      case Ok(path) =>
        var t := RetryFrom(transport, 0);
        (Exchange(Conclude(t), Some(BuildRequest(ep, baseUrl, path, st'.sessions[user], call)), t.calls, t.sleeps), st')
  }

  /**
   * A namespace proxy call `client.<ns>.<name>(...)`: an unknown namespace or
   * local name fails without touching anything; otherwise the call goes to
   * `_request` with the descriptor's operation id.
   */
  function Proxy(r: RegistryState, baseUrl: string, defaultUser: string, st: Store,
                 ns: string, name: string, call: Call, transport: seq<Response>): (res: (Exchange, Store))
    ensures res.1.tokens == st.tokens && res.1.cookies == st.cookies
    ensures res.0.request.None? <==> res.0.calls == 0
  {
    match Lookup(r, ns, name)
    case Err(NoNamespace(n)) => (Exchange(Err(UnknownNamespace(n)), None, 0, []), st)
    case Err(NoOperation(n, l)) => (Exchange(Err(UnknownName(n, l)), None, 0, []), st)
    case Ok(ep) => Dispatch(r.endpoints, baseUrl, defaultUser, st, ep.operationId, call, transport)
  }

  /**
   * A proxy call fails, with no call made and the store untouched, exactly
   * when the namespace or the local name is unknown; otherwise it is
   * `_request` on the operation id of the descriptor it found.
   */
  lemma ProxyForwards(r: RegistryState, baseUrl: string, defaultUser: string, st: Store,
                      ns: string, name: string, call: Call, transport: seq<Response>)
    ensures ns !in r.namespaces ==>
      Proxy(r, baseUrl, defaultUser, st, ns, name, call, transport) == (Exchange(Err(UnknownNamespace(ns)), None, 0, []), st)
    ensures ns in r.namespaces && name !in r.namespaces[ns] ==>
      Proxy(r, baseUrl, defaultUser, st, ns, name, call, transport) == (Exchange(Err(UnknownName(ns, name)), None, 0, []), st)
    ensures ns in r.namespaces && name in r.namespaces[ns] ==>
      Proxy(r, baseUrl, defaultUser, st, ns, name, call, transport) ==
      Dispatch(r.endpoints, baseUrl, defaultUser, st, r.namespaces[ns][name].operationId, call, transport)
  {
  }

  /** An unknown operation id fails before any session is created and before any call is made. */
  lemma UnknownOperationFailsFirst(endpoints: map<string, Endpoint>, baseUrl: string, defaultUser: string, st: Store,
                                   opId: string, call: Call, transport: seq<Response>)
    requires opId !in endpoints
    ensures Dispatch(endpoints, baseUrl, defaultUser, st, opId, call, transport).0.outcome == Err(UnknownOperation(opId))
    ensures Dispatch(endpoints, baseUrl, defaultUser, st, opId, call, transport).0.calls == 0
    ensures Dispatch(endpoints, baseUrl, defaultUser, st, opId, call, transport).1 == st
  {
  }

  /**
   * A declared path parameter that the call does not supply fails with the
   * first such name, after the user's session exists but before any call.
   */
  lemma MissingPathParamFailsBeforeTransport(endpoints: map<string, Endpoint>, baseUrl: string, defaultUser: string, st: Store,
                                             opId: string, call: Call, transport: seq<Response>, missing: string)
    requires opId in endpoints
    requires missing in endpoints[opId].pathParams && missing !in call.pathParams
    ensures var (x, st') := Dispatch(endpoints, baseUrl, defaultUser, st, opId, call, transport);
      && x.calls == 0 && x.request == None && x.sleeps == []
      && x.outcome.Err? && x.outcome.error.MissingPathParam? && x.outcome.error.name !in call.pathParams
      && x.outcome.error.name in endpoints[opId].pathParams
      && st' == WithSession(st, ResolveUser(call.userKey, defaultUser))
  {
    var ep := endpoints[opId];
    SubstituteFailsOnFirstMissing(ep.path, ep.pathParams, call.pathParams);
  }

  /**
   * With every declared path parameter supplied, exactly one request shape is
   * sent, to the base URL followed by the substituted path, with the non-None
   * query entries, the body when the operation has one, and the session's
   * headers overridden by the call's; the result is the last response of the
   * retry loop, classified.
   */
  lemma DispatchSendsBuiltRequest(endpoints: map<string, Endpoint>, baseUrl: string, defaultUser: string, st: Store,
                                  opId: string, call: Call, transport: seq<Response>)
    requires opId in endpoints
    requires forall n :: n in endpoints[opId].pathParams ==> n in call.pathParams
    ensures var (x, st') := Dispatch(endpoints, baseUrl, defaultUser, st, opId, call, transport);
      var ep, user := endpoints[opId], ResolveUser(call.userKey, defaultUser);
      && st' == WithSession(st, user)
      && Substitute(ep.path, ep.pathParams, call.pathParams).Ok?
      && x.request.Some?
      && x.request.value.url == baseUrl + Substitute(ep.path, ep.pathParams, call.pathParams).value
      && x.request.value.verb == ep.verb
      && x.request.value.params == FilterQuery(call.query)
      && x.request.value.json == SelectBody(ep.hasBody, call.body)
      && x.request.value.headers == MergeHeaders(st'.sessions[user].headers, call.headers)
      && 1 <= x.calls <= 4
      && x.calls == RetryFrom(transport, 0).calls && x.sleeps == RetryFrom(transport, 0).sleeps
      && x.outcome == Conclude(RetryFrom(transport, 0))
  {
    var ep := endpoints[opId];
    SubstituteFailsOnFirstMissing(ep.path, ep.pathParams, call.pathParams);
    RetryShape(transport, 0);
  }

  /** Whenever the substitution succeeds, the request goes to the base URL followed by the substituted path. */
  lemma DispatchUrl(endpoints: map<string, Endpoint>, baseUrl: string, defaultUser: string, st: Store,
                    opId: string, call: Call, transport: seq<Response>, path: string)
    requires opId in endpoints
    requires Substitute(endpoints[opId].path, endpoints[opId].pathParams, call.pathParams) == Ok(path)
    ensures Dispatch(endpoints, baseUrl, defaultUser, st, opId, call, transport).0.request.Some?
    ensures Dispatch(endpoints, baseUrl, defaultUser, st, opId, call, transport).0.request.value.url == baseUrl + path
  {
  }

  /** A service answering 503 three times and then 200 yields the fourth body, after sleeping 1, 2 and 4. */
  lemma RecoversAfterThreeUnavailable(body: Json, text: string)
    ensures var transport := [Response(503, None, ""), Response(503, None, ""), Response(503, None, ""), Response(200, Some(body), text)];
      var t := RetryFrom(transport, 0);
      t.calls == 4 && t.sleeps == [1, 2, 4] && Conclude(t) == Ok(body)
  {
  }

  /** A service answering 503 four times raises an `APIError` with status 503. */
  lemma GivesUpAfterFourUnavailable(text: string)
    ensures var transport := [Response(503, None, text), Response(503, None, text), Response(503, None, text), Response(503, None, text)];
      var t := RetryFrom(transport, 0);
      t.calls == 4 && t.sleeps == [1, 2, 4] && Conclude(t) == Err(ApiError(503, ErrorMessage(map[], text), map[]))
  {
  }

  /** A 404 raises at once: one call, no sleep. */
  lemma NotFoundIsNotRetried(transport: seq<Response>)
    requires |transport| >= 1 && transport[0].status == 404
    requires transport[0].body.None? || transport[0].body.value.JObj?
    ensures RetryFrom(transport, 0).calls == 1 && RetryFrom(transport, 0).sleeps == []
    ensures Conclude(RetryFrom(transport, 0)).Err? && Conclude(RetryFrom(transport, 0)).error.ApiError?
    ensures Conclude(RetryFrom(transport, 0)).error.status == 404
  {
  }
}
