/** `integrationtest/rpc.py`: how the integration-test harness turns a test's
    request entry and the shared `env` dictionary into an HTTP request. The
    model stops at the arguments handed to `requests.request`. */
module Rpc {

  import opened Wrappers
  import opened PyLib

  /** The JSON values of a test file: strings, objects, and everything else
      (numbers, booleans, null, lists), which the harness never looks into. */
  datatype Json = JStr(s: string) | JObj(fields: Dict<Json>) | JOther(literal: string)

  /** A test's `request` entry. `body` is absent or an object. */
  datatype RequestSpec = RequestSpec(httpMethod: string, path: string, withToken: bool, body: Option<Dict<Json>>)

  /** The arguments of `requests.request(method, url, headers=..., json=...)`. */
  datatype HttpRequest = HttpRequest(httpMethod: string, url: string, headers: Dict<string>, json: Option<Dict<Json>>)

  // ---------------------------------------------------------------------------
  // _make_path

  function Placeholder(key: string): (p: string)
    ensures |p| > 0
  {
    "${" + key + "}"
  }

  /** The loop of `_make_path`: for each entry of `env`, in insertion order,
      every `${key}` in the path becomes the entry's value. */
  function Substitute(path: string, env: Dict<string>): string {
    if env == [] then path
    else ReplaceAll(Substitute(path, env[..|env| - 1]), Placeholder(env[|env| - 1].0), env[|env| - 1].1)
  }

  /** What `_make_path` returns: `baseUrl` and the test's path, substituted. */
  function PathFor(spec: RequestSpec, env: Dict<string>): Result<string> {
    match Get(env, "baseUrl")
    case None => Raised(KeyError("baseUrl"))
    case Some(base) => Ok(Substitute(base + spec.path, env))
  }

  /** `_make_path`. */
  method MakePath(spec: RequestSpec, env: Dict<string>) returns (r: Result<string>)
    ensures r == PathFor(spec, env)
  {
    var base := Get(env, "baseUrl");
    if base.None? {
      return Raised(KeyError("baseUrl"));
    }
    var path := base.value + spec.path;
    var i := 0;
    while i < |env|
      invariant 0 <= i <= |env|
      invariant path == Substitute(base.value + spec.path, env[..i])
    {
      var (key, val) := env[i];
      assert env[..i + 1][..i] == env[..i];
      path := ReplaceAll(path, Placeholder(key), val);
      i := i + 1;
    }
    assert env[..i] == env;
    return Ok(path);
  }

  /** A path in which no key of `env` appears as a placeholder comes out as it
      went in. */
  lemma {:induction false} SubstituteNoPlaceholder(path: string, env: Dict<string>)
    requires forall i :: 0 <= i < |env| ==> !Occurs(Placeholder(env[i].0), path)
    ensures Substitute(path, env) == path
  {
    if env != [] {
      SubstituteNoPlaceholder(path, env[..|env| - 1]);
    }
  }

  /** So a test path without placeholders is requested at `baseUrl + path`. */
  lemma PathWithoutPlaceholders(spec: RequestSpec, env: Dict<string>)
    requires Get(env, "baseUrl").Some?
    requires forall i :: 0 <= i < |env| ==> !Occurs(Placeholder(env[i].0), Get(env, "baseUrl").value + spec.path)
    ensures PathFor(spec, env) == Ok(Get(env, "baseUrl").value + spec.path)
  {
    SubstituteNoPlaceholder(Get(env, "baseUrl").value + spec.path, env);
  }

  // ---------------------------------------------------------------------------
  // _make_headers

  /** What `_make_headers` returns: always the JSON content type and the
      client id; the bearer token exactly when the test asks for one. */
  function HeadersFor(env: Dict<string>, withToken: bool): (r: Result<Dict<string>>)
    ensures Get(env, "clientId").None? ==> r == Raised(KeyError("clientId"))
    ensures Get(env, "clientId").Some? && withToken && Get(env, "authToken").None? ==> r == Raised(KeyError("authToken"))
    ensures Get(env, "clientId").Some? && (!withToken || Get(env, "authToken").Some?) ==> r.Ok?
    ensures r.Ok? ==> Get(r.value, "Content-Type") == Some("application/json")
    ensures r.Ok? ==> Get(r.value, "X-Client-ID") == Get(env, "clientId")
    ensures r.Ok? ==> (Get(r.value, "Authorization").Some? <==> withToken)
    ensures r.Ok? && withToken ==> Get(r.value, "Authorization") == Some("Bearer " + Get(env, "authToken").value)
    ensures r.Ok? ==> Keys(r.value) == ["Content-Type", "X-Client-ID"] + (if withToken then ["Authorization"] else [])
  {
    match Get(env, "clientId")
    case None => Raised(KeyError("clientId"))
    case Some(clientId) =>
      var base := [("Content-Type", "application/json"), ("X-Client-ID", clientId)];
      assert Keys(base) == ["Content-Type", "X-Client-ID"];
      FindFirst(base, "Content-Type", 0);
      FindFirst(base, "X-Client-ID", 1);
      if !withToken then Ok(base)
      else
        match Get(env, "authToken")
        case None => Raised(KeyError("authToken"))
        case Some(token) =>
          var r := Put(base, "Authorization", "Bearer " + token);
          assert Keys(r) == Keys(base) + ["Authorization"];
          FindFirst(r, "Content-Type", 0);
          FindFirst(r, "X-Client-ID", 1);
          Ok(r)
  }

  /** `_make_headers`: builds the dictionary and adds the token in place. */
  method MakeHeaders(env: Dict<string>, withToken: bool) returns (r: Result<Dict<string>>)
    ensures r == HeadersFor(env, withToken)
  {
    var clientId := Get(env, "clientId");
    if clientId.None? {
      return Raised(KeyError("clientId"));
    }
    var baseHeaders := [("Content-Type", "application/json"), ("X-Client-ID", clientId.value)];
    if withToken {
      var token := Get(env, "authToken");
      if token.None? {
        return Raised(KeyError("authToken"));
      }
      baseHeaders := Put(baseHeaders, "Authorization", "Bearer " + token.value);
    }
    return Ok(baseHeaders);
  }

  // ---------------------------------------------------------------------------
  // _resolve_value and _resolve_body

  /** The candidate key of `_resolve_value`: `val` without any `${` or `}`. */
  function StripBraces(val: string): string {
    ReplaceAll(ReplaceAll(val, "${", ""), "}", "")
  }

  /** Stripping leaves a value alone exactly when it has neither `${` nor `}`. */
  lemma StripBracesIdentity(val: string)
    ensures StripBraces(val) == val <==> !Occurs("${", val) && !Occurs("}", val)
  {
    var once := ReplaceAll(val, "${", "");
    assert |ReplaceAll(once, "}", "")| <= |once| <= |val|;
  }

  /** `_resolve_value`: a value with neither `${` nor `}` is kept; any other
      value is replaced by the `env` entry its stripped form names, or raises
      `KeyError`. */
  function ResolveValue(env: Dict<string>, val: string): (r: Result<string>)
    ensures !Occurs("${", val) && !Occurs("}", val) ==> r == Ok(val)
    ensures Occurs("${", val) || Occurs("}", val) ==>
      r == (match Get(env, StripBraces(val))
            case None => Raised(KeyError(StripBraces(val)))
            case Some(v) => Ok(v))
  {
    var key := StripBraces(val);
    StripBracesIdentity(val);
    if key == val then Ok(val)
    else
      match Get(env, key)
      case None => Raised(KeyError(key))
      case Some(v) => Ok(v)
  }

  /** One value of a body: strings resolved, objects resolved recursively,
      anything else copied. */
  function ResolveItem(env: Dict<string>, val: Json): Result<Json>
    decreases val, if val.JObj? then |val.fields| + 1 else 0
  {
    match val
    case JStr(s) =>
      (match ResolveValue(env, s) case Raised(e) => Raised(e) case Ok(v) => Ok(JStr(v)))
    case JObj(fields) =>
      (match ResolveFields(env, fields, |fields|) case Raised(e) => Raised(e) case Ok(d) => Ok(JObj(d)))
    case JOther(_) => Ok(val)
  }

  /** The first `n` iterations of the loop of `_resolve_body`: `final_body`
      so far, or the exception that ended it. */
  function ResolveFields(env: Dict<string>, fields: Dict<Json>, n: nat): Result<Dict<Json>>
    requires n <= |fields|
    decreases JObj(fields), n
  {
    if n == 0 then Ok([])
    else
      match ResolveFields(env, fields, n - 1)
      case Raised(e) => Raised(e)
      case Ok(acc) =>
        assert fields[n - 1] in fields;
        match ResolveItem(env, fields[n - 1].1)
        case Raised(e) => Raised(e)
        case Ok(v) => Ok(Put(acc, fields[n - 1].0, v))
  }

  /** Once an iteration has raised, later iterations change nothing. */
  lemma {:induction false} RaisedStays(env: Dict<string>, fields: Dict<Json>, i: nat, n: nat)
    requires i <= n <= |fields| && ResolveFields(env, fields, i).Raised?
    ensures ResolveFields(env, fields, n) == ResolveFields(env, fields, i)
  {
    if i < n {
      RaisedStays(env, fields, i, n - 1);
    }
  }

  /** One more iteration of the loop of `_resolve_body`. */
  lemma ResolveStep(env: Dict<string>, fields: Dict<Json>, n: nat)
    requires n < |fields|
    ensures ResolveFields(env, fields, n + 1) ==
      match ResolveFields(env, fields, n)
      case Raised(e) => Raised(e)
      case Ok(acc) =>
        match ResolveItem(env, fields[n].1)
        case Raised(e) => Raised(e)
        case Ok(v) => Ok(Put(acc, fields[n].0, v))
  {
  }

  /** An iteration that succeeded was preceded by iterations that did. */
  lemma OkBefore(env: Dict<string>, fields: Dict<Json>, n: nat)
    requires 0 < n <= |fields| && ResolveFields(env, fields, n).Ok?
    ensures ResolveFields(env, fields, n - 1).Ok?
    ensures ResolveItem(env, fields[n - 1].1).Ok?
    ensures ResolveFields(env, fields, n).value ==
      Put(ResolveFields(env, fields, n - 1).value, fields[n - 1].0, ResolveItem(env, fields[n - 1].1).value)
  {
    ResolveStep(env, fields, n - 1);
  }

  /** An iteration that succeeds extends `final_body` by its key. */
  lemma OkExtends(env: Dict<string>, fields: Dict<Json>, i: nat, acc: Dict<Json>)
    requires i < |fields| && ResolveFields(env, fields, i) == Ok(acc)
    requires ResolveItem(env, fields[i].1).Ok?
    ensures ResolveFields(env, fields, i + 1) == Ok(Put(acc, fields[i].0, ResolveItem(env, fields[i].1).value))
  {
    ResolveStep(env, fields, i);
  }

  /** An iteration that raises ends the whole loop with its exception. */
  lemma RaiseEnds(env: Dict<string>, fields: Dict<Json>, i: nat, acc: Dict<Json>)
    requires i < |fields| && ResolveFields(env, fields, i) == Ok(acc)
    requires ResolveItem(env, fields[i].1).Raised?
    ensures ResolveFields(env, fields, |fields|) == Raised(ResolveItem(env, fields[i].1).exc)
  {
    ResolveStep(env, fields, i);
    RaisedStays(env, fields, i + 1, |fields|);
  }

  /** One value of `_resolve_body`'s loop, as its `if` chain treats it. */
  method ResolveEntry(env: Dict<string>, val: Json) returns (item: Result<Json>)
    ensures item == ResolveItem(env, val)
    decreases val, 1
  {
    match val {
      case JStr(s) =>
        var v := ResolveValue(env, s);
        item := if v.Raised? then Raised(v.exc) else Ok(JStr(v.value));
      case JObj(inner) =>
        var v := ResolveBody(env, inner);
        item := if v.Raised? then Raised(v.exc) else Ok(JObj(v.value));
      case JOther(_) =>
        item := Ok(val);
    }
  }

  /** `_resolve_body`. */
  method ResolveBody(env: Dict<string>, body: Dict<Json>) returns (r: Result<Dict<Json>>)
    ensures r == ResolveFields(env, body, |body|)
    decreases JObj(body), 0
  {
    var finalBody: Dict<Json> := [];
    var i := 0;
    while i < |body|
      invariant 0 <= i <= |body|
      invariant ResolveFields(env, body, i) == Ok(finalBody)
    {
      var (key, val) := body[i];
      var item := ResolveEntry(env, val);
      if item.Raised? {
        RaiseEnds(env, body, i, finalBody);
        return Raised(item.exc);
      }
      OkExtends(env, body, i, finalBody);
      finalBody := Put(finalBody, key, item.value);
      i := i + 1;
    }
    return Ok(finalBody);
  }

  /** For a body without repeated keys (every JSON object the harness reads),
      the resolved body lists the same keys in the same order, each with its
      value resolved. */
  lemma {:induction false} ResolvePointwise(env: Dict<string>, fields: Dict<Json>, n: nat)
    requires n <= |fields| && DistinctKeys(fields) && ResolveFields(env, fields, n).Ok?
    ensures var r := ResolveFields(env, fields, n).value;
      |r| == n &&
      forall i :: 0 <= i < n ==> r[i].0 == fields[i].0 && ResolveItem(env, fields[i].1) == Ok(r[i].1)
  {
    if n > 0 {
      OkBefore(env, fields, n);
      ResolvePointwise(env, fields, n - 1);
      var prev := ResolveFields(env, fields, n - 1).value;
      var v := ResolveItem(env, fields[n - 1].1).value;
      PutFresh(prev, fields, n, v);
      var r := ResolveFields(env, fields, n).value;
      assert r == prev + [(fields[n - 1].0, v)];
      forall i | 0 <= i < n - 1
        ensures r[i].0 == fields[i].0 && ResolveItem(env, fields[i].1) == Ok(r[i].1)
      {
        assert r[i] == prev[i];
      }
    }
  }

  /** A key not among the first `n - 1` keys of a body with distinct keys is
      appended to a dictionary holding exactly those keys. */
  lemma PutFresh<V>(acc: Dict<V>, fields: Dict<Json>, n: nat, v: V)
    requires 0 < n <= |fields| && DistinctKeys(fields)
    requires |acc| == n - 1 && forall i :: 0 <= i < n - 1 ==> acc[i].0 == fields[i].0
    ensures Put(acc, fields[n - 1].0, v) == acc + [(fields[n - 1].0, v)]
  {
    var key := fields[n - 1].0;
    assert key !in Keys(acc) by {
      forall i | 0 <= i < n - 1 ensures Keys(acc)[i] != key { }
    }
  }

  // ---------------------------------------------------------------------------
  // make_request

  /** `_make_request_without_body`: path, then headers, no JSON body. */
  function RequestWithoutBody(spec: RequestSpec, env: Dict<string>): Result<HttpRequest> {
    match PathFor(spec, env)
    case Raised(e) => Raised(e)
    case Ok(url) =>
      match HeadersFor(env, spec.withToken)
      case Raised(e) => Raised(e)
      case Ok(headers) => Ok(HttpRequest(spec.httpMethod, url, headers, None))
  }

  /** `_make_request_with_body` for a test that has a body: path, headers,
      then the resolved body. */
  function RequestWithBody(spec: RequestSpec, env: Dict<string>, body: Dict<Json>): Result<HttpRequest> {
    match PathFor(spec, env)
    case Raised(e) => Raised(e)
    case Ok(url) =>
      match HeadersFor(env, spec.withToken)
      case Raised(e) => Raised(e)
      case Ok(headers) =>
        match ResolveFields(env, body, |body|)
        case Raised(e) => Raised(e)
        case Ok(b) => Ok(HttpRequest(spec.httpMethod, url, headers, Some(b)))
  }

  /** What `make_request` sends. */
  function RequestFor(spec: RequestSpec, env: Dict<string>): Result<HttpRequest> {
    if spec.httpMethod in ["GET", "DELETE"] then RequestWithoutBody(spec, env)
    else if spec.body.None? then RequestWithoutBody(spec, env)
    else RequestWithBody(spec, env, spec.body.value)
  }

  /** GET and DELETE never carry a body, even when the test gives one; any
      other method without a body is sent exactly as the bodiless path sends
      it; with a body, the same URL and headers go out with the resolved body. */
  lemma RequestRoutes(spec: RequestSpec, env: Dict<string>)
    ensures spec.httpMethod in ["GET", "DELETE"] ==>
      RequestFor(spec, env) == RequestWithoutBody(spec, env)
    ensures spec.body.None? ==> RequestFor(spec, env) == RequestWithoutBody(spec, env)
    ensures RequestFor(spec, env).Ok? && RequestWithoutBody(spec, env).Ok? ==>
      RequestFor(spec, env).value.(json := None) == RequestWithoutBody(spec, env).value
    ensures RequestFor(spec, env).Ok? ==>
      (RequestFor(spec, env).value.json.Some? <==> spec.httpMethod !in ["GET", "DELETE"] && spec.body.Some?)
  {
  }

  /** `_make_request_without_body`. */
  method MakeRequestWithoutBody(spec: RequestSpec, env: Dict<string>) returns (r: Result<HttpRequest>)
    ensures r == RequestWithoutBody(spec, env)
  {
    var url := MakePath(spec, env);
    if url.Raised? {
      return Raised(url.exc);
    }
    var headers := MakeHeaders(env, spec.withToken);
    if headers.Raised? {
      return Raised(headers.exc);
    }
    return Ok(HttpRequest(spec.httpMethod, url.value, headers.value, None));
  }

  /** `_make_request_with_body`. */
  method MakeRequestWithBody(spec: RequestSpec, env: Dict<string>) returns (r: Result<HttpRequest>)
    ensures spec.body.None? ==> r == RequestWithoutBody(spec, env)
    ensures spec.body.Some? ==> r == RequestWithBody(spec, env, spec.body.value)
  {
    if spec.body.None? {
      r := MakeRequestWithoutBody(spec, env);
      return;
    }
    var url := MakePath(spec, env);
    if url.Raised? {
      return Raised(url.exc);
    }
    var headers := MakeHeaders(env, spec.withToken);
    if headers.Raised? {
      return Raised(headers.exc);
    }
    var body := ResolveBody(env, spec.body.value);
    if body.Raised? {
      return Raised(body.exc);
    }
    return Ok(HttpRequest(spec.httpMethod, url.value, headers.value, Some(body.value)));
  }

  /** `make_request`: GET and DELETE take the bodiless path, every other
      method the path that sends a body if there is one. */
  method MakeRequest(spec: RequestSpec, env: Dict<string>) returns (r: Result<HttpRequest>)
    ensures r == RequestFor(spec, env)
  {
    if spec.httpMethod in ["GET", "DELETE"] {
      r := MakeRequestWithoutBody(spec, env);
    } else {
      r := MakeRequestWithBody(spec, env);
    }
  }
}
