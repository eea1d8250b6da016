/** `integrationtest/test.py`: the driver that runs the test cases one after
    the other against a running server, threading one shared `env` dictionary
    through them. The server is a parameter: `respond(i, request)` is the
    response the server gives to the request of test `i`. */
module Harness {

  import opened Wrappers
  import opened PyLib
  import opened Rpc

  /** One entry of a test's `setEnv` list. */
  datatype EnvUpdate = EnvUpdate(envKey: string, responseKey: string)

  /** A test case: `name`, `request`, `positive`, `response.status` and the
      optional `setEnv` list. */
  datatype TestCase = TestCase(
    name: string, request: RequestSpec, positive: bool, expectedStatus: int,
    setEnv: Option<seq<EnvUpdate>>)

  /** What the harness reads from a `requests.Response`: the status code and
      the decoded JSON body; `None` when `resp.json()` cannot decode it. */
  datatype Response = Response(status: int, body: Option<Dict<string>>)

  /** How a test, or the whole run, ends: on to the next test, `sys.exit(1)`
      after a status mismatch, or an uncaught exception. */
  datatype Outcome = Continue | Exit(code: int) | Crash(exc: Exception)

  /** The server: the response to the request of the test at that index. */
  type Server = (nat, HttpRequest) -> Response

  // ---------------------------------------------------------------------------
  // _update_env

  /** The loop of `_update_env` over its first updates: `env[envKey] =
      body[responseKey]` in list order; a missing `responseKey` raises
      `KeyError` and leaves the earlier writes in place. */
  function ApplyUpdates(env: Dict<string>, body: Dict<string>, updates: seq<EnvUpdate>): (r: (Dict<string>, Option<Exception>))
    ensures r.1.Some? ==> r.1.value.KeyError? && r.1.value.key !in Keys(body)
    ensures r.1.Some? ==> exists j :: 0 <= j < |updates| && r.1.value.key == updates[j].responseKey
  {
    if updates == [] then (env, None)
    else
      var prev := ApplyUpdates(env, body, updates[..|updates| - 1]);
      var u := updates[|updates| - 1];
      if prev.1.Some? then
        assert updates[..|updates| - 1] <= updates;
        prev
      else
        match Get(body, u.responseKey)
        case None => (prev.0, Some(KeyError(u.responseKey)))
        case Some(v) => (Put(prev.0, u.envKey, v), None)
  }

  /** The updates of a test: its `setEnv` list, or none. */
  function UpdatesOf(tc: TestCase): seq<EnvUpdate> {
    if tc.setEnv.Some? then tc.setEnv.value else []
  }

  /** What `_update_env` does to `env`, and the exception it raises if any:
      nothing at all without updates; otherwise the body must decode. */
  function UpdateEnvSpec(env: Dict<string>, resp: Response, tc: TestCase): (r: (Dict<string>, Option<Exception>))
    ensures UpdatesOf(tc) == [] ==> r == (env, None)
    ensures UpdatesOf(tc) != [] && resp.body.None? ==> r == (env, Some(JSONDecodeError))
  {
    var updates := UpdatesOf(tc);
    if updates == [] then (env, None)
    else
      match resp.body
      case None => (env, Some(JSONDecodeError))
      case Some(body) => ApplyUpdates(env, body, updates)
  }

  /** The updates succeed exactly when every `responseKey` is in the body. */
  lemma {:induction false} ApplySucceedsIff(env: Dict<string>, body: Dict<string>, updates: seq<EnvUpdate>)
    ensures ApplyUpdates(env, body, updates).1 == None <==>
      forall j :: 0 <= j < |updates| ==> updates[j].responseKey in Keys(body)
  {
    if updates != [] {
      var init := updates[..|updates| - 1];
      ApplySucceedsIff(env, body, init);
      assert forall j :: 0 <= j < |init| ==> init[j] == updates[j];
    }
  }

  /** The position of the last update that writes `k`, or -1. */
  function LastUpdateFor(updates: seq<EnvUpdate>, k: string): (r: int)
    ensures -1 <= r < |updates|
    ensures 0 <= r ==> updates[r].envKey == k
    ensures forall j :: r < j < |updates| ==> updates[j].envKey != k
  {
    if updates == [] then -1
    else if updates[|updates| - 1].envKey == k then |updates| - 1
    else LastUpdateFor(updates[..|updates| - 1], k)
  }

  /** After a successful `_update_env` loop, each key holds what the last
      update naming it read from the body; a key no update names holds its
      old value. */
  lemma {:induction false} LastUpdateWins(env: Dict<string>, body: Dict<string>, updates: seq<EnvUpdate>, k: string)
    requires ApplyUpdates(env, body, updates).1 == None
    ensures var last := LastUpdateFor(updates, k);
      Get(ApplyUpdates(env, body, updates).0, k) ==
        if last < 0 then Get(env, k) else Get(body, updates[last].responseKey)
  {
    if updates != [] {
      var init := updates[..|updates| - 1];
      var u := updates[|updates| - 1];
      LastUpdateWins(env, body, init, k);
      if u.envKey != k {
        PutOther(ApplyUpdates(env, body, init).0, u.envKey, Get(body, u.responseKey).value, k);
      }
    }
  }

  /** A key that no update names is left alone, even when the loop stops
      with `KeyError` part way. */
  lemma {:induction false} UnnamedKeysUnchanged(env: Dict<string>, body: Dict<string>, updates: seq<EnvUpdate>, k: string)
    requires forall j :: 0 <= j < |updates| ==> updates[j].envKey != k
    ensures Get(ApplyUpdates(env, body, updates).0, k) == Get(env, k)
  {
    if updates != [] {
      var init := updates[..|updates| - 1];
      var u := updates[|updates| - 1];
      UnnamedKeysUnchanged(env, body, init, k);
      if ApplyUpdates(env, body, init).1 == None && Get(body, u.responseKey).Some? {
        PutOther(ApplyUpdates(env, body, init).0, u.envKey, Get(body, u.responseKey).value, k);
      }
    }
  }

  // ---------------------------------------------------------------------------
  // _assert_status and _run_test

  /** `_assert_status`: `sys.exit(1)` exactly when the status is not the
      expected one. */
  function AssertStatus(resp: Response, tc: TestCase): (r: Outcome)
    ensures r == Continue <==> resp.status == tc.expectedStatus
    ensures r != Continue ==> r == Exit(1)
  {
    if resp.status != tc.expectedStatus then Exit(1) else Continue
  }

  /** What `_run_test` does: the request (whose `KeyError` ends the run),
      the status check, then, for a positive test only, `_update_env`. */
  function RunTestSpec(env: Dict<string>, i: nat, tc: TestCase, respond: Server): (r: (Dict<string>, Outcome))
    ensures RequestFor(tc.request, env).Raised? ==> r == (env, Crash(RequestFor(tc.request, env).exc))
    ensures r.0 != env ==>
      tc.positive && RequestFor(tc.request, env).Ok? &&
      respond(i, RequestFor(tc.request, env).value).status == tc.expectedStatus
    ensures r.1.Exit? ==> r == (env, Exit(1))
  {
    match RequestFor(tc.request, env)
    case Raised(e) => (env, Crash(e))
    case Ok(req) =>
      var resp := respond(i, req);
      var status := AssertStatus(resp, tc);
      if status != Continue then (env, status)
      else if !tc.positive then (env, Continue)
      else
        var (env', exc) := UpdateEnvSpec(env, resp, tc);
        (env', if exc.Some? then Crash(exc.value) else Continue)
  }

  // ---------------------------------------------------------------------------
  // main

  /** The loop of `main` over the first tests: each runs with the `env` the
      ones before it left, and the first that does not pass ends the run. */
  function RunAllSpec(env: Dict<string>, tests: seq<TestCase>, respond: Server): (Dict<string>, Outcome) {
    if tests == [] then (env, Continue)
    else
      var prev := RunAllSpec(env, tests[..|tests| - 1], respond);
      if prev.1 != Continue then prev
      else RunTestSpec(prev.0, |tests| - 1, tests[|tests| - 1], respond)
  }

  /** Test `k` runs on the `env` the first `k` tests produced, provided they
      all passed. */
  lemma Threads(env: Dict<string>, tests: seq<TestCase>, respond: Server, k: nat)
    requires k < |tests| && RunAllSpec(env, tests[..k], respond).1 == Continue
    ensures RunAllSpec(env, tests[..k + 1], respond) ==
      RunTestSpec(RunAllSpec(env, tests[..k], respond).0, k, tests[k], respond)
  {
    assert tests[..k + 1][..k] == tests[..k];
  }

  /** Once a test fails, no later test runs: the outcome and the `env` of the
      whole run are those at the failure. */
  lemma {:induction false} StopsAtFirstFailure(env: Dict<string>, tests: seq<TestCase>, respond: Server, k: nat, m: nat)
    requires k <= m <= |tests| && RunAllSpec(env, tests[..k], respond).1 != Continue
    ensures RunAllSpec(env, tests[..m], respond) == RunAllSpec(env, tests[..k], respond)
  {
    if k < m {
      StopsAtFirstFailure(env, tests, respond, k, m - 1);
      assert tests[..m][..m - 1] == tests[..m - 1];
    }
  }

  /** A status mismatch in test `k` after `k` passing tests: the run exits
      with code 1 and `env` stays as the first `k` tests left it. */
  lemma MismatchExits(env: Dict<string>, tests: seq<TestCase>, respond: Server, k: nat)
    requires k < |tests| && RunAllSpec(env, tests[..k], respond).1 == Continue
    requires var before := RunAllSpec(env, tests[..k], respond).0;
      RequestFor(tests[k].request, before).Ok? &&
      respond(k, RequestFor(tests[k].request, before).value).status != tests[k].expectedStatus
    ensures RunAllSpec(env, tests, respond) == (RunAllSpec(env, tests[..k], respond).0, Exit(1))
  {
    Threads(env, tests, respond, k);
    StopsAtFirstFailure(env, tests, respond, k + 1, |tests|);
    assert tests[..|tests|] == tests;
  }

  // ---------------------------------------------------------------------------
  // The shared env dictionary

  /** The module-level `env` dictionary that `main` passes to every test and
      `_update_env` writes into. */
  class EnvDict {
    var items: Dict<string>

    constructor (items: Dict<string>)
      ensures this.items == items
    {
      this.items := items;
    }

    /** `_update_env`. */
    method UpdateEnv(resp: Response, tc: TestCase) returns (exc: Option<Exception>)
      modifies this
      ensures (items, exc) == UpdateEnvSpec(old(items), resp, tc)
    {
      var updates := if tc.setEnv.Some? then tc.setEnv.value else [];
      if updates == [] {
        return None;
      }
      if resp.body.None? {
        return Some(JSONDecodeError);
      }
      var body := resp.body.value;
      var i := 0;
      while i < |updates|
        invariant 0 <= i <= |updates|
        invariant ApplyUpdates(old(items), body, updates[..i]) == (items, None)
      {
        var update := updates[i];
        assert updates[..i + 1][..i] == updates[..i];
        var v := Get(body, update.responseKey);
        if v.None? {
          FailedStays(old(items), body, updates, i + 1, |updates|);
          assert updates[..|updates|] == updates;
          return Some(KeyError(update.responseKey));
        }
        items := Put(items, update.envKey, v.value);
        i := i + 1;
      }
      assert updates[..i] == updates;
      return None;
    }

    /** `_run_test` for the test at index `i`. */
    method RunTest(i: nat, tc: TestCase, respond: Server) returns (outcome: Outcome)
      modifies this
      ensures (items, outcome) == RunTestSpec(old(items), i, tc, respond)
    {
      var req := MakeRequest(tc.request, items);
      if req.Raised? {
        return Crash(req.exc);
      }
      var resp := respond(i, req.value);
      outcome := AssertStatus(resp, tc);
      if outcome != Continue {
        return;
      }
      if tc.positive {
        var exc := UpdateEnv(resp, tc);
        if exc.Some? {
          return Crash(exc.value);
        }
      }
    }

    /** `main`: the tests in order, on this one `env`, until one fails. */
    method RunAll(tests: seq<TestCase>, respond: Server) returns (outcome: Outcome)
      modifies this
      ensures (items, outcome) == RunAllSpec(old(items), tests, respond)
    {
      var k := 0;
      while k < |tests|
        invariant 0 <= k <= |tests|
        invariant RunAllSpec(old(items), tests[..k], respond) == (items, Continue)
      {
        assert tests[..k + 1][..k] == tests[..k];
        outcome := RunTest(k, tests[k], respond);
        if outcome != Continue {
          StopsAtFirstFailure(old(items), tests, respond, k + 1, |tests|);
          assert tests[..|tests|] == tests;
          return;
        }
        k := k + 1;
      }
      assert tests[..k] == tests;
      return Continue;
    }
  }

  /** Once an update has raised, the later ones are never reached. */
  lemma {:induction false} FailedStays(env: Dict<string>, body: Dict<string>, updates: seq<EnvUpdate>, n: nat, m: nat)
    requires n <= m <= |updates| && ApplyUpdates(env, body, updates[..n]).1.Some?
    ensures ApplyUpdates(env, body, updates[..m]) == ApplyUpdates(env, body, updates[..n])
  {
    if n < m {
      FailedStays(env, body, updates, n, m - 1);
      assert updates[..m][..m - 1] == updates[..m - 1];
    }
  }
}
