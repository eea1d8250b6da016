# stock-search, modelled in Dafny

`stock-search` is a small HTTP service of the mimir-news system. It lets
clients search the stocks it knows by symbol or name prefix. It also has two
ranking endpoints, which are stubs in this snapshot. Its Python integration
harness drives the running service through a list of scripted requests. This
project models the repository's own decisions in Dafny and proves what they
promise:

- the conversion between the domain stock and its DTO (`pkg/domain`);
- the Postgres repositories, up to the values `database/sql` hands back;
- the call-recording mocks the handler tests use (`pkg/repository`);
- the pass-through service (`pkg/service`);
- the search handler's early-exit sequence and the parsing of its `limit`
  (`cmd/controller.go`);
- the harness: request building with `${key}` placeholders (`rpc.py`), and
  the run loop that threads one `env` dictionary through the tests and
  updates it from responses (`test.py`).

Files and modules:

| file | module | what |
|---|---|---|
| wrappers.dfy | Wrappers | `Option` |
| golib.dfy | GoLib | nil-able slices, errors, 64-bit `int` with wrap-around, `strings.ToLower` (ASCII), `strconv.Atoi`/`Itoa` |
| pylib.dfy | PyLib | `str.replace`, `in` on strings, the insertion-ordered `dict`, `KeyError`/`JSONDecodeError` |
| sql.dfy | Sql | what the store answers to each statement, and the shared `rows.Next()`/`Scan` loop |
| domain.dfy | Domain | `Stock`, `StockDto`, `NewDomainStock`, `ToDTO` |
| stock_repository.dfy | StockRepository | `pgStockRepo`, `mapRowsToStocks`, `MockStockRepo` (a class), the `StockRepo` interface |
| count_repository.dfy | CountRepository | `pgCountRepo`, `mapRowsToCountedStocks`, `MockCountRepo` (a class) |
| stock_service.dfy | StockService | `stockSvc` |
| controller.dfy | Controller | `getSearchResultLimit` and the three handlers |
| rpc.dfy | Rpc | `make_request`, `_make_path`, `_make_headers`, `_resolve_body`, `_resolve_value` |
| harness.dfy | Harness | `_update_env`, `_assert_status`, `_run_test`, `main`, on an `EnvDict` class holding the shared `env` |

Modelling choices:

- **Go values.** A Go slice is `Nil` or `Elems(xs)`, because a nil slice
  and an empty made slice encode to different JSON (`null` and `[]`). An
  `error` is `Option<Error>`. Go's `int` is the 64-bit `Int64`, and the
  mock's `x++` counters wrap around at the 64-bit bound.
- **State.** The mocks update their fields in place, so they are classes.
  Each `MockStockRepo` method states the new recorded calls and the
  unchanged canned outputs as values (`Calls()`, `Outputs()`).
  `MockCountRepo.CountRepo` may change only its `countOneArg` field, and
  states that field's new value. The service and the Postgres
  repositories hold no mutable state, so they are datatypes.
- **The database.** It is a `Database` value of functions: for each
  statement the repositories send, it gives the store's answer to the
  statement's arguments. Rows are the sequence of per-row `Scan` outcomes.
- **Python values.** A dict is an association list that keeps insertion
  order. `d[k] = v` with a new key appends, and with an existing key
  overwrites in place. `d[k]` on a missing key and `resp.json()` on an
  undecodable body raise, which the model carries as `Result` values.
- **The server.** In the harness it is a parameter: a function from the
  test's index and the built request to the response.
- **The handlers.** The four requests of the search handler test in
  `cmd/controller_test.go` are replayed against the mock in
  `Controller.SearchHandlerScenario`. Its `assert` statements check the kind
  of each reply (results or error), the symbols returned, and the query and
  limit the mock recorded. The HTTP status of an error reply (the test's 400
  and 500) comes from middleware that is not modelled.

Where the code and what is expected of it disagree, the model follows the
code:

- For an unparsable `limit` the code builds a 400 "Invalid limit" error
  (cmd/controller.go:51), but it calls `log.Panicln` first (line 50). The
  handler therefore panics and the 400 is never returned. The model's
  outcome is `Panicked`.
- `stockSvc.Search` is declared to return API DTOs, but its body returns the
  repository's domain stocks. The model converts them with `ToDTO`, element
  by element. A nil slice stays nil.
- `MockCountRepo`'s single-count method is named `CountRepo`, not
  `CountOne`. It has no invocation counters and no `UnsetArgs`, although
  the handler tests use them (cmd/controller_test.go:164, 169, 194). It is
  modelled as written.

## Model

| member | source | states |
|---|---|---|
| Domain.NewDomainStock | pkg/domain/stock.go:15-21 | name and symbol are copied from the DTO; the count is exactly the one given |
| Domain.ToDTO | pkg/domain/stock.go:24-29 | name and symbol are copied unchanged; the count is dropped |
| Domain.DtoRoundTrip | pkg/domain/stock.go:15-29 | `ToDTO(NewDomainStock(s, c)) == s` for every DTO and every count |
| Domain.DomainRoundTrip | pkg/domain/stock.go:8-29 | `NewDomainStock(ToDTO(d), d.count) == d` for every domain stock |
| Domain.ToDTOForgetsOnlyCount | pkg/domain/stock.go:24-29 | two stocks have the same DTO exactly when they differ at most in their count |
| Domain.ToDTOs | pkg/service/stock_service.go:27-29 | the service's results: nil exactly when the repository's slice is nil, same length, each element is the `ToDTO` of the one at the same index |
| GoLib.Inc | pkg/repository/stock_repository.go:129 | `x++` on a Go int is `x + 1` below the maximum and wraps to the minimum at it |
| GoLib.ToLower | pkg/repository/stock_repository.go:63 | same length; each ASCII capital is lowered and every other character is kept |
| GoLib.ToLowerIdempotent | pkg/repository/stock_repository.go:63-64 | lowering an already lowered query changes nothing |
| GoLib.Atoi | cmd/controller.go:48 | `strconv.Atoi`: an empty string or a lone sign is an error |
| GoLib.AtoiItoa | cmd/controller.go:48 | every 64-bit integer written in decimal parses back to itself |
| PyLib.ReplaceAll | integrationtest/rpc.py:19 | `s.replace(p, r)` is `s` when `p` does not occur in `s`; with an empty replacement the result is never longer than `s`, and strictly shorter when `p` occurs |
| PyLib.Get | integrationtest/rpc.py:16 | `d[k]` fails exactly when `k` is not a key of `d` |
| PyLib.Put | integrationtest/test.py:41 | after `d[k] = v` the key reads `v`; a new key is appended last; an existing key keeps its place and the key list is unchanged |
| PyLib.PutOther | integrationtest/test.py:41 | `d[k] = v` leaves the value of every other key as it was |
| PyLib.PutKeys | integrationtest/test.py:41 | the keys after `d[k] = v` are the keys before and `k` |
| Sql.CollectRows | pkg/repository/stock_repository.go:78-91 | when every row scans: a made slice with one element per row, in row order; otherwise a nil slice and the error of the first failed scan |
| Sql.CollectStopsAt | pkg/repository/stock_repository.go:84-85 | a failed scan after rows that all scanned ends the loop with that scan's error and a nil slice |
| StockRepository.MapRowsToStocks | pkg/repository/stock_repository.go:78-91 | the loop computes `CollectRows` over the rows, each into symbol, name and count |
| StockRepository.PgStockRepo.Save | pkg/repository/stock_repository.go:42-49 | nil exactly when the upsert executes and affects exactly one row; otherwise `errInsertStockFailed` |
| StockRepository.PgStockRepo.Search | pkg/repository/stock_repository.go:62-70 | the store gets the lowered query and the unchanged limit; a query error gives a nil slice and that error; otherwise the rows mapped by `mapRowsToStocks` |
| StockRepository.PgStockRepo.FindMostCommon | pkg/repository/stock_repository.go:74-76 | a nil slice and no error, whatever is asked |
| StockRepository.SearchIgnoresCase | pkg/repository/stock_repository.go:63-64 | a query and its lowered form give the same outcome |
| StockRepository.SavesRecorded | pkg/repository/stock_repository.go:127-131 | after n saves, `SaveInvocations` has grown by n (modulo 2^64), `SaveArg` is the last stock saved, and no other recorded field moved |
| StockRepository.MockStockRepo.constructor | pkg/repository/stock_repository.go:94-110 | a mock holds the outputs it is given and has recorded nothing |
| StockRepository.MockStockRepo.UnsetArgs | pkg/repository/stock_repository.go:113-124 | every recorded argument and all three counters are back at zero; every configured output is unchanged |
| StockRepository.MockStockRepo.Save | pkg/repository/stock_repository.go:127-131 | records the stock, counts one call, leaves the other fields as they were, returns `SaveErr` |
| StockRepository.MockStockRepo.Search | pkg/repository/stock_repository.go:134-139 | records query and limit, counts one call, returns exactly `(SearchStocks, SearchErr)` |
| StockRepository.MockStockRepo.FindMostCommon | pkg/repository/stock_repository.go:142-147 | records the exclusions and the limit, counts one call, returns exactly `(FindMostCommonStocks, FindMostCommonErr)` |
| StockRepository.StockRepo.Search | pkg/repository/stock_repository.go:18-22 | a call through the interface answers what the implementation answers; on the mock it is recorded as one search call |
| CountRepository.MapRowsToCountedStocks | pkg/repository/count_repository.go:57-70 | the loop computes `CollectRows` over the rows, each into symbol and count |
| CountRepository.CountedStocksUnnamed | pkg/repository/count_repository.go:57-70 | a successful count has one stock per row, in row order, with the scanned symbol and count and an empty name |
| CountRepository.PgCountRepo.CountOne | pkg/repository/count_repository.go:31-41 | no row gives the zero stock and `ErrNoSuchStock`; any other error passes through with the zero stock; otherwise the scanned symbol and count with an empty name, and nil |
| CountRepository.PgCountRepo.CountAll | pkg/repository/count_repository.go:48-55 | a query error gives a nil slice and that error; otherwise the rows mapped by `mapRowsToCountedStocks` |
| CountRepository.MockCountRepo.constructor | pkg/repository/count_repository.go:73-80 | the mock holds the outputs it is given and no recorded symbol |
| CountRepository.MockCountRepo.CountRepo | pkg/repository/count_repository.go:83-86 | records the symbol and changes only that field; returns exactly `(CountOneStock, CountOneErr)` |
| CountRepository.MockCountRepo.CountAll | pkg/repository/count_repository.go:89-91 | returns exactly `(CountAllStocks, CountAllErr)` and changes nothing |
| StockService.StockSvc.Search | pkg/service/stock_service.go:27-29 | one repository search with query and limit unchanged; its stocks come back as DTOs in the same order and its error unchanged |
| StockService.StockSvc.RankStocks | pkg/service/stock_service.go:32-34 | nil, and no repository is reached |
| StockService.StockSvc.RankStock | pkg/service/stock_service.go:37-39 | nil for every symbol, and no repository is reached |
| Controller.GetSearchResultLimit | cmd/controller.go:42-55 | an absent `limit` gives 10; a `limit` that `Atoi` accepts is passed on unchanged; any other panics; the 400 error is never returned |
| Controller.LimitRoundTrip | cmd/controller.go:48-54 | any 64-bit limit written in decimal reaches the service as itself |
| Controller.HandleStockSearch | cmd/controller.go:12-32 | missing `query`: an error, and the repository is untouched; bad `limit`: a panic; then one service call whose error is reported without a body, or 200 with its results |
| Controller.HandleStocksRanking | cmd/controller.go:34-36 | OK for every caller, touching no service or repository |
| Controller.HandleStockRanking | cmd/controller.go:38-40 | OK for every caller and symbol, touching nothing |
| Rpc.MakePath | integrationtest/rpc.py:15-20 | the loop computes `baseUrl + path` with each key's `${key}` replaced, key by key in `env` order; a missing `baseUrl` raises `KeyError` |
| Rpc.SubstituteNoPlaceholder | integrationtest/rpc.py:16-20 | a path in which no key's placeholder occurs comes out unchanged |
| Rpc.PathWithoutPlaceholders | integrationtest/rpc.py:16-20 | such a path is requested at exactly `baseUrl + path` |
| Rpc.HeadersFor | integrationtest/rpc.py:42-47 | always `Content-Type: application/json` and `X-Client-ID = env["clientId"]`; `Authorization` present exactly when `with_token`, and then `Bearer` plus the token; a missing `clientId` or `authToken` raises `KeyError` |
| Rpc.MakeHeaders | integrationtest/rpc.py:42-47 | building the dictionary and adding the token in place gives `HeadersFor` |
| Rpc.StripBracesIdentity | integrationtest/rpc.py:63-64 | stripping `${` and `}` changes nothing exactly when the value holds neither |
| Rpc.ResolveValue | integrationtest/rpc.py:62-66 | a value without `${` and `}` is kept; any other value becomes the `env` entry its stripped form names, or raises `KeyError` when there is none |
| Rpc.RaisedStays | integrationtest/rpc.py:51-59 | once a field has raised, later fields change nothing |
| Rpc.ResolveEntry | integrationtest/rpc.py:53-58 | strings are resolved, objects resolved recursively, anything else copied |
| Rpc.ResolveBody | integrationtest/rpc.py:50-59 | the loop computes `ResolveFields` over the whole body, including the `KeyError` of the first field that raises |
| Rpc.ResolvePointwise | integrationtest/rpc.py:50-59 | the resolved body has the same keys in the same order, and each value is the resolution of the original one |
| Rpc.RequestRoutes | integrationtest/rpc.py:8-12 | GET and DELETE never carry a body; another method without a body is sent exactly as the bodiless path sends it; with a body, the same URL and headers go out with the resolved body |
| Rpc.MakeRequestWithoutBody | integrationtest/rpc.py:23-29 | path, then headers, no JSON body; the first `KeyError` ends it |
| Rpc.MakeRequestWithBody | integrationtest/rpc.py:32-39 | without a body it is the bodiless request; otherwise path, headers and resolved body |
| Rpc.MakeRequest | integrationtest/rpc.py:8-12 | the request `RequestFor` describes, including its exceptions |
| Harness.ApplyUpdates | integrationtest/test.py:40-41 | a failed update raises `KeyError` for a response key that is missing from the body and named by some update |
| Harness.UpdateEnvSpec | integrationtest/test.py:35-41 | without updates `env` is unchanged and nothing is raised; with updates an undecodable body raises before any write |
| Harness.ApplySucceedsIff | integrationtest/test.py:40-41 | the updates succeed exactly when every response key is in the body |
| Harness.LastUpdateWins | integrationtest/test.py:40-41 | each key holds what the last update naming it read, and a key no update names keeps its old value |
| Harness.UnnamedKeysUnchanged | integrationtest/test.py:40-41 | a key no update names is unchanged, even when the loop stops with `KeyError` part way |
| Harness.FailedStays | integrationtest/test.py:40-41 | once an update has raised, the later updates are never applied |
| Harness.AssertStatus | integrationtest/test.py:21-27 | `sys.exit(1)` exactly when the status differs from the expected one |
| Harness.RunTestSpec | integrationtest/test.py:14-18 | a request `KeyError` ends the run with `env` unchanged; `env` changes only for a positive test whose status matched; a status exit leaves `env` unchanged |
| Harness.Threads | integrationtest/test.py:51-54 | test k runs on the `env` the first k tests left, when they all passed |
| Harness.StopsAtFirstFailure | integrationtest/test.py:51-54 | after the first failing test no later test runs: the run ends with that test's outcome and `env` |
| Harness.MismatchExits | integrationtest/test.py:23-27 | a status mismatch in test k ends the whole run with exit code 1 and `env` as the first k tests left it |
| Harness.EnvDict.constructor | integrationtest/test.py:11 | the shared `env` holds the dictionary it starts with |
| Harness.EnvDict.UpdateEnv | integrationtest/test.py:35-41 | the in-place loop leaves `env` and the raised exception as `UpdateEnvSpec` describes |
| Harness.EnvDict.RunTest | integrationtest/test.py:14-18 | one test changes `env` and ends as `RunTestSpec` describes |
| Harness.EnvDict.RunAll | integrationtest/test.py:49-57 | the loop over the tests leaves `env` and the outcome as `RunAllSpec` describes |

## Left out

- SQL semantics: the store's upsert, `LIKE` prefix match, `ORDER BY`, `LIMIT` and `GROUP BY` are not interpreted. The `Database` value gives the answers the driver returns, as opaque functions of the statement arguments.
- `time.Now().UTC()` in `pgStockRepo.Save`: the timestamp parameter does not affect any outcome the repository decides, so it is not modelled.
- `dbutil.AssertRowsAffected` is modelled as "exactly one affected row, or `errInsertStockFailed`". The case where `RowsAffected` itself fails is folded into the affected-row count.
- `rows.Err()` and `rows.Close()`: the code never checks or calls them. Iteration errors other than a failed `Scan` are not modelled.
- GoLib.ToLower: lowers only ASCII capitals; the Unicode case mapping of `strings.ToLower` is not modelled.
- GoLib.Atoi: only the empty and lone-sign error cases are stated in its own contract; its acceptance of every decimal 64-bit integer is the lemma `AtoiItoa`.
- `httputil.ParseQueryValue` is modelled only as "a missing key gives an error". `httputil.SendOK`, `c.Error` and `c.JSON` become the handler's `Reply` value. The HTTP error rendering done by middleware is not modelled.
- Gin routing, the JWT middleware and role checks, and the server setup in `cmd/main.go` are framework plumbing and are not modelled. The handlers' receiver keeps only the service and the admin id.
- Configuration and startup: `cmd/config.go`, `cmd/environment.go` and `integrationtest/config.py` read environment variables, files and `sys.argv`. Only `defaultSearchLimit` (10) is used. `defaultSuggestionLimit` is unused by the core and is not modelled.
- Behaviour asserted by `cmd/controller_test.go` but absent from the code is not modelled as if it existed: count-then-save ranking, 404 translation, 403 admin checks and the suggestions endpoint. The two ranking handlers and the two service stubs are modelled as the stubs they are.
- `pgCountRepo.CountAll` sends the single-symbol `countStockQuery` with no argument (pkg/repository/count_repository.go:49). The model keeps that statement as its own answer field, `queryCounts`, and does not predict what the driver does with the missing parameter.
- The snapshot's other inconsistencies do not concern the modelled bodies: `NewStockService` is called with two arguments elsewhere, and `config` lacks `JWTCredentials`.
- Harness I/O: `requests.request` becomes the server parameter. Network failures of `requests` are not modelled. `print`, `_describe_test`, `_report_elapsed_time` and the timing in `main` are output only. `sys.exit(1)` is the `Exit(1)` outcome.
- Test-case entries are typed records. A `KeyError` from a test file missing any key the harness reads is not modelled: `request`, `positive`, `response`, `status` under `response`, `name`, `envKey` or `responseKey` of a test, and `method`, `path` or `withToken` of its request entry.
- Response bodies are dictionaries of strings. A body that decodes to a non-object, a non-string value copied into `env`, and the `TypeError` those would cause later are not modelled.
- PyLib.ReplaceAll: requires a non-empty pattern. Every call in the harness passes `${`, `}` or `${key}`, so Python's behaviour for an empty pattern is never reached.
- Rpc.ResolvePointwise: stated for bodies without repeated keys. Every JSON object the harness reads is a Python dict, and no dict repeats a key.
