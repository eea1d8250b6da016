/** `cmd/controller.go`: the HTTP handlers' decisions. A handler's effect on
    the gin context (`c.Error`, `c.JSON`, `SendOK`) is its `Reply`. */
module Controller {

  import opened Wrappers
  import opened GoLib
  import opened Domain
  import opened StockRepository
  import opened StockService

  /** `defaultSearchLimit` (cmd/config.go). */
  const DefaultSearchLimit: Int64 := 10

  /** The handlers' receiver `env` (its database handle is not modelled). */
  datatype Env = Env(stockSvc: StockSvc, adminID: string)

  /** What a handler reads from the gin context: the URL query parameters
      (the first value of each) and the role the token middleware found. */
  datatype Context = Context(query: map<string, string>, role: string)

  /** What a handler leaves in the context. */
  datatype Reply =
    | ErrorReply(err: Error)                             // c.Error(err), no body
    | JsonReply(status: int, results: Slice<StockDto>)   // c.JSON(status, results)
    | SentOk                                             // httputil.SendOK(c)
    | Panicked                                           // log.Panicln: the handler never returns

  /** `getSearchResultLimit`'s three ways out: a limit, an error, a panic. */
  datatype LimitResult = Limit(n: Int64) | LimitError(err: Error) | LimitPanic

  /** `getSearchResultLimit`: an absent `limit` gives the default 10; a
      `limit` that `strconv.Atoi` accepts gives exactly that integer; any other
      `limit` panics in `log.Panicln`, so the "Invalid limit" 400 error after it
      is never returned. */
  function GetSearchResultLimit(query: map<string, string>): (r: LimitResult)
    ensures "limit" !in query ==> r == Limit(DefaultSearchLimit)
    ensures "limit" in query && Atoi(query["limit"]).Some? ==> r == Limit(Atoi(query["limit"]).value)
    ensures "limit" in query && Atoi(query["limit"]).None? ==> r == LimitPanic
    ensures !r.LimitError?
  {
    if "limit" !in query then Limit(DefaultSearchLimit)
    else
      match Atoi(query["limit"])
      case None => LimitPanic
      case Some(n) => Limit(n)
  }

  /** Any 64-bit limit a client writes in decimal is the limit the service
      gets. */
  lemma LimitRoundTrip(query: map<string, string>, n: Int64)
    ensures GetSearchResultLimit(query["limit" := Itoa(n)]) == Limit(n)
  {
    AtoiItoa(n);
  }

  /** `handleStockSearch`: query, then limit, then the service, each ending
      the request on failure; otherwise 200 with the service's results. */
  method HandleStockSearch(e: Env, c: Context) returns (reply: Reply)
    modifies e.stockSvc.stockRepo.Repr()
    ensures "query" !in c.query ==>
      reply == ErrorReply(MissingQueryParam("query")) && unchanged(e.stockSvc.stockRepo.Repr())
    ensures "query" in c.query && GetSearchResultLimit(c.query) == LimitPanic ==>
      reply == Panicked && unchanged(e.stockSvc.stockRepo.Repr())
    ensures "query" in c.query && GetSearchResultLimit(c.query).Limit? ==>
      var answer := old(e.stockSvc.stockRepo.SearchAnswer(c.query["query"], GetSearchResultLimit(c.query).n));
      reply == (if answer.1.Some? then ErrorReply(answer.1.value) else JsonReply(200, ToDTOs(answer.0)))
    ensures "query" in c.query && GetSearchResultLimit(c.query).Limit? && e.stockSvc.stockRepo.Mocked? ==>
      var mock := e.stockSvc.stockRepo.mock;
      mock.Calls() == RecordSearch(old(mock.Calls()), c.query["query"], GetSearchResultLimit(c.query).n) &&
      mock.Outputs() == old(mock.Outputs())
  {
    if "query" !in c.query {
      return ErrorReply(MissingQueryParam("query"));
    }
    var query := c.query["query"];

    var searchLimit := GetSearchResultLimit(c.query);
    match searchLimit {
      case LimitPanic =>
        return Panicked;
      case LimitError(err) =>
        return ErrorReply(err);
      case Limit(n) =>
        var results, err := e.stockSvc.Search(query, n);
        if err.Some? {
          return ErrorReply(err.value);
        }
        return JsonReply(200, results);
    }
  }

  /** `handleStocksRanking`: 200 OK for every caller, admin or not, and (no
      modifies clause) no service or repository is reached. */
  method HandleStocksRanking(e: Env, c: Context) returns (reply: Reply)
    ensures reply == SentOk
  {
    return SentOk;
  }

  /** `handleStockRanking`: 200 OK for every caller and every symbol, touching
      nothing. */
  method HandleStockRanking(e: Env, c: Context, symbol: string) returns (reply: Reply)
    ensures reply == SentOk
  {
    return SentOk;
  }

  /** The four requests of the handler test for stock search, against the
      call-recording mock. */
  method SearchHandlerScenario()
  {
    var expected := Elems([Stock("", "AAPL", 0), Stock("", "AMD", 0)]);
    var repo := new MockStockRepo(StockOutputs(None, expected, None, Nil, None));
    var e := Env(StockSvc(Mocked(repo)), "");

    // ?query=A: default limit, 200 with the two symbols in order
    var reply := HandleStockSearch(e, Context(map["query" := "A"], "anonymous"));
    assert reply == JsonReply(200, ToDTOs(expected));
    assert reply.results.Items()[0].symbol == "AAPL" && reply.results.Items()[1].symbol == "AMD";
    assert repo.searchArgQuery == "A" && repo.searchArgLimit == 10;

    // ?limit=5&query=A: the parsed limit reaches the repository
    repo.UnsetArgs();
    assert Atoi("5") == Some(5);
    reply := HandleStockSearch(e, Context(map["limit" := "5", "query" := "A"], "anonymous"));
    assert reply.JsonReply? && repo.searchArgQuery == "A" && repo.searchArgLimit == 5;

    // ?limit=5 without a query: an error, and the repository records nothing
    repo.UnsetArgs();
    reply := HandleStockSearch(e, Context(map["limit" := "5"], "anonymous"));
    assert reply.ErrorReply? && repo.searchArgQuery == "" && repo.searchArgLimit == 0;

    // a failing repository: an error reply after the call was recorded
    repo.UnsetArgs();
    repo.searchErr := Some(Opaque(1));
    reply := HandleStockSearch(e, Context(map["query" := "A"], "anonymous"));
    assert reply == ErrorReply(Opaque(1));
    assert repo.searchArgQuery == "A" && repo.searchArgLimit == 10;
  }
}
