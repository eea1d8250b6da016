/** `pkg/service/stock_service.go`: the service the handlers call. */
module StockService {

  import opened Wrappers
  import opened GoLib
  import opened Domain
  import opened StockRepository

  /** `stockSvc`, as built by `NewStockService(stockRepo)`: its only field is
      the stock repository. */
  datatype StockSvc = StockSvc(stockRepo: StockRepo) {

    /** `Search`: one call of the repository's `Search` with the query and the
        limit unchanged; its stocks come back as DTOs, same length and order,
        and its error comes back as it is. */
    method Search(query: string, limit: Int64) returns (results: Slice<StockDto>, err: Option<Error>)
      modifies stockRepo.Repr()
      ensures results == ToDTOs(old(stockRepo.SearchAnswer(query, limit)).0)
      ensures err == old(stockRepo.SearchAnswer(query, limit)).1
      ensures stockRepo.Mocked? ==> stockRepo.mock.Calls() == RecordSearch(old(stockRepo.mock.Calls()), query, limit)
      ensures stockRepo.Mocked? ==> stockRepo.mock.Outputs() == old(stockRepo.mock.Outputs())
    {
      var stocks;
      stocks, err := stockRepo.Search(query, limit);
      results := ToDTOs(stocks);
    }

    /** `RankStocks` is a stub: no error, and (no modifies clause) no
        repository is reached. */
    method RankStocks() returns (err: Option<Error>)
      ensures err == None
    {
      return None;
    }

    /** `RankStock` is a stub: no error for any symbol, and no repository is
        reached. */
    method RankStock(symbol: string) returns (err: Option<Error>)
      ensures err == None
    {
      return None;
    }
  }
}
