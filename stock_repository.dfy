/** `pkg/repository/stock_repository.go`: the `StockRepo` interface, its
    Postgres implementation (as far as the repository's own code decides
    anything) and the call-recording mock the handler tests use. */
module StockRepository {

  import opened Wrappers
  import opened GoLib
  import opened Sql
  import opened Domain

  /** A row of `searchStockQuery` is scanned into `&s.Symbol, &s.Name, &s.Count`. */
  function StockOfRow(row: (string, string, Int64)): Stock {
    Stock(row.1, row.0, row.2)
  }

  /** `mapRowsToStocks`. */
  method MapRowsToStocks(rows: seq<Scan<(string, string, Int64)>>) returns (stocks: Slice<Stock>, err: Option<Error>)
    ensures (stocks, err) == CollectRows(rows, StockOfRow)
  {
    var acc: seq<Stock> := [];
    var i := 0;
    while i < |rows|
      invariant 0 <= i <= |rows|
      invariant CollectRows(rows[..i], StockOfRow) == (Elems(acc), None)
    {
      assert rows[..i + 1][..i] == rows[..i];
      match rows[i] {
        case ScanFailed(e) =>
          CollectStopsAt(rows, StockOfRow, i);
          return Nil, Some(e);
        case Scanned(v) =>
          acc := acc + [StockOfRow(v)];
      }
      i := i + 1;
    }
    assert rows[..i] == rows;
    return Elems(acc), None;
  }

  /** `pgStockRepo`: the repository over a Postgres database. */
  datatype PgStockRepo = PgStockRepo(db: Database) {

    /** `Save`: nil exactly when the upsert executes and affects one row;
        every other outcome becomes `errInsertStockFailed`. */
    function Save(s: Stock): (err: Option<Error>)
      ensures err == None <==> db.exec(s.symbol, s.name, s.count) == Executed(1)
      ensures err != None ==> err == Some(InsertStockFailed)
    {
      match db.exec(s.symbol, s.name, s.count)
      case ExecFailed(_) => Some(InsertStockFailed)
      case Executed(n) => if n == 1 then None else Some(InsertStockFailed)
    }

    /** What `Search` returns: the rows the store gives for the lowered query
        and the unchanged limit, or the query's error with a nil slice. */
    function SearchOutcome(query: string, limit: Int64): (Slice<Stock>, Option<Error>) {
      match db.query(ToLower(query), limit)
      case QueryFailed(e) => (Nil, Some(e))
      case Rows(rows) => CollectRows(rows, StockOfRow)
    }

    /** `Search`. */
    method Search(query: string, limit: Int64) returns (stocks: Slice<Stock>, err: Option<Error>)
      ensures (stocks, err) == SearchOutcome(query, limit)
    {
      var lowerQuery := ToLower(query);
      match db.query(lowerQuery, limit) {
        case QueryFailed(e) =>
          return Nil, Some(e);
        case Rows(rows) =>
          stocks, err := MapRowsToStocks(rows);
      }
    }

    /** `FindMostCommon` is a stub: no stocks, no error, whatever is asked. */
    function FindMostCommon(excluded: Slice<string>, limit: Int64): (r: (Slice<Stock>, Option<Error>))
      ensures r == (Nil, None)
    {
      (Nil, None)
    }
  }

  /** Searching is blind to the case of the query: a query and its lowered
      form reach the store as the same statement. */
  lemma SearchIgnoresCase(repo: PgStockRepo, query: string, limit: Int64)
    ensures repo.SearchOutcome(query, limit) == repo.SearchOutcome(ToLower(query), limit)
  {
    ToLowerIdempotent(query);
  }

  // ---------------------------------------------------------------------------
  // MockStockRepo

  /** The fields of `MockStockRepo` that record calls. */
  datatype StockCalls = StockCalls(
    saveArg: Stock, saveInvocations: Int64,
    searchArgQuery: string, searchArgLimit: Int64, searchInvocations: Int64,
    findMostCommonArgExcluded: Slice<string>, findMostCommonArgLimit: Int64,
    findMostCommonInvocations: Int64)

  /** The fields of `MockStockRepo` that a test configures as canned outputs. */
  datatype StockOutputs = StockOutputs(
    saveErr: Option<Error>,
    searchStocks: Slice<Stock>, searchErr: Option<Error>,
    findMostCommonStocks: Slice<Stock>, findMostCommonErr: Option<Error>)

  /** Every recording field at its zero value. */
  const NoCalls := StockCalls(ZeroStock, 0, "", 0, 0, Nil, 0, 0)

  function RecordSave(c: StockCalls, s: Stock): StockCalls {
    c.(saveArg := s, saveInvocations := Inc(c.saveInvocations))
  }

  function RecordSearch(c: StockCalls, query: string, limit: Int64): StockCalls {
    c.(searchArgQuery := query, searchArgLimit := limit, searchInvocations := Inc(c.searchInvocations))
  }

  function RecordFindMostCommon(c: StockCalls, excluded: Slice<string>, limit: Int64): StockCalls {
    c.(findMostCommonArgExcluded := excluded, findMostCommonArgLimit := limit,
       findMostCommonInvocations := Inc(c.findMostCommonInvocations))
  }

  /** The record after saving `ss`, one after the other. */
  function RecordSaves(c: StockCalls, ss: seq<Stock>): StockCalls {
    if ss == [] then c else RecordSave(RecordSaves(c, ss[..|ss| - 1]), ss[|ss| - 1])
  }

  /** After n saves the counter has grown by n (modulo the 64-bit wrap), the
      recorded argument is the last stock saved, and nothing else moved. */
  lemma {:induction false} SavesRecorded(c: StockCalls, ss: seq<Stock>)
    ensures RecordSaves(c, ss).saveInvocations == Wrap(c.saveInvocations + |ss|)
    ensures RecordSaves(c, ss).saveArg == if ss == [] then c.saveArg else ss[|ss| - 1]
    ensures RecordSaves(c, ss).(saveArg := c.saveArg, saveInvocations := c.saveInvocations) == c
  {
    if ss != [] {
      SavesRecorded(c, ss[..|ss| - 1]);
      WrapAdd(c.saveInvocations + |ss| - 1, 1);
    }
  }

  /** `MockStockRepo`: records the arguments and the number of calls of each
      operation and answers with the outputs a test put in its fields. */
  class MockStockRepo {
    var saveArg: Stock
    var saveErr: Option<Error>
    var saveInvocations: Int64

    var searchArgQuery: string
    var searchArgLimit: Int64
    var searchStocks: Slice<Stock>
    var searchErr: Option<Error>
    var searchInvocations: Int64

    var findMostCommonArgExcluded: Slice<string>
    var findMostCommonArgLimit: Int64
    var findMostCommonStocks: Slice<Stock>
    var findMostCommonErr: Option<Error>
    var findMostCommonInvocations: Int64

    function Calls(): StockCalls
      reads this
    {
      StockCalls(saveArg, saveInvocations, searchArgQuery, searchArgLimit, searchInvocations,
                 findMostCommonArgExcluded, findMostCommonArgLimit, findMostCommonInvocations)
    }

    function Outputs(): StockOutputs
      reads this
    {
      StockOutputs(saveErr, searchStocks, searchErr, findMostCommonStocks, findMostCommonErr)
    }

    /** The struct literal `&MockStockRepo{...}` of a test: the given outputs,
        nothing recorded. */
    constructor (outputs: StockOutputs)
      ensures Calls() == NoCalls && Outputs() == outputs
    {
      saveArg, saveErr, saveInvocations := ZeroStock, outputs.saveErr, 0;
      searchArgQuery, searchArgLimit, searchInvocations := "", 0, 0;
      searchStocks, searchErr := outputs.searchStocks, outputs.searchErr;
      findMostCommonArgExcluded, findMostCommonArgLimit, findMostCommonInvocations := Nil, 0, 0;
      findMostCommonStocks, findMostCommonErr := outputs.findMostCommonStocks, outputs.findMostCommonErr;
    }

    /** `UnsetArgs`: every recorded argument and counter back to zero; the
        configured outputs stay. */
    method UnsetArgs()
      modifies this
      ensures Calls() == NoCalls
      ensures Outputs() == old(Outputs())
    {
      saveArg := ZeroStock;
      saveInvocations := 0;

      searchArgQuery := "";
      searchArgLimit := 0;
      searchInvocations := 0;

      findMostCommonArgExcluded := Nil;
      findMostCommonArgLimit := 0;
      findMostCommonInvocations := 0;
    }

    /** `Save`: records the stock, counts the call, answers `SaveErr`. */
    method Save(s: Stock) returns (err: Option<Error>)
      modifies this
      ensures Calls() == RecordSave(old(Calls()), s)
      ensures Outputs() == old(Outputs())
      ensures err == saveErr
    {
      saveArg := s;
      saveInvocations := Inc(saveInvocations);
      return saveErr;
    }

    /** `Search`: records query and limit, counts the call, answers
        `(SearchStocks, SearchErr)`. */
    method Search(query: string, limit: Int64) returns (stocks: Slice<Stock>, err: Option<Error>)
      modifies this
      ensures Calls() == RecordSearch(old(Calls()), query, limit)
      ensures Outputs() == old(Outputs())
      ensures stocks == searchStocks && err == searchErr
    {
      searchArgQuery := query;
      searchArgLimit := limit;
      searchInvocations := Inc(searchInvocations);
      return searchStocks, searchErr;
    }

    /** `FindMostCommon`: records its arguments, counts the call, answers
        `(FindMostCommonStocks, FindMostCommonErr)`. */
    method FindMostCommon(excluded: Slice<string>, limit: Int64) returns (stocks: Slice<Stock>, err: Option<Error>)
      modifies this
      ensures Calls() == RecordFindMostCommon(old(Calls()), excluded, limit)
      ensures Outputs() == old(Outputs())
      ensures stocks == findMostCommonStocks && err == findMostCommonErr
    {
      findMostCommonArgExcluded := excluded;
      findMostCommonArgLimit := limit;
      findMostCommonInvocations := Inc(findMostCommonInvocations);
      return findMostCommonStocks, findMostCommonErr;
    }
  }

  // ---------------------------------------------------------------------------
  // The StockRepo interface

  /** A `StockRepo`: one of its two implementations. */
  datatype StockRepo = Postgres(pg: PgStockRepo) | Mocked(mock: MockStockRepo) {

    /** The objects a call may change. */
    function Repr(): set<object> {
      if Mocked? then {mock} else {}
    }

    /** What `Search` answers in the current state. */
    function SearchAnswer(query: string, limit: Int64): (Slice<Stock>, Option<Error>)
      reads Repr()
    {
      match this
      case Postgres(pg) => pg.SearchOutcome(query, limit)
      case Mocked(m) => (m.searchStocks, m.searchErr)
    }

    /** `Search`, dispatched to the implementation. */
    method Search(query: string, limit: Int64) returns (stocks: Slice<Stock>, err: Option<Error>)
      modifies Repr()
      ensures (stocks, err) == old(SearchAnswer(query, limit))
      ensures Mocked? ==> mock.Calls() == RecordSearch(old(mock.Calls()), query, limit)
      ensures Mocked? ==> mock.Outputs() == old(mock.Outputs())
    {
      match this {
        case Postgres(pg) =>
          stocks, err := pg.Search(query, limit);
        case Mocked(m) =>
          stocks, err := m.Search(query, limit);
      }
    }
  }
}
