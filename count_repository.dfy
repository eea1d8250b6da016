/** `pkg/repository/count_repository.go`: mention counting over the store, and
    its mock. */
module CountRepository {

  import opened Wrappers
  import opened GoLib
  import opened Sql
  import opened Domain

  /** A counted row is scanned into `&s.Symbol, &s.Count`; the name is never
      scanned and keeps its zero value. */
  function CountedStockOfRow(row: (string, Int64)): Stock {
    Stock("", row.0, row.1)
  }

  /** `mapRowsToCountedStocks`. */
  method MapRowsToCountedStocks(rows: seq<Scan<(string, Int64)>>) returns (stocks: Slice<Stock>, err: Option<Error>)
    ensures (stocks, err) == CollectRows(rows, CountedStockOfRow)
  {
    var acc: seq<Stock> := [];
    var i := 0;
    while i < |rows|
      invariant 0 <= i <= |rows|
      invariant CollectRows(rows[..i], CountedStockOfRow) == (Elems(acc), None)
    {
      assert rows[..i + 1][..i] == rows[..i];
      match rows[i] {
        case ScanFailed(e) =>
          CollectStopsAt(rows, CountedStockOfRow, i);
          return Nil, Some(e);
        case Scanned(v) =>
          acc := acc + [CountedStockOfRow(v)];
      }
      i := i + 1;
    }
    assert rows[..i] == rows;
    return Elems(acc), None;
  }

  /** Every stock a successful count yields has an empty name, and they come
      in row order with the scanned symbols and counts. */
  lemma CountedStocksUnnamed(rows: seq<Scan<(string, Int64)>>)
    requires CollectRows(rows, CountedStockOfRow).1 == None
    ensures var items := CollectRows(rows, CountedStockOfRow).0.Items();
      |items| == |rows| &&
      forall i :: 0 <= i < |rows| ==>
        rows[i].Scanned? && items[i] == Stock("", rows[i].value.0, rows[i].value.1)
  {
  }

  /** `pgCountRepo`. */
  datatype PgCountRepo = PgCountRepo(db: Database) {

    /** `CountOne`: the scanned symbol and count with an empty name; no row
        becomes `ErrNoSuchStock`, any other error passes through; both errors
        come with the zero stock. */
    function CountOne(symbol: string): (r: (Stock, Option<Error>))
      ensures r.1.None? <==> db.queryRow(symbol).Scanned?
      ensures db.queryRow(symbol) == ScanFailed(NoRows) ==> r == (ZeroStock, Some(NoSuchStock))
      ensures db.queryRow(symbol).ScanFailed? && db.queryRow(symbol).err != NoRows ==>
        r == (ZeroStock, Some(db.queryRow(symbol).err))
      ensures db.queryRow(symbol).Scanned? ==>
        r.0 == Stock("", db.queryRow(symbol).value.0, db.queryRow(symbol).value.1)
    {
      match db.queryRow(symbol)
      case ScanFailed(e) => if e == NoRows then (ZeroStock, Some(NoSuchStock)) else (ZeroStock, Some(e))
      case Scanned(row) => (Stock("", row.0, row.1), None)
    }

    /** What `CountAll` returns from the store's answer to the statement it
        sends. */
    function CountAllOutcome(): (Slice<Stock>, Option<Error>) {
      match db.queryCounts
      case QueryFailed(e) => (Nil, Some(e))
      case Rows(rows) => CollectRows(rows, CountedStockOfRow)
    }

    /** `CountAll`. */
    method CountAll() returns (stocks: Slice<Stock>, err: Option<Error>)
      ensures (stocks, err) == CountAllOutcome()
    {
      match db.queryCounts {
        case QueryFailed(e) =>
          return Nil, Some(e);
        case Rows(rows) =>
          stocks, err := MapRowsToCountedStocks(rows);
      }
    }
  }

  /** `MockCountRepo`: canned answers and the last symbol asked for. It has no
      invocation counters and no `UnsetArgs`. */
  class MockCountRepo {
    var countOneArg: string
    var countOneStock: Stock
    var countOneErr: Option<Error>

    var countAllStocks: Slice<Stock>
    var countAllErr: Option<Error>

    /** The struct literal `&MockCountRepo{...}` of a test. */
    constructor (countOneStock: Stock, countOneErr: Option<Error>, countAllStocks: Slice<Stock>, countAllErr: Option<Error>)
      ensures this.countOneArg == ""
      ensures this.countOneStock == countOneStock && this.countOneErr == countOneErr
      ensures this.countAllStocks == countAllStocks && this.countAllErr == countAllErr
    {
      this.countOneArg := "";
      this.countOneStock, this.countOneErr := countOneStock, countOneErr;
      this.countAllStocks, this.countAllErr := countAllStocks, countAllErr;
    }

    /** `CountRepo` (the mock's one-symbol count): records the symbol and
        answers `(CountOneStock, CountOneErr)`. */
    method CountRepo(symbol: string) returns (s: Stock, err: Option<Error>)
      modifies this`countOneArg
      ensures countOneArg == symbol
      ensures s == countOneStock && err == countOneErr
    {
      countOneArg := symbol;
      return countOneStock, countOneErr;
    }

    /** `CountAll`: answers `(CountAllStocks, CountAllErr)` and changes nothing. */
    method CountAll() returns (stocks: Slice<Stock>, err: Option<Error>)
      ensures stocks == countAllStocks && err == countAllErr
    {
      return countAllStocks, countAllErr;
    }
  }
}
