/** What the Postgres repositories get back from `database/sql`, as plain
    values: the outcome of `Exec`, the rows of `Query` (each row's `Scan`
    outcome, in the order `rows.Next()` yields them) and the single row of
    `QueryRow`. The SQL texts themselves are not interpreted. */
module Sql {

  import opened Wrappers
  import opened GoLib

  datatype Scan<+T> = Scanned(value: T) | ScanFailed(err: Error)

  datatype QueryResult<+T> = QueryFailed(err: Error) | Rows(rows: seq<Scan<T>>)

  datatype ExecResult = ExecFailed(err: Error) | Executed(rowsAffected: Int64)

  /** The store's answer to each statement the repositories send. The
      parameters of each field are the statement's arguments. */
  datatype Database = Database(
    /** `saveStockQuery` with symbol, name and count */
    exec: (string, string, Int64) -> ExecResult,
    /** `searchStockQuery` with the (lowered) query and the limit; a row holds
        symbol, name and total count */
    query: (string, Int64) -> QueryResult<(string, string, Int64)>,
    /** `countStockQuery` with one symbol, through `QueryRow`; the row holds
        symbol and count */
    queryRow: string -> Scan<(string, Int64)>,
    /** `countStockQuery` sent with no argument at all, as `CountAll` does */
    queryCounts: QueryResult<(string, Int64)>)

  /** Index of the first row whose scan fails, or `|rows|` when all scan. */
  function FirstFailure<T>(rows: seq<Scan<T>>): (k: nat)
    ensures k <= |rows|
    ensures forall i :: 0 <= i < k ==> rows[i].Scanned?
    ensures k < |rows| ==> rows[k].ScanFailed?
  {
    if rows == [] then 0
    else if rows[0].ScanFailed? then 0
    else 1 + FirstFailure(rows[1..])
  }

  /** `f` applied to the columns of every row, in row order. */
  function ScannedElems<T, U>(rows: seq<Scan<T>>, f: T -> U): (r: seq<U>)
    requires forall i :: 0 <= i < |rows| ==> rows[i].Scanned?
    ensures |r| == |rows| && forall i :: 0 <= i < |rows| ==> r[i] == f(rows[i].value)
  {
    seq(|rows|, i requires 0 <= i < |rows| => f(rows[i].value))
  }

  /** The loop `for rows.Next() { Scan; append }` of both repositories: it
      yields one element per row, in row order, or stops at the first failed
      scan with a nil slice and that scan's error. `f` builds the element from
      the scanned columns. */
  function CollectRows<T, U>(rows: seq<Scan<T>>, f: T -> U): (r: (Slice<U>, Option<Error>))
    ensures FirstFailure(rows) == |rows| ==>
      r == (Elems(ScannedElems(rows, f)), None)
    ensures FirstFailure(rows) < |rows| ==> r == (Nil, Some(rows[FirstFailure(rows)].err))
  {
    if rows == [] then (Elems([]), None)
    else
      var (init, err) := CollectRows(rows[..|rows| - 1], f);
      if err.Some? then (Nil, err)
      else
        match rows[|rows| - 1]
        case ScanFailed(e) => (Nil, Some(e))
        case Scanned(v) =>
          assert init.Items() + [f(v)] == ScannedElems(rows, f);
          (Elems(init.Items() + [f(v)]), None)
  }

  /** A failed scan after rows that all scanned ends the loop with that
      scan's error. */
  lemma CollectStopsAt<T, U>(rows: seq<Scan<T>>, f: T -> U, i: nat)
    requires i < |rows| && CollectRows(rows[..i], f).1 == None && rows[i].ScanFailed?
    ensures CollectRows(rows, f) == (Nil, Some(rows[i].err))
  {
    assert FirstFailure(rows[..i]) == i;
    forall j | 0 <= j < i
      ensures rows[j].Scanned?
    {
      assert rows[..i][j] == rows[j];
    }
    assert FirstFailure(rows) == i;
  }
}
