/** The PDO test doubles: a prepared statement that remembers its template and its last
    bound parameters and replays a fixed row four times, and a connection that hands out
    statements and remembers the one it created last. */
module MockPdo {
  import opened Text
  import opened Binder

  /** The one row every successful fetch returns. */
  datatype Row = Row(name: string, age: int, id: string)

  const FakeRow: Row := Row("Fred", 10, "1")

  /** The row counter's value once the fake result set is exhausted. */
  const LastRow: int := 5

  /** What a fetch returns: a row, or PHP's `false` once the rows have run out. */
  datatype FetchResult = Fetched(row: Row) | NoMoreRows

  /** One fetch on the row counter: the result and the counter afterwards. */
  function FetchStep(currentRow: int): (r: (FetchResult, int))
    requires 1 <= currentRow <= LastRow
    ensures 1 <= r.1 <= LastRow
    ensures r.0.Fetched? <==> currentRow < LastRow
    ensures r.0.Fetched? ==> r.0.row == FakeRow && r.1 == currentRow + 1
    ensures r.0.NoMoreRows? ==> r.1 == LastRow
  {
    if currentRow == LastRow then (NoMoreRows, currentRow) else (Fetched(FakeRow), currentRow + 1)
  }

  /** The results of `n` consecutive fetches starting from the counter `currentRow`. */
  function Fetches(currentRow: int, n: nat): seq<FetchResult>
    requires 1 <= currentRow <= LastRow
    decreases n
  {
    if n == 0 then []
    else
      var (r, next) := FetchStep(currentRow);
      [r] + Fetches(next, n - 1)
  }

  /** From counter `currentRow`, the first `5 - currentRow` fetches return the fake row and
      every later one returns `false`; in particular a fresh statement yields four rows. */
  lemma {:induction false} FetchesBoundary(currentRow: int, n: nat)
    requires 1 <= currentRow <= LastRow
    decreases n
    ensures |Fetches(currentRow, n)| == n
    ensures forall i :: 0 <= i < n ==>
              Fetches(currentRow, n)[i] == if i < LastRow - currentRow then Fetched(FakeRow) else NoMoreRows
  {
    if n > 0 {
      var (r, next) := FetchStep(currentRow);
      FetchesBoundary(next, n - 1);
      var rest := Fetches(next, n - 1);
      assert Fetches(currentRow, n) == [r] + rest;
      forall i | 0 < i < n
        ensures Fetches(currentRow, n)[i] ==
                if i < LastRow - currentRow then Fetched(FakeRow) else NoMoreRows
      {
        assert Fetches(currentRow, n)[i] == rest[i - 1];
      }
    }
  }

  /** DummyPDOStatement. */
  class DummyPDOStatement {
    /** The template given to the constructor; nothing assigns it afterwards. */
    const query: string
    var inputParameters: seq<string>
    var currentRow: int

    ghost predicate Valid()
      reads this
    {
      1 <= currentRow <= LastRow
    }

    constructor (statement: string)
      ensures Valid()
      ensures query == statement && inputParameters == [] && currentRow == 1
    {
      query := statement;
      inputParameters := [];
      currentRow := 1;
    }

    /** Stores the parameters, replacing those of any earlier call; called without an
        argument it stores the empty array. */
    method Execute(parameters: seq<string> := [])
      modifies this`inputParameters
      ensures inputParameters == parameters
    {
      inputParameters := parameters;
    }

    /** The fetch style is ignored. */
    method Fetch(fetchStyle: int) returns (r: FetchResult)
      requires Valid()
      modifies this`currentRow
      ensures Valid()
      ensures (r, currentRow) == FetchStep(old(currentRow))
    {
      if currentRow == LastRow {
        r := NoMoreRows;
      } else {
        currentRow := currentRow + 1;
        r := Fetched(FakeRow);
      }
    }

    method GetQuery() returns (q: string)
      ensures q == query
    {
      q := query;
    }

    method GetParameters() returns (p: seq<string>)
      ensures p == inputParameters
    {
      p := inputParameters;
    }

    /** The query with each placeholder replaced by the matching parameter in double
        quotes. The method has no modifies clause: it changes no field. */
    method GetBoundQuery() returns (r: FormatResult)
      requires NoPercent(query)
      ensures r == BoundQuery(query, inputParameters)
    {
      var sql := GetQuery();
      sql := ReplacePlaceholders(sql);
      var quotedValues: seq<string> := [];
      var values := GetParameters();
      for i := 0 to |values|
        invariant quotedValues == QuoteAll(values[..i])
      {
        assert values[..i + 1] == values[..i] + [values[i]];
        QuoteAllAppend(values[..i], [values[i]]);
        quotedValues := quotedValues + [Quote(values[i])];
      }
      assert values[..|values|] == values;
      r := Format(sql, quotedValues);
    }
  }

  /** DummyPDO. */
  class DummyPDO {
    var lastQuery: DummyPDOStatement?

    /** The connection string is ignored. */
    constructor (connectionString: string := "")
      ensures lastQuery == null
    {
      lastQuery := null;
    }

    /** The bound query of the most recently prepared statement. */
    function LastBoundQuery(): (r: FormatResult)
      reads this, lastQuery
      requires lastQuery != null && NoPercent(lastQuery.query)
      ensures r.TooFewArguments? <==>
              |lastQuery.inputParameters| < Count(lastQuery.query, Placeholder)
    {
      BoundQuery(lastQuery.query, lastQuery.inputParameters)
    }

    /** A new statement for the template, which replaces any earlier one as the last query. */
    method Prepare(statement: string) returns (s: DummyPDOStatement)
      modifies this
      ensures fresh(s) && s.Valid()
      ensures s.query == statement && s.inputParameters == [] && s.currentRow == 1
      ensures lastQuery == s
    {
      lastQuery := new DummyPDOStatement(statement);
      s := lastQuery;
    }

    /** The bound query of the most recently prepared statement. */
    method GetLastQuery() returns (r: FormatResult)
      requires lastQuery != null && NoPercent(lastQuery.query)
      ensures r == BoundQuery(lastQuery.query, lastQuery.inputParameters)
    {
      r := lastQuery.GetBoundQuery();
    }
  }
}
