/** `MySQLRepository`: the placeholder check, parameter binding, return codes and
    callbacks of the insert and query helpers. JDBC is a scripted connection that
    records every call made on it; the callbacks are recorded as events. */
module MySqlRepositories {
  import opened Base
  import opened Columns
  import opened MySql

  /** An `SQLException`. */
  datatype SqlError = SqlError(message: string)

  /** A JDBC call made on a connection or on the statement prepared from it. */
  datatype Call =
    | PrepareCall(query: string, returnKeys: bool)
    | SetStringCall(index: int, value: Option<string>)
    | ExecuteUpdateCall
    | GeneratedKeysCall
    | ExecuteQueryCall
    | ExecuteCall
    | CloseResultSetCall
    | CloseStatementCall

  /** Which JDBC calls throw: the driver's behaviour, fixed per connection.
      `setStringError` names the 1-based parameter index whose binding throws. */
  datatype Script = Script(
    prepareError: Option<SqlError>,
    setStringError: Option<(int, SqlError)>,
    executeError: Option<SqlError>,
    keysError: Option<SqlError>,
    updateCount: Int32)

  /** A callback invocation: `onComplete` ran, or `onException` received an error. */
  datatype Event = Completed | Failed(error: SqlError)

  /** What a helper returns, which JDBC calls it makes and which callbacks run. */
  datatype Run<R> = Run(result: R, calls: seq<Call>, events: seq<Event>)

  /** A JDBC `Connection` following a script. */
  class Connection {
    const script: Script
    var calls: seq<Call>
    var closed: bool

    constructor (script: Script)
      ensures this.script == script && calls == [] && !closed
    {
      this.script := script;
      calls, closed := [], false;
    }

    method PrepareStatement(query: string, returnKeys: bool) returns (error: Option<SqlError>)
      modifies this
      ensures calls == old(calls) + [PrepareCall(query, returnKeys)] && closed == old(closed)
      ensures error == script.prepareError
    {
      calls := calls + [PrepareCall(query, returnKeys)];
      error := script.prepareError;
    }

    method SetString(index: int, value: Option<string>) returns (error: Option<SqlError>)
      modifies this
      ensures calls == old(calls) + [SetStringCall(index, value)] && closed == old(closed)
      ensures error == (if script.setStringError.Some? && script.setStringError.value.0 == index
                        then Some(script.setStringError.value.1) else None)
    {
      calls := calls + [SetStringCall(index, value)];
      error := if script.setStringError.Some? && script.setStringError.value.0 == index
               then Some(script.setStringError.value.1) else None;
    }

    method ExecuteUpdate() returns (r: Result<Int32, SqlError>)
      modifies this
      ensures calls == old(calls) + [ExecuteUpdateCall] && closed == old(closed)
      ensures r == (if script.executeError.Some? then Failure(script.executeError.value) else Success(script.updateCount))
    {
      calls := calls + [ExecuteUpdateCall];
      r := if script.executeError.Some? then Failure(script.executeError.value) else Success(script.updateCount);
    }

    method GetGeneratedKeys() returns (error: Option<SqlError>)
      modifies this
      ensures calls == old(calls) + [GeneratedKeysCall] && closed == old(closed)
      ensures error == script.keysError
    {
      calls := calls + [GeneratedKeysCall];
      error := script.keysError;
    }

    method ExecuteQuery() returns (error: Option<SqlError>)
      modifies this
      ensures calls == old(calls) + [ExecuteQueryCall] && closed == old(closed)
      ensures error == script.executeError
    {
      calls := calls + [ExecuteQueryCall];
      error := script.executeError;
    }

    method Execute() returns (error: Option<SqlError>)
      modifies this
      ensures calls == old(calls) + [ExecuteCall] && closed == old(closed)
      ensures error == script.executeError
    {
      calls := calls + [ExecuteCall];
      error := script.executeError;
    }

    method CloseResultSet()
      modifies this
      ensures calls == old(calls) + [CloseResultSetCall] && closed == old(closed)
    {
      calls := calls + [CloseResultSetCall];
    }

    method CloseStatement()
      modifies this
      ensures calls == old(calls) + [CloseStatementCall] && closed == old(closed)
    {
      calls := calls + [CloseStatementCall];
    }

    method Close()
      modifies this
      ensures calls == old(calls) && closed
    {
      closed := true;
    }
  }

  /** The number of `?` characters in a query, quoted or not. */
  function Placeholders(query: string): (n: nat)
    ensures n <= |query|
    ensures n == 0 <==> '?' !in query
  {
    QuestionMarksBound(query);
    multiset(query)['?']
  }

  lemma {:induction false} QuestionMarksBound(query: string)
    ensures multiset(query)['?'] <= |query|
  {
    if query != [] {
      var init := query[..|query| - 1];
      QuestionMarksBound(init);
      assert query == init + [query[|query| - 1]];
      assert multiset(query) == multiset(init) + multiset{query[|query| - 1]};
    }
  }

  /** The first loop of the connection-level helpers: counts every `?` character. */
  method CountPlaceholders(query: string) returns (questionMarks: nat)
    ensures questionMarks == Placeholders(query)
  {
    questionMarks := 0;
    for i := 0 to |query|
      invariant questionMarks == multiset(query[..i])['?']
    {
      assert query[..i + 1] == query[..i] + [query[i]];
      if query[i] == '?' {
        questionMarks := questionMarks + 1;
      }
    }
    assert query[..|query|] == query;
  }

  /** Placeholders in a query built from pieces are the pieces' placeholders together,
      so a `?` inside a quoted literal counts like any other. */
  lemma {:induction false} PlaceholdersOfConcat(a: string, b: string)
    ensures Placeholders(a + b) == Placeholders(a) + Placeholders(b)
  {
    assert multiset(a + b) == multiset(a) + multiset(b);
  }

  /** The `IllegalArgumentException` message for a column count that does not match. */
  function MismatchMessage(query: string): string {
    "Invalid amount of columns for query \"" + query + "\""
  }

  /** The values the columns are bound to, in array order: `toString()` or SQL null. */
  function BoundValues(cols: seq<Column>): (vs: seq<Option<string>>)
    reads cols
    ensures |vs| == |cols|
    ensures forall i :: 0 <= i < |cols| ==> vs[i] == cols[i].BoundValue()
  {
    if cols == [] then [] else BoundValues(cols[..|cols| - 1]) + [cols[|cols| - 1].BoundValue()]
  }

  /** One `setString` per value: value i goes to parameter i + 1. */
  function Bindings(values: seq<Option<string>>): (cs: seq<Call>)
    ensures |cs| == |values|
  {
    seq(|values|, i requires 0 <= i < |values| => SetStringCall(i + 1, values[i]))
  }

  /** The parameter whose binding throws, when binding `n` values reaches it. */
  function BindFailure(s: Script, n: nat): Option<(int, SqlError)> {
    if s.setStringError.Some? && 1 <= s.setStringError.value.0 <= n then s.setStringError else None
  }

  /** `onException.accept(ex)` when a handler was given. */
  function Report(hasOnException: bool, e: SqlError): seq<Event> {
    if hasOnException then [Failed(e)] else []
  }

  /** The calls and events of binding `values` on a prepared statement, up to and
      including a failing `setString`, when the script has one. */
  function BindRun(s: Script, values: seq<Option<string>>): (calls: seq<Call>)
  {
    var f := BindFailure(s, |values|);
    if f.Some? then Bindings(values)[..f.value.0] else Bindings(values)
  }

  /** The connection-level `executeInsert`: rejects a column count that differs
      from the placeholder count before preparing anything; otherwise prepares with
      generated keys, binds, updates and hands the keys to `onComplete`. Any
      `SQLException` goes to `onException`; the result is the update count once the
      update has run, and 0 when it has not. */
  function InsertRun(s: Script, query: string, values: seq<Option<string>>, hasOnComplete: bool, hasOnException: bool)
    : (run: Run<Result<Int32, JavaException>>)
    ensures run.calls == [] <==> run.result.Failure?
  {
    if Placeholders(query) != |values| then Run(Failure(IllegalArgumentException(MismatchMessage(query))), [], [])
    else if s.prepareError.Some? then Run(Success(0), [PrepareCall(query, true)], Report(hasOnException, s.prepareError.value))
    else
      var bound := [PrepareCall(query, true)] + BindRun(s, values);
      var f := BindFailure(s, |values|);
      if f.Some? then Run(Success(0), bound + [CloseStatementCall], Report(hasOnException, f.value.1))
      else
        var updated := bound + [ExecuteUpdateCall];
        if s.executeError.Some? then Run(Success(0), updated + [CloseStatementCall], Report(hasOnException, s.executeError.value))
        else if !hasOnComplete then Run(Success(s.updateCount), updated + [CloseStatementCall], [])
        else if s.keysError.Some? then
          Run(Success(s.updateCount), updated + [GeneratedKeysCall] + [CloseStatementCall], Report(hasOnException, s.keysError.value))
        else Run(Success(s.updateCount), updated + [GeneratedKeysCall] + [CloseStatementCall], [Completed])
  }

  /** The connection-level `executeQuery` with columns: the placeholder check and
      the binding happen only when columns are given; the result set goes to
      `onComplete` and is closed, then the statement. */
  function QueryRun(s: Script, query: string, values: Option<seq<Option<string>>>, hasOnException: bool)
    : (run: Run<Outcome<JavaException>>)
    ensures run.calls == [] <==> run.result.Fail?
    ensures |run.events| <= 1
  {
    if values.Some? && Placeholders(query) != |values.value| then
      Run(Fail(IllegalArgumentException(MismatchMessage(query))), [], [])
    else if s.prepareError.Some? then Run(Pass, [PrepareCall(query, false)], Report(hasOnException, s.prepareError.value))
    else
      var vs := if values.Some? then values.value else [];
      var bound := [PrepareCall(query, false)] + BindRun(s, vs);
      var f := BindFailure(s, |vs|);
      if f.Some? then Run(Pass, bound + [CloseStatementCall], Report(hasOnException, f.value.1))
      else if s.executeError.Some? then
        Run(Pass, bound + [ExecuteQueryCall] + [CloseStatementCall], Report(hasOnException, s.executeError.value))
      else Run(Pass, bound + [ExecuteQueryCall] + [CloseResultSetCall] + [CloseStatementCall], [Completed])
  }

  /** The connection-level `executeQuery` with a `Runnable`: prepare, `execute()`,
      then `onComplete.run()` when given. */
  function ExecuteRun(s: Script, query: string, hasOnComplete: bool, hasOnException: bool): (run: Run<Outcome<JavaException>>)
    ensures run.result == Pass
    ensures |run.calls| > 0 && run.calls[0] == PrepareCall(query, false)
    ensures |run.calls| > 1 ==> run.calls[|run.calls| - 1] == CloseStatementCall
    ensures |run.events| <= 1
  {
    if s.prepareError.Some? then Run(Pass, [PrepareCall(query, false)], Report(hasOnException, s.prepareError.value))
    else if s.executeError.Some? then
      Run(Pass, [PrepareCall(query, false), ExecuteCall, CloseStatementCall], Report(hasOnException, s.executeError.value))
    else Run(Pass, [PrepareCall(query, false), ExecuteCall, CloseStatementCall], if hasOnComplete then [Completed] else [])
  }

  /** Whether the insert's update runs: prepared, every value bound, updated. */
  predicate UpdateRuns(s: Script, n: nat) {
    s.prepareError.None? && BindFailure(s, n).None? && s.executeError.None?
  }

  /** Whether some JDBC call of the insert throws. */
  predicate InsertThrows(s: Script, n: nat, hasOnComplete: bool) {
    !UpdateRuns(s, n) || (hasOnComplete && s.keysError.Some?)
  }

  /** The insert throws `IllegalArgumentException` exactly when the column count
      differs from the number of `?`, and then prepares nothing and calls back nothing. */
  lemma InsertRejectsMismatch(s: Script, query: string, values: seq<Option<string>>, hasOnComplete: bool, hasOnException: bool)
    ensures var run := InsertRun(s, query, values, hasOnComplete, hasOnException);
      && (run.result.Failure? <==> Placeholders(query) != |values|)
      && (run.result.Failure? ==>
            run.result.error == IllegalArgumentException(MismatchMessage(query)) && run.calls == [] && run.events == [])
  {
  }

  /** Once the check passes, the insert returns the update count when the update
      ran and 0 when an `SQLException` came first; a failure to read the generated
      keys does not undo the count. */
  lemma InsertReturnCode(s: Script, query: string, values: seq<Option<string>>, hasOnComplete: bool, hasOnException: bool)
    requires Placeholders(query) == |values|
    ensures InsertRun(s, query, values, hasOnComplete, hasOnException).result
      == Success(if UpdateRuns(s, |values|) then s.updateCount else 0)
  {
  }

  /** After a successful prepare, value i is bound to parameter i + 1 in order, up to
      the parameter whose binding throws, and the statement is closed last. */
  lemma InsertBindsInOrder(s: Script, query: string, values: seq<Option<string>>, hasOnComplete: bool, hasOnException: bool)
    requires Placeholders(query) == |values| && s.prepareError.None?
    ensures var run := InsertRun(s, query, values, hasOnComplete, hasOnException);
      && |run.calls| >= 2 && run.calls[0] == PrepareCall(query, true)
      && run.calls[|run.calls| - 1] == CloseStatementCall
      && forall i :: 0 <= i < |values| && (BindFailure(s, |values|).None? || i < BindFailure(s, |values|).value.0) ==>
           run.calls[i + 1] == SetStringCall(i + 1, values[i])
  {
    var run := InsertRun(s, query, values, hasOnComplete, hasOnException);
    var bound := BindRun(s, values);
    assert run.calls[..|bound| + 1] == [PrepareCall(query, true)] + bound;
    forall i | 0 <= i < |values| && (BindFailure(s, |values|).None? || i < BindFailure(s, |values|).value.0)
      ensures run.calls[i + 1] == SetStringCall(i + 1, values[i])
    {
      assert run.calls[i + 1] == run.calls[..|bound| + 1][i + 1];
    }
  }

  /** `onException` receives an error exactly when a handler is given and a JDBC
      call threw; `onComplete` runs exactly when it is given and the update and the
      generated keys both succeeded; at most one of them runs. */
  lemma InsertCallbacks(s: Script, query: string, values: seq<Option<string>>, hasOnComplete: bool, hasOnException: bool)
    requires Placeholders(query) == |values|
    ensures var run := InsertRun(s, query, values, hasOnComplete, hasOnException);
      && |run.events| <= 1
      && (Completed in run.events <==> hasOnComplete && !InsertThrows(s, |values|, hasOnComplete))
      && ((exists e :: Failed(e) in run.events) <==> hasOnException && InsertThrows(s, |values|, hasOnComplete))
  {
    var run := InsertRun(s, query, values, hasOnComplete, hasOnException);
    if hasOnException && InsertThrows(s, |values|, hasOnComplete) {
      assert Failed(run.events[0].error) in run.events;
    }
  }

  /** Without columns the query binds nothing and is never rejected; with columns
      it is rejected exactly on a count mismatch, before anything is prepared. */
  lemma QueryColumnsCheck(s: Script, query: string, values: Option<seq<Option<string>>>, hasOnException: bool)
    ensures var run := QueryRun(s, query, values, hasOnException);
      && (run.result.Fail? <==> values.Some? && Placeholders(query) != |values.value|)
      && (run.result.Fail? ==> run.calls == [] && run.events == [])
      && (values.None? ==> forall i :: 0 <= i < |run.calls| ==> !run.calls[i].SetStringCall?)
  {
    assert Bindings([]) == [];
  }

  /** `onComplete` receives the result set exactly when every call succeeded, and
      the result set is then closed before the statement. */
  lemma QueryCallbacks(s: Script, query: string, values: Option<seq<Option<string>>>, hasOnException: bool)
    requires values.Some? ==> Placeholders(query) == |values.value|
    ensures var run := QueryRun(s, query, values, hasOnException);
      var n := if values.Some? then |values.value| else 0;
      && |run.events| <= 1
      && (Completed in run.events <==> UpdateRuns(s, n))
      && (CloseResultSetCall in run.calls <==> UpdateRuns(s, n))
      && ((exists e :: Failed(e) in run.events) <==> hasOnException && !UpdateRuns(s, n))
  {
    var run := QueryRun(s, query, values, hasOnException);
    var n := if values.Some? then |values.value| else 0;
    var vs := if values.Some? then values.value else [];
    if hasOnException && !UpdateRuns(s, n) {
      assert Failed(run.events[0].error) in run.events;
    }
    if s.prepareError.None? {
      var bound := BindRun(s, vs);
      assert forall i :: 0 <= i < |bound| ==> bound[i].SetStringCall?;
    }
  }

  /** The `Runnable` variant runs `onComplete` only after `execute()` returned, and
      reports to `onException` exactly when a handler is given and a call threw. */
  lemma ExecuteCallbacks(s: Script, query: string, hasOnComplete: bool, hasOnException: bool)
    ensures var run := ExecuteRun(s, query, hasOnComplete, hasOnException);
      && run.result == Pass
      && (Completed in run.events <==> hasOnComplete && s.prepareError.None? && s.executeError.None?)
      && ((exists e :: Failed(e) in run.events) <==> hasOnException && (s.prepareError.Some? || s.executeError.Some?))
  {
    var run := ExecuteRun(s, query, hasOnComplete, hasOnException);
    if hasOnException && (s.prepareError.Some? || s.executeError.Some?) {
      assert Failed(run.events[0].error) in run.events;
    }
  }

  /** The binding loop: column i goes to parameter i + 1 until a `setString` throws. */
  method BindColumns(connection: Connection, columns: array<Column>) returns (error: Option<SqlError>)
    modifies connection
    ensures connection.calls == old(connection.calls) + BindRun(connection.script, old(BoundValues(columns[..])))
    ensures connection.closed == old(connection.closed)
    ensures var f := BindFailure(connection.script, columns.Length);
      error == if f.Some? then Some(f.value.1) else None
  {
    ghost var values := BoundValues(columns[..]);
    ghost var s := connection.script;
    var columnIndex := 1;
    error := None;
    while columnIndex <= columns.Length && error.None?
      invariant 1 <= columnIndex <= columns.Length + 1
      invariant connection.closed == old(connection.closed)
      invariant error.None? ==> BindFailure(s, columnIndex - 1).None?
      invariant error.Some? ==> 2 <= columnIndex && s.setStringError == Some((columnIndex - 1, error.value))
      invariant connection.calls == old(connection.calls) + Bindings(values)[..columnIndex - 1]
      decreases columns.Length + 1 - columnIndex, if error.None? then 1 else 0
    {
      var value := columns[columnIndex - 1].BoundValue();
      error := connection.SetString(columnIndex, value);
      assert Bindings(values)[..columnIndex] == Bindings(values)[..columnIndex - 1] + [SetStringCall(columnIndex, value)];
      columnIndex := columnIndex + 1;
    }
    if error.None? {
      assert Bindings(values)[..columns.Length] == Bindings(values);
    }
  }

  lemma Appended(start: seq<Call>, made: seq<Call>, more: seq<Call>)
    ensures start + made + more == start + (made + more)
  {
  }

  /** The statement part of the connection-level `executeQuery`, once the
      placeholder check has passed: prepare, bind when columns are given, run the
      query, hand the result set to `onComplete`, close. */
  method QueryStatement(connection: Connection, query: string, columns: array?<Column>, hasOnException: bool)
    returns (r: Outcome<JavaException>, events: seq<Event>)
    requires columns != null ==> Placeholders(query) == columns.Length
    modifies connection
    ensures var run := QueryRun(connection.script, query, if columns == null then None else Some(old(BoundValues(columns[..]))), hasOnException);
      r == run.result && events == run.events && connection.calls == old(connection.calls) + run.calls
    ensures connection.closed == old(connection.closed)
  {
    events := [];
    ghost var start := connection.calls;
    ghost var values := if columns == null then [] else old(BoundValues(columns[..]));
    var error := connection.PrepareStatement(query, false);
    if error.Some? {
      return Pass, Report(hasOnException, error.value);
    }
    ghost var made := [PrepareCall(query, false)];
    error := BindGivenColumns(connection, columns);
    Appended(start, made, BindRun(connection.script, values));
    made := made + BindRun(connection.script, values);
    if error.None? {
      error := connection.ExecuteQuery();
      Appended(start, made, [ExecuteQueryCall]);
      made := made + [ExecuteQueryCall];
      if error.None? {
        events := [Completed];
        connection.CloseResultSet();
        Appended(start, made, [CloseResultSetCall]);
        made := made + [CloseResultSetCall];
      }
    }
    connection.CloseStatement();
    Appended(start, made, [CloseStatementCall]);
    made := made + [CloseStatementCall];
    if error.Some? {
      events := Report(hasOnException, error.value);
    }
    r := Pass;
  }

  /** The binding loop when columns are given; nothing to bind otherwise. */
  method BindGivenColumns(connection: Connection, columns: array?<Column>) returns (error: Option<SqlError>)
    modifies connection
    ensures var values := if columns == null then [] else old(BoundValues(columns[..]));
      var f := BindFailure(connection.script, |values|);
      && connection.calls == old(connection.calls) + BindRun(connection.script, values)
      && error == (if f.Some? then Some(f.value.1) else None)
    ensures connection.closed == old(connection.closed)
  {
    if columns != null {
      error := BindColumns(connection, columns);
    } else {
      assert Bindings([]) == [];
      error := None;
    }
  }

  /** `MySQLRepository`: every helper works on a connection of the database's data source. */
  class MySQLRepository {
    const database: MySQLDatabase

    constructor (database: MySQLDatabase)
      ensures this.database == database
    {
      this.database := database;
    }

    /** `executeInsert(connection, query, columns, onComplete, onException)`. */
    method ExecuteInsertOn(connection: Connection, query: string, columns: array<Column>, hasOnComplete: bool, hasOnException: bool)
      returns (r: Result<Int32, JavaException>, events: seq<Event>)
      modifies connection
      ensures var run := InsertRun(connection.script, query, old(BoundValues(columns[..])), hasOnComplete, hasOnException);
        r == run.result && events == run.events && connection.calls == old(connection.calls) + run.calls
      ensures connection.closed == old(connection.closed)
    {
      ghost var start := connection.calls;
      var questionMarks := CountPlaceholders(query);
      if questionMarks != columns.Length {
        return Failure(IllegalArgumentException("Invalid amount of columns for query \"" + query + "\"")), [];
      }
      var affectedRows: Int32 := 0;
      events := [];
      var error := connection.PrepareStatement(query, true);
      if error.Some? {
        events := Report(hasOnException, error.value);
        return Success(affectedRows), events;
      }
      ghost var made := [PrepareCall(query, true)];
      error := BindColumns(connection, columns);
      Appended(start, made, BindRun(connection.script, old(BoundValues(columns[..]))));
      made := made + BindRun(connection.script, old(BoundValues(columns[..])));
      if error.None? {
        var update := connection.ExecuteUpdate();
        Appended(start, made, [ExecuteUpdateCall]);
        made := made + [ExecuteUpdateCall];
        if update.Failure? {
          error := Some(update.error);
        } else {
          affectedRows := update.value;
          if hasOnComplete {
            error := connection.GetGeneratedKeys();
            Appended(start, made, [GeneratedKeysCall]);
            made := made + [GeneratedKeysCall];
            if error.None? {
              events := [Completed];
            }
          }
        }
      }
      connection.CloseStatement();
      Appended(start, made, [CloseStatementCall]);
      made := made + [CloseStatementCall];
      if error.Some? {
        events := Report(hasOnException, error.value);
      }
      r := Success(affectedRows);
    }

    /** `executeQuery(connection, query, columns, onComplete, onException)`; `columns` may be null. */
    method ExecuteQueryOn(connection: Connection, query: string, columns: array?<Column>, hasOnException: bool)
      returns (r: Outcome<JavaException>, events: seq<Event>)
      modifies connection
      ensures var run := QueryRun(connection.script, query, if columns == null then None else Some(old(BoundValues(columns[..]))), hasOnException);
        r == run.result && events == run.events && connection.calls == old(connection.calls) + run.calls
      ensures connection.closed == old(connection.closed)
    {
      if columns != null {
        var questionMarks := CountPlaceholders(query);
        if questionMarks != columns.Length {
          return Fail(IllegalArgumentException("Invalid amount of columns for query \"" + query + "\"")), [];
        }
      }
      r, events := QueryStatement(connection, query, columns, hasOnException);
    }

    /** `executeQuery(connection, query, onComplete, onException)` with a `Runnable`. */
    method ExecuteOn(connection: Connection, query: string, hasOnComplete: bool, hasOnException: bool)
      returns (r: Outcome<JavaException>, events: seq<Event>)
      modifies connection
      ensures var run := ExecuteRun(connection.script, query, hasOnComplete, hasOnException);
        r == run.result && events == run.events && connection.calls == old(connection.calls) + run.calls
      ensures connection.closed == old(connection.closed)
    {
      events := [];
      var error := connection.PrepareStatement(query, false);
      if error.Some? {
        return Pass, Report(hasOnException, error.value);
      }
      error := connection.Execute();
      if error.None? && hasOnComplete {
        events := [Completed];
      }
      connection.CloseStatement();
      if error.Some? {
        events := Report(hasOnException, error.value);
      }
      r := Pass;
    }

    /** `executeInsert(query, columns, onComplete, onException)`: obtains a connection
        from the data source (`acquired`, or the `SQLException` it throws), runs the
        connection-level insert and closes the connection. A missing data source is a
        `NullPointerException`; a failed acquisition returns -1. */
    method ExecuteInsert(query: string, columns: array<Column>, hasOnComplete: bool, hasOnException: bool,
                         acquired: Result<Connection, SqlError>)
      returns (r: Result<Int32, JavaException>, events: seq<Event>)
      modifies if acquired.Success? then {acquired.value} else {}
      ensures database.dataSource == null ==> r == Failure(NullPointerException) && events == []
      ensures database.dataSource != null && acquired.Failure? ==>
        r == Success(-1) && events == Report(hasOnException, acquired.error)
      ensures database.dataSource != null && acquired.Success? ==>
        var c := acquired.value;
        var run := InsertRun(c.script, query, BoundValues(columns[..]), hasOnComplete, hasOnException);
        r == run.result && events == run.events && c.calls == old(c.calls) + run.calls && c.closed
      ensures database.dataSource == null && acquired.Success? ==> unchanged(acquired.value)
    {
      if database.dataSource == null {
        return Failure(NullPointerException), [];
      }
      if acquired.Failure? {
        return Success(-1), Report(hasOnException, acquired.error);
      }
      var connection := acquired.value;
      r, events := ExecuteInsertOn(connection, query, columns, hasOnComplete, hasOnException);
      connection.Close();
    }

    /** `executeQuery(query, columns, onComplete, onException)`: the same around the
        connection-level query; a failed acquisition reports to `onException`. */
    method ExecuteQuery(query: string, columns: array?<Column>, hasOnException: bool, acquired: Result<Connection, SqlError>)
      returns (r: Outcome<JavaException>, events: seq<Event>)
      modifies if acquired.Success? then {acquired.value} else {}
      ensures database.dataSource == null ==> r == Fail(NullPointerException) && events == []
      ensures database.dataSource != null && acquired.Failure? ==>
        r == Pass && events == Report(hasOnException, acquired.error)
      ensures database.dataSource != null && acquired.Success? ==>
        var c := acquired.value;
        var run := QueryRun(c.script, query, if columns == null then None else Some(BoundValues(columns[..])), hasOnException);
        r == run.result && events == run.events && c.calls == old(c.calls) + run.calls && c.closed
      ensures database.dataSource == null && acquired.Success? ==> unchanged(acquired.value)
    {
      if database.dataSource == null {
        return Fail(NullPointerException), [];
      }
      if acquired.Failure? {
        return Pass, Report(hasOnException, acquired.error);
      }
      var connection := acquired.value;
      r, events := ExecuteQueryOn(connection, query, columns, hasOnException);
      connection.Close();
    }

    /** `executeQuery(query, onComplete, onException)` with a `Runnable`: the
        connection-level call is made without the `onException` handler, so only a
        failed acquisition reaches it. */
    method Execute(query: string, hasOnComplete: bool, hasOnException: bool, acquired: Result<Connection, SqlError>)
      returns (r: Outcome<JavaException>, events: seq<Event>)
      modifies if acquired.Success? then {acquired.value} else {}
      ensures database.dataSource == null ==> r == Fail(NullPointerException) && events == []
      ensures database.dataSource != null && acquired.Failure? ==>
        r == Pass && events == Report(hasOnException, acquired.error)
      ensures database.dataSource != null && acquired.Success? ==>
        var c := acquired.value;
        var run := ExecuteRun(c.script, query, hasOnComplete, false);
        r == run.result && events == run.events && c.calls == old(c.calls) + run.calls && c.closed
      ensures database.dataSource == null && acquired.Success? ==> unchanged(acquired.value)
    {
      if database.dataSource == null {
        return Fail(NullPointerException), [];
      }
      if acquired.Failure? {
        return Pass, Report(hasOnException, acquired.error);
      }
      var connection := acquired.value;
      r, events := ExecuteOn(connection, query, hasOnComplete, false);
      connection.Close();
    }
  }
}
