/** src/Traits/Constraints.php: switching foreign-key constraints off and
    back on, either for listed tables (one batch of ALTER TABLE statements)
    or for every table (the `sp_msforeachtable` procedure, falling back to
    one statement per foreign key read from `sys.foreign_keys` when the
    procedure call returns false). The operations are stated here over an
    open connection; how the trait reaches that connection from the client
    is in sqlserver.dfy. */
module Constraints {
  import opened Wrappers
  import opened Exceptions
  import opened Driver

  /** Which of the two twin operations: `disableForeignKeys` (and `noCheck`)
      or `enableForeignKeys` (and `check`). */
  datatype Toggle = Disable | Enable

  /** The statement for one listed table. */
  function TableSql(mode: Toggle, table: string): string {
    match mode
    case Disable => "ALTER TABLE " + table + " NOCHECK CONSTRAINT ALL;"
    case Enable => "ALTER TABLE " + table + " CHECK CONSTRAINT ALL;"
  }

  /** The strings of `parts` written one after the other. */
  function Concat(parts: seq<string>): string {
    if parts == [] then "" else Concat(parts[..|parts| - 1]) + parts[|parts| - 1]
  }

  /** The statement of each listed table, in order. */
  function Statements(mode: Toggle, tables: seq<string>): (r: seq<string>)
    ensures |r| == |tables|
    ensures forall j :: 0 <= j < |tables| ==> r[j] == TableSql(mode, tables[j])
  {
    seq(|tables|, j requires 0 <= j < |tables| => TableSql(mode, tables[j]))
  }

  /** The batch sent for the listed tables. */
  function Joined(mode: Toggle, tables: seq<string>): string {
    Concat(Statements(mode, tables))
  }

  lemma {:induction false} ConcatAppend(a: seq<string>, b: seq<string>)
    decreases |b|
    ensures Concat(a + b) == Concat(a) + Concat(b)
  {
    if b == [] {
      assert a + b == a;
    } else {
      var b' := b[..|b| - 1];
      var last := b[|b| - 1];
      assert (a + b)[..|a + b| - 1] == a + b';
      ConcatAppend(a, b');
      calc {
        Concat(a + b);
        Concat(a + b') + last;
        Concat(a) + Concat(b') + last;
        Concat(a) + (Concat(b') + last);
        Concat(a) + Concat(b);
      }
    }
  }

  /** The batch for a list of tables is the batch for its first part
      followed by the batch for the rest. */
  lemma JoinedAppend(mode: Toggle, a: seq<string>, b: seq<string>)
    ensures Joined(mode, a + b) == Joined(mode, a) + Joined(mode, b)
  {
    assert Statements(mode, a + b) == Statements(mode, a) + Statements(mode, b);
    ConcatAppend(Statements(mode, a), Statements(mode, b));
  }

  /** The two statements of the every-table path: the procedure call that
      switches every table at once, and the query listing one statement per
      foreign key still to switch, for when the procedure call returns
      false. */
  datatype AllTables = AllTables(forEach: string, fallback: string)

  /** The 28 spaces that indent the fallback query's continuation lines. */
  const Indent := "              " + "              "

  /** The every-table statements of each operation; the fallback query
      keeps the source's line breaks and indentation. (The texts are
      written in short pieces, which the verifier handles far more cheaply
      than one long literal.) */
  function AllTablesSql(mode: Toggle): AllTables {
    match mode
    case Disable =>
      AllTables(
        "EXEC sp_msforeachtable " + "'ALTER TABLE ? " + "NOCHECK " + "CONSTRAINT ALL';",
        "SELECT " + "'ALTER TABLE ' + " + "OBJECT_NAME(" + "parent_object_id)" + " + ' NOCHECK " + "CONSTRAINT ' + " + "name \n"
        + Indent + "FROM " + "sys.foreign_keys \n"
        + Indent + "WHERE type = 'F' " + "AND is_disabled = 0")
    case Enable =>
      AllTables(
        "EXEC sp_msforeachtable " + "'ALTER TABLE ? " + "WITH CHECK " + "CHECK " + "CONSTRAINT ALL';",
        "SELECT " + "'ALTER TABLE ' + " + "OBJECT_NAME(" + "parent_object_id)" + " + ' WITH CHECK " + "CHECK " + "CONSTRAINT ' + " + "name \n"
        + Indent + "FROM " + "sys.foreign_keys \n"
        + Indent + "WHERE type = 'F' " + "AND is_disabled = 1")
  }

  /** `Messages::disableForeignKeysException($message)` or its twin. */
  function Builder(mode: Toggle, message: Option<string>): string {
    match mode
    case Disable => DisableForeignKeysException(message)
    case Enable => EnableForeignKeysException(message)
  }

  /** What the `catch` block puts in front of the caught message. */
  function Label(mode: Toggle): string {
    match mode
    case Disable => "Error disabling foreign keys: "
    case Enable => "Error enabling foreign keys: "
  }

  /** The exception the operation lets escape when something inside its
      `try` threw `inner`. */
  function Raised(mode: Toggle, inner: string): Exception {
    PlainException(Builder(mode, Some(Label(mode) + inner)))
  }

  // ---------------------------------------------------------------------
  // The calls made, and how they end

  /** What was thrown inside the `try`: a raise by the driver, or the
      operation's own throw of the builder's default text after the driver
      returned false (a falsy query result, an `exec` returning false). */
  datatype Failure = Raise(message: string) | Refused

  /** The message of what was thrown. */
  function Inner(mode: Toggle, f: Failure): string {
    match f
    case Raise(m) => m
    case Refused => Builder(mode, None)
  }

  /** What the operation returns given what was thrown inside its `try`,
      if anything. */
  function Reported(mode: Toggle, failure: Option<Failure>): Result<Unit, Exception> {
    match failure
    case None => Ok(Unit)
    case Some(f) => Err(Raised(mode, Inner(mode, f)))
  }

  /** The escaping exception is framed by the foreign-key builder and
      carries the caught message behind the label. */
  lemma RaisedCarries(mode: Toggle, inner: string)
    ensures Raised(mode, inner).PlainException?
    ensures Framed(Raised(mode, inner).message)
    ensures mode == Disable ==>
      TextOf(Raised(mode, inner).message, "SQLServer::disableForeignKeys()") == "Error disabling foreign keys: " + inner
    ensures mode == Enable ==>
      TextOf(Raised(mode, inner).message, "SQLServer::enableForeignKeys()") == "Error enabling foreign keys: " + inner
  {
    ForeignKeyBuildersText(Some(Label(mode) + inner));
  }

  /** The calls made and what was thrown, if anything. */
  datatype Outcome = Outcome(calls: seq<Command>, failure: Option<Failure>)

  /** A driver raise as a failure. */
  function Raising(a: Answer): Option<Failure> {
    match a.error
    case None => None
    case Some(m) => Some(Raise(m))
  }

  /** One `exec` of the fallback loop fails when it raises, and when it
      returns false. */
  function StepFailure(a: Answer): Option<Failure> {
    if a.error.Some? then Raising(a)
    else if !a.success then Some(Refused)
    else None
  }

  /** The `exec` at log position `p` goes through. */
  predicate Succeeds(answer: nat -> Answer, p: nat) {
    StepFailure(answer(p)).None?
  }

  function ExecAll(texts: seq<string>): (r: seq<Command>)
    ensures |r| == |texts|
    ensures forall j :: 0 <= j < |texts| ==> r[j] == Exec(texts[j])
  {
    seq(|texts|, j requires 0 <= j < |texts| => Exec(texts[j]))
  }

  /** The fallback loop over `texts`, issued from log position `start`:
      one `exec` per statement, stopping at the first that fails. */
  function Sweep(answer: nat -> Answer, start: nat, texts: seq<string>): Outcome
    decreases |texts|
  {
    if texts == [] then Outcome([], None)
    else
      var f := StepFailure(answer(start));
      if f.Some? then Outcome([Exec(texts[0])], f)
      else
        var rest := Sweep(answer, start + 1, texts[1..]);
        Outcome([Exec(texts[0])] + rest.calls, rest.failure)
  }

  /** Executing a non-empty list is executing its head, then its tail. */
  lemma ExecAllCons(texts: seq<string>)
    requires texts != []
    ensures ExecAll(texts) == [Exec(texts[0])] + ExecAll(texts[1..])
  {
  }

  /** A loop that reports no failure executed every statement, and each
      went through. */
  lemma {:induction false} SweepComplete(answer: nat -> Answer, start: nat, texts: seq<string>)
    decreases |texts|
    requires Sweep(answer, start, texts).failure.None?
    ensures Sweep(answer, start, texts).calls == ExecAll(texts)
    ensures forall p :: start <= p < start + |texts| ==> Succeeds(answer, p)
  {
    if texts != [] {
      SweepComplete(answer, start + 1, texts[1..]);
      ExecAllCons(texts);
    }
  }

  /** A loop that reports a failure stopped right after the statement at
      `k`, whose failure it reports, every statement before it having gone
      through. */
  lemma {:induction false} SweepStops(answer: nat -> Answer, start: nat, texts: seq<string>) returns (k: nat)
    decreases |texts|
    requires Sweep(answer, start, texts).failure.Some?
    ensures k < |texts|
    ensures Sweep(answer, start, texts).calls == ExecAll(texts[..k + 1])
    ensures Sweep(answer, start, texts).failure == StepFailure(answer(start + k))
    ensures forall p :: start <= p < start + k ==> Succeeds(answer, p)
  {
    if !Succeeds(answer, start) {
      k := 0;
      assert ExecAll(texts[..1]) == [Exec(texts[0])];
    } else {
      var k' := SweepStops(answer, start + 1, texts[1..]);
      k := k' + 1;
      assert texts[1..][..k' + 1] == texts[1..k + 1];
      ExecAllCons(texts[..k + 1]);
      assert texts[..k + 1][1..] == texts[1..k + 1];
    }
  }

  /** Conversely, when every statement goes through, all are executed and
      nothing is reported. */
  lemma {:induction false} SweepRunsThrough(answer: nat -> Answer, start: nat, texts: seq<string>)
    decreases |texts|
    requires forall p :: start <= p < start + |texts| ==> Succeeds(answer, p)
    ensures Sweep(answer, start, texts) == Outcome(ExecAll(texts), None)
  {
    if texts != [] {
      assert Succeeds(answer, start);
      SweepRunsThrough(answer, start + 1, texts[1..]);
      ExecAllCons(texts);
    }
  }

  /** Conversely, the first statement that fails ends the loop, and its
      failure is reported. */
  lemma {:induction false} SweepStopsAt(answer: nat -> Answer, start: nat, texts: seq<string>, k: nat)
    decreases k
    requires k < |texts| && !Succeeds(answer, start + k)
    requires forall p :: start <= p < start + k ==> Succeeds(answer, p)
    ensures Sweep(answer, start, texts) == Outcome(ExecAll(texts[..k + 1]), StepFailure(answer(start + k)))
  {
    if k == 0 {
      assert ExecAll(texts[..1]) == [Exec(texts[0])];
    } else {
      assert Succeeds(answer, start);
      SweepStopsAt(answer, start + 1, texts[1..], k - 1);
      assert start + 1 + (k - 1) == start + k;
      assert texts[1..][..k] == texts[1..k + 1];
      ExecAllCons(texts[..k + 1]);
      assert texts[..k + 1][1..] == texts[1..k + 1];
    }
  }

  /** The whole operation issued from log position `start` on a connection
      answering `answer`, with `sql` its every-table statements. */
  function ToggleRun(answer: nat -> Answer, start: nat, mode: Toggle, sql: AllTables, tables: seq<string>): Outcome {
    if tables != [] then Outcome([Exec(Joined(mode, tables))], Raising(answer(start)))
    else
      var a := answer(start);
      var first := [Exec(sql.forEach)];
      if a.error.Some? then Outcome(first, Raising(a))
      else if a.success then Outcome(first, None)
      else
        var fallback := FallbackRun(answer, start + 1, sql.fallback);
        Outcome(first + fallback.calls, fallback.failure)
  }

  /** The every-table path once the procedure call has returned false: the
      fallback query, the fetch of its column, and the loop. */
  function FallbackRun(answer: nat -> Answer, start: nat, query: string): Outcome {
    var q := answer(start);
    var second := [Query(query)];
    if q.error.Some? then Outcome(second, Raising(q))
    else if !q.success then Outcome(second, Some(Refused))
    else
      var f := answer(start + 1);
      var third := second + [FetchColumn];
      if f.error.Some? then Outcome(third, Raising(f))
      else
        var sweep := Sweep(answer, start + 2, f.texts);
        Outcome(third + sweep.calls, sweep.failure)
  }

  /** Listed tables get one batch and nothing else, whatever the batch
      returns: only a raise fails the operation. */
  lemma ListedTablesOneBatch(answer: nat -> Answer, start: nat, mode: Toggle, sql: AllTables, tables: seq<string>)
    requires tables != []
    ensures ToggleRun(answer, start, mode, sql, tables).calls == [Exec(Joined(mode, tables))]
    ensures ToggleRun(answer, start, mode, sql, tables).failure.Some? <==> answer(start).error.Some?
  {
  }

  /** The fallback query is issued exactly when no table is listed and the
      procedure call returned false without raising. */
  lemma FallbackOnlyAfterFalse(answer: nat -> Answer, start: nat, mode: Toggle, sql: AllTables, tables: seq<string>)
    ensures Query(sql.fallback) in ToggleRun(answer, start, mode, sql, tables).calls <==>
      tables == [] && answer(start).error.None? && !answer(start).success
  {
    var o := ToggleRun(answer, start, mode, sql, tables);
    if tables == [] && answer(start).error.None? && !answer(start).success {
      assert o.calls[1] == Query(sql.fallback);
    } else if tables == [] {
      assert o.calls == [Exec(sql.forEach)];
    } else {
      assert o.calls == [Exec(Joined(mode, tables))];
    }
  }

  /** When the fallback reaches its loop, it executes the fetched
      statements in order: all of them when nothing fails, otherwise up to
      and including the first that fails. */
  lemma FallbackExecutesFetched(answer: nat -> Answer, start: nat, query: string) returns (k: nat)
    requires answer(start).error.None? && answer(start).success
    requires answer(start + 1).error.None?
    ensures var o := FallbackRun(answer, start, query);
      var texts := answer(start + 1).texts;
      o.calls[..2] == [Query(query), FetchColumn] &&
      (o.failure.None? ==> o.calls[2..] == ExecAll(texts)) &&
      (o.failure.Some? ==> k < |texts| && o.calls[2..] == ExecAll(texts[..k + 1]))
  {
    var texts := answer(start + 1).texts;
    var o := FallbackRun(answer, start, query);
    var sweep := Sweep(answer, start + 2, texts);
    assert o.calls == [Query(query), FetchColumn] + sweep.calls;
    assert o.calls[2..] == sweep.calls;
    k := 0;
    if sweep.failure.None? {
      SweepComplete(answer, start + 2, texts);
    } else {
      k := SweepStops(answer, start + 2, texts);
    }
  }

  // ---------------------------------------------------------------------
  // The operations over an open connection

  /** The `foreach` that builds the batch for the listed tables. */
  method JoinTables(mode: Toggle, tables: seq<string>) returns (text: string)
    ensures text == Joined(mode, tables)
  {
    text := "";
    for i := 0 to |tables|
      invariant text == Concat(Statements(mode, tables[..i]))
    {
      var done := Statements(mode, tables[..i]);
      var step := TableSql(mode, tables[i]);
      assert Statements(mode, tables[..i + 1]) == done + [step];
      assert (done + [step])[..|done|] == done;
      text := text + step;
    }
    assert tables[..|tables|] == tables;
  }

  /** The fallback loop: executes the fetched statements in order and
      stops at the first that raises or returns false. */
  method ExecEach(pdo: Connection, texts: seq<string>) returns (failure: Option<Failure>)
    modifies pdo
    ensures var o := Sweep(pdo.answer, |old(pdo.log)|, texts);
      pdo.log == old(pdo.log) + o.calls && failure == o.failure
  {
    ghost var start := |pdo.log|;
    var i := 0;
    while i < |texts|
      invariant 0 <= i <= |texts|
      invariant pdo.log == old(pdo.log) + ExecAll(texts[..i])
      invariant forall p :: start <= p < start + i ==> Succeeds(pdo.answer, p)
    {
      var a := pdo.Call(Exec(texts[i]));
      assert ExecAll(texts[..i]) + [Exec(texts[i])] == ExecAll(texts[..i + 1]);
      var f := StepFailure(a);
      if f.Some? {
        SweepStopsAt(pdo.answer, start, texts, i);
        return f;
      }
      i := i + 1;
    }
    SweepRunsThrough(pdo.answer, start, texts);
    assert texts[..i] == texts;
    return None;
  }

  /** The fallback query, the fetch, and the loop. */
  method Fallback(pdo: Connection, query: string) returns (failure: Option<Failure>)
    modifies pdo
    ensures var o := FallbackRun(pdo.answer, |old(pdo.log)|, query);
      pdo.log == old(pdo.log) + o.calls && failure == o.failure
  {
    var q := pdo.Call(Query(query));
    if q.error.Some? {
      return Raising(q);
    }
    if !q.success {
      return Some(Refused);
    }
    var f := pdo.Call(FetchColumn);
    if f.error.Some? {
      return Raising(f);
    }
    failure := ExecEach(pdo, f.texts);
  }

  /** The body of the `try` of `disableForeignKeys($tables)` /
      `enableForeignKeys($tables)` on the open connection `pdo`: the calls
      it makes, and what it throws, if anything. */
  method Switch(pdo: Connection, mode: Toggle, sql: AllTables, tables: seq<string>) returns (failure: Option<Failure>)
    modifies pdo
    ensures var o := ToggleRun(pdo.answer, |old(pdo.log)|, mode, sql, tables);
      pdo.log == old(pdo.log) + o.calls && failure == o.failure
  {
    if tables != [] {
      var text := JoinTables(mode, tables);
      var a := pdo.Call(Exec(text));
      return Raising(a);
    }
    var a := pdo.Call(Exec(sql.forEach));
    if a.error.Some? {
      return Raising(a);
    }
    if a.success {
      return None;
    }
    failure := Fallback(pdo, sql.fallback);
  }

  /** The deprecated `noCheck`/`check` wrappers catch what the operation
      threw and wrap its message once more. */
  function Rewrapped(mode: Toggle, r: Result<Unit, Exception>): Result<Unit, Exception> {
    match r
    case Ok(u) => Ok(u)
    case Err(e) => Err(Raised(mode, e.message))
  }

  /** A failure seen through `noCheck`/`check` carries the operation's own
      escaping message behind the label; success passes through. */
  lemma RewrappedCarries(mode: Toggle, f: Failure)
    ensures var inner := Raised(mode, Inner(mode, f)).message;
      Rewrapped(mode, Reported(mode, Some(f))) == Err(Raised(mode, inner)) &&
      (mode == Disable ==>
        TextOf(Raised(mode, inner).message, "SQLServer::disableForeignKeys()") == "Error disabling foreign keys: " + inner) &&
      (mode == Enable ==>
        TextOf(Raised(mode, inner).message, "SQLServer::enableForeignKeys()") == "Error enabling foreign keys: " + inner)
    ensures Rewrapped(mode, Reported(mode, None)) == Ok(Unit)
  {
    RaisedCarries(mode, Raised(mode, Inner(mode, f)).message);
  }

  /** `disableForeignKeys($tables)` on the open connection `pdo`. */
  method DisableForeignKeys(pdo: Connection, tables: seq<string>) returns (r: Result<Unit, Exception>)
    modifies pdo
    ensures var o := ToggleRun(pdo.answer, |old(pdo.log)|, Disable, AllTablesSql(Disable), tables);
      pdo.log == old(pdo.log) + o.calls && r == Reported(Disable, o.failure)
  {
    var failure := Switch(pdo, Disable, AllTablesSql(Disable), tables);
    r := Reported(Disable, failure);
  }

  /** `enableForeignKeys($tables)` on the open connection `pdo`. */
  method EnableForeignKeys(pdo: Connection, tables: seq<string>) returns (r: Result<Unit, Exception>)
    modifies pdo
    ensures var o := ToggleRun(pdo.answer, |old(pdo.log)|, Enable, AllTablesSql(Enable), tables);
      pdo.log == old(pdo.log) + o.calls && r == Reported(Enable, o.failure)
  {
    var failure := Switch(pdo, Enable, AllTablesSql(Enable), tables);
    r := Reported(Enable, failure);
  }

  /** `noCheck($tables)`. */
  method NoCheck(pdo: Connection, tables: seq<string>) returns (r: Result<Unit, Exception>)
    modifies pdo
    ensures var o := ToggleRun(pdo.answer, |old(pdo.log)|, Disable, AllTablesSql(Disable), tables);
      pdo.log == old(pdo.log) + o.calls && r == Rewrapped(Disable, Reported(Disable, o.failure))
  {
    var inner := DisableForeignKeys(pdo, tables);
    r := Rewrapped(Disable, inner);
  }

  /** `check($tables)`. */
  method Check(pdo: Connection, tables: seq<string>) returns (r: Result<Unit, Exception>)
    modifies pdo
    ensures var o := ToggleRun(pdo.answer, |old(pdo.log)|, Enable, AllTablesSql(Enable), tables);
      pdo.log == old(pdo.log) + o.calls && r == Rewrapped(Enable, Reported(Enable, o.failure))
  {
    var inner := EnableForeignKeys(pdo, tables);
    r := Rewrapped(Enable, inner);
  }
}
