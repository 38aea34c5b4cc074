/** src/Traits/Execute.php: runs the statement of one query against an open
    connection. Every `exec*` operation is specified by the plan of driver
    calls it makes when nothing raises (optionally bracketed by disabling and
    re-enabling the check constraints of the tables involved); the calls
    actually made are that plan cut after the first call that raises, and
    any raise is rewrapped as an SQLServerException with an
    operation-specific prefix. */
module Execute {
  import opened Wrappers
  import opened PhpStrings
  import opened PhpValues
  import opened Exceptions
  import opened Utilities
  import opened StatementsValidator
  import opened Driver

  const SelectPrefix := "Error executing SQL Select Query: "
  const UpdatePrefix := "Error executing SQL Update Query: "
  const InsertPrefix := "Error executing SQL Insert Query: "
  const DeletePrefix := "Error executing SQL Delete Query: "
  const ProcedurePrefix := "Error executing SQL Store Procedure Query: "
  const TransactionalPrefix := "Error executing SQL Transactional Store Procedure Query: "

  /** The operation names `execGeneral` dispatches on. */
  const Operations := ["select", "update", "insert", "insert_get_id", "delete",
                       "execute_procedure", "execute_transactional_procedure"]

  // ---------------------------------------------------------------------
  // Binding

  /** `strpos($statement, ":$key") !== false`. */
  predicate Placeholder(statement: string, k: Key) {
    Contains(statement, ":" + KeyText(k))
  }

  /** The `bindParam` calls made for `entries`, in order: one per entry
      whose key appears as a placeholder in the statement. */
  function Binds(statement: string, entries: seq<Entry>): (r: seq<Command>)
    ensures |r| <= |entries|
  {
    if entries == [] then []
    else
      var e := entries[|entries| - 1];
      Binds(statement, entries[..|entries| - 1]) +
        (if Placeholder(statement, e.key) then [Bind(e.key, e.value)] else [])
  }

  /** Binding only binds. */
  lemma {:induction false} BindsOnlyBind(statement: string, entries: seq<Entry>)
    ensures forall j :: 0 <= j < |Binds(statement, entries)| ==> Binds(statement, entries)[j].Bind?
  {
    if entries != [] {
      BindsOnlyBind(statement, entries[..|entries| - 1]);
    }
  }

  /** An entry is bound exactly when its key is a placeholder of the
      statement; nothing else is bound. */
  lemma {:induction false} BindsSpec(statement: string, entries: seq<Entry>, k: Key, v: Value)
    ensures Bind(k, v) in Binds(statement, entries) <==> Entry(k, v) in entries && Placeholder(statement, k)
  {
    if entries != [] {
      var init := entries[..|entries| - 1];
      var e := entries[|entries| - 1];
      BindsSpec(statement, init, k, v);
      assert entries == init + [e];
      assert Entry(k, v) in entries <==> Entry(k, v) in init || Entry(k, v) == e;
    }
  }

  /** The placeholder test is a substring test: a key also counts as present
      when it is only the beginning of a longer placeholder, so `:idx`
      causes a key `id` to be bound. */
  lemma PlaceholderPrefixAlsoMatches(statement: string, name: string, suffix: string)
    requires Contains(statement, ":" + name + suffix)
    ensures Placeholder(statement, StrKey(name))
  {
    ContainsIff(statement, ":" + name + suffix);
    var i: nat :| OccursAt(statement, ":" + name + suffix, i);
    assert statement[i..i + |":" + name|] == (":" + name + suffix)[..|":" + name|];
    assert OccursAt(statement, ":" + name, i);
    ContainsIff(statement, ":" + name);
  }

  /** The calls made for one element of a batch insert: its own entries
      bound (an element that is not an array binds nothing), then
      `execute()`. */
  function ElementBinds(statement: string, element: Value): seq<Command> {
    if element.Arr? then Binds(statement, element.entries) else []
  }

  /** The calls of a batch insert over `elements`. */
  function Batch(statement: string, elements: seq<Entry>): (r: seq<Command>)
    ensures |r| >= |elements|
  {
    if elements == [] then []
    else
      var init := elements[..|elements| - 1];
      Batch(statement, init) + ElementBinds(statement, elements[|elements| - 1].value) + [Execute]
  }

  lemma {:induction false} BatchAppend(statement: string, xs: seq<Entry>, ys: seq<Entry>)
    decreases |ys|
    ensures Batch(statement, xs + ys) == Batch(statement, xs) + Batch(statement, ys)
  {
    if ys == [] {
      assert xs + ys == xs;
    } else {
      var init := ys[..|ys| - 1];
      var tail := ElementBinds(statement, ys[|ys| - 1].value) + [Execute];
      calc {
        Batch(statement, xs + ys);
      == { LastOfAppend(xs, ys); }
        Batch(statement, xs + init) + tail;
      == { BatchAppend(statement, xs, init); }
        Batch(statement, xs) + Batch(statement, init) + tail;
      == { Associate(Batch(statement, xs), Batch(statement, init), tail); }
        Batch(statement, xs) + (Batch(statement, init) + tail);
      }
    }
  }

  /** Dropping the last element of `xs + ys`, for a non-empty `ys`, drops
      the last element of `ys`. */
  lemma LastOfAppend<T>(xs: seq<T>, ys: seq<T>)
    requires ys != []
    ensures (xs + ys)[..|xs + ys| - 1] == xs + ys[..|ys| - 1]
    ensures (xs + ys)[|xs + ys| - 1] == ys[|ys| - 1]
  {
  }

  lemma Associate<T>(a: seq<T>, b: seq<T>, c: seq<T>)
    ensures a + b + c == a + (b + c)
  {
  }

  /** What one batch element contributes to `insertGetId`'s list: the last
      insert id when its `execute()` returned true and affected rows, else
      null. */
  function IdOf(a: Answer): Value {
    if a.success && a.count > 0 then a.id else Null
  }

  /** Where the `execute()` of the i-th element sits in a batch: right after
      the calls of the elements before it and its own binds. */
  function ExecuteAt(statement: string, elements: seq<Entry>, i: nat): nat
    requires i < |elements|
  {
    |Batch(statement, elements[..i])| + |ElementBinds(statement, elements[i].value)|
  }

  /** A batch executes once per element, each after that element's binds. */
  lemma BatchExecutesEachElement(statement: string, elements: seq<Entry>, i: nat)
    requires i < |elements|
    ensures ExecuteAt(statement, elements, i) < |Batch(statement, elements)|
    ensures Batch(statement, elements)[ExecuteAt(statement, elements, i)] == Execute
  {
    var at := ExecuteAt(statement, elements, i);
    var pre := Batch(statement, elements[..i + 1]);
    BatchSnoc(statement, elements, i);
    assert pre[at] == Execute;
    IndexInPrefix(pre, Batch(statement, elements[i + 1..]), at);
  }

  lemma IndexInPrefix<T>(p: seq<T>, q: seq<T>, k: nat)
    requires k < |p|
    ensures (p + q)[k] == p[k]
  {
  }

  /** The ids a batch `insertGetId` collects when the batch runs from log
      position `start`: one per element, read from the answer to that
      element's `execute()`. */
  function Ids(answer: nat -> Answer, start: nat, statement: string, elements: seq<Entry>): (r: seq<Value>)
    ensures |r| == |elements|
  {
    seq(|elements|, i requires 0 <= i < |elements| => IdOf(answer(start + ExecuteAt(statement, elements, i))))
  }

  /** The ids of a batch grow by one per element. */
  lemma IdsSnoc(answer: nat -> Answer, start: nat, statement: string, elements: seq<Entry>, i: nat)
    requires i < |elements|
    ensures Ids(answer, start, statement, elements[..i + 1]) ==
      Ids(answer, start, statement, elements[..i]) + [IdOf(answer(start + ExecuteAt(statement, elements, i)))]
  {
    var pre := elements[..i + 1];
    var grown := Ids(answer, start, statement, pre);
    var before := Ids(answer, start, statement, elements[..i]);
    forall j | 0 <= j <= i
      ensures grown[j] == (before + [IdOf(answer(start + ExecuteAt(statement, elements, i)))])[j]
    {
      assert pre[..j] == elements[..j];
      assert pre[j] == elements[j];
      if j < i {
        assert elements[..i][..j] == elements[..j];
        assert elements[..i][j] == elements[j];
      }
    }
  }

  // ---------------------------------------------------------------------
  // Constraint bracketing

  function NoCheckSql(table: string): string {
    "ALTER TABLE " + table + " NOCHECK CONSTRAINT ALL;"
  }

  function CheckSql(table: string): string {
    "ALTER TABLE " + table + " CHECK CONSTRAINT ALL;"
  }

  /** The tables whose constraints are switched off around a write: none
      unless constraints handling was asked for; the listed tables if any;
      otherwise the name `getNameTable` finds in the statement, unless that
      is PHP-empty. */
  function ConstraintTables(constraints: bool, tables: seq<string>, statement: string): (r: seq<string>)
    ensures !constraints ==> r == []
    ensures constraints && tables != [] ==> r == tables
    ensures constraints && tables == [] ==>
      (r == [] <==> IsEmptyString(GetNameTable(statement))) &&
      forall j :: 0 <= j < |r| ==> r[j] == GetNameTable(statement)
  {
    if !constraints then []
    else if tables != [] then tables
    else
      var name := GetNameTable(statement);
      if IsEmptyString(name) then [] else [name]
  }

  function NoCheckPlan(tables: seq<string>): (r: seq<Command>)
    ensures |r| == |tables|
    ensures forall j :: 0 <= j < |tables| ==> r[j] == Exec(NoCheckSql(tables[j]))
  {
    seq(|tables|, j requires 0 <= j < |tables| => Exec(NoCheckSql(tables[j])))
  }

  function CheckPlan(tables: seq<string>): (r: seq<Command>)
    ensures |r| == |tables|
    ensures forall j :: 0 <= j < |tables| ==> r[j] == Exec(CheckSql(tables[j]))
  {
    seq(|tables|, j requires 0 <= j < |tables| => Exec(CheckSql(tables[j])))
  }

  // ---------------------------------------------------------------------
  // Plans

  /** Prepare, then, when `isValidParams` accepts the parameters, the binds
      and `tail`; a rejection stops the plan after the prepare. */
  function Prepared(statement: string, params: seq<Entry>, tail: seq<Command>): seq<Command> {
    if IsValidParams(params).Ok? then [Prepare(statement)] + Binds(statement, params) + tail
    else [Prepare(statement)]
  }

  /** `execSelect` and `execProcedure`. */
  function QueryPlan(statement: string, params: seq<Entry>): seq<Command> {
    Prepared(statement, params, [Execute] + [FetchAll])
  }

  /** `execTransactionalProcedure`. */
  function TransactionalPlan(statement: string, params: seq<Entry>): seq<Command> {
    Prepared(statement, params, [Execute] + [CloseCursor])
  }

  /** The write of `execUpdate`, between the constraint brackets. */
  function UpdateBody(statement: string, params: seq<Entry>): seq<Command> {
    Prepared(statement, params, [Execute])
  }

  /** Prepare, bind and execute, with no parameter check. */
  function BoundBody(statement: string, params: seq<Entry>): seq<Command> {
    [Prepare(statement)] + Binds(statement, params) + [Execute]
  }

  /** The write of `execInsert` and `execInsertGetId`: a plain `exec`
      without parameters, a batch when some parameter is an array, one
      execute otherwise. */
  function InsertBody(statement: string, params: seq<Entry>): (r: seq<Command>)
    ensures r != []
  {
    if params == [] then [Exec(statement)]
    else if HasArrayElement(Arr(params)) then [Prepare(statement)] + Batch(statement, params)
    else BoundBody(statement, params)
  }

  /** The write of `execDelete`. */
  function DeleteBody(statement: string, params: seq<Entry>): (r: seq<Command>)
    ensures r != []
  {
    if params == [] then [Exec(statement)] else BoundBody(statement, params)
  }

  /** The CHECK bracket of `execUpdate`: not reached when the parameter
      check fails. */
  function UpdatePost(tables: seq<string>, params: seq<Entry>): seq<Command> {
    if IsValidParams(params).Ok? then CheckPlan(tables) else []
  }

  // ---------------------------------------------------------------------
  // How the plans go

  lemma Regroup<T>(l: seq<T>, a: seq<T>, b: seq<T>, c: seq<T>, d: seq<T>)
    ensures l + a + b == l + (a + b)
    ensures l + a + b + c == l + (a + b + c)
    ensures l + a + b + c + d == l + (a + b + (c + d))
    ensures l + a + b + c + d == l + (a + (b + c) + d)
  {
  }

  /** A plan opened by a call that can raise, then, when `valid`, binds and
      a tail: when the opening call raises, nothing else is issued. */
  lemma GuardedRaisesFirst(answer: nat -> Answer, start: nat, c0: Command, b: seq<Command>, tail: seq<Command>,
                           valid: bool, plan: seq<Command>)
    requires CanFail(c0) && answer(start).error.Some?
    requires plan == if valid then [c0] + b + tail else [c0]
    ensures FirstError(answer, start, plan) == Some(0)
    ensures Issued(answer, start, plan) == [c0]
    ensures ErrorOf(answer, start, plan) == answer(start).error
  {
    OneCall(answer, start, c0);
    if valid {
      FirstErrorAppend(answer, start, [c0], b + tail);
      assert plan == [c0] + (b + tail);
      StopsAt(answer, start, plan, 0);
      assert plan[..1] == [c0];
    }
  }

  /** The same plan when the check rejects: only the opening call. */
  lemma GuardedRejected(answer: nat -> Answer, start: nat, c0: Command, b: seq<Command>, tail: seq<Command>,
                        valid: bool, plan: seq<Command>)
    requires CanFail(c0) && answer(start).error.None? && !valid
    requires plan == if valid then [c0] + b + tail else [c0]
    ensures FirstError(answer, start, plan) == None
    ensures Issued(answer, start, plan) == [c0]
    ensures ErrorOf(answer, start, plan) == None
  {
    OneCall(answer, start, c0);
  }

  /** The same plan when the opening call returns and the check accepts:
      the binds never raise, so it goes as its tail goes. */
  lemma GuardedRuns(answer: nat -> Answer, start: nat, c0: Command, b: seq<Command>, tail: seq<Command>,
                    valid: bool, plan: seq<Command>)
    requires CanFail(c0) && answer(start).error.None? && valid
    requires forall j :: 0 <= j < |b| ==> b[j].Bind?
    requires plan == if valid then [c0] + b + tail else [c0]
    ensures FirstError(answer, start, plan) == Plus(1 + |b|, FirstError(answer, start + 1 + |b|, tail))
    ensures Issued(answer, start, plan) == [c0] + b + Issued(answer, start + 1 + |b|, tail)
    ensures ErrorOf(answer, start, plan) == ErrorOf(answer, start + 1 + |b|, tail)
  {
    var p := [c0];
    OneCall(answer, start, c0);
    BindsNeverFail(answer, start + 1, b);
    IssuedAppend(answer, start, p, b);
    assert FirstError(answer, start, p + b) == None;
    assert start + |p + b| == start + 1 + |b|;
    IssuedAppend(answer, start, p + b, tail);
  }

  /** Where such a plan first raises, in all three cases at once. */
  lemma GuardedFirstError(answer: nat -> Answer, start: nat, c0: Command, b: seq<Command>, tail: seq<Command>,
                          valid: bool, plan: seq<Command>)
    requires CanFail(c0)
    requires forall j :: 0 <= j < |b| ==> b[j].Bind?
    requires plan == if valid then [c0] + b + tail else [c0]
    ensures FirstError(answer, start, plan) ==
      if answer(start).error.Some? then Some(0)
      else if !valid then None
      else Plus(1 + |b|, FirstError(answer, start + 1 + |b|, tail))
  {
    if answer(start).error.Some? {
      GuardedRaisesFirst(answer, start, c0, b, tail, valid, plan);
    } else if !valid {
      GuardedRejected(answer, start, c0, b, tail, valid, plan);
    } else {
      GuardedRuns(answer, start, c0, b, tail, valid, plan);
    }
  }

  /** Two calls in a row that can both raise. */
  lemma TwoCalls(answer: nat -> Answer, start: nat, c: Command, d: Command)
    requires CanFail(c) && CanFail(d)
    ensures answer(start).error.Some? ==>
      FirstError(answer, start, [c] + [d]) == Some(0) && Issued(answer, start, [c] + [d]) == [c] &&
      ErrorOf(answer, start, [c] + [d]) == answer(start).error
    ensures answer(start).error.None? && answer(start + 1).error.Some? ==>
      FirstError(answer, start, [c] + [d]) == Some(1) && Issued(answer, start, [c] + [d]) == [c] + [d] &&
      ErrorOf(answer, start, [c] + [d]) == answer(start + 1).error
    ensures answer(start).error.None? && answer(start + 1).error.None? ==>
      FirstError(answer, start, [c] + [d]) == None && Issued(answer, start, [c] + [d]) == [c] + [d] &&
      ErrorOf(answer, start, [c] + [d]) == None
  {
    OneCall(answer, start, c);
    OneCall(answer, start + 1, d);
    IssuedAppend(answer, start, [c], [d]);
  }

  /** Two calls in a row that can both raise return exactly when both
      calls do. */
  lemma TwoCallsReturn(answer: nat -> Answer, start: nat, c: Command, d: Command)
    requires CanFail(c) && CanFail(d)
    ensures FirstError(answer, start, [c] + [d]) == None <==>
      answer(start).error.None? && answer(start + 1).error.None?
  {
    TwoCalls(answer, start, c, d);
  }

  /** How a prepared plan with a two-call tail goes: it raises nowhere
      exactly when the prepare, the parameter check and both calls pass. */
  lemma PreparedTwoCalls(answer: nat -> Answer, start: nat, statement: string,
                         params: seq<Entry>, c: Command, d: Command)
    requires CanFail(c) && CanFail(d)
    ensures var plan := Prepared(statement, params, [c] + [d]);
            var b := Binds(statement, params);
            var at := start + 1 + |b|;
      && (FirstError(answer, start, plan) == None && IsValidParams(params).Ok? <==>
            answer(start).error.None? && IsValidParams(params).Ok? &&
            answer(at).error.None? && answer(at + 1).error.None?)
      && (IsValidParams(params).Ok? ==> |plan| == 1 + |b| + 2)
  {
    var b := Binds(statement, params);
    var tail := [c] + [d];
    var plan := Prepared(statement, params, tail);
    var valid := IsValidParams(params).Ok?;
    var at := start + 1 + |b|;
    BindsOnlyBind(statement, params);
    GuardedFirstError(answer, start, Prepare(statement), b, tail, valid, plan);
    TwoCallsReturn(answer, at, c, d);
  }

  /** The rows a query leaves as the response: those of its fetch, when
      every call returned and the parameters were accepted. */
  lemma QueryResponseCases(answer: nat -> Answer, start: nat, statement: string, params: seq<Entry>, previous: Value)
    ensures var b := Binds(statement, params);
            var at := start + 1 + |b|;
            var ok := answer(start).error.None? && IsValidParams(params).Ok? &&
                      answer(at).error.None? && answer(at + 1).error.None?;
      QueryResponse(answer, start, statement, params, previous) ==
        if ok then ListOf(answer(at + 1).rows) else previous
  {
    var b := Binds(statement, params);
    var plan := QueryPlan(statement, params);
    PreparedTwoCalls(answer, start, statement, params, Execute, FetchAll);
    if IsValidParams(params).Ok? {
      assert answer(start + |plan| - 1) == answer(start + 1 + |b| + 1);
    }
  }

  /** What a transactional procedure leaves as the response: what its
      `execute()` returned, once the cursor was closed. */
  lemma TransactionalResponseCases(answer: nat -> Answer, start: nat, statement: string, params: seq<Entry>,
                                   previous: Value)
    ensures var b := Binds(statement, params);
            var at := start + 1 + |b|;
            var ok := answer(start).error.None? && IsValidParams(params).Ok? &&
                      answer(at).error.None? && answer(at + 1).error.None?;
      TransactionalResponse(answer, start, statement, params, previous) ==
        if ok then Bool(answer(at).success) else previous
  {
    var b := Binds(statement, params);
    var plan := TransactionalPlan(statement, params);
    PreparedTwoCalls(answer, start, statement, params, Execute, CloseCursor);
    if IsValidParams(params).Ok? {
      assert answer(start + |plan| - 2) == answer(start + 1 + |b|);
    }
  }

  /** How a prepare-bind-execute body goes. */
  lemma BoundCases(answer: nat -> Answer, start: nat, statement: string, params: seq<Entry>)
    ensures var body := BoundBody(statement, params);
            var b := Binds(statement, params);
            var at := start + 1 + |b|;
      && (answer(start).error.Some? ==>
            FirstError(answer, start, body) == Some(0) && Issued(answer, start, body) == [Prepare(statement)])
      && (answer(start).error.None? && answer(at).error.Some? ==>
            FirstError(answer, start, body) == Some(1 + |b|) && Issued(answer, start, body) == body)
      && (answer(start).error.None? && answer(at).error.None? ==>
            FirstError(answer, start, body) == None && Issued(answer, start, body) == body)
  {
    var b := Binds(statement, params);
    var p := [Prepare(statement)];
    OneCall(answer, start, Prepare(statement));
    OneCall(answer, start + 1 + |b|, Execute);
    IssuedAppend(answer, start, p + b, [Execute]);
    IssuedAppend(answer, start, p, b);
    BindsOnlyBind(statement, params);
    BindsNeverFail(answer, start + 1, b);
  }

  /** How a batch body goes: the prepare, then the batch. */
  lemma BatchBodyCases(answer: nat -> Answer, start: nat, statement: string, params: seq<Entry>)
    ensures var body := [Prepare(statement)] + Batch(statement, params);
      && (answer(start).error.Some? ==>
            FirstError(answer, start, body) == Some(0) && Issued(answer, start, body) == [Prepare(statement)])
      && (answer(start).error.None? ==>
            FirstError(answer, start, body) == Plus(1, FirstError(answer, start + 1, Batch(statement, params))) &&
            Issued(answer, start, body) == [Prepare(statement)] + Issued(answer, start + 1, Batch(statement, params)) &&
            ErrorOf(answer, start, body) == ErrorOf(answer, start + 1, Batch(statement, params)))
  {
    OneCall(answer, start, Prepare(statement));
    IssuedAppend(answer, start, [Prepare(statement)], Batch(statement, params));
  }

  /** A turn that binds after calls that all returned, then executes and
      raises: the plan stops at that execute, with its raise. */
  lemma TurnRaises(answer: nat -> Answer, start: nat, done: seq<Command>, binds: seq<Command>, rest: seq<Command>)
    requires FirstError(answer, start, done) == None
    requires forall j :: 0 <= j < |binds| ==> binds[j].Bind?
    requires answer(start + |done| + |binds|).error.Some?
    ensures Issued(answer, start, done + binds + [Execute] + rest) == done + binds + [Execute]
    ensures ErrorOf(answer, start, done + binds + [Execute] + rest) == answer(start + |done| + |binds|).error
  {
    TurnReturnsOrRaises(answer, start, done, binds);
    assert answer(start + |done + binds|) == answer(start + |done| + |binds|);
    PlanStops(answer, start, done + binds + [Execute], rest, |done + binds|);
  }

  /** A plan whose last call is its first raise stops there, whatever
      follows it. */
  lemma PlanStops(answer: nat -> Answer, start: nat, turn: seq<Command>, rest: seq<Command>, k: nat)
    requires k + 1 == |turn|
    requires FirstError(answer, start, turn) == Some(k)
    ensures Issued(answer, start, turn + rest) == turn
    ensures ErrorOf(answer, start, turn + rest) == answer(start + k).error
  {
    FirstErrorAppend(answer, start, turn, rest);
    StopsAt(answer, start, turn + rest, k);
    assert (turn + rest)[..k + 1] == turn;
  }

  /** A turn that binds after calls that all returned, then executes and
      returns: nothing in the plan so far raised. */
  lemma TurnReturns(answer: nat -> Answer, start: nat, done: seq<Command>, binds: seq<Command>)
    requires FirstError(answer, start, done) == None
    requires forall j :: 0 <= j < |binds| ==> binds[j].Bind?
    requires answer(start + |done| + |binds|).error.None?
    ensures FirstError(answer, start, done + binds + [Execute]) == None
  {
    TurnReturnsOrRaises(answer, start, done, binds);
    assert answer(start + |done + binds|) == answer(start + |done| + |binds|);
  }

  /** The execute of a turn is the only call of it that can raise. */
  lemma TurnReturnsOrRaises(answer: nat -> Answer, start: nat, done: seq<Command>, binds: seq<Command>)
    requires FirstError(answer, start, done) == None
    requires forall j :: 0 <= j < |binds| ==> binds[j].Bind?
    ensures FirstError(answer, start, done + binds + [Execute]) ==
      if answer(start + |done + binds|).error.Some? then Some(|done + binds|) else None
  {
    BindsNeverFail(answer, start + |done|, binds);
    FirstErrorAppend(answer, start, done, binds);
    FirstErrorAppend(answer, start, done + binds, [Execute]);
    OneCall(answer, start + |done + binds|, Execute);
  }

  lemma BatchSnoc(statement: string, elements: seq<Entry>, i: nat)
    requires i < |elements|
    ensures Batch(statement, elements[..i + 1]) ==
      Batch(statement, elements[..i]) + ElementBinds(statement, elements[i].value) + [Execute]
    ensures Batch(statement, elements) == Batch(statement, elements[..i + 1]) + Batch(statement, elements[i + 1..])
  {
    assert elements[..i + 1][..i] == elements[..i];
    BatchAppend(statement, elements[..i + 1], elements[i + 1..]);
    assert elements[..i + 1] + elements[i + 1..] == elements;
  }

  /** Where the i-th element's calls sit in a batch. */
  lemma BatchStepShape(statement: string, elements: seq<Entry>, i: nat)
    requires i < |elements|
    ensures var done := Batch(statement, elements[..i]);
            var binds := ElementBinds(statement, elements[i].value);
      && Batch(statement, elements[..i + 1]) == done + binds + [Execute]
      && Batch(statement, elements) == done + binds + [Execute] + Batch(statement, elements[i + 1..])
      && |done| + |binds| == ExecuteAt(statement, elements, i)
      && forall j :: 0 <= j < |binds| ==> binds[j].Bind?
  {
    BatchSnoc(statement, elements, i);
    if elements[i].value.Arr? {
      BindsOnlyBind(statement, elements[i].value.entries);
    }
  }

  /** A turn of the batch loop whose execute raises ends the whole batch
      there, with that raise, and the log holds the batch up to it. */
  lemma BatchStepRaises(answer: nat -> Answer, log0: seq<Command>, log: seq<Command>, statement: string,
                        elements: seq<Entry>, i: nat)
    requires i < |elements|
    requires FirstError(answer, |log0|, Batch(statement, elements[..i])) == None
    requires log == log0 + Batch(statement, elements[..i]) + ElementBinds(statement, elements[i].value) + [Execute]
    requires answer(|log| - 1).error.Some?
    ensures log == log0 + Issued(answer, |log0|, Batch(statement, elements))
    ensures ErrorOf(answer, |log0|, Batch(statement, elements)) == answer(|log| - 1).error
  {
    var done := Batch(statement, elements[..i]);
    var binds := ElementBinds(statement, elements[i].value);
    var rest := Batch(statement, elements[i + 1..]);
    BatchStepShape(statement, elements, i);
    assert answer(|log| - 1) == answer(|log0| + |done| + |binds|);
    TurnRaises(answer, |log0|, done, binds, rest);
    Regroup3(log0, done, binds, [Execute]);
  }

  lemma Regroup3<T>(l: seq<T>, a: seq<T>, b: seq<T>, c: seq<T>)
    ensures l + a + b + c == l + (a + b + c)
  {
  }

  /** A turn of the batch loop whose execute returns leaves a batch prefix
      in which nothing raised. */
  lemma BatchStepReturns(answer: nat -> Answer, log0: seq<Command>, log: seq<Command>, statement: string,
                         elements: seq<Entry>, i: nat)
    requires i < |elements|
    requires FirstError(answer, |log0|, Batch(statement, elements[..i])) == None
    requires log == log0 + Batch(statement, elements[..i]) + ElementBinds(statement, elements[i].value) + [Execute]
    requires answer(|log| - 1).error.None?
    ensures log == log0 + Batch(statement, elements[..i + 1])
    ensures FirstError(answer, |log0|, Batch(statement, elements[..i + 1])) == None
  {
    var done := Batch(statement, elements[..i]);
    var binds := ElementBinds(statement, elements[i].value);
    BatchStepShape(statement, elements, i);
    assert answer(|log| - 1) == answer(|log0| + |done| + |binds|);
    TurnReturns(answer, |log0|, done, binds);
    Regroup3(log0, done, binds, [Execute]);
  }

  /** The execute of a batch turn is the last command of the log. */
  lemma BatchStepAnswer(answer: nat -> Answer, log0: seq<Command>, log: seq<Command>, statement: string,
                        elements: seq<Entry>, i: nat)
    requires i < |elements|
    requires log == log0 + Batch(statement, elements[..i]) + ElementBinds(statement, elements[i].value) + [Execute]
    ensures |log0| + ExecuteAt(statement, elements, i) == |log| - 1
    ensures |log0| + ExecuteAt(statement, elements, i) ==
      |log0| + |Batch(statement, elements[..i])| + |ElementBinds(statement, elements[i].value)|
  {
    BatchStepShape(statement, elements, i);
  }

  /** How a write bracketed by switching constraints off and on goes. */
  lemma BracketCases(answer: nat -> Answer, start: nat, pre: seq<Command>, body: seq<Command>, post: seq<Command>)
    ensures var mid := start + |pre|;
      && (FirstError(answer, start, pre).Some? ==>
            FirstError(answer, start, pre + body).Some? &&
            FirstError(answer, start, pre + body + post) == FirstError(answer, start, pre) &&
            Issued(answer, start, pre + body + post) == Issued(answer, start, pre) &&
            ErrorOf(answer, start, pre + body + post) == ErrorOf(answer, start, pre))
      && (FirstError(answer, start, pre).None? ==>
            FirstError(answer, start, pre + body) == Plus(|pre|, FirstError(answer, mid, body)))
      && (FirstError(answer, start, pre).None? && FirstError(answer, mid, body).Some? ==>
            FirstError(answer, start, pre + body + post) == Plus(|pre|, FirstError(answer, mid, body)) &&
            Issued(answer, start, pre + body + post) == pre + Issued(answer, mid, body) &&
            ErrorOf(answer, start, pre + body + post) == ErrorOf(answer, mid, body))
      && (FirstError(answer, start, pre).None? && FirstError(answer, mid, body).None? ==>
            FirstError(answer, start, pre + body + post) ==
              Plus(|pre| + |body|, FirstError(answer, mid + |body|, post)) &&
            Issued(answer, start, pre + body + post) == pre + body + Issued(answer, mid + |body|, post) &&
            ErrorOf(answer, start, pre + body + post) == ErrorOf(answer, mid + |body|, post))
  {
    IssuedAppend(answer, start, pre, body);
    IssuedAppend(answer, start, pre + body, post);
  }

  /** A bracketed write after `log` whose write raised, after switching
      the constraints off returned. */
  lemma BracketStopsInBody(answer: nat -> Answer, log: seq<Command>, pre: seq<Command>, body: seq<Command>,
                           post: seq<Command>)
    requires FirstError(answer, |log|, pre).None?
    requires FirstError(answer, |log| + |pre|, body).Some?
    ensures log + Issued(answer, |log|, pre + body + post) == log + pre + Issued(answer, |log| + |pre|, body)
    ensures ErrorOf(answer, |log|, pre + body + post) == ErrorOf(answer, |log| + |pre|, body)
  {
    IssuedAppend(answer, |log|, pre, body);
    IssuedAppend(answer, |log|, pre + body, post);
    assert log + (pre + Issued(answer, |log| + |pre|, body)) == log + pre + Issued(answer, |log| + |pre|, body);
  }

  /** A bracketed write after `log` whose switching off and write both
      returned. */
  lemma BracketReachesPost(answer: nat -> Answer, log: seq<Command>, pre: seq<Command>, body: seq<Command>,
                           post: seq<Command>)
    requires FirstError(answer, |log|, pre).None?
    requires FirstError(answer, |log| + |pre|, body).None?
    ensures log + Issued(answer, |log|, pre + body + post) ==
      log + pre + body + Issued(answer, |log| + |pre| + |body|, post)
    ensures ErrorOf(answer, |log|, pre + body + post) == ErrorOf(answer, |log| + |pre| + |body|, post)
  {
    FirstErrorAppend(answer, |log|, pre, body);
    assert FirstError(answer, |log|, pre + body) == None;
    IssuedAppend(answer, |log|, pre + body, post);
    var rest := Issued(answer, |log| + |pre| + |body|, post);
    assert |pre + body| == |pre| + |body|;
    assert log + (pre + body + rest) == log + pre + body + rest;
  }

  /** A bracketed write after `log`: stopped by switching constraints off,
      by the write, or carried through to switching them back on. The calls
      made are written as a method makes them, phase after phase. */
  lemma BracketLog(answer: nat -> Answer, log: seq<Command>, pre: seq<Command>, body: seq<Command>,
                   post: seq<Command>)
    ensures var plan := pre + body + post;
            var l1 := log + Issued(answer, |log|, pre);
            var l2 := l1 + Issued(answer, |l1|, body);
      && (FirstError(answer, |log|, pre).Some? ==>
            log + Issued(answer, |log|, plan) == l1 &&
            ErrorOf(answer, |log|, plan) == ErrorOf(answer, |log|, pre))
      && (FirstError(answer, |log|, pre).None? && FirstError(answer, |l1|, body).Some? ==>
            log + Issued(answer, |log|, plan) == l2 &&
            ErrorOf(answer, |log|, plan) == ErrorOf(answer, |l1|, body))
      && (FirstError(answer, |log|, pre).None? && FirstError(answer, |l1|, body).None? ==>
            log + Issued(answer, |log|, plan) == l2 + Issued(answer, |l2|, post) &&
            ErrorOf(answer, |log|, plan) == ErrorOf(answer, |l2|, post))
  {
    var start := |log|;
    if FirstError(answer, start, pre).Some? {
      IssuedAppend(answer, start, pre, body);
      IssuedAppend(answer, start, pre + body, post);
    } else {
      assert Issued(answer, start, pre) == pre;
      if FirstError(answer, start + |pre|, body).Some? {
        BracketStopsInBody(answer, log, pre, body, post);
      } else {
        assert Issued(answer, start + |pre|, body) == body;
        BracketReachesPost(answer, log, pre, body, post);
      }
    }
  }

  /** A prepare-check-bind-execute write after `log`, call by call. */
  lemma {:induction false} PreparedExecuteLog(answer: nat -> Answer, log: seq<Command>, statement: string,
                                              params: seq<Entry>)
    ensures var start := |log|;
            var body := UpdateBody(statement, params);
            var p := [Prepare(statement)];
            var b := Binds(statement, params);
            var at := start + 1 + |b|;
      && (answer(start).error.Some? ==>
            FirstError(answer, start, body).Some? && log + Issued(answer, start, body) == log + p &&
            ErrorOf(answer, start, body) == answer(start).error)
      && (answer(start).error.None? && IsValidParams(params).Err? ==>
            FirstError(answer, start, body).None? && body == p)
      && (answer(start).error.None? && IsValidParams(params).Ok? && answer(at).error.Some? ==>
            FirstError(answer, start, body).Some? && log + Issued(answer, start, body) == log + p + b + [Execute] &&
            ErrorOf(answer, start, body) == answer(at).error)
      && (answer(start).error.None? && IsValidParams(params).Ok? && answer(at).error.None? ==>
            FirstError(answer, start, body).None? && body == p + b + [Execute])
  {
    var start := |log|;
    var p := [Prepare(statement)];
    var b := Binds(statement, params);
    var valid := IsValidParams(params).Ok?;
    var body := UpdateBody(statement, params);
    if answer(start).error.Some? {
      GuardedRaisesFirst(answer, start, Prepare(statement), b, [Execute], valid, body);
    } else if !valid {
      GuardedRejected(answer, start, Prepare(statement), b, [Execute], valid, body);
    } else {
      BindsOnlyBind(statement, params);
      GuardedRuns(answer, start, Prepare(statement), b, [Execute], valid, body);
      OneCall(answer, start + 1 + |b|, Execute);
      Regroup(log, p, b, [Execute], []);
    }
  }

  /** `execUpdate` sets its response once the write returned, before the
      constraints are switched back on. */
  lemma UpdateResponseCases(answer: nat -> Answer, log: seq<Command>, statement: string, params: seq<Entry>,
                            tables: seq<string>, previous: Value)
    ensures var pre := NoCheckPlan(tables);
            var body := UpdateBody(statement, params);
            var l1 := log + Issued(answer, |log|, pre);
            var l2 := l1 + Issued(answer, |l1|, body);
            var ok := FirstError(answer, |log|, pre).None? && FirstError(answer, |l1|, body).None? &&
                      IsValidParams(params).Ok?;
      UpdateResponse(answer, |log|, statement, params, tables, previous) ==
        if ok then Bool(Affected(answer(|l2| - 1))) else previous
  {
    IssuedAppend(answer, |log|, NoCheckPlan(tables), UpdateBody(statement, params));
  }

  /** A prepare-bind-execute write after `log`, call by call. */
  lemma {:induction false} BoundLog(answer: nat -> Answer, log: seq<Command>, statement: string, params: seq<Entry>)
    ensures var start := |log|;
            var body := BoundBody(statement, params);
            var p := [Prepare(statement)];
            var b := Binds(statement, params);
            var at := start + 1 + |b|;
      && (answer(start).error.Some? ==>
            log + Issued(answer, start, body) == log + p && ErrorOf(answer, start, body) == answer(start).error)
      && (answer(start).error.None? ==>
            log + Issued(answer, start, body) == log + p + b + [Execute] &&
            ErrorOf(answer, start, body) == answer(at).error)
  {
    var start := |log|;
    var p := [Prepare(statement)];
    var b := Binds(statement, params);
    BoundCases(answer, start, statement, params);
    OneCall(answer, start, Prepare(statement));
    if answer(start).error.None? {
      OneCall(answer, start + 1 + |b|, Execute);
      Regroup(log, p, b, [Execute], []);
      if answer(start + 1 + |b|).error.None? {
        assert FirstError(answer, start, BoundBody(statement, params)) == None;
      }
    }
  }

  /** The prepare of a batch write after `log`, then the batch. */
  lemma BatchLog(answer: nat -> Answer, log: seq<Command>, statement: string, params: seq<Entry>)
    ensures var start := |log|;
            var body := [Prepare(statement)] + Batch(statement, params);
            var p := [Prepare(statement)];
      && (answer(start).error.Some? ==>
            log + Issued(answer, start, body) == log + p && ErrorOf(answer, start, body) == answer(start).error)
      && (answer(start).error.None? ==>
            log + Issued(answer, start, body) == log + p + Issued(answer, |log + p|, Batch(statement, params)) &&
            ErrorOf(answer, start, body) == ErrorOf(answer, |log + p|, Batch(statement, params)))
  {
    var p := [Prepare(statement)];
    BatchBodyCases(answer, |log|, statement, params);
    OneCall(answer, |log|, Prepare(statement));
    Regroup(log, p, Issued(answer, |log| + 1, Batch(statement, params)), [], []);
  }

  /** A bracketed write raises nowhere before switching the constraints
      back on exactly when switching them off and the write both returned;
      its last call is then the write's last. */
  lemma WriteReturned(answer: nat -> Answer, log: seq<Command>, pre: seq<Command>, body: seq<Command>)
    ensures var l1 := log + Issued(answer, |log|, pre);
            var l2 := l1 + Issued(answer, |l1|, body);
      && (FirstError(answer, |log|, pre + body) == None <==>
            FirstError(answer, |log|, pre).None? && FirstError(answer, |l1|, body).None?)
      && (FirstError(answer, |log|, pre + body) == None ==>
            |l1| == |log| + |pre| && |l2| == |log| + |pre| + |body|)
  {
    IssuedAppend(answer, |log|, pre, body);
  }

  lemma InsertResponseCases(answer: nat -> Answer, log: seq<Command>, statement: string, params: seq<Entry>,
                            tables: seq<string>, previous: Value)
    ensures var pre := NoCheckPlan(tables);
            var body := InsertBody(statement, params);
            var l1 := log + Issued(answer, |log|, pre);
            var l2 := l1 + Issued(answer, |l1|, body);
            var ok := FirstError(answer, |log|, pre).None? && FirstError(answer, |l1|, body).None?;
      InsertResponse(answer, |log|, statement, params, tables, previous) ==
        if ok then Bool(Affected(answer(|l2| - 1))) else previous
  {
    WriteReturned(answer, log, NoCheckPlan(tables), InsertBody(statement, params));
  }

  lemma InsertGetIdResponseCases(answer: nat -> Answer, log: seq<Command>, statement: string, params: seq<Entry>,
                                 tables: seq<string>, previous: Value)
    ensures var pre := NoCheckPlan(tables);
            var body := InsertBody(statement, params);
            var l1 := log + Issued(answer, |log|, pre);
            var ok := FirstError(answer, |log|, pre).None? && FirstError(answer, |l1|, body).None?;
      InsertGetIdResponse(answer, |log|, statement, params, tables, previous) ==
        if ok then WrittenId(answer, |l1|, statement, params) else previous
  {
    WriteReturned(answer, log, NoCheckPlan(tables), InsertBody(statement, params));
  }

  lemma DeleteResponseCases(answer: nat -> Answer, log: seq<Command>, statement: string, params: seq<Entry>,
                            tables: seq<string>, previous: Value)
    ensures var pre := NoCheckPlan(tables);
            var body := DeleteBody(statement, params);
            var l1 := log + Issued(answer, |log|, pre);
            var l2 := l1 + Issued(answer, |l1|, body);
            var last := answer(|l2| - 1);
            var ok := FirstError(answer, |log|, pre).None? && FirstError(answer, |l1|, body).None?;
      DeleteResponse(answer, |log|, statement, params, tables, previous) ==
        if !ok then previous
        else if params == [] then Bool(last.success)
        else Bool(last.count > 0)
  {
    WriteReturned(answer, log, NoCheckPlan(tables), DeleteBody(statement, params));
  }

  /** Constraints are switched back on only when everything before them
      returned: if switching them off or the write raised, no CHECK
      statement is issued and the tables stay unchecked. */
  lemma BracketClosesOnlyAfterSuccess(answer: nat -> Answer, start: nat, pre: seq<Command>,
                                      body: seq<Command>, post: seq<Command>)
    ensures |Issued(answer, start, pre + body + post)| > |pre + body| <==>
      FirstError(answer, start, pre + body) == None && post != []
  {
    IssuedAppend(answer, start, pre + body, post);
    if FirstError(answer, start, pre + body).Some? {
      assert |Issued(answer, start, pre + body)| <= |pre + body|;
    }
  }

  /** A failed parameter check leaves the constraints of an update
      switched off: the plan stops after the prepare, before any CHECK. */
  lemma RejectedUpdateLeavesConstraintsOff(answer: nat -> Answer, start: nat, statement: string,
                                           params: seq<Entry>, tables: seq<string>)
    requires IsValidParams(params).Err?
    requires FirstError(answer, start, NoCheckPlan(tables)) == None
    ensures var plan := NoCheckPlan(tables) + UpdateBody(statement, params) + UpdatePost(tables, params);
      forall c :: c in Issued(answer, start, plan) ==> c in NoCheckPlan(tables) || c == Prepare(statement)
  {
    var pre := NoCheckPlan(tables);
    var plan := pre + UpdateBody(statement, params) + UpdatePost(tables, params);
    BracketCases(answer, start, pre, UpdateBody(statement, params), UpdatePost(tables, params));
    var b := Binds(statement, params);
    if answer(start + |pre|).error.Some? {
      GuardedRaisesFirst(answer, start + |pre|, Prepare(statement), b, [Execute], false, UpdateBody(statement, params));
    } else {
      GuardedRejected(answer, start + |pre|, Prepare(statement), b, [Execute], false, UpdateBody(statement, params));
    }
    assert Issued(answer, start, plan) == pre + [Prepare(statement)] || Issued(answer, start, plan) == pre + [Prepare(statement)] + [];
  }

  // ---------------------------------------------------------------------
  // Results

  /** What an `exec*` operation throws: the first raise of its plan, else
      the parameter check's exception when that check failed, each
      rewrapped with the operation's prefix. */
  function Outcome(prefix: string, paramsValid: bool, error: Option<string>): (r: Result<Unit, Exception>)
    ensures r.Err? ==> r.error.SQLServerException?
    ensures r.Ok? <==> error.None? && paramsValid
    ensures error.Some? ==> r == Err(CreateSQLServerException(prefix + error.value))
  {
    match error
    case Some(m) => Err(CreateSQLServerException(prefix + m))
    case None =>
      if paramsValid then Ok(Unit)
      else Err(CreateSQLServerException(prefix + CreateSQLServerException(MultipleParametersMessage).message))
  }

  /** `$response && $PDO->rowCount() > 0`, and `exec(...) > 0`. */
  function Affected(a: Answer): bool {
    a.success && a.count > 0
  }

  /** The rows fetched, once every call of the query returned. */
  function QueryResponse(answer: nat -> Answer, start: nat, statement: string, params: seq<Entry>,
                         previous: Value): Value {
    var plan := QueryPlan(statement, params);
    if IsValidParams(params).Ok? && FirstError(answer, start, plan) == None
    then ListOf(answer(start + |plan| - 1).rows)
    else previous
  }

  /** What `execute()` returned, once the cursor was closed. */
  function TransactionalResponse(answer: nat -> Answer, start: nat, statement: string, params: seq<Entry>,
                                 previous: Value): Value {
    var plan := TransactionalPlan(statement, params);
    if IsValidParams(params).Ok? && FirstError(answer, start, plan) == None
    then Bool(answer(start + |plan| - 2).success)
    else previous
  }

  /** Set once the write returned, before the constraints are switched
      back on: a failure there leaves the response already updated. */
  function UpdateResponse(answer: nat -> Answer, start: nat, statement: string, params: seq<Entry>,
                          tables: seq<string>, previous: Value): Value {
    var pre := NoCheckPlan(tables);
    var body := UpdateBody(statement, params);
    if IsValidParams(params).Ok? && FirstError(answer, start, pre + body) == None
    then Bool(Affected(answer(start + |pre| + |body| - 1)))
    else previous
  }

  function InsertResponse(answer: nat -> Answer, start: nat, statement: string, params: seq<Entry>,
                          tables: seq<string>, previous: Value): Value {
    var pre := NoCheckPlan(tables);
    var body := InsertBody(statement, params);
    if FirstError(answer, start, pre + body) == None
    then Bool(Affected(answer(start + |pre| + |body| - 1)))
    else previous
  }

  /** What the write of `execInsertGetId` leaves as the response when it
      starts at log position `mid` and returns: without parameters, whether
      `exec` affected rows; for a batch, the id of each element; otherwise
      the last insert id, or null when the execute affected nothing. */
  function WrittenId(answer: nat -> Answer, mid: nat, statement: string, params: seq<Entry>): Value {
    var last := answer(mid + |InsertBody(statement, params)| - 1);
    if params == [] then Bool(Affected(last))
    else if HasArrayElement(Arr(params)) then ListOf(Ids(answer, mid + 1, statement, params))
    else IdOf(last)
  }

  function InsertGetIdResponse(answer: nat -> Answer, start: nat, statement: string, params: seq<Entry>,
                               tables: seq<string>, previous: Value): Value {
    var pre := NoCheckPlan(tables);
    var body := InsertBody(statement, params);
    if FirstError(answer, start, pre + body) != None then previous
    else WrittenId(answer, start + |pre|, statement, params)
  }

  function DeleteResponse(answer: nat -> Answer, start: nat, statement: string, params: seq<Entry>,
                          tables: seq<string>, previous: Value): Value {
    var pre := NoCheckPlan(tables);
    var body := DeleteBody(statement, params);
    var last := answer(start + |pre| + |body| - 1);
    if FirstError(answer, start, pre + body) != None then previous
    else if params == [] then Bool(last.success)
    else Bool(last.count > 0)
  }

  class Executor {
    const connection: Connection
    const operation: string
    const statement: string
    const params: seq<Entry>
    const constraints: bool
    const constraintsTables: seq<string>
    var response: Value

    constructor(connection: Connection, operation: string, statement: string, params: seq<Entry>,
                constraints: bool, constraintsTables: seq<string>)
      ensures this.connection == connection && this.operation == operation && this.statement == statement
      ensures this.params == params && this.constraints == constraints
      ensures this.constraintsTables == constraintsTables && response == Null
    {
      this.connection := connection;
      this.operation := operation;
      this.statement := statement;
      this.params := params;
      this.constraints := constraints;
      this.constraintsTables := constraintsTables;
      response := Null;
    }

    function Tables(): seq<string> {
      ConstraintTables(constraints, constraintsTables, statement)
    }

    /** Binds the entries whose key is a placeholder of the statement. */
    method BindParams(entries: seq<Entry>)
      modifies connection
      ensures connection.log == old(connection.log) + Binds(statement, entries)
    {
      var i := 0;
      while i < |entries|
        invariant 0 <= i <= |entries|
        invariant connection.log == old(connection.log) + Binds(statement, entries[..i])
      {
        var e := entries[i];
        if Contains(statement, ":" + KeyText(e.key)) {
          var _ := connection.Call(Bind(e.key, e.value));
        }
        assert entries[..i + 1][..i] == entries[..i];
        i := i + 1;
      }
      assert entries[..i] == entries;
    }

    /** `inactivateCheckConstraint()`. */
    method InactivateCheckConstraint() returns (error: Option<string>)
      modifies connection
      ensures connection.log == old(connection.log) +
        Issued(connection.answer, |old(connection.log)|, NoCheckPlan(Tables()))
      ensures error == ErrorOf(connection.answer, |old(connection.log)|, NoCheckPlan(Tables()))
    {
      error := connection.Run(NoCheckPlan(Tables()));
    }

    /** `activateCheckConstraint()`. */
    method ActivateCheckConstraint() returns (error: Option<string>)
      modifies connection
      ensures connection.log == old(connection.log) +
        Issued(connection.answer, |old(connection.log)|, CheckPlan(Tables()))
      ensures error == ErrorOf(connection.answer, |old(connection.log)|, CheckPlan(Tables()))
    {
      error := connection.Run(CheckPlan(Tables()));
    }

    /** One element of the batch: bind its entries, then execute. */
    method BindAndExecute(element: Value) returns (response: Answer)
      modifies connection
      ensures connection.log == old(connection.log) + ElementBinds(statement, element) + [Execute]
      ensures response == connection.answer(|connection.log| - 1)
    {
      if element.Arr? {
        BindParams(element.entries);
      }
      response := connection.Call(Execute);
    }

    /** The i-th turn of the batch loop, after turns that all returned. */
    method ExecuteElement(ghost log0: seq<Command>, elements: seq<Entry>, i: nat) returns (response: Answer)
      requires i < |elements|
      requires connection.log == log0 + Batch(statement, elements[..i])
      requires FirstError(connection.answer, |log0|, Batch(statement, elements[..i])) == None
      modifies connection
      ensures response.error.Some? ==>
        connection.log == log0 + Issued(connection.answer, |log0|, Batch(statement, elements)) &&
        response.error == ErrorOf(connection.answer, |log0|, Batch(statement, elements))
      ensures response.error.None? ==>
        connection.log == log0 + Batch(statement, elements[..i + 1]) &&
        FirstError(connection.answer, |log0|, Batch(statement, elements[..i + 1])) == None &&
        Ids(connection.answer, |log0|, statement, elements[..i + 1]) ==
          Ids(connection.answer, |log0|, statement, elements[..i]) + [IdOf(response)] &&
        response == connection.answer(|connection.log| - 1)
    {
      ghost var A := connection.answer;
      response := BindAndExecute(elements[i].value);
      if response.error.Some? {
        BatchStepRaises(A, log0, connection.log, statement, elements, i);
      } else {
        BatchStepReturns(A, log0, connection.log, statement, elements, i);
        BatchStepAnswer(A, log0, connection.log, statement, elements, i);
        assert A(|log0| + ExecuteAt(statement, elements, i)) == response;
        IdsSnoc(A, |log0|, statement, elements, i);
      }
    }

    /** The batch loop of `execInsert` and `execInsertGetId`: per element,
        bind its entries and execute, noting the id the execute produced;
        stops at the first raise. */
    method ExecuteEach(elements: seq<Entry>) returns (error: Option<string>, ids: seq<Value>, last: Answer)
      modifies connection
      ensures connection.log == old(connection.log) +
        Issued(connection.answer, |old(connection.log)|, Batch(statement, elements))
      ensures error == ErrorOf(connection.answer, |old(connection.log)|, Batch(statement, elements))
      ensures error.None? ==> ids == Ids(connection.answer, |old(connection.log)|, statement, elements)
      ensures error.None? && elements != [] ==>
        last == connection.answer(|old(connection.log)| + |Batch(statement, elements)| - 1)
    {
      ghost var log0 := connection.log;
      ghost var start := |log0|;
      ids := [];
      last := Answer(None, false, 0, Null, [], []);
      var i := 0;
      while i < |elements|
        invariant 0 <= i <= |elements|
        invariant connection.log == log0 + Batch(statement, elements[..i])
        invariant FirstError(connection.answer, start, Batch(statement, elements[..i])) == None
        invariant ids == Ids(connection.answer, start, statement, elements[..i])
        invariant i > 0 ==> last == connection.answer(|connection.log| - 1)
      {
        var response := ExecuteElement(log0, elements, i);
        if response.error.Some? {
          return response.error, ids, response;
        }
        ids := ids + [IdOf(response)];
        last := response;
        i := i + 1;
      }
      ghost var A := connection.answer;
      assert connection.log == log0 + Issued(A, start, Batch(statement, elements)) &&
             None == ErrorOf(A, start, Batch(statement, elements)) &&
             ids == Ids(A, start, statement, elements) by {
        assert elements[..i] == elements;
      }
      error := None;
    }

    /** The calls `execSelect`, `execProcedure` and
        `execTransactionalProcedure` share: prepare, check the parameters,
        bind, execute, then one more call `d` (fetch the rows, or close the
        cursor); stops at the first raise. */
    method PreparedPair(d: Command) returns (error: Option<string>, valid: bool, executed: Answer, last: Answer)
      requires CanFail(d)
      modifies connection
      ensures connection.log == old(connection.log) +
        Issued(connection.answer, |old(connection.log)|, Prepared(statement, params, [Execute] + [d]))
      ensures error == ErrorOf(connection.answer, |old(connection.log)|, Prepared(statement, params, [Execute] + [d]))
      ensures valid == IsValidParams(params).Ok?
      ensures error.None? && valid ==>
        |connection.log| == |old(connection.log)| + |Prepared(statement, params, [Execute] + [d])| &&
        executed == connection.answer(|connection.log| - 2) && last == connection.answer(|connection.log| - 1)
    {
      ghost var A := connection.answer;
      ghost var log0 := connection.log;
      ghost var b := Binds(statement, params);
      ghost var tail := [Execute] + [d];
      ghost var plan := Prepared(statement, params, tail);
      executed := Answer(None, false, 0, Null, [], []);
      last := executed;
      var prepared := connection.Call(Prepare(statement));
      valid := IsValidParams(params).Ok?;
      if prepared.error.Some? {
        GuardedRaisesFirst(A, |log0|, Prepare(statement), b, tail, valid, plan);
        return prepared.error, valid, executed, last;
      }
      if !valid {
        GuardedRejected(A, |log0|, Prepare(statement), b, tail, valid, plan);
        return None, valid, executed, last;
      }
      error, executed, last := PreparedRuns(d, log0);
    }

    /** The rest of a prepared plan once the prepare returned and the
        parameter check accepted. */
    method PreparedRuns(d: Command, ghost log0: seq<Command>) returns (error: Option<string>, executed: Answer, last: Answer)
      requires CanFail(d)
      requires connection.log == log0 + [Prepare(statement)]
      requires connection.answer(|log0|).error.None? && IsValidParams(params).Ok?
      modifies connection
      ensures connection.log == log0 +
        Issued(connection.answer, |log0|, Prepared(statement, params, [Execute] + [d]))
      ensures error == ErrorOf(connection.answer, |log0|, Prepared(statement, params, [Execute] + [d]))
      ensures error.None? ==>
        |connection.log| == |log0| + |Prepared(statement, params, [Execute] + [d])| &&
        executed == connection.answer(|connection.log| - 2) && last == connection.answer(|connection.log| - 1)
    {
      ghost var A := connection.answer;
      ghost var b := Binds(statement, params);
      ghost var tail := [Execute] + [d];
      BindsOnlyBind(statement, params);
      GuardedRuns(A, |log0|, Prepare(statement), b, tail, true, Prepared(statement, params, tail));
      ghost var at := |log0| + 1 + |b|;
      assert |connection.log| + |b| == at;
      error, executed, last := BindThen(d);
      assert Issued(A, |log0| + 1 + |b|, tail) == Issued(A, at, tail);
      Regroup(log0, [Prepare(statement)], b, Issued(A, at, tail), []);
    }

    /** Bind the parameters, execute, then `d`, stopping at the first
        raise. */
    method BindThen(d: Command) returns (error: Option<string>, executed: Answer, last: Answer)
      requires CanFail(d)
      modifies connection
      ensures connection.log == old(connection.log) + Binds(statement, params) +
        Issued(connection.answer, |old(connection.log)| + |Binds(statement, params)|, [Execute] + [d])
      ensures error == ErrorOf(connection.answer, |old(connection.log)| + |Binds(statement, params)|, [Execute] + [d])
      ensures error.None? ==>
        |connection.log| == |old(connection.log)| + |Binds(statement, params)| + 2 &&
        executed == connection.answer(|connection.log| - 2) && last == connection.answer(|connection.log| - 1)
    {
      BindParams(params);
      error, executed, last := ExecuteThen(d);
    }

    /** Execute, then `d`, stopping at the first raise. */
    method ExecuteThen(d: Command) returns (error: Option<string>, executed: Answer, last: Answer)
      requires CanFail(d)
      modifies connection
      ensures connection.log == old(connection.log) +
        Issued(connection.answer, |old(connection.log)|, [Execute] + [d])
      ensures error == ErrorOf(connection.answer, |old(connection.log)|, [Execute] + [d])
      ensures error.None? ==>
        |connection.log| == |old(connection.log)| + 2 &&
        executed == connection.answer(|connection.log| - 2) && last == connection.answer(|connection.log| - 1)
    {
      TwoCalls(connection.answer, |connection.log|, Execute, d);
      last := Answer(None, false, 0, Null, [], []);
      executed := connection.Call(Execute);
      if executed.error.Some? {
        return executed.error, executed, last;
      }
      last := connection.Call(d);
      error := last.error;
    }

    /** `execSelect` and `execProcedure`, which differ only in the prefix of
        the exception they throw: prepare, check the parameters, bind,
        execute and fetch every row; the rows become the response. */
    method RunQuery(prefix: string) returns (r: Result<Unit, Exception>)
      modifies this, connection
      ensures connection.log == old(connection.log) +
        Issued(connection.answer, |old(connection.log)|, QueryPlan(statement, params))
      ensures r == Outcome(prefix, IsValidParams(params).Ok?,
                           ErrorOf(connection.answer, |old(connection.log)|, QueryPlan(statement, params)))
      ensures response == QueryResponse(connection.answer, |old(connection.log)|, statement, params, old(response))
    {
      var error, valid, executed, fetched := PreparedPair(FetchAll);
      if error.Some? {
        return Err(CreateSQLServerException(prefix + error.value));
      }
      if !valid {
        IsValidParamsError(params);
        return Err(CreateSQLServerException(prefix + IsValidParams(params).error.message));
      }
      response := ListOf(fetched.rows);
      r := Ok(Unit);
    }

    /** `execTransactionalProcedure`: as a query, but the cursor is closed
        instead of fetched, and what `execute()` returned is the response. */
    method ExecTransactionalProcedure() returns (r: Result<Unit, Exception>)
      modifies this, connection
      ensures connection.log == old(connection.log) +
        Issued(connection.answer, |old(connection.log)|, TransactionalPlan(statement, params))
      ensures r == Outcome(TransactionalPrefix, IsValidParams(params).Ok?,
                           ErrorOf(connection.answer, |old(connection.log)|, TransactionalPlan(statement, params)))
      ensures response ==
        TransactionalResponse(connection.answer, |old(connection.log)|, statement, params, old(response))
    {
      var error, valid, result, closed := PreparedPair(CloseCursor);
      if error.Some? {
        return Err(CreateSQLServerException(TransactionalPrefix + error.value));
      }
      if !valid {
        IsValidParamsError(params);
        return Err(CreateSQLServerException(TransactionalPrefix + IsValidParams(params).error.message));
      }
      response := Bool(result.success);
      r := Ok(Unit);
    }

    /** The write of `execUpdate`: prepare, check the parameters, bind and
        execute. */
    method UpdateWrite() returns (error: Option<string>, valid: bool, executed: Answer)
      modifies connection
      ensures connection.log == old(connection.log) +
        Issued(connection.answer, |old(connection.log)|, UpdateBody(statement, params))
      ensures error == ErrorOf(connection.answer, |old(connection.log)|, UpdateBody(statement, params))
      ensures valid == IsValidParams(params).Ok?
      ensures error.None? && valid ==> executed == connection.answer(|connection.log| - 1)
    {
      ghost var log0 := connection.log;
      PreparedExecuteLog(connection.answer, log0, statement, params);
      valid := IsValidParams(params).Ok?;
      executed := Answer(None, false, 0, Null, [], []);
      var prepared := connection.Call(Prepare(statement));
      if prepared.error.Some? {
        return prepared.error, valid, executed;
      }
      if !valid {
        return None, valid, executed;
      }
      BindParams(params);
      executed := connection.Call(Execute);
      error := executed.error;
    }

    /** `execUpdate`: the write between switching the constraints off and
        back on; the response is set once the write returned. */
    method ExecUpdate() returns (r: Result<Unit, Exception>)
      modifies this, connection
      ensures var plan := NoCheckPlan(Tables()) + UpdateBody(statement, params) + UpdatePost(Tables(), params);
        && connection.log == old(connection.log) + Issued(connection.answer, |old(connection.log)|, plan)
        && r == Outcome(UpdatePrefix, IsValidParams(params).Ok?,
                        ErrorOf(connection.answer, |old(connection.log)|, plan))
      ensures response ==
        UpdateResponse(connection.answer, |old(connection.log)|, statement, params, Tables(), old(response))
    {
      ghost var log0 := connection.log;
      ghost var pre := NoCheckPlan(Tables());
      BracketLog(connection.answer, log0, pre, UpdateBody(statement, params), UpdatePost(Tables(), params));
      UpdateResponseCases(connection.answer, log0, statement, params, Tables(), response);
      var off := InactivateCheckConstraint();
      if off.Some? {
        return Err(CreateSQLServerException(UpdatePrefix + off.value));
      }
      var error, valid, executed := UpdateWrite();
      if error.Some? {
        return Err(CreateSQLServerException(UpdatePrefix + error.value));
      }
      if !valid {
        return Err(CreateSQLServerException(UpdatePrefix + CreateSQLServerException(MultipleParametersMessage).message));
      }
      response := Bool(Affected(executed));
      var on := ActivateCheckConstraint();
      if on.Some? {
        return Err(CreateSQLServerException(UpdatePrefix + on.value));
      }
      r := Ok(Unit);
    }

    /** Prepare, bind and execute, with no parameter check. */
    method BoundWrite() returns (error: Option<string>, executed: Answer)
      modifies connection
      ensures connection.log == old(connection.log) +
        Issued(connection.answer, |old(connection.log)|, BoundBody(statement, params))
      ensures error == ErrorOf(connection.answer, |old(connection.log)|, BoundBody(statement, params))
      ensures error.None? ==> executed == connection.answer(|connection.log| - 1)
    {
      BoundLog(connection.answer, connection.log, statement, params);
      executed := connection.Call(Prepare(statement));
      if executed.error.Some? {
        return executed.error, executed;
      }
      BindParams(params);
      executed := connection.Call(Execute);
      error := executed.error;
    }

    /** Prepare, then the batch: each element bound and executed. */
    method BatchWrite() returns (error: Option<string>, last: Answer, ids: seq<Value>)
      modifies connection
      ensures var body := [Prepare(statement)] + Batch(statement, params);
        && connection.log == old(connection.log) + Issued(connection.answer, |old(connection.log)|, body)
        && error == ErrorOf(connection.answer, |old(connection.log)|, body)
      ensures error.None? && params != [] ==> last == connection.answer(|connection.log| - 1)
      ensures error.None? ==> ids == Ids(connection.answer, |old(connection.log)| + 1, statement, params)
    {
      BatchLog(connection.answer, connection.log, statement, params);
      last := connection.Call(Prepare(statement));
      ids := [];
      if last.error.Some? {
        return last.error, last, ids;
      }
      error, ids, last := ExecuteEach(params);
    }

    /** The write of `execInsert` and `execInsertGetId`. */
    method InsertWrite() returns (error: Option<string>, last: Answer, ids: seq<Value>)
      modifies connection
      ensures connection.log == old(connection.log) +
        Issued(connection.answer, |old(connection.log)|, InsertBody(statement, params))
      ensures error == ErrorOf(connection.answer, |old(connection.log)|, InsertBody(statement, params))
      ensures error.None? ==> last == connection.answer(|connection.log| - 1)
      ensures error.None? && params != [] && HasArrayElement(Arr(params)) ==>
        ids == Ids(connection.answer, |old(connection.log)| + 1, statement, params)
    {
      ids := [];
      if params == [] {
        OneCall(connection.answer, |connection.log|, Exec(statement));
        last := connection.Call(Exec(statement));
        error := last.error;
      } else if HasArrayElement(Arr(params)) {
        error, last, ids := BatchWrite();
      } else {
        error, last := BoundWrite();
      }
    }

    /** The write of `execDelete`. */
    method DeleteWrite() returns (error: Option<string>, last: Answer)
      modifies connection
      ensures connection.log == old(connection.log) +
        Issued(connection.answer, |old(connection.log)|, DeleteBody(statement, params))
      ensures error == ErrorOf(connection.answer, |old(connection.log)|, DeleteBody(statement, params))
      ensures error.None? ==> last == connection.answer(|connection.log| - 1)
    {
      if params == [] {
        OneCall(connection.answer, |connection.log|, Exec(statement));
        last := connection.Call(Exec(statement));
        error := last.error;
      } else {
        error, last := BoundWrite();
      }
    }

    /** `execInsert`: the write between switching the constraints off and
        back on; the response is whether the last execute (or `exec`)
        affected rows. */
    method ExecInsert() returns (r: Result<Unit, Exception>)
      modifies this, connection
      ensures var plan := NoCheckPlan(Tables()) + InsertBody(statement, params) + CheckPlan(Tables());
        && connection.log == old(connection.log) + Issued(connection.answer, |old(connection.log)|, plan)
        && r == Outcome(InsertPrefix, true, ErrorOf(connection.answer, |old(connection.log)|, plan))
      ensures response ==
        InsertResponse(connection.answer, |old(connection.log)|, statement, params, Tables(), old(response))
    {
      ghost var log0 := connection.log;
      BracketLog(connection.answer, log0, NoCheckPlan(Tables()), InsertBody(statement, params), CheckPlan(Tables()));
      InsertResponseCases(connection.answer, log0, statement, params, Tables(), response);
      var off := InactivateCheckConstraint();
      if off.Some? {
        return Err(CreateSQLServerException(InsertPrefix + off.value));
      }
      var error, last, _ := InsertWrite();
      if error.Some? {
        return Err(CreateSQLServerException(InsertPrefix + error.value));
      }
      response := Bool(Affected(last));
      var on := ActivateCheckConstraint();
      if on.Some? {
        return Err(CreateSQLServerException(InsertPrefix + on.value));
      }
      r := Ok(Unit);
    }

    /** The write of `execInsertGetId` and the value it leaves as the
        response. */
    method InsertGetIdWrite() returns (error: Option<string>, value: Value)
      modifies connection
      ensures connection.log == old(connection.log) +
        Issued(connection.answer, |old(connection.log)|, InsertBody(statement, params))
      ensures error == ErrorOf(connection.answer, |old(connection.log)|, InsertBody(statement, params))
      ensures error.None? ==> value == WrittenId(connection.answer, |old(connection.log)|, statement, params)
    {
      var last, ids;
      error, last, ids := InsertWrite();
      if params == [] {
        value := Bool(Affected(last));
      } else if HasArrayElement(Arr(params)) {
        value := ListOf(ids);
      } else {
        value := IdOf(last);
      }
    }

    /** `execInsertGetId`: as `execInsert`, but the response is the last
        insert id (or, for a batch, the list of them; without parameters,
        whether rows were affected). */
    method ExecInsertGetId() returns (r: Result<Unit, Exception>)
      modifies this, connection
      ensures var plan := NoCheckPlan(Tables()) + InsertBody(statement, params) + CheckPlan(Tables());
        && connection.log == old(connection.log) + Issued(connection.answer, |old(connection.log)|, plan)
        && r == Outcome(InsertPrefix, true, ErrorOf(connection.answer, |old(connection.log)|, plan))
      ensures response ==
        InsertGetIdResponse(connection.answer, |old(connection.log)|, statement, params, Tables(), old(response))
    {
      ghost var log0 := connection.log;
      BracketLog(connection.answer, log0, NoCheckPlan(Tables()), InsertBody(statement, params), CheckPlan(Tables()));
      InsertGetIdResponseCases(connection.answer, log0, statement, params, Tables(), response);
      var off := InactivateCheckConstraint();
      if off.Some? {
        return Err(CreateSQLServerException(InsertPrefix + off.value));
      }
      var error, value := InsertGetIdWrite();
      if error.Some? {
        return Err(CreateSQLServerException(InsertPrefix + error.value));
      }
      response := value;
      var on := ActivateCheckConstraint();
      if on.Some? {
        return Err(CreateSQLServerException(InsertPrefix + on.value));
      }
      r := Ok(Unit);
    }

    /** `execDelete`: the write between switching the constraints off and
        back on; the response is whether `exec` returned, or whether the
        execute affected rows. */
    method ExecDelete() returns (r: Result<Unit, Exception>)
      modifies this, connection
      ensures var plan := NoCheckPlan(Tables()) + DeleteBody(statement, params) + CheckPlan(Tables());
        && connection.log == old(connection.log) + Issued(connection.answer, |old(connection.log)|, plan)
        && r == Outcome(DeletePrefix, true, ErrorOf(connection.answer, |old(connection.log)|, plan))
      ensures response ==
        DeleteResponse(connection.answer, |old(connection.log)|, statement, params, Tables(), old(response))
    {
      ghost var log0 := connection.log;
      BracketLog(connection.answer, log0, NoCheckPlan(Tables()), DeleteBody(statement, params), CheckPlan(Tables()));
      DeleteResponseCases(connection.answer, log0, statement, params, Tables(), response);
      var off := InactivateCheckConstraint();
      if off.Some? {
        return Err(CreateSQLServerException(DeletePrefix + off.value));
      }
      var error, last := DeleteWrite();
      if error.Some? {
        return Err(CreateSQLServerException(DeletePrefix + error.value));
      }
      if params == [] {
        response := Bool(last.success);
      } else {
        response := Bool(last.count > 0);
      }
      var on := ActivateCheckConstraint();
      if on.Some? {
        return Err(CreateSQLServerException(DeletePrefix + on.value));
      }
      r := Ok(Unit);
    }

    /** `execGeneral`: runs the operation the query was built for; any other
        operation name has no arm in the `match` and raises before any call
        is made. */
    method ExecGeneral() returns (r: Result<Unit, Exception>)
      modifies this, connection
      ensures operation !in Operations ==>
        r == Err(UnhandledMatchError(operation)) && connection.log == old(connection.log) &&
        response == old(response)
      ensures operation == "select" ==>
        connection.log == old(connection.log) +
          Issued(connection.answer, |old(connection.log)|, QueryPlan(statement, params)) &&
        r == Outcome(SelectPrefix, IsValidParams(params).Ok?,
                     ErrorOf(connection.answer, |old(connection.log)|, QueryPlan(statement, params))) &&
        response == QueryResponse(connection.answer, |old(connection.log)|, statement, params, old(response))
      ensures operation == "execute_procedure" ==>
        connection.log == old(connection.log) +
          Issued(connection.answer, |old(connection.log)|, QueryPlan(statement, params)) &&
        r == Outcome(ProcedurePrefix, IsValidParams(params).Ok?,
                     ErrorOf(connection.answer, |old(connection.log)|, QueryPlan(statement, params))) &&
        response == QueryResponse(connection.answer, |old(connection.log)|, statement, params, old(response))
      ensures operation == "execute_transactional_procedure" ==>
        connection.log == old(connection.log) +
          Issued(connection.answer, |old(connection.log)|, TransactionalPlan(statement, params)) &&
        r == Outcome(TransactionalPrefix, IsValidParams(params).Ok?,
                     ErrorOf(connection.answer, |old(connection.log)|, TransactionalPlan(statement, params))) &&
        response == TransactionalResponse(connection.answer, |old(connection.log)|, statement, params, old(response))
      ensures operation == "update" ==>
        var plan := NoCheckPlan(Tables()) + UpdateBody(statement, params) + UpdatePost(Tables(), params);
        connection.log == old(connection.log) + Issued(connection.answer, |old(connection.log)|, plan) &&
        r == Outcome(UpdatePrefix, IsValidParams(params).Ok?, ErrorOf(connection.answer, |old(connection.log)|, plan)) &&
        response == UpdateResponse(connection.answer, |old(connection.log)|, statement, params, Tables(), old(response))
      ensures operation == "insert" ==>
        var plan := NoCheckPlan(Tables()) + InsertBody(statement, params) + CheckPlan(Tables());
        connection.log == old(connection.log) + Issued(connection.answer, |old(connection.log)|, plan) &&
        r == Outcome(InsertPrefix, true, ErrorOf(connection.answer, |old(connection.log)|, plan)) &&
        response == InsertResponse(connection.answer, |old(connection.log)|, statement, params, Tables(), old(response))
      ensures operation == "insert_get_id" ==>
        var plan := NoCheckPlan(Tables()) + InsertBody(statement, params) + CheckPlan(Tables());
        connection.log == old(connection.log) + Issued(connection.answer, |old(connection.log)|, plan) &&
        r == Outcome(InsertPrefix, true, ErrorOf(connection.answer, |old(connection.log)|, plan)) &&
        response ==
          InsertGetIdResponse(connection.answer, |old(connection.log)|, statement, params, Tables(), old(response))
      ensures operation == "delete" ==>
        var plan := NoCheckPlan(Tables()) + DeleteBody(statement, params) + CheckPlan(Tables());
        connection.log == old(connection.log) + Issued(connection.answer, |old(connection.log)|, plan) &&
        r == Outcome(DeletePrefix, true, ErrorOf(connection.answer, |old(connection.log)|, plan)) &&
        response == DeleteResponse(connection.answer, |old(connection.log)|, statement, params, Tables(), old(response))
    {
      match operation
      case "select" => r := RunQuery(SelectPrefix);
      case "update" => r := ExecUpdate();
      case "insert" => r := ExecInsert();
      case "insert_get_id" => r := ExecInsertGetId();
      case "delete" => r := ExecDelete();
      case "execute_procedure" => r := RunQuery(ProcedurePrefix);
      case "execute_transactional_procedure" => r := ExecTransactionalProcedure();
      case _ => r := Err(UnhandledMatchError(operation));
    }
  }
}
