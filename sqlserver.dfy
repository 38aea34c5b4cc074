/** src/SQLServer.php: the client object. It holds the credentials it was
    built with, a connection it opens on first use and keeps, and the
    response of the last query, which the list operations of
    src/Traits/Methods.php rewrite in place. Its query methods check the
    statement's verb before opening the connection, then prepare, bind and
    execute; any exception from the connection or the driver comes back
    wrapped with an operation-specific message. The attribute setters of
    src/Traits/Attributes.php and the foreign-key switches of
    src/Traits/Constraints.php act on the same connection. */
module SQLServerClient {
  import opened Wrappers
  import opened PhpStrings
  import opened PhpValues
  import opened Exceptions
  import opened CommonFunctions
  import opened Driver
  import opened Attributes
  import ResponseOps
  import SetCredentials
  import Constraints

  // ---------------------------------------------------------------------
  // Where the credentials come from

  datatype Source =
    | FromArray(credentials: SetCredentials.Array)
    | FromEnvironment(prefix: string)
    | FromConnection(name: string)
    | NoSource

  /** The constructor takes its credentials from the first of its three
      arguments that is not `empty`: the credentials array, then the
      environment prefix, then the configured connection name. */
  function CredentialSource(database: SetCredentials.Array, envPrefix: string, connection: string): (r: Source)
    ensures r.FromArray? <==> database != map[]
    ensures r.FromEnvironment? <==> database == map[] && !IsEmptyString(envPrefix)
    ensures r.FromConnection? <==> database == map[] && IsEmptyString(envPrefix) && !IsEmptyString(connection)
    ensures r.NoSource? <==> database == map[] && IsEmptyString(envPrefix) && IsEmptyString(connection)
    ensures r.FromArray? ==> r.credentials == database
    ensures r.FromEnvironment? ==> r.prefix == envPrefix
    ensures r.FromConnection? ==> r.name == connection
  {
    if database != map[] then FromArray(database)
    else if !IsEmptyString(envPrefix) then FromEnvironment(envPrefix)
    else if !IsEmptyString(connection) then FromConnection(connection)
    else NoSource
  }

  // ---------------------------------------------------------------------
  // Opening the connection

  /** The `errorInfo` of the driver's exception when the connection cannot
      be opened: an array of parts, or a single value. */
  datatype ErrorInfo = InfoList(parts: seq<string>) | InfoScalar(text: string)

  const DriverHint := " - Ensure that the" + " ODBC Driver and" + " SQLServer are" + " installed correctly."

  /** The message of the exception `connectionPDO` throws. */
  function OpenFailure(info: ErrorInfo): string {
    match info
    case InfoList(parts) => Upper(Join(" - ", parts))
    case InfoScalar(text) => text + DriverHint
  }

  predicate NoLowerCase(s: string) {
    forall i :: 0 <= i < |s| ==> !('a' <= s[i] <= 'z')
  }

  /** An array of parts is reported joined and in upper case, so up to
      case it reads as the parts joined by " - "; a scalar `errorInfo` is
      reported as given, with the installation hint behind it. The
      driver's own message is not part of the text. Under PHP 8
      `errorInfo` is null when it is not an array, so the text is then the
      hint alone. */
  lemma OpenFailureText(info: ErrorInfo)
    ensures info.InfoList? ==>
      NoLowerCase(OpenFailure(info)) && Lower(OpenFailure(info)) == Lower(Join(" - ", info.parts))
    ensures info.InfoScalar? ==>
      var m := OpenFailure(info);
      |m| == |info.text| + |DriverHint| && m[..|info.text|] == info.text && m[|info.text|..] == DriverHint
    ensures OpenFailure(InfoScalar("")) == DriverHint
  {
    assert "" + DriverHint == DriverHint;
    match info
    case InfoList(parts) =>
      LowerForgetsCase(Join(" - ", parts));
    case InfoScalar(text) =>
      var m := OpenFailure(info);
      assert m[..|text|] == text;
      assert m[|text|..] == DriverHint;
  }

  // ---------------------------------------------------------------------
  // The query operations

  datatype Operation = SelectOp | UpdateOp | InsertOp | DeleteOp | ProcedureOp | TransactionalOp

  /** The verb check each operation makes before anything else; true
      means the operation throws. */
  predicate Guard(op: Operation, statement: string) {
    match op
    case SelectOp => IsSelectQuery(statement)
    case UpdateOp => !IsUpdateQuery(statement)
    case InsertOp => !IsInsertQuery(statement)
    case DeleteOp => !IsDeleteQuery(statement)
    case ProcedureOp => IsStoredProcedure(statement)
    case TransactionalOp => IsStoredProcedure(statement)
  }

  /** With the predicates as written, `select` throws exactly for
      statements that do not start with SELECT, `update` exactly for those
      that DO start with UPDATE, `insert` and `delete` for those that do
      not start with their verb, and both procedure methods exactly for
      statements that start with EXEC. */
  lemma GuardsAsPrefixTests(statement: string)
    ensures Guard(SelectOp, statement) <==> !StartsWithCI(statement, "SELECT")
    ensures Guard(UpdateOp, statement) <==> StartsWithCI(statement, "UPDATE")
    ensures Guard(InsertOp, statement) <==> !StartsWithCI(statement, "INSERT")
    ensures Guard(DeleteOp, statement) <==> !StartsWithCI(statement, "DELETE")
    ensures Guard(ProcedureOp, statement) <==> StartsWithCI(statement, "EXEC")
    ensures Guard(TransactionalOp, statement) <==> StartsWithCI(statement, "EXEC")
  {
    QueryPredicatesAsPrefixTests(statement);
  }

  /** The exception a failed verb check throws. */
  function Rejected(op: Operation): Exception {
    match op
    case SelectOp => PlainException(NotIsSelectQueryException())
    case UpdateOp => PlainException(NotIsUpdateQueryException())
    case InsertOp => PlainException(NotIsInsertQueryException())
    case DeleteOp => PlainException(NotIsDeleteQueryException())
    case ProcedureOp => PlainException(NotIsProcedureException())
    case TransactionalOp => PlainException(NotIsProcedureException())
  }

  /** The method named in the operation's messages. */
  function Caller(op: Operation): string {
    match op
    case SelectOp => "SQLServer::select()"
    case UpdateOp => "SQLServer::update()"
    case InsertOp => "SQLServer::insert()"
    case DeleteOp => "SQLServer::delete()"
    case ProcedureOp => ProcedureMethod
    case TransactionalOp => ProcedureMethod
  }

  /** What the `catch` block puts in front of the caught message. */
  function Prefix(op: Operation): string {
    match op
    case ProcedureOp => "Error executing" + " stored procedure: "
    case TransactionalOp => "Error executing" + " transactional" + " stored procedure: "
    case _ => "Error executing" + " SQL query: "
  }

  /** The exception that escapes when `message` was thrown inside the
      operation's `try`. */
  function Wrapped(op: Operation, message: string): Exception {
    var text := Some(Prefix(op) + message);
    match op
    case SelectOp => PlainException(SelectException(text))
    case UpdateOp => PlainException(UpdateException(text))
    case InsertOp => PlainException(InsertException(text))
    case DeleteOp => PlainException(DeleteException(text))
    case ProcedureOp => PlainException(ExecuteProcedureException(text))
    case TransactionalOp => PlainException(ExecuteProcedureException(text))
  }

  /** The escaping message is framed under the operation's method and
      carries the caught message behind the operation's prefix. */
  lemma WrappedCarries(op: Operation, message: string)
    ensures Framed(Wrapped(op, message).message)
    ensures TextOf(Wrapped(op, message).message, Caller(op)) == Prefix(op) + message
  {
    Carries(Caller(op), Prefix(op) + message);
  }

  /** The `bindParam` calls of `update`, `insert` and `delete`, which bind
      each key by reference to its own array element. */
  function BindEach(params: seq<Entry>): (r: seq<Command>)
    ensures |r| == |params|
    ensures forall i :: 0 <= i < |params| ==> r[i] == Bind(params[i].key, params[i].value)
  {
    seq(|params|, i requires 0 <= i < |params| => Bind(params[i].key, params[i].value))
  }

  /** The `bindParam` calls of `select` as written: each key is bound by
      reference to the loop variable, which holds the last value once the
      statement executes. */
  function SelectBindsAsWritten(params: seq<Entry>): (r: seq<Command>)
    ensures |r| == |params|
    ensures forall i :: 0 <= i < |params| ==> r[i] == Bind(params[i].key, params[|params| - 1].value)
  {
    seq(|params|, i requires 0 <= i < |params| => Bind(params[i].key, params[|params| - 1].value))
  }

  /** The two bindings agree exactly when every value equals the last. */
  lemma SelectBindsAgreeIff(params: seq<Entry>)
    ensures SelectBindsAsWritten(params) == BindEach(params) <==>
      forall i :: 0 <= i < |params| ==> params[i].value == params[|params| - 1].value
  {
    var a := SelectBindsAsWritten(params);
    var b := BindEach(params);
    if a == b {
      forall i | 0 <= i < |params| ensures params[i].value == params[|params| - 1].value {
        assert a[i] == b[i];
      }
    }
  }

  /** Two keys with different values: as written, both get the second. */
  lemma SelectBindsCounterexample()
    ensures var ps := [Entry(StrKey(":a"), Int(1)), Entry(StrKey(":b"), Int(2))];
      SelectBindsAsWritten(ps)[0] == Bind(StrKey(":a"), Int(2)) &&
      BindEach(ps)[0] == Bind(StrKey(":a"), Int(1)) &&
      SelectBindsAsWritten(ps) != BindEach(ps)
  {
    var ps := [Entry(StrKey(":a"), Int(1)), Entry(StrKey(":b"), Int(2))];
    assert SelectBindsAsWritten(ps)[0] != BindEach(ps)[0];
  }

  /** The calls `executeProcedure` makes as written: it prepares the
      undefined `$statement`, which reads as null and reaches `prepare` as
      the empty string. */
  function ProcedurePlanAsWritten(procedure: string): seq<Command> {
    [Prepare(""), Execute, FetchAll]
  }

  /** As written, the procedure never reaches the driver: every call
      prepares the same empty text. */
  lemma ProcedureAsWrittenIgnoresProcedure(p: string, q: string)
    ensures ProcedurePlanAsWritten(p) == ProcedurePlanAsWritten(q)
    ensures ProcedurePlanAsWritten(p)[0] == Prepare("")
    ensures p != "" ==> ProcedurePlanAsWritten(p) != Plan(ProcedureOp, p, [])
  {
    if p != "" {
      assert ProcedurePlanAsWritten(p)[0] != Plan(ProcedureOp, p, [])[0];
    }
  }

  /** The driver calls each operation makes once connected, when none
      raises. */
  function Plan(op: Operation, statement: string, params: seq<Entry>): (r: seq<Command>)
    ensures r != []
  {
    match op
    case SelectOp => [Prepare(statement)] + BindEach(params) + [Execute, FetchAll]
    case UpdateOp => [Prepare(statement)] + BindEach(params) + [Execute]
    case InsertOp =>
      if params == [] then [Exec(statement)] else [Prepare(statement)] + BindEach(params) + [Execute]
    case DeleteOp =>
      if params == [] then [Exec(statement)] else [Prepare(statement)] + BindEach(params) + [ExecuteWith(params)]
    case ProcedureOp => [Prepare(statement), Execute, FetchAll]
    case TransactionalOp => [Prepare(statement), Execute, CloseCursor]
  }

  /** Where in the plan the statement is executed. */
  function ExecuteAt(op: Operation, params: seq<Entry>): nat {
    if (op == InsertOp || op == DeleteOp) && params == [] then 0
    else if op == ProcedureOp || op == TransactionalOp then 1
    else 1 + |params|
  }

  /** Every plan prepares the statement it was given (or hands it to
      `exec`), binds each parameter in order right after, executes at
      `ExecuteAt`, and the reading operations fetch right after that. */
  lemma PlanShape(op: Operation, statement: string, params: seq<Entry>)
    ensures var p := Plan(op, statement, params); var at := ExecuteAt(op, params);
      && at < |p|
      && (at == 0 ==> p == [Exec(statement)])
      && (at > 0 ==> p[0] == Prepare(statement) && p[1..at] == (if op == ProcedureOp || op == TransactionalOp then [] else BindEach(params)))
      && (at > 0 ==> p[at] == (if op == DeleteOp then ExecuteWith(params) else Execute))
      && (op == SelectOp || op == ProcedureOp ==> |p| == at + 2 && p[at + 1] == FetchAll)
      && (op == TransactionalOp ==> |p| == at + 2 && p[at + 1] == CloseCursor)
      && (op != SelectOp && op != ProcedureOp && op != TransactionalOp ==> |p| == at + 1)
  {
    var p := Plan(op, statement, params);
    var at := ExecuteAt(op, params);
    if at > 0 && op != ProcedureOp && op != TransactionalOp {
      assert p[1..at] == BindEach(params);
    }
  }

  /** What an operation that writes reports once every call returned,
      from the driver's answer to its execute: `execute() && rowCount() >
      0` for update and for insert with parameters, `exec() !== false`
      without parameters, `rowCount() > 0` for delete with parameters, and
      what `execute()` returned for a transactional procedure. */
  function Verdict(op: Operation, params: seq<Entry>, a: Answer): bool {
    match op
    case UpdateOp => a.success && a.count > 0
    case InsertOp => if params == [] then a.success else a.success && a.count > 0
    case DeleteOp => if params == [] then a.success else a.count > 0
    case _ => a.success
  }

  /** The open failure, when the connection had to be opened and could
      not be, and otherwise the first raise of the plan. */
  function FlowError(refusal: Option<ErrorInfo>, answer: nat -> Answer, start: nat, plan: seq<Command>): Option<string> {
    match refusal
    case Some(info) => Some(OpenFailure(info))
    case None => ErrorOf(answer, start, plan)
  }

  /** What `update`, `insert`, `delete` and `executeTransactionalProcedure`
      return or throw, given whether the connection has to be opened and
      fails (`refusal`), the driver's answers, and where the calls start in
      the connection's log. */
  function WriteOutcome(op: Operation, statement: string, params: seq<Entry>, refusal: Option<ErrorInfo>,
                        answer: nat -> Answer, start: nat): Result<bool, Exception> {
    if Guard(op, statement) then Err(Rejected(op))
    else WriteFlow(op, statement, params, refusal, answer, start)
  }

  /** The same once the verb check has passed. */
  function WriteFlow(op: Operation, statement: string, params: seq<Entry>, refusal: Option<ErrorInfo>,
                     answer: nat -> Answer, start: nat): Result<bool, Exception> {
    match FlowError(refusal, answer, start, Plan(op, statement, params))
    case Some(m) => Err(Wrapped(op, m))
    case None => Ok(Verdict(op, params, answer(start + ExecuteAt(op, params))))
  }

  /** What `select` and `executeProcedure` leave as the response, or
      throw: the rows of their fetch. */
  function QueryOutcome(op: Operation, statement: string, params: seq<Entry>, refusal: Option<ErrorInfo>,
                        answer: nat -> Answer, start: nat): Result<seq<Value>, Exception> {
    if Guard(op, statement) then Err(Rejected(op))
    else QueryFlow(op, statement, params, refusal, answer, start)
  }

  /** The same once the verb check has passed. */
  function QueryFlow(op: Operation, statement: string, params: seq<Entry>, refusal: Option<ErrorInfo>,
                     answer: nat -> Answer, start: nat): Result<seq<Value>, Exception> {
    match FlowError(refusal, answer, start, Plan(op, statement, params))
    case Some(m) => Err(Wrapped(op, m))
    case None => Ok(answer(start + ExecuteAt(op, params) + 1).rows)
  }

  /** An operation reports success only when its verb check passed, the
      connection was open or opened, and no call of its plan raised; a
      failure to open is reported through the operation's own message. */
  lemma OutcomeCases(op: Operation, statement: string, params: seq<Entry>, refusal: Option<ErrorInfo>,
                     answer: nat -> Answer, start: nat)
    ensures WriteOutcome(op, statement, params, refusal, answer, start).Ok? <==>
      !Guard(op, statement) && refusal.None? && FirstError(answer, start, Plan(op, statement, params)).None?
    ensures QueryOutcome(op, statement, params, refusal, answer, start).Ok? <==>
      !Guard(op, statement) && refusal.None? && FirstError(answer, start, Plan(op, statement, params)).None?
    ensures !Guard(op, statement) && refusal.Some? ==>
      WriteOutcome(op, statement, params, refusal, answer, start) == Err(Wrapped(op, OpenFailure(refusal.value)))
  {
  }

  // ---------------------------------------------------------------------
  // Messages of engine errors

  /** The message of the `\Error` raised by calling `member` on null. */
  function NullCall(member: string): string {
    "Call to a member" + " function " + member + "() on null"
  }

  /** `disableForeignKeys`/`enableForeignKeys` (and `noCheck`/`check`
      through them) as written: they use `$this->pdo`, a property the
      client does not have (its connection is `$this->PDO`), which reads as
      null, so the first `exec` raises an engine error that their `catch
      (Exception)` does not catch. */
  function ForeignKeysAsWritten(mode: Constraints.Toggle, tables: seq<string>): (r: Result<Unit, Exception>)
    ensures r.Err? && r.error.PhpError?
  {
    Err(PhpError(NullCall("exec")))
  }

  /** As written the switch fails for every table list, where on an open
      connection whose `exec` returns the listed-tables switch succeeds. */
  lemma ForeignKeysAsWrittenNeverSwitch(answer: nat -> Answer, start: nat, mode: Constraints.Toggle,
                                        tables: seq<string>)
    requires tables != [] && answer(start).error.None?
    ensures ForeignKeysAsWritten(mode, tables).Err?
    ensures Constraints.Reported(mode,
      Constraints.ToggleRun(answer, start, mode, Constraints.AllTablesSql(mode), tables).failure) == Ok(Unit)
  {
  }

  // ---------------------------------------------------------------------
  // The client

  class Client {
    /** `$this->PDO`: null until the first query opens it. */
    var pdo: Connection?
    /** `$this->credentials`: what `getCredentials()` gave, if a source
        was set. */
    const credentials: Option<SetCredentials.CredentialsObject>
    /** `$this->response`, always a list. */
    var response: seq<Value>
    /** How many times a connection was attempted. */
    var attempts: nat
    /** The driver's verdict on the k-th attempt to open the connection:
        the `errorInfo` it raises with, or `None` when it opens. */
    const opening: nat -> Option<ErrorInfo>
    /** The driver's answers once the connection is open. */
    const answer: nat -> Answer

    ghost predicate Valid()
      reads this
    {
      pdo != null ==> pdo.answer == answer
    }

    /** The constructor, given the credentials its source produced. */
    constructor(credentials: Option<SetCredentials.CredentialsObject>, opening: nat -> Option<ErrorInfo>,
                answer: nat -> Answer)
      ensures Valid()
      ensures pdo == null && response == [] && attempts == 0
      ensures this.credentials == credentials && this.opening == opening && this.answer == answer
    {
      pdo := null;
      this.credentials := credentials;
      response := [];
      attempts := 0;
      this.opening := opening;
      this.answer := answer;
    }

    /** `isNonEmptyArray()`. */
    predicate IsNonEmptyArray()
      reads this
    {
      |response| > 0
    }

    /** `hasValidPDOConnection()`. */
    predicate HasValidPDOConnection()
      reads this
    {
      pdo != null
    }

    /** The error the next connection attempt raises, if one is needed. */
    function Refusal(): Option<ErrorInfo>
      reads this
    {
      if pdo == null then opening(attempts) else None
    }

    /** The calls the connection holds, none when there is none. */
    function Prior(): seq<Command>
      reads this, pdo
    {
      if pdo == null then [] else pdo.log
    }

    /** What `connectionPDO()` did: nothing when a connection was open;
        otherwise one attempt, which leaves no connection when it failed
        and a new one when it succeeded. */
    twostate predicate Connected()
      reads this
    {
      if old(pdo) != null then pdo == old(pdo) && attempts == old(attempts)
      else
        && attempts == old(attempts) + 1
        && (opening(old(attempts)).Some? ==> pdo == null)
        && (opening(old(attempts)).None? ==> pdo != null && fresh(pdo))
    }

    /** The connection, if any, holds what it held before and the calls
        of `plan` up to the first that raised. */
    twostate predicate Logged(plan: seq<Command>)
      reads this, pdo
    {
      pdo != null ==> pdo.log == old(Prior()) + Issued(answer, |old(Prior())|, plan)
    }

    /** `connectionPDO()`: opens the connection only when there is none,
        and reports the message of the exception it throws. */
    method ConnectionPDO() returns (failure: Option<string>)
      requires Valid()
      modifies this`pdo, this`attempts
      ensures Valid() && Connected()
      ensures pdo != null ==> pdo.log == old(Prior())
      ensures failure == (match old(Refusal()) case Some(info) => Some(OpenFailure(info)) case None => None)
    {
      if pdo != null {
        return None;
      }
      var refused := opening(attempts);
      attempts := attempts + 1;
      if refused.Some? {
        return Some(OpenFailure(refused.value));
      }
      pdo := new Connection(answer);
      return None;
    }

    /** Opens the connection when needed, then makes the calls of `plan`
        until one raises. */
    method Perform(plan: seq<Command>) returns (failure: Option<string>)
      requires Valid()
      modifies this`pdo, this`attempts, pdo
      ensures Valid() && Connected() && Logged(plan)
      ensures failure == FlowError(old(Refusal()), answer, |old(Prior())|, plan)
    {
      failure := ConnectionPDO();
      if failure.Some? {
        return;
      }
      failure := pdo.Run(plan);
    }

    /** `status()`: opens the connection if needed and reports whether it
        is open, with the failure's message when it is not. */
    method Status() returns (status: bool, message: string)
      requires Valid()
      modifies this`pdo, this`attempts
      ensures Valid() && Connected()
      ensures status <==> pdo != null
      ensures status ==> message == "Connection Successful"
      ensures !status ==> old(Refusal()).Some? && message == OpenFailure(old(Refusal()).value)
    {
      var failure := ConnectionPDO();
      if failure.Some? {
        return false, failure.value;
      }
      return true, "Connection Successful";
    }

    /** The shared body of the four operations that return a boolean. */
    method Write(op: Operation, statement: string, params: seq<Entry>) returns (r: Result<bool, Exception>)
      requires Valid()
      modifies this`pdo, this`attempts, pdo
      ensures Valid()
      ensures Guard(op, statement) ==> pdo == old(pdo) && attempts == old(attempts) && (pdo != null ==> unchanged(pdo))
      ensures !Guard(op, statement) ==> Connected() && Logged(Plan(op, statement, params))
      ensures r == WriteOutcome(op, statement, params, old(Refusal()), answer, |old(Prior())|)
    {
      if Guard(op, statement) {
        return Err(Rejected(op));
      }
      r := Proceed(op, statement, params);
    }

    /** `Write` once the verb check has passed. */
    method Proceed(op: Operation, statement: string, params: seq<Entry>) returns (r: Result<bool, Exception>)
      requires Valid()
      modifies this`pdo, this`attempts, pdo
      ensures Valid() && Connected() && Logged(Plan(op, statement, params))
      ensures r == WriteFlow(op, statement, params, old(Refusal()), answer, |old(Prior())|)
    {
      var start := if pdo == null then 0 else |pdo.log|;
      var failure := Perform(Plan(op, statement, params));
      if failure.Some? {
        return Err(Wrapped(op, failure.value));
      }
      return Ok(Verdict(op, params, answer(start + ExecuteAt(op, params))));
    }

    /** The shared body of the two operations that fetch rows. */
    method Fetch(op: Operation, statement: string, params: seq<Entry>) returns (r: Result<Client, Exception>)
      requires Valid()
      modifies this, pdo
      ensures Valid()
      ensures Guard(op, statement) ==> unchanged(this) && (pdo != null ==> unchanged(pdo))
      ensures !Guard(op, statement) ==> Connected() && Logged(Plan(op, statement, params))
      ensures var o := QueryOutcome(op, statement, params, old(Refusal()), answer, |old(Prior())|);
        && (o.Ok? ==> r == Ok(this) && response == o.value)
        && (o.Err? ==> r == Err(o.error) && response == old(response))
    {
      if Guard(op, statement) {
        return Err(Rejected(op));
      }
      r := FetchRows(op, statement, params);
    }

    /** `Fetch` once the verb check has passed. */
    method FetchRows(op: Operation, statement: string, params: seq<Entry>) returns (r: Result<Client, Exception>)
      requires Valid()
      modifies this, pdo
      ensures Valid() && Connected() && Logged(Plan(op, statement, params))
      ensures var o := QueryFlow(op, statement, params, old(Refusal()), answer, |old(Prior())|);
        && (o.Ok? ==> r == Ok(this) && response == o.value)
        && (o.Err? ==> r == Err(o.error) && response == old(response))
    {
      var start := if pdo == null then 0 else |pdo.log|;
      var failure := Perform(Plan(op, statement, params));
      if failure.Some? {
        return Err(Wrapped(op, failure.value));
      }
      response := answer(start + ExecuteAt(op, params) + 1).rows;
      return Ok(this);
    }

    /** `select($statement, $params)`, binding each key to its own value
        (see `SelectBindsAsWritten` for the code as written). */
    method Select(statement: string, params: seq<Entry>) returns (r: Result<Client, Exception>)
      requires Valid()
      modifies this, pdo
      ensures Valid()
      ensures Guard(SelectOp, statement) ==> unchanged(this) && (pdo != null ==> unchanged(pdo))
      ensures !Guard(SelectOp, statement) ==> Connected() && Logged(Plan(SelectOp, statement, params))
      ensures var o := QueryOutcome(SelectOp, statement, params, old(Refusal()), answer, |old(Prior())|);
        && (o.Ok? ==> r == Ok(this) && response == o.value)
        && (o.Err? ==> r == Err(o.error) && response == old(response))
    {
      r := Fetch(SelectOp, statement, params);
    }

    /** `executeProcedure($procedure)`, preparing the procedure (see
        `ProcedurePlanAsWritten` for the code as written). */
    method ExecuteProcedure(procedure: string) returns (r: Result<Client, Exception>)
      requires Valid()
      modifies this, pdo
      ensures Valid()
      ensures Guard(ProcedureOp, procedure) ==> unchanged(this) && (pdo != null ==> unchanged(pdo))
      ensures !Guard(ProcedureOp, procedure) ==> Connected() && Logged(Plan(ProcedureOp, procedure, []))
      ensures var o := QueryOutcome(ProcedureOp, procedure, [], old(Refusal()), answer, |old(Prior())|);
        && (o.Ok? ==> r == Ok(this) && response == o.value)
        && (o.Err? ==> r == Err(o.error) && response == old(response))
    {
      r := Fetch(ProcedureOp, procedure, []);
    }

    /** `update($statement, $params)`. */
    method Update(statement: string, params: seq<Entry>) returns (r: Result<bool, Exception>)
      requires Valid()
      modifies this`pdo, this`attempts, pdo
      ensures Valid()
      ensures Guard(UpdateOp, statement) ==> pdo == old(pdo) && attempts == old(attempts) && (pdo != null ==> unchanged(pdo))
      ensures !Guard(UpdateOp, statement) ==> Connected() && Logged(Plan(UpdateOp, statement, params))
      ensures r == WriteOutcome(UpdateOp, statement, params, old(Refusal()), answer, |old(Prior())|)
    {
      r := Write(UpdateOp, statement, params);
    }

    /** `insert($statement, $params)`. */
    method Insert(statement: string, params: seq<Entry>) returns (r: Result<bool, Exception>)
      requires Valid()
      modifies this`pdo, this`attempts, pdo
      ensures Valid()
      ensures Guard(InsertOp, statement) ==> pdo == old(pdo) && attempts == old(attempts) && (pdo != null ==> unchanged(pdo))
      ensures !Guard(InsertOp, statement) ==> Connected() && Logged(Plan(InsertOp, statement, params))
      ensures r == WriteOutcome(InsertOp, statement, params, old(Refusal()), answer, |old(Prior())|)
    {
      r := Write(InsertOp, statement, params);
    }

    /** `delete($statement, $params)`. */
    method Delete(statement: string, params: seq<Entry>) returns (r: Result<bool, Exception>)
      requires Valid()
      modifies this`pdo, this`attempts, pdo
      ensures Valid()
      ensures Guard(DeleteOp, statement) ==> pdo == old(pdo) && attempts == old(attempts) && (pdo != null ==> unchanged(pdo))
      ensures !Guard(DeleteOp, statement) ==> Connected() && Logged(Plan(DeleteOp, statement, params))
      ensures r == WriteOutcome(DeleteOp, statement, params, old(Refusal()), answer, |old(Prior())|)
    {
      r := Write(DeleteOp, statement, params);
    }

    /** `executeTransactionalProcedure($procedure)`. */
    method ExecuteTransactionalProcedure(procedure: string) returns (r: Result<bool, Exception>)
      requires Valid()
      modifies this`pdo, this`attempts, pdo
      ensures Valid()
      ensures Guard(TransactionalOp, procedure) ==>
        pdo == old(pdo) && attempts == old(attempts) && (pdo != null ==> unchanged(pdo))
      ensures !Guard(TransactionalOp, procedure) ==> Connected() && Logged(Plan(TransactionalOp, procedure, []))
      ensures r == WriteOutcome(TransactionalOp, procedure, [], old(Refusal()), answer, |old(Prior())|)
    {
      r := Write(TransactionalOp, procedure, []);
    }

    // -------------------------------------------------------------------
    // Reading the response

    /** `first()` on the raw rows: the first row, null when there is none. */
    function First(): (r: Option<Value>)
      reads this
      ensures r.Some? <==> IsNonEmptyArray()
      ensures r.Some? ==> r.value == response[0]
    {
      if IsNonEmptyArray() then Some(response[0]) else None
    }

    /** `last()` on the raw rows. */
    function Last(): (r: Option<Value>)
      reads this
      ensures r.Some? <==> IsNonEmptyArray()
      ensures r.Some? ==> r.value == response[|response| - 1]
    {
      if IsNonEmptyArray() then Some(response[|response| - 1]) else None
    }

    /** `get()` on the raw rows: the rows, `[]` when there are none. */
    function Get(): (r: seq<Value>)
      reads this
      ensures |r| == Count()
      ensures IsNonEmptyArray() ==> r == response
      ensures !IsNonEmptyArray() ==> r == []
    {
      if IsNonEmptyArray() then response else []
    }

    /** `count()`. */
    function Count(): (n: nat)
      reads this
      ensures n == 0 <==> !IsNonEmptyArray()
    {
      |response|
    }

    /** `chunk($size)`: null when there are no rows; otherwise consecutive
        groups of `size` rows, the last possibly shorter, that put together
        give the rows; `array_chunk` rejects a size below 1. */
    function Chunk(size: int): (r: Result<Option<seq<seq<Value>>>, Exception>)
      reads this
      ensures !IsNonEmptyArray() ==> r == Ok(None)
      ensures IsNonEmptyArray() && size < 1 ==> r.Err? && r.error.ValueError?
      ensures IsNonEmptyArray() && size >= 1 ==>
        r.Ok? && r.value.Some? &&
        var c := r.value.value;
        && ResponseOps.Flatten(c) == response
        && (forall i :: 0 <= i < |c| ==> 0 < |c[i]| <= size)
        && (forall i :: 0 <= i < |c| - 1 ==> |c[i]| == size)
    {
      if !IsNonEmptyArray() then Ok(None)
      else if size < 1 then Err(ValueError("array_chunk(): Argument #2" + " ($length) must be" + " greater than 0"))
      else
        ResponseOps.ChunkSpec(response, size);
        Ok(Some(ResponseOps.Chunk(response, size)))
    }

    // -------------------------------------------------------------------
    // Rewriting the response (src/Traits/Methods.php)

    /** `reverse()`. */
    method Reverse()
      modifies this`response
      ensures response == ResponseOps.Reverse(old(response))
    {
      if IsNonEmptyArray() {
        response := ResponseOps.Reverse(response);
      }
    }

    /** `slice($offset, $length)`. */
    method Slice(offset: int, length: Option<int>)
      modifies this`response
      ensures response == ResponseOps.Slice(old(response), offset, length)
    {
      if IsNonEmptyArray() {
        response := ResponseOps.Slice(response, offset, length);
      }
    }

    /** `column($column)`. */
    method Column(c: Key)
      modifies this`response
      ensures response == ResponseOps.Column(old(response), c)
    {
      if IsNonEmptyArray() {
        response := ResponseOps.Column(response, c);
      }
    }

    /** `pad($size, $value)`, applied even to an empty response;
        `array_pad` refuses to add more than `PadLimit` elements, and the
        response is then left as it was. */
    method Pad(size: int, v: Value) returns (r: Result<Client, Exception>)
      modifies this`response
      ensures ResponseOps.PadAccepted(|old(response)|, size) ==>
        r == Ok(this) && response == ResponseOps.Pad(old(response), size, v)
      ensures !ResponseOps.PadAccepted(|old(response)|, size) ==>
        r.Err? && r.error.ValueError? && response == old(response)
    {
      if !ResponseOps.PadAccepted(|response|, size) {
        return Err(ValueError("array_pad(): Argument #2" + " ($length) must be" + " less than or equal to 1048576"));
      }
      response := ResponseOps.Pad(response, size, v);
      return Ok(this);
    }

    /** `values()`: renumbering a list changes nothing. */
    method Values()
      modifies this`response
      ensures response == old(response)
    {
      if IsNonEmptyArray() {
        response := response[..];
      }
    }

    /** `pop()`: removes and returns the last row, null when there is
        none. */
    method Pop() returns (v: Option<Value>)
      modifies this`response
      ensures v == old(Last())
      ensures v.None? ==> response == old(response)
      ensures v.Some? ==> old(response) == response + [v.value]
    {
      if IsNonEmptyArray() {
        v := Some(response[|response| - 1]);
        response := response[..|response| - 1];
      } else {
        v := None;
      }
    }

    /** `shift()`: removes and returns the first row, null when there is
        none. */
    method Shift() returns (v: Option<Value>)
      modifies this`response
      ensures v == old(First())
      ensures v.None? ==> response == old(response)
      ensures v.Some? ==> old(response) == [v.value] + response
    {
      if IsNonEmptyArray() {
        v := Some(response[0]);
        response := response[1..];
      } else {
        v := None;
      }
    }

    /** `push(...$values)`: appends the values one at a time, in order. */
    method Push(values: seq<Value>)
      modifies this`response
      ensures response == old(response) + values
      ensures values != [] ==> Last() == Some(values[|values| - 1])
    {
      var i := 0;
      while i < |values|
        invariant 0 <= i <= |values|
        invariant response == old(response) + values[..i]
      {
        response := response + [values[i]];
        assert values[..i + 1] == values[..i] + [values[i]];
        i := i + 1;
      }
      assert values[..i] == values;
    }

    /** `unshift(...$values)`: prepends the values one at a time, so they
        end up in front in reverse order. */
    method Unshift(values: seq<Value>)
      modifies this`response
      ensures response == ResponseOps.Reverse(values) + old(response)
      ensures values != [] ==> First() == Some(values[|values| - 1])
    {
      var i := 0;
      while i < |values|
        invariant 0 <= i <= |values|
        invariant response == ResponseOps.Reverse(values[..i]) + old(response)
      {
        response := [values[i]] + response;
        assert values[..i + 1] == values[..i] + [values[i]];
        ResponseOps.ReverseSnoc(values[..i], values[i]);
        i := i + 1;
      }
      assert values[..i] == values;
      if values != [] {
        ResponseOps.ReverseAt(values, 0);
      }
    }

    // -------------------------------------------------------------------
    // Connection attributes (src/Traits/Attributes.php)

    /** What a setter returns once the driver answered `a`: the client,
        unless the call raised. */
    function Answered(a: Answer): (r: Result<Client, Exception>)
      ensures r.Ok? <==> a.error.None?
      ensures r.Ok? ==> r.value == this
      ensures r.Err? ==> r.error == PDOException(a.error.value)
    {
      if a.error.Some? then Err(PDOException(a.error.value)) else Ok(this)
    }

    /** `$this->PDO->setAttribute($attribute, $setting)`, then `return
        $this`; with no connection yet, calling a method on null is an
        engine error. */
    method SetAttr(attribute: string, setting: string) returns (r: Result<Client, Exception>)
      requires Valid()
      modifies pdo
      ensures pdo == null ==> r == Err(PhpError(NullCall("setAttribute")))
      ensures pdo != null ==>
        && pdo.log == old(pdo.log) + [SetAttribute(attribute, setting)]
        && r == Answered(answer(|old(pdo.log)|))
    {
      if pdo == null {
        return Err(PhpError(NullCall("setAttribute")));
      }
      var a := pdo.Call(SetAttribute(attribute, setting));
      return Answered(a);
    }

    /** `setTimeOut($seconds)`. */
    method SetTimeOut(seconds: int) returns (r: Result<Client, Exception>)
      requires Valid()
      modifies pdo
      ensures pdo == null ==> r == Err(PhpError(NullCall("setAttribute")))
      ensures pdo != null ==>
        && pdo.log == old(pdo.log) + [SetAttribute("SQLSRV_ATTR_QUERY_TIMEOUT", IntToString(seconds))]
        && r == Answered(answer(|old(pdo.log)|))
    {
      r := SetAttr("SQLSRV_ATTR_QUERY_TIMEOUT", IntToString(seconds));
    }

    /** `setErrorMode($mode)`: writes the normalised mode. */
    method SetErrorMode(mode: string) returns (r: Result<Client, Exception>)
      requires Valid()
      modifies pdo
      ensures pdo == null ==> r == Err(PhpError(NullCall("setAttribute")))
      ensures pdo != null ==>
        && pdo.log == old(pdo.log) + [SetAttribute("ATTR_ERRMODE", ErrorModeSetting(mode))]
        && r == Answered(answer(|old(pdo.log)|))
    {
      r := SetAttr("ATTR_ERRMODE", ErrorModeSetting(mode));
    }

    /** `setEncoding($case)`: writes the normalised encoding. */
    method SetEncoding(name: string) returns (r: Result<Client, Exception>)
      requires Valid()
      modifies pdo
      ensures pdo == null ==> r == Err(PhpError(NullCall("setAttribute")))
      ensures pdo != null ==>
        && pdo.log == old(pdo.log) + [SetAttribute("SQLSRV_ATTR_ENCODING", EncodingSetting(name))]
        && r == Answered(answer(|old(pdo.log)|))
    {
      r := SetAttr("SQLSRV_ATTR_ENCODING", EncodingSetting(name));
    }

    /** `setDirectQuery()`. */
    method SetDirectQuery() returns (r: Result<Client, Exception>)
      requires Valid()
      modifies pdo
      ensures pdo == null ==> r == Err(PhpError(NullCall("setAttribute")))
      ensures pdo != null ==>
        && pdo.log == old(pdo.log) + [SetAttribute("SQLSRV_ATTR_DIRECT_QUERY", "true")]
        && r == Answered(answer(|old(pdo.log)|))
    {
      r := SetAttr("SQLSRV_ATTR_DIRECT_QUERY", "true");
    }

    /** `noCount()`: only `setDirectQuery()`. */
    method NoCount() returns (r: Result<Client, Exception>)
      requires Valid()
      modifies pdo
      ensures pdo == null ==> r == Err(PhpError(NullCall("setAttribute")))
      ensures pdo != null ==>
        && pdo.log == old(pdo.log) + [SetAttribute("SQLSRV_ATTR_DIRECT_QUERY", "true")]
        && r == Answered(answer(|old(pdo.log)|))
    {
      r := SetDirectQuery();
    }

    /** `setAnsiNulls`, `setAnsiPadding`, `setAnsiWarnings` and
        `setArithAbort`: execute `SET <option> ON|OFF` for those values
        only, ignoring what `exec` returns; any other value touches
        nothing, not even a missing connection. */
    method SetOption(o: SetOption, value: string) returns (r: Result<Client, Exception>)
      requires Valid()
      modifies pdo
      ensures OptionCommand(o, value).None? ==> r == Ok(this) && (pdo != null ==> unchanged(pdo))
      ensures OptionCommand(o, value).Some? && pdo == null ==> r == Err(PhpError(NullCall("exec")))
      ensures OptionCommand(o, value).Some? && pdo != null ==>
        && pdo.log == old(pdo.log) + [Exec(OptionCommand(o, value).value)]
        && r == Answered(answer(|old(pdo.log)|))
    {
      var command := OptionCommand(o, value);
      if command.None? {
        return Ok(this);
      }
      if pdo == null {
        return Err(PhpError(NullCall("exec")));
      }
      var a := pdo.Call(Exec(command.value));
      return Answered(a);
    }

    method SetAnsiNulls(value: string) returns (r: Result<Client, Exception>)
      requires Valid()
      modifies pdo
      ensures OptionCommand(AnsiNulls, value).None? ==> r == Ok(this) && (pdo != null ==> unchanged(pdo))
      ensures OptionCommand(AnsiNulls, value).Some? && pdo == null ==> r == Err(PhpError(NullCall("exec")))
      ensures OptionCommand(AnsiNulls, value).Some? && pdo != null ==>
        && pdo.log == old(pdo.log) + [Exec(OptionCommand(AnsiNulls, value).value)]
        && r == Answered(answer(|old(pdo.log)|))
    {
      r := SetOption(AnsiNulls, value);
    }

    method SetAnsiPadding(value: string) returns (r: Result<Client, Exception>)
      requires Valid()
      modifies pdo
      ensures OptionCommand(AnsiPadding, value).None? ==> r == Ok(this) && (pdo != null ==> unchanged(pdo))
      ensures OptionCommand(AnsiPadding, value).Some? && pdo == null ==> r == Err(PhpError(NullCall("exec")))
      ensures OptionCommand(AnsiPadding, value).Some? && pdo != null ==>
        && pdo.log == old(pdo.log) + [Exec(OptionCommand(AnsiPadding, value).value)]
        && r == Answered(answer(|old(pdo.log)|))
    {
      r := SetOption(AnsiPadding, value);
    }

    method SetAnsiWarnings(value: string) returns (r: Result<Client, Exception>)
      requires Valid()
      modifies pdo
      ensures OptionCommand(AnsiWarnings, value).None? ==> r == Ok(this) && (pdo != null ==> unchanged(pdo))
      ensures OptionCommand(AnsiWarnings, value).Some? && pdo == null ==> r == Err(PhpError(NullCall("exec")))
      ensures OptionCommand(AnsiWarnings, value).Some? && pdo != null ==>
        && pdo.log == old(pdo.log) + [Exec(OptionCommand(AnsiWarnings, value).value)]
        && r == Answered(answer(|old(pdo.log)|))
    {
      r := SetOption(AnsiWarnings, value);
    }

    method SetArithAbort(value: string) returns (r: Result<Client, Exception>)
      requires Valid()
      modifies pdo
      ensures OptionCommand(ArithAbort, value).None? ==> r == Ok(this) && (pdo != null ==> unchanged(pdo))
      ensures OptionCommand(ArithAbort, value).Some? && pdo == null ==> r == Err(PhpError(NullCall("exec")))
      ensures OptionCommand(ArithAbort, value).Some? && pdo != null ==>
        && pdo.log == old(pdo.log) + [Exec(OptionCommand(ArithAbort, value).value)]
        && r == Answered(answer(|old(pdo.log)|))
    {
      r := SetOption(ArithAbort, value);
    }

    // -------------------------------------------------------------------
    // Foreign keys (src/Traits/Constraints.php)

    /** `disableForeignKeys($tables)` on the client's connection (see
        `ForeignKeysAsWritten` for the code as written). */
    method DisableForeignKeys(tables: seq<string>) returns (r: Result<Unit, Exception>)
      modifies pdo
      ensures pdo == null ==> r == Err(PhpError(NullCall("exec")))
      ensures pdo != null ==>
        var o := Constraints.ToggleRun(pdo.answer, |old(pdo.log)|, Constraints.Disable,
                                       Constraints.AllTablesSql(Constraints.Disable), tables);
        pdo.log == old(pdo.log) + o.calls && r == Constraints.Reported(Constraints.Disable, o.failure)
    {
      if pdo == null {
        return Err(PhpError(NullCall("exec")));
      }
      r := Constraints.DisableForeignKeys(pdo, tables);
    }

    /** `enableForeignKeys($tables)` on the client's connection. */
    method EnableForeignKeys(tables: seq<string>) returns (r: Result<Unit, Exception>)
      modifies pdo
      ensures pdo == null ==> r == Err(PhpError(NullCall("exec")))
      ensures pdo != null ==>
        var o := Constraints.ToggleRun(pdo.answer, |old(pdo.log)|, Constraints.Enable,
                                       Constraints.AllTablesSql(Constraints.Enable), tables);
        pdo.log == old(pdo.log) + o.calls && r == Constraints.Reported(Constraints.Enable, o.failure)
    {
      if pdo == null {
        return Err(PhpError(NullCall("exec")));
      }
      r := Constraints.EnableForeignKeys(pdo, tables);
    }
    /** `noCheck($tables)` on the client's connection. */
    method NoCheck(tables: seq<string>) returns (r: Result<Unit, Exception>)
      modifies pdo
      ensures pdo == null ==> r == Err(PhpError(NullCall("exec")))
      ensures pdo != null ==>
        var o := Constraints.ToggleRun(pdo.answer, |old(pdo.log)|, Constraints.Disable,
                                       Constraints.AllTablesSql(Constraints.Disable), tables);
        pdo.log == old(pdo.log) + o.calls &&
        r == Constraints.Rewrapped(Constraints.Disable, Constraints.Reported(Constraints.Disable, o.failure))
    {
      if pdo == null {
        return Err(PhpError(NullCall("exec")));
      }
      r := Constraints.NoCheck(pdo, tables);
    }

    /** `check($tables)` on the client's connection. */
    method Check(tables: seq<string>) returns (r: Result<Unit, Exception>)
      modifies pdo
      ensures pdo == null ==> r == Err(PhpError(NullCall("exec")))
      ensures pdo != null ==>
        var o := Constraints.ToggleRun(pdo.answer, |old(pdo.log)|, Constraints.Enable,
                                       Constraints.AllTablesSql(Constraints.Enable), tables);
        pdo.log == old(pdo.log) + o.calls &&
        r == Constraints.Rewrapped(Constraints.Enable, Constraints.Reported(Constraints.Enable, o.failure))
    {
      if pdo == null {
        return Err(PhpError(NullCall("exec")));
      }
      r := Constraints.Check(pdo, tables);
    }
  }
}
