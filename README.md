# SQLServerLite in Dafny

A Dafny model of the core of SQLServerLite, a PHP client library for
Microsoft SQL Server built on PDO. The model covers:

- **Connection registry** (`Singleton`): the process-wide map from
  connection name to open handle. It records insertion order and keeps
  the flag that makes new connections join a transaction. `mount`,
  `beginTransaction`, `commit` and `rollback` are modelled.
- **Credential sources** (`SetCredentials`): credentials from an array,
  from environment variables or from a framework connection entry. The
  model covers the required-key check, trimming, and the DSN with its
  optional port and instance parts.
- **Credential validator** (`SQLServerValidator`): its four mandatory
  options, their messages, and `verify`.
- **Statement checks** (`StatementsValidator`, `CommonFunctions`,
  `Utilities`): comment stripping, the forbidden-token check, the verb
  checks, the parameter-shape check, the prefix predicates, sub-array
  detection and table-name extraction.
- **Query executor** (`Execute`): the `exec*` operations of the Execute
  trait, run against an abstract connection.
- **Client** (`SQLServerClient`):
  - the client object and where its credentials come from;
  - the connect-once connection;
  - the verb guards of its query methods;
  - the response buffer, with its list operations and accessors;
  - the attribute setters;
  - the foreign-key switches.
- **Supporting modules**:
  - `Constraints` and `Attributes`: the command texts and control flow
    of the foreign-key and attribute traits.
  - `Exceptions`: message formatting.
  - `ResponseOps`: pure specifications of the PHP array functions the
    buffer operations use.

The database driver is `Driver.Connection`. It is an object that appends
every call the library makes (prepare, bind, execute, fetch, exec, query,
close cursor, set attribute) to a log. Its answer to the call at log
position `p` is `answer(p)`, a function fixed when the connection is made.
An answer either raises, with the exception's message, or returns a
success flag, a row count, a last insert id and fetched rows. A failing
statement is thus modelled without modelling SQL Server.

`Driver.FirstError` and `Driver.Issued` state what a `try` block around
a sequence of driver calls does: the calls actually made are the planned
calls, cut after the first one that raises. Every `exec*` operation and
every client query is proved against such a plan.

Behaviour follows the code as written, also where it differs from its
doc comments:

- `isSelectQuery` and `isUpdateQuery` are inverted. As a result `select`
  rejects statements that do not start with SELECT, while `update`
  rejects statements that DO start with UPDATE.
- The `isX` verb checks of the statements validator compare a boolean
  with `0` using `===`, so they never fire.
- A forbidden comment token at index 0 is not detected, because
  `stripos` returning 0 counts as false.
- `getNameTable` drops exactly six characters, so `INSERT INTO t` names
  the table `INTO`.
- Constraints are never re-enabled after a failed write.

Three defects in the client are recorded under "## Findings". Each has
an as-written member with a lemma exhibiting the defect, and a corrected
member that the rest of the model uses.

`isNonEmptyArray` and `hasValidPDOConnection` are the predicates
`SQLServerClient.Client.IsNonEmptyArray` and `HasValidPDOConnection`.
They are pinned down through the contracts of `First`, `Last`, `Get`,
`Count`, `Chunk` and `ConnectionPDO`.

## Model

| member | source | states |
|---|---|---|
| Exceptions.CreateSQLServerException | src/Exceptions/SQLServerException.php:16-19 | the exception is an SQLServerException whose message is the library prefix followed by exactly the given text |
| Exceptions.FormatShape | src/Exceptions/Messages.php:276-287 | a formatted message opens with the library name and the method, ends with the manual URL, and holds exactly the given text between them |
| Exceptions.FormatInjective | src/Exceptions/Messages.php:276-287 | two messages formatted for the same method are equal only when their texts are |
| Exceptions.Carries | src/Exceptions/Messages.php:276-287 | the text can be read back out of a formatted message unchanged |
| Exceptions.KeyBuildersText | src/Exceptions/Messages.php:49-96 | the missing-key builders name the key in their fixed sentence, under `SQLServer::database()` or `SQLServer::connection()` |
| Exceptions.EnvironmentBuilderFramed | src/Exceptions/Messages.php:62-68 | the undefined-environment message is framed by library name and manual URL |
| Exceptions.OutsideBuilderFramed | src/Exceptions/Messages.php:75-81 | the outside-the-framework message is framed by library name and manual URL |
| Exceptions.ForeignKeyBuildersText | src/Exceptions/Messages.php:105-126 | the foreign-key builders carry a given message verbatim and their default text when it is null |
| Exceptions.StatementBuildersText | src/Exceptions/Messages.php:200-266 | the select/update/insert/delete/procedure builders carry a given message verbatim and their default when null, under their own method |
| Exceptions.NotIsQueryBuildersText | src/Exceptions/Messages.php:133-152 | the SELECT and UPDATE rejection messages name their method and the required verb |
| Exceptions.NotIsWriteBuildersText | src/Exceptions/Messages.php:159-191 | the INSERT, DELETE and EXEC rejection messages name their method and the required verb |
| Utilities.HasSubArrays | src/Utilities/Utilities.php:13-26 | the result is true exactly when the value is an array with some array element; any non-array gives false |
| Utilities.GetNameTableShape | src/Utilities/Utilities.php:34-39 | the name is the longest space-free prefix of the statement after six characters are dropped and the rest is trimmed; it holds no space and starts with no whitespace |
| Utilities.GetNameTableShort | src/Utilities/Utilities.php:36 | a statement of at most six characters gives the empty name |
| Utilities.GetNameTableExamples | src/Utilities/Utilities.php:36-38 | `UPDATE t SET` gives `t` but `INSERT INTO t` gives `INTO` |
| Utilities.BeforeFirstSpaceShape | src/Utilities/Utilities.php:38 | the text before the first space is a space-free prefix ending at the first space |
| CommonFunctions.QueryPredicatesAsPrefixTests | src/Traits/CommonFunctions.php:83-144 | isSelectQuery/isUpdateQuery hold exactly when the statement does NOT start with SELECT/UPDATE in any case; the insert, delete and procedure tests hold exactly when it starts with INSERT, DELETE or EXEC |
| CommonFunctions.LeadingWhitespaceNeverMatches | src/Traits/CommonFunctions.php:83-144 | no prefix test matches a statement that starts with whitespace |
| CommonFunctions.PrefixInAnyCaseMatches | src/Traits/CommonFunctions.php:83-144 | a statement starting with the verb in any spelling of case matches, longer words included |
| CommonFunctions.SelectPredicateExamples | src/Traits/CommonFunctions.php:83-88 | a statement opening with `select` or `SELECT` is not a select query by this predicate, and one opening with any other first letter than s, such as `DROP TABLE x`, is |
| StatementsValidator.FromNewline | src/Validator/StatementsValidator.php:25 | what a line comment leaves is the suffix from the first newline on |
| StatementsValidator.StripLineCommentsShape | src/Validator/StatementsValidator.php:25 | no `--` or `//` survives line-comment removal |
| StatementsValidator.StripLineCommentsNoMarker | src/Validator/StatementsValidator.php:25 | a text without markers is unchanged |
| StatementsValidator.StripLineCommentsFirstMarker | src/Validator/StatementsValidator.php:25 | the text before the first marker is kept and the rest of that line is dropped |
| StatementsValidator.FindCloser | src/Validator/StatementsValidator.php:28 | finds the nearest `*/` at or after a position, or reports that none follows |
| StatementsValidator.StripBlockCommentsNoOpener | src/Validator/StatementsValidator.php:28 | a text without `/*` is unchanged |
| StatementsValidator.StripBlockCommentsFirstComment | src/Validator/StatementsValidator.php:28 | the first `/*` up to the nearest following `*/` is removed, and stripping continues after it |
| StatementsValidator.StripBlockCommentsUnterminated | src/Validator/StatementsValidator.php:28 | an opener with no closer after it leaves the text unchanged |
| StatementsValidator.FoundPastStartIff | src/Validator/StatementsValidator.php:32-36 | the `stripos` condition holds exactly when the case-folded token's first occurrence is past index 0 |
| StatementsValidator.FirstReported | src/Validator/StatementsValidator.php:31-36 | reports the first token in list order whose condition holds, and none exactly when no token's holds |
| StatementsValidator.WithoutCommentsSpec | src/Validator/StatementsValidator.php:22-39 | returns the stripped statement exactly when every forbidden token is absent or first occurs at index 0; otherwise it throws naming a token that occurs, but not first at index 0 |
| StatementsValidator.OpeningTokenNeverReported | src/Validator/StatementsValidator.php:32-36 | a token that opens the stripped statement is never the one reported |
| StatementsValidator.CommentsMessageInjective | src/Validator/StatementsValidator.php:34 | different tokens give different messages |
| StatementsValidator.WithoutCommentsClean | src/Validator/StatementsValidator.php:22-39 | a statement without `/` and `-` passes unchanged |
| StatementsValidator.VerbChecksOnlyCheckComments | src/Validator/StatementsValidator.php:48-124 | each verb check succeeds exactly when `withoutComments` of the trimmed statement does, and throws its exception otherwise |
| StatementsValidator.VerbChecksAcceptAnyVerb | src/Validator/StatementsValidator.php:48-124 | a statement without comment characters passes all five verb checks, whatever its verb |
| StatementsValidator.IsValidParamsSpec | src/Validator/StatementsValidator.php:133-138 | the check throws exactly when some parameter value is an array |
| StatementsValidator.IsValidParamsError | src/Validator/StatementsValidator.php:133-138 | what it throws is the SQLServerException with the fixed multiple-parameters message |
| SQLServerValidator.MessageForInjective | src/Validator/SQLServerValidator.php:52-60 | different options have different messages |
| SQLServerValidator.Validator.constructor | src/Validator/SQLServerValidator.php:26-30 | stores the credentials and the connection name |
| SQLServerValidator.Validator.Mandatory | src/Validator/SQLServerValidator.php:37-45 | there are four mandatory options |
| SQLServerValidator.Validator.MandatoryMatchesMessages | src/Validator/SQLServerValidator.php:37-60 | the mandatory options are distinct and are exactly the keys of the message table |
| SQLServerValidator.Validator.MissingMessagesSound | src/Validator/SQLServerValidator.php:84-88 | every collected message belongs to a listed option that is absent or empty |
| SQLServerValidator.Validator.MissingMessagesComplete | src/Validator/SQLServerValidator.php:84-88 | an option's message is collected exactly when the option is listed and absent or empty |
| SQLServerValidator.Validator.Verify | src/Validator/SQLServerValidator.php:67-96 | throws for a missing sqlsrv driver first, then for empty credentials naming the connection, then with all collected messages joined by ", "; otherwise returns true |
| SQLServerValidator.Validator.VerifyReportsEveryMissingOption | src/Validator/SQLServerValidator.php:84-95 | nothing is collected exactly when no mandatory option is missing, and every missing option's message is collected |
| SetCredentials.FirstBlankAtSpec | src/SetCredentials.php:62-68 | finds the first required key that is absent or PHP-empty after trim, in order, or reports that none is |
| SetCredentials.FindBlank | src/SetCredentials.php:64-68 | the loop over the required keys returns the first blank one |
| SetCredentials.DsnShape | src/SetCredentials.php:161-173 | the DSN starts with the trimmed server, ends with the trimmed database, and holds only the port part and then the instance part between them |
| SetCredentials.DsnWithoutPortOrInstance | src/SetCredentials.php:161-173 | without a usable port or instance the DSN is server and database only; no default port is added |
| SetCredentials.PortSegmentSpec | src/SetCredentials.php:164-166 | the port part is present exactly when the port is set, non-empty and numeric, and is then a comma and the port's number, saturated at `PHP_INT_MAX` as `intval` does |
| PhpStrings.IntVal | src/SetCredentials.php:165 | `intval` of a digit string is never above `PHP_INT_MAX`, never above the number, and is the number or `PHP_INT_MAX` |
| SetCredentials.InstanceSegmentSpec | src/SetCredentials.php:167-169 | the instance part is present exactly when the instance is non-empty, and is a backslash and the untrimmed instance |
| SetCredentials.EnvironmentArray | src/SetCredentials.php:88-95 | each credential is read from the variable `<prefix>_SQLSRV_*` for it, and is missing when unset |
| SetCredentials.ConnectionPrecedence | src/SetCredentials.php:126-135 | host takes precedence over server and username over user, falling back only when the first is missing |
| SetCredentials.AcceptedCredentialsAreUsable | src/SetCredentials.php:62-72 | accepted credentials have non-empty server, database, user and password, and the DSN names the server |
| SetCredentials.SetCredentials.constructor | src/SetCredentials.php:43-49 | a new object has no credentials assigned |
| SetCredentials.SetCredentials.Assign | src/SetCredentials.php:70-72 | stores the DSN built from the array and the trimmed user and password |
| SetCredentials.SetCredentials.Store | src/SetCredentials.php:62-72 | reports the first blank required key and changes nothing, or stores the credentials |
| SetCredentials.SetCredentials.SetCredentialsFromArray | src/SetCredentials.php:60-75 | throws the missing-key exception for the first blank required key, leaving the object unchanged; otherwise stores DSN, trimmed user and password |
| SetCredentials.SetCredentials.SetCredentialsFromEnvironment | src/SetCredentials.php:86-110 | the same over the environment variables, with the single undefined-variable message |
| SetCredentials.SetCredentials.SetCredentialsFromConnections | src/SetCredentials.php:122-152 | outside the framework it throws before reading configuration; otherwise the same check over the connection entry, naming the key |
| SetCredentials.SetCredentials.GetCredentials | src/SetCredentials.php:180-187 | returns exactly the stored DSN, user and password |
| Singleton.MountDsnShape | src/Singleton/SQLServerSingleton.php:35-38 | the mount DSN names the host, then the port or 1433, then the instance only when given, then database and login timeout |
| Singleton.ApplyToSpec | src/Singleton/SQLServerSingleton.php:72-76 | applying a transaction call along the registered names changes each named handle once and no other |
| Singleton.BeginThenCommit | src/Singleton/SQLServerSingleton.php:70-101 | after begin and then commit, no handle has an open transaction and each accepted exactly those two calls |
| Singleton.FirstRefused | src/Singleton/SQLServerSingleton.php:90-92 | the position of the first handle the driver refuses, with every earlier one accepted |
| Singleton.FirstRefusedAt | src/Singleton/SQLServerSingleton.php:90-92 | the first refusal is at `i` when `i` is refused and none before is |
| Singleton.ApplyEach | src/Singleton/SQLServerSingleton.php:90-92 | the loop applies the call to the handles in order and stops at the first refusal with its error |
| Singleton.PartialEnd | src/Singleton/SQLServerSingleton.php:86-123 | when handle k refuses, the handles before k have ended their transaction and k and every later one are untouched |
| Singleton.Registry.constructor | src/Singleton/SQLServerSingleton.php:14-19 | the registry starts empty with the flag off |
| Singleton.Registry.Mount | src/Singleton/SQLServerSingleton.php:30-63 | a registered name returns its handle and changes nothing; a new name is opened, joins a transaction exactly when the flag is set, and only then is added as one new entry; a driver error registers nothing |
| Singleton.Registry.ApplyAll | src/Singleton/SQLServerSingleton.php:72-76 | applies a transaction call to every handle in insertion order, stopping at the first refusal |
| Singleton.Registry.BeginTransaction | src/Singleton/SQLServerSingleton.php:70-79 | begins on every handle in order and then sets the flag; on an empty registry it only sets the flag |
| Singleton.Registry.Commit | src/Singleton/SQLServerSingleton.php:86-101 | an empty registry throws "not initialized" and keeps the flag; otherwise commits each handle in order and clears the flag, or stops at a refusal with the flag kept |
| Singleton.Registry.Rollback | src/Singleton/SQLServerSingleton.php:108-123 | the same for rollback |
| Driver.FirstErrorSpec | src/Traits/Execute.php:37-59 | the first error is the first call able to fail whose answer raises, with no earlier raise |
| Driver.IssuedAppend | src/Traits/Execute.php:37-59 | running two plans one after the other issues the first and, only if it did not raise, the second |
| Driver.StopsAt | src/Traits/Execute.php:37-59 | a plan that raises at call k issues exactly its first k+1 calls and reports that call's error |
| Driver.BindsNeverFail | src/Traits/Execute.php:43-49 | in this model binding never raises, so a run of binds is issued whole (the driver's refusals are listed under Left out) |
| Driver.Connection.Run | src/Traits/Execute.php:37-59 | the connection's log gains the plan cut after its first raise, and the error is that raise |
| Execute.Binds | src/Traits/Execute.php:43-49 | at most one bind per parameter; which keys are bound, and to what, is stated by `Execute.BindsSpec` |
| Execute.BindsOnlyBind | src/Traits/Execute.php:43-49 | binding issues only bind calls |
| Execute.BindsSpec | src/Traits/Execute.php:43-49 | a key is bound to its value exactly when `":"+key` occurs in the statement |
| Execute.PlaceholderPrefixAlsoMatches | src/Traits/Execute.php:45 | `:id` is bound for a statement that only holds `:idx` |
| Execute.Batch | src/Traits/Execute.php:112-121 | at least one call per element; each element's binds and its execute, in order, are placed by `Execute.BatchExecutesEachElement` and `Execute.BatchAppend` |
| Execute.BatchAppend | src/Traits/Execute.php:112-121 | the batch of two lists is the batch of the first and then of the second |
| Execute.BatchExecutesEachElement | src/Traits/Execute.php:112-121 | each element's execute sits at its own position in the batch, in order |
| Execute.Ids | src/Traits/Execute.php:165-181 | one id per element; each id is `lastInsertId` or null as `Execute.IdsSnoc` states |
| Execute.IdsSnoc | src/Traits/Execute.php:169-179 | each element's id is the last insert id of its own execute when that affected rows, else null |
| Execute.ConstraintTables | src/Traits/Execute.php:320-336 | with the flag off no table; with listed tables those tables; else the statement's table name if non-empty |
| Execute.NoCheckPlan | src/Traits/Execute.php:320-336 | one `NOCHECK CONSTRAINT ALL` exec per table, in order |
| Execute.CheckPlan | src/Traits/Execute.php:344-366 | one `CHECK CONSTRAINT ALL` exec per table, in order |
| Execute.InsertBody | src/Traits/Execute.php:108-140 | an insert always issues a call; the calls of each branch and the response are stated by `Execute.Executor.ExecInsert` and `Execute.InsertResponseCases` |
| Execute.DeleteBody | src/Traits/Execute.php:222-240 | a delete always issues a call; the calls of each branch and the response are stated by `Execute.Executor.ExecDelete` and `Execute.DeleteResponseCases` |
| Execute.QueryResponseCases | src/Traits/Execute.php:35-59 | the response is the fetched rows when every call returned and the parameters were accepted, and unchanged otherwise |
| Execute.TransactionalResponseCases | src/Traits/Execute.php:288-313 | the response is what `execute()` returned, once the cursor closed, and unchanged otherwise |
| Execute.UpdateResponseCases | src/Traits/Execute.php:67-95 | the response is execute-success and rowCount > 0, set before constraints are re-enabled |
| Execute.InsertResponseCases | src/Traits/Execute.php:102-148 | the response is the last execute's success and rowCount > 0, or `exec() > 0` without parameters |
| Execute.InsertGetIdResponseCases | src/Traits/Execute.php:155-209 | the response is the list of per-element ids for a batch, the last insert id or null otherwise, and `exec() > 0` without parameters |
| Execute.DeleteResponseCases | src/Traits/Execute.php:216-248 | the response is `rowCount() > 0` with parameters and `exec() !== false` without |
| Execute.BracketClosesOnlyAfterSuccess | src/Traits/Execute.php:67-95 | the CHECK statements are issued exactly when disabling and the write both returned |
| Execute.RejectedUpdateLeavesConstraintsOff | src/Traits/Execute.php:67-95 | an update whose parameters are rejected issues only the NOCHECK statements and the prepare |
| Execute.Outcome | src/Traits/Execute.php:91-94 | an operation succeeds exactly when no call raised and the parameters were accepted; every failure is an SQLServerException with the operation's prefix |
| Execute.Executor.BindParams | src/Traits/Execute.php:43-49 | the connection's log gains exactly the filtered binds |
| Execute.Executor.InactivateCheckConstraint | src/Traits/Execute.php:320-337 | the log gains the NOCHECK plan of the tables, up to its first raise |
| Execute.Executor.ActivateCheckConstraint | src/Traits/Execute.php:344-366 | the log gains the CHECK plan of the tables, up to its first raise |
| Execute.Executor.ExecuteEach | src/Traits/Execute.php:112-121 | executes once per element in order, stopping at the first raise, and collects the per-element ids |
| Execute.Executor.RunQuery | src/Traits/Execute.php:35-60 | the log gains prepare, binds, execute and fetch up to the first raise; the result and the response are as stated above |
| Execute.Executor.ExecTransactionalProcedure | src/Traits/Execute.php:288-313 | the same with execute and close cursor |
| Execute.Executor.ExecUpdate | src/Traits/Execute.php:67-95 | the log gains the NOCHECK plan, the update and the CHECK plan, cut after the first raise; result and response as stated above |
| Execute.Executor.ExecInsert | src/Traits/Execute.php:102-148 | the same for insert, single or batch, with or without parameters |
| Execute.Executor.ExecInsertGetId | src/Traits/Execute.php:155-209 | the same for insert_get_id |
| Execute.Executor.ExecDelete | src/Traits/Execute.php:216-248 | the same for delete |
| Execute.Executor.ExecGeneral | src/Traits/Execute.php:17-28 | each of the seven operation names runs its operation; any other name raises |
| Constraints.Statements | src/Traits/Constraints.php:55-57 | one ALTER TABLE statement per table, in order |
| Constraints.JoinedAppend | src/Traits/Constraints.php:54-57 | the batch of two table lists is the batch of the first followed by that of the second |
| Constraints.RaisedCarries | src/Traits/Constraints.php:87-90 | the rethrown exception carries "Error disabling/enabling foreign keys: " and the inner message inside the builder's frame |
| Constraints.SweepComplete | src/Traits/Constraints.php:75-81 | a sweep that did not fail executed every statement, each of which returned |
| Constraints.SweepStops | src/Traits/Constraints.php:75-81 | a failing sweep executed the statements up to the first that failed, and no further |
| Constraints.SweepRunsThrough | src/Traits/Constraints.php:75-81 | when every statement returns, all are executed and nothing fails |
| Constraints.SweepStopsAt | src/Traits/Constraints.php:75-81 | when statement k is the first to fail, exactly statements 0..k are executed |
| Constraints.ListedTablesOneBatch | src/Traits/Constraints.php:52-58 | listed tables give exactly one exec of the joined statements, which fails exactly when that exec raises |
| Constraints.FallbackOnlyAfterFalse | src/Traits/Constraints.php:61-64 | the `sys.foreign_keys` query runs only when there are no tables and the procedure exec returned false |
| Constraints.FallbackExecutesFetched | src/Traits/Constraints.php:66-84 | the fallback executes the fetched statements in order |
| Constraints.JoinTables | src/Traits/Constraints.php:54-57 | the loop builds the concatenated statements |
| Constraints.ExecEach | src/Traits/Constraints.php:75-81 | the loop issues the sweep's calls and reports its failure |
| Constraints.Fallback | src/Traits/Constraints.php:66-84 | issues the query and the sweep, failing when the query fails |
| Constraints.Switch | src/Traits/Constraints.php:52-86 | issues the listed-tables batch or the procedure call with its fallback |
| Constraints.RewrappedCarries | src/Traits/Constraints.php:157-165 | noCheck/check wrap the message once more, and success stays success |
| Constraints.DisableForeignKeys | src/Traits/Constraints.php:49-93 | issues the switch's calls; fails exactly when the switch failed, with the wrapped message |
| Constraints.EnableForeignKeys | src/Traits/Constraints.php:102-146 | the same for enabling |
| Constraints.NoCheck | src/Traits/Constraints.php:157-165 | disabling, with the message wrapped a second time |
| Constraints.Check | src/Traits/Constraints.php:176-184 | enabling, with the message wrapped a second time |
| Attributes.Whitelisted | src/Traits/Attributes.php:62-69 | the lower-cased value when listed, else the fallback; always listed |
| Attributes.ErrorModeSpec | src/Traits/Attributes.php:62-69 | the error mode keeps silent/warning/exception in any case and otherwise becomes exception; normalising again changes nothing |
| Attributes.EncodingSpec | src/Traits/Attributes.php:83-90 | the encoding keeps binary/utf8/system/default in any case and otherwise becomes utf8 |
| Attributes.WhitelistedCaseInsensitive | src/Traits/Attributes.php:62-69 | the choice ignores case and is idempotent |
| Attributes.ErrorModeSettingIsConstant | src/Traits/Attributes.php:71 | the `ERRMODE_` constant written always exists |
| Attributes.EncodingSettingIsConstant | src/Traits/Attributes.php:92 | the `SQLSRV_ENCODING_` constant written always exists |
| Attributes.OptionGate | src/Traits/Attributes.php:116-125 | a SET statement is issued exactly for on or off in any case |
| Attributes.OptionTexts | src/Traits/Attributes.php:116-179 | the statement is `SET <OPTION> ON` or `SET <OPTION> OFF` |
| Attributes.OptionCaseFree | src/Traits/Attributes.php:118 | the gate ignores case |
| ResponseOps.Reverse | src/Traits/Methods.php:44-51 | reversal keeps the length |
| ResponseOps.ReverseAt | src/Traits/Methods.php:44-51 | position k of the reversal holds the element k from the end |
| ResponseOps.ReverseTwice | src/Traits/Methods.php:44-51 | reversing twice restores the list |
| ResponseOps.UnshiftEachReverses | src/Traits/Methods.php:466-472 | unshifting values one at a time leaves them reversed in front |
| ResponseOps.SliceStart | src/Traits/Methods.php:107-114 | the slice starts inside the list |
| ResponseOps.SliceEnd | src/Traits/Methods.php:107-114 | the slice ends between its start and the list's end |
| ResponseOps.SliceFromOffset | src/Traits/Methods.php:107-114 | offset and non-negative length keep `response[offset .. min(offset+length, n))`, or everything from the offset |
| ResponseOps.SliceFromEnd | src/Traits/Methods.php:107-114 | a negative offset keeps that many elements from the end |
| ResponseOps.SliceDropLast | src/Traits/Methods.php:107-114 | a negative length drops that many elements from the end |
| ResponseOps.ColumnOfComplete | src/Traits/Methods.php:122-129 | when every row holds the column, the result is each row's value in order |
| ResponseOps.ColumnSound | src/Traits/Methods.php:122-129 | every value of the column comes from some row, and there are no more values than rows |
| ResponseOps.ColumnOfNone | src/Traits/Methods.php:122-129 | rows lacking the column contribute nothing |
| ResponseOps.PadSpec | src/Traits/Methods.php:397-402 | padding reaches the absolute size, at the end for a positive size and the front for a negative one, keeping the list and adding only the value |
| ResponseOps.PadAcceptedBound | src/Traits/Methods.php:397-402 | an accepted `array_pad` adds at most 1048576 elements, a size that does not grow the list is always accepted and changes nothing, and a refused one asks for more |
| ResponseOps.ChunkSpec | src/SQLServer.php:435-442 | the chunks concatenate to the list, none is empty or over the size, only the last may be short |
| SQLServerClient.CredentialSource | src/SQLServer.php:66-75 | credentials come from the first non-empty of the array, the environment prefix, the connection name |
| SQLServerClient.OpenFailureText | src/SQLServer.php:93-95 | the connection error is the upper-cased joined `errorInfo`, or the scalar `errorInfo` followed by the driver hint; a null `errorInfo` (PHP 8) leaves the hint alone, and the driver's message is not part of the text |
| SQLServerClient.GuardsAsPrefixTests | src/SQLServer.php:133-330 | select, insert and delete reject statements not starting with their verb; update rejects one starting with UPDATE; both procedure calls reject one starting with EXEC |
| SQLServerClient.WrappedCarries | src/SQLServer.php:159-161 | every failure is rethrown with the operation's own prefix under its own method |
| SQLServerClient.BindEach | src/SQLServer.php:144-148 | each parameter bound to its own value, in order |
| SQLServerClient.SelectBindsAsWritten | src/SQLServer.php:144-148 | each parameter bound to the last parameter's value |
| SQLServerClient.SelectBindsAgreeIff | src/SQLServer.php:144-148 | the two bindings agree exactly when every parameter has the last one's value |
| SQLServerClient.SelectBindsCounterexample | src/SQLServer.php:144-148 | `:a => 1, :b => 2` binds `:a` to 2 as written |
| SQLServerClient.ProcedureAsWrittenIgnoresProcedure | src/SQLServer.php:300 | as written, every procedure prepares the same empty statement and differs from the corrected plan |
| SQLServerClient.PlanShape | src/SQLServer.php:141-342 | each query prepares, binds each parameter and executes, then fetches or closes the cursor; parameterless insert and delete use exec |
| SQLServerClient.OutcomeCases | src/SQLServer.php:130-350 | an operation succeeds exactly when its guard passes, the connection opens and no call raises; an open failure is rethrown with the operation's message |
| SQLServerClient.ForeignKeysAsWritten | src/Traits/Constraints.php:58 | as written, the foreign-key switches always fail with an engine error |
| SQLServerClient.ForeignKeysAsWrittenNeverSwitch | src/Traits/Constraints.php:52-58 | as written the switch fails where the corrected one succeeds |
| SQLServerClient.Client.constructor | src/SQLServer.php:66-75 | a new client has no connection and an empty response |
| SQLServerClient.Client.ConnectionPDO | src/SQLServer.php:83-97 | opens a connection only when there is none; a failure leaves none and reports its message |
| SQLServerClient.Client.Status | src/SQLServer.php:104-120 | reports success exactly when a connection is open, and the failure message otherwise |
| SQLServerClient.Client.Select | src/SQLServer.php:130-162 | rejected statements change nothing; otherwise connects, logs the plan and leaves the fetched rows as the response, or throws the wrapped error |
| SQLServerClient.Client.ExecuteProcedure | src/SQLServer.php:288-315 | the same for stored procedures, with the corrected statement |
| SQLServerClient.Client.Update | src/SQLServer.php:172-200 | rejected statements change nothing; otherwise returns execute-success and rowCount > 0, or throws the wrapped error |
| SQLServerClient.Client.Insert | src/SQLServer.php:210-239 | the same for insert; without parameters it returns the exec verdict |
| SQLServerClient.Client.Delete | src/SQLServer.php:249-278 | the same for delete |
| SQLServerClient.Client.ExecuteTransactionalProcedure | src/SQLServer.php:325-350 | returns what execute returned once the cursor closed |
| SQLServerClient.Client.First | src/SQLServer.php:358-362 | the first row, and none exactly when the response is empty |
| SQLServerClient.Client.Last | src/SQLServer.php:370-374 | the last row, and none exactly when the response is empty |
| SQLServerClient.Client.Get | src/SQLServer.php:402-406 | the response, or the empty list |
| SQLServerClient.Client.Count | src/SQLServer.php:413-416 | zero exactly when the response is empty |
| SQLServerClient.Client.Chunk | src/SQLServer.php:435-442 | none for an empty response, an error for size below 1, else chunks that concatenate to the response |
| SQLServerClient.Client.Reverse | src/Traits/Methods.php:44-51 | the response becomes its reversal |
| SQLServerClient.Client.Slice | src/Traits/Methods.php:107-114 | the response becomes its slice |
| SQLServerClient.Client.Column | src/Traits/Methods.php:122-129 | the response becomes its column |
| SQLServerClient.Client.Pad | src/Traits/Methods.php:397-402 | the response becomes its padding when `array_pad` accepts the size; a size that would add more than 1048576 elements is a ValueError and leaves the response unchanged |
| SQLServerClient.Client.Values | src/Traits/Methods.php:479-486 | the response, already a list, is unchanged |
| SQLServerClient.Client.Pop | src/Traits/Methods.php:409-415 | returns and removes the last row; an empty response gives none and stays |
| SQLServerClient.Client.Shift | src/Traits/Methods.php:452-458 | returns and removes the first row; an empty response gives none and stays |
| SQLServerClient.Client.Push | src/Traits/Methods.php:423-429 | appends the values in order |
| SQLServerClient.Client.Unshift | src/Traits/Methods.php:466-472 | prepends the values reversed |
| SQLServerClient.Client.SetTimeOut | src/Traits/Attributes.php:48-53 | sets the query timeout to the seconds, or fails on a missing connection |
| SQLServerClient.Client.SetErrorMode | src/Traits/Attributes.php:62-74 | sets the normalised error mode |
| SQLServerClient.Client.SetEncoding | src/Traits/Attributes.php:83-95 | sets the normalised encoding |
| SQLServerClient.Client.SetDirectQuery | src/Traits/Attributes.php:102-107 | sets direct query to true |
| SQLServerClient.Client.NoCount | src/Traits/Attributes.php:189-194 | does exactly what setDirectQuery does |
| SQLServerClient.Client.SetAnsiNulls | src/Traits/Attributes.php:116-125 | executes the gated SET statement, or nothing |
| SQLServerClient.Client.SetAnsiPadding | src/Traits/Attributes.php:134-143 | the same for ANSI_PADDING |
| SQLServerClient.Client.SetAnsiWarnings | src/Traits/Attributes.php:152-161 | the same for ANSI_WARNINGS |
| SQLServerClient.Client.SetArithAbort | src/Traits/Attributes.php:170-179 | the same for ARITHABORT |
| SQLServerClient.Client.DisableForeignKeys | src/Traits/Constraints.php:49-93 | on the client's connection, the disabling switch; an engine error without one |
| SQLServerClient.Client.EnableForeignKeys | src/Traits/Constraints.php:102-146 | the same for enabling |
| SQLServerClient.Client.NoCheck | src/Traits/Constraints.php:157-165 | disabling with the message wrapped twice |
| SQLServerClient.Client.Check | src/Traits/Constraints.php:176-184 | enabling with the message wrapped twice |

## Left out

- PDO itself is not modelled. Opening a connection, prepare/bind/execute/fetch, `rowCount`, `lastInsertId`, `exec`, `query` and `setAttribute` are driver I/O. They become the `Driver.Connection` log and its answer function, and the open verdicts of the client and the registry are parameters.
- The credentials and options passed to `new PDO` are not recorded. The client's connection is opened by the `opening` verdict alone.
- The charset `constant()` lookup in `mount` (src/Singleton/SQLServerSingleton.php:47) is left out. An unknown charset is not a failure mode of the model.
- The error mode has no effect on driver behaviour in the model. `SetErrorMode` only records the attribute.
- Concurrency is left out. PHP runs one request per process and the registry has no locking.
- `env()`, `config()`, `inLaravel` and `PDO::getAvailableDrivers` (src/Traits/AvailableDrivers.php) are parameters of the operations that use them.
- `is_numeric` and `intval` on ports are restricted to strings of decimal digits. Exponents, decimals and surrounding whitespace are left out. Within that domain `intval` saturates at `PHP_INT_MAX` of a 64-bit build (`PhpStrings.IntVal`).
- Array-valued credentials, and floats and objects as PHP values, are not modelled.
- `toObject`, `collect`, `sizeof`, `fill`, `fillKeys`, the `procedure` dispatcher and the `*Object` accessors of src/SQLServer.php are left out. They are JSON round trips, framework collections, or thin wrappers around `array_fill`.
- The `$type` argument of `first`, `last` and `get` is left out; rows are returned as arrays.
- The Methods.php operations other than reverse, slice, column, pad, pop, push, shift, unshift and values are left out. They depend on PHP comparison, callbacks or randomness.
- `preserve_keys` of `chunk` and `slice` is left out. The response is always a list.
- src/Bases/BaseSQLServer.php and src/Bases/BaseSetCredentials.php are not part of this model. They are abstract signatures, and factories that call an undefined `establishConnection`.
- src/Support/Deprecated.php, src/Traits/Transaction.php and src/Traits/Transactions.php are not part of this model. They only forward to PDO or to the registry.
- The classes of src/Response are not part of this model. They extend framework collections or hold trivial getters.
- Driver.BindsNeverFail: `bindParam` is assumed never to raise. The driver does refuse two binds the client can issue. An integer key such as 0, from a positional parameter list like `[5]`, is refused because parameters are 1-based (src/SQLServer.php:145-147 and the update, insert and delete loops bind every key unfiltered). A named key that passes the `strpos` filter only as a prefix of a longer placeholder (`:id` against `:idx`, see `Execute.PlaceholderPrefixAlsoMatches`) is reported as an undefined parameter. The model issues the execute after such binds.
- SQLServerClient.CredentialSource: only the intended precedence is modelled. As written, each branch calls a `SetCredentials::from*` factory that ends in the undefined `establishConnection` (src/Bases/BaseSetCredentials.php:73, 86, 99), so every non-empty branch ends in an Error once the credentials pass validation. The setters of src/SetCredentials.php:60, 86 and 122 also omit the `static` return type their abstract parents declare (src/Bases/BaseSetCredentials.php:109, 118, 127), which PHP treats as an incompatible declaration. The model assumes the factories return the validated credentials.
- SQLServerClient.Client.Pad: the limit modelled is the 1048576 elements of PHP 8.0 to 8.2. From PHP 8.3 `array_pad` accepts sizes up to the maximum array size, with its own message.
- SetCredentials.SetCredentials.GetCredentials: it requires credentials to have been stored. PHP would raise an Error for reading an uninitialized typed property, but every caller (src/SQLServer.php:69-73) runs a setter first.
- Singleton.Registry.Mount: the handle it returns is a value, a snapshot of the registered connection. In PHP it is the same PDO object, so a later `beginTransaction`, `commit` or `rollBack` through the registry is seen by the caller's handle. The model does not capture that aliasing.
- Driver.Connection.Call: `rowCount` and `lastInsertId` are read from the answer to the preceding `execute`, not issued as calls of their own.
- SQLServerClient.Client.Select: `fetchAll(PDO::FETCH_ASSOC)` is the driver's list of rows as given. Column naming is not modelled.

## Findings

| source | as written | input that shows it | evidently intended | confidence | as-written member | corrected member |
|---|---|---|---|---|---|---|
| src/Traits/Constraints.php:58 | the foreign-key switches call `$this->pdo->exec`, but the client's connection property is `$PDO`, so `$this->pdo` is null and the call is an engine error that `catch (Exception)` does not catch | `disableForeignKeys(["t"])` on a connected client | run the ALTER TABLE batch on the client's connection | not executed | SQLServerClient.ForeignKeysAsWrittenNeverSwitch | SQLServerClient.Client.DisableForeignKeys |
| src/SQLServer.php:144-148 | `select` calls `bindParam($key, $value)` on the loop variable, so every placeholder reads the variable's final value when `execute()` runs | parameters `:a => 1, :b => 2` bind `:a` to 2 | bind each placeholder to its own value | not executed | SQLServerClient.SelectBindsCounterexample | SQLServerClient.SelectBindsAgreeIff |
| src/SQLServer.php:300 | `executeProcedure` prepares the undefined `$statement` instead of `$procedure`, so every procedure prepares the empty statement | `executeProcedure("sp_report 1")`, which passes the guard | prepare the given procedure | not executed | SQLServerClient.ProcedureAsWrittenIgnoresProcedure | SQLServerClient.PlanShape |
