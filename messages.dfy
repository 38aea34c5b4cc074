/** Exception messages (src/Exceptions/Messages.php) and the exception
    values the model raises in place of PHP's `throw`. */
module Exceptions {
  import opened Wrappers
  import opened PhpStrings

  /** The kinds of throwable the library lets escape; each carries the
      text `getMessage()` would return. */
  datatype Exception =
    | SQLServerException(message: string)       // Exceptions\SQLServerException
    | InvalidArgumentException(message: string)
    | PlainException(message: string)           // \Exception
    | PDOException(message: string)             // raised by the driver
    | UnhandledMatchError(message: string)      // `match` without a matching arm
    | ValueError(message: string)               // argument rejected by a PHP built-in
    | PhpError(message: string)                 // an engine \Error, which `catch (Exception)` lets through

  /** Prefix added by `SQLServerException::create`. */
  const SQLServerExceptionPrefix := "Rmunate\\SqlServerLite\\SQLServer - Exception - "

  /** `SQLServerException::create($message)`. */
  function CreateSQLServerException(message: string): (e: Exception)
    ensures e.SQLServerException?
    ensures StartsWith(e.message, SQLServerExceptionPrefix)
    ensures e.message[|SQLServerExceptionPrefix|..] == message
  {
    SQLServerException(SQLServerExceptionPrefix + message)
  }

  const LibraryName := "SQLServerLite"
  const ManualUrl := "https://github.com/rmunate/SQLServerLite"

  /** Everything a formatted message holds before its free text. */
  function Head(caller: string): string {
    LibraryName + " Exception in the method " + caller + " - "
  }

  const Tail := " " + ManualUrl

  /** `formatExceptionMessage($method, $message)`: the sprintf pattern
      '%s Exception in the method %s - %s %s'. */
  function FormatExceptionMessage(caller: string, message: string): string {
    Head(caller) + message + Tail
  }

  /** A formatted message opens with the library name and closes with the
      manual URL. */
  predicate Framed(r: string) {
    StartsWith(r, LibraryName) && |ManualUrl| <= |r| && r[|r| - |ManualUrl|..] == ManualUrl
  }

  /** A string put together from three parts gives each part back. */
  lemma Sandwich(h: string, m: string, t: string)
    ensures var r := h + m + t;
      && |r| == |h| + |m| + |t|
      && r[..|h|] == h && r[|h|..|r| - |t|] == m && r[|r| - |t|..] == t
  {
    var r := h + m + t;
    assert r[..|h|] == h;
    assert r[|h|..|r| - |t|] == m;
    assert r[|r| - |t|..] == t;
  }

  /** The shape of a formatted message, for any library name `l`, method
      part `x + c + y`, text `m` and URL `u`. */
  lemma FrameParts(l: string, x: string, c: string, y: string, m: string, u: string)
    ensures var r := l + x + c + y + m + (" " + u);
      && StartsWith(r, l) && |u| <= |r| && r[|r| - |u|..] == u
      && |r| == |l + x + c + y| + |m| + |" " + u|
      && r[|l + x + c + y|..|r| - |" " + u|] == m
  {
    var h := l + x + c + y;
    var r := h + m + (" " + u);
    Sandwich(h, m, " " + u);
    assert r[..|l|] == l by {
      assert r[..|l|] == r[..|h|][..|l|];
    }
    assert r[|r| - |u|..] == u by {
      assert r[|r| - |u|..] == r[|r| - |" " + u|..][1..];
    }
  }

  /** The free text sits verbatim between the method part and the URL, so
      both the framing and the text can be read back. */
  lemma FormatShape(caller: string, message: string)
    ensures var r := FormatExceptionMessage(caller, message);
      && Framed(r)
      && |r| == |Head(caller)| + |message| + |Tail|
      && r[|Head(caller)|..|r| - |Tail|] == message
  {
    FrameParts(LibraryName, " Exception in the method ", caller, " - ", message, ManualUrl);
  }

  /** Two messages formatted for the same method are equal only if their
      texts are. */
  lemma FormatInjective(caller: string, m1: string, m2: string)
    requires FormatExceptionMessage(caller, m1) == FormatExceptionMessage(caller, m2)
    ensures m1 == m2
  {
    FormatShape(caller, m1);
    FormatShape(caller, m2);
  }

  // ---------------------------------------------------------------------
  // Message builders, one per public static function of Messages.php
  // ---------------------------------------------------------------------

  function NonExistentKeyException(key: string): string {
    FormatExceptionMessage("SQLServer::database()",
      "The key [" + key + "] is not present or empty in the array passed.")
  }

  function UndefinedEnvironmentVariableException(): string {
    FormatExceptionMessage("SQLServer::env()",
      "The environment variables do not exist or are poorly defined, they must have {PREFIX}_SQLSRV_IDENTIFIER.")
  }

  function OutsideOfLaravel(): string {
    FormatExceptionMessage("SQLServer::connection()",
      "You are not working on a Laravel application. This method is only functional in that framework.")
  }

  function NonExistentKeyLaravelException(key: string): string {
    FormatExceptionMessage("SQLServer::connection()",
      "The key [" + key + "] is not present or empty in [config/database.php].")
  }

  /** `$message ?? $default`. */
  function OrDefault(message: Option<string>, default: string): string {
    match message
    case Some(m) => m
    case None => default
  }

  function DisableForeignKeysException(message: Option<string>): string {
    FormatExceptionMessage("SQLServer::disableForeignKeys()", OrDefault(message, "Error disabling foreign keys"))
  }

  function EnableForeignKeysException(message: Option<string>): string {
    FormatExceptionMessage("SQLServer::enableForeignKeys()", OrDefault(message, "Error enabling foreign keys"))
  }

  function NotIsSelectQueryException(): string {
    FormatExceptionMessage("SQLServer::select()", "The string sent does not start with SELECT, this is required.")
  }

  function NotIsUpdateQueryException(): string {
    FormatExceptionMessage("SQLServer::update()", "The string sent does not start with UPDATE, this is required.")
  }

  function NotIsInsertQueryException(): string {
    FormatExceptionMessage("SQLServer::insert()", "The string sent does not start with INSERT, this is required.")
  }

  function NotIsDeleteQueryException(): string {
    FormatExceptionMessage("SQLServer::delete()", "The string sent does not start with DELETE, this is required.")
  }

  const ProcedureMethod := "SQLServer::executeProcedure/executeTransactionalProcedure()"

  function NotIsProcedureException(): string {
    FormatExceptionMessage(ProcedureMethod, "The string sent does not start with EXEC, this is required.")
  }

  function SelectException(message: Option<string>): string {
    FormatExceptionMessage("SQLServer::select()", OrDefault(message, "Error Select Query"))
  }

  function UpdateException(message: Option<string>): string {
    FormatExceptionMessage("SQLServer::update()", OrDefault(message, "Error Update Sentence"))
  }

  function InsertException(message: Option<string>): string {
    FormatExceptionMessage("SQLServer::insert()", OrDefault(message, "Error Insert Sentence"))
  }

  function DeleteException(message: Option<string>): string {
    FormatExceptionMessage("SQLServer::delete()", OrDefault(message, "Error Delete Sentence"))
  }

  function ExecuteProcedureException(message: Option<string>): string {
    FormatExceptionMessage(ProcedureMethod, OrDefault(message, "Error Store Procedure Sentence"))
  }

  /** The text a message carries once the framing is taken off. */
  function TextOf(r: string, caller: string): string {
    if |Head(caller)| + |Tail| <= |r| then r[|Head(caller)|..|r| - |Tail|] else ""
  }

  /** A formatted message is framed and carries its text. */
  lemma Carries(caller: string, message: string)
    ensures Framed(FormatExceptionMessage(caller, message))
    ensures TextOf(FormatExceptionMessage(caller, message), caller) == message
  {
    FormatShape(caller, message);
  }

  /** The key builders frame the sentence naming the key. */
  lemma KeyBuildersText(key: string)
    ensures Framed(NonExistentKeyException(key))
    ensures TextOf(NonExistentKeyException(key), "SQLServer::database()")
         == "The key [" + key + "] is not present or empty in the array passed."
    ensures Framed(NonExistentKeyLaravelException(key))
    ensures TextOf(NonExistentKeyLaravelException(key), "SQLServer::connection()")
         == "The key [" + key + "] is not present or empty in [config/database.php]."
  {
    Carries("SQLServer::database()", "The key [" + key + "] is not present or empty in the array passed.");
    Carries("SQLServer::connection()", "The key [" + key + "] is not present or empty in [config/database.php].");
  }

  /** The builders without arguments are framed. */
  lemma EnvironmentBuilderFramed()
    ensures Framed(UndefinedEnvironmentVariableException())
  {
    Carries("SQLServer::env()",
      "The environment variables do not exist or are poorly defined, they must have {PREFIX}_SQLSRV_IDENTIFIER.");
  }

  lemma OutsideBuilderFramed()
    ensures Framed(OutsideOfLaravel())
  {
    Carries("SQLServer::connection()",
      "You are not working on a Laravel application. This method is only functional in that framework.");
  }

  /** The foreign-key builders frame the given message, or their default
      text when none is given. */
  lemma ForeignKeyBuildersText(message: Option<string>)
    ensures Framed(DisableForeignKeysException(message)) && Framed(EnableForeignKeysException(message))
    ensures message.Some? ==> TextOf(DisableForeignKeysException(message), "SQLServer::disableForeignKeys()") == message.value
    ensures message.None? ==> TextOf(DisableForeignKeysException(message), "SQLServer::disableForeignKeys()")
                              == "Error disabling foreign keys"
    ensures message.Some? ==> TextOf(EnableForeignKeysException(message), "SQLServer::enableForeignKeys()") == message.value
    ensures message.None? ==> TextOf(EnableForeignKeysException(message), "SQLServer::enableForeignKeys()")
                              == "Error enabling foreign keys"
  {
    Carries("SQLServer::disableForeignKeys()", OrDefault(message, "Error disabling foreign keys"));
    Carries("SQLServer::enableForeignKeys()", OrDefault(message, "Error enabling foreign keys"));
  }

  /** The statement builders frame the given message, or their default
      text when none is given. */
  lemma StatementBuildersText(message: Option<string>)
    ensures Framed(SelectException(message)) && Framed(UpdateException(message))
    ensures Framed(InsertException(message)) && Framed(DeleteException(message))
    ensures Framed(ExecuteProcedureException(message))
    ensures message.Some? ==> TextOf(SelectException(message), "SQLServer::select()") == message.value
    ensures message.None? ==> TextOf(SelectException(message), "SQLServer::select()") == "Error Select Query"
    ensures message.Some? ==> TextOf(UpdateException(message), "SQLServer::update()") == message.value
    ensures message.None? ==> TextOf(UpdateException(message), "SQLServer::update()") == "Error Update Sentence"
    ensures message.Some? ==> TextOf(InsertException(message), "SQLServer::insert()") == message.value
    ensures message.None? ==> TextOf(InsertException(message), "SQLServer::insert()") == "Error Insert Sentence"
    ensures message.Some? ==> TextOf(DeleteException(message), "SQLServer::delete()") == message.value
    ensures message.None? ==> TextOf(DeleteException(message), "SQLServer::delete()") == "Error Delete Sentence"
    ensures message.Some? ==> TextOf(ExecuteProcedureException(message), ProcedureMethod) == message.value
    ensures message.None? ==> TextOf(ExecuteProcedureException(message), ProcedureMethod)
                              == "Error Store Procedure Sentence"
  {
    Carries("SQLServer::select()", OrDefault(message, "Error Select Query"));
    Carries("SQLServer::update()", OrDefault(message, "Error Update Sentence"));
    Carries("SQLServer::insert()", OrDefault(message, "Error Insert Sentence"));
    Carries("SQLServer::delete()", OrDefault(message, "Error Delete Sentence"));
    Carries(ProcedureMethod, OrDefault(message, "Error Store Procedure Sentence"));
  }

  /** The `notIs*` builders for SELECT and UPDATE name their method and
      verb. */
  lemma NotIsQueryBuildersText()
    ensures Framed(NotIsSelectQueryException())
    ensures TextOf(NotIsSelectQueryException(), "SQLServer::select()")
         == "The string sent does not start with SELECT, this is required."
    ensures Framed(NotIsUpdateQueryException())
    ensures TextOf(NotIsUpdateQueryException(), "SQLServer::update()")
         == "The string sent does not start with UPDATE, this is required."
  {
    Carries("SQLServer::select()", "The string sent does not start with SELECT, this is required.");
    Carries("SQLServer::update()", "The string sent does not start with UPDATE, this is required.");
  }

  /** The `notIs*` builders for INSERT, DELETE and EXEC name their method
      and verb. */
  lemma NotIsWriteBuildersText()
    ensures Framed(NotIsInsertQueryException())
    ensures TextOf(NotIsInsertQueryException(), "SQLServer::insert()")
         == "The string sent does not start with INSERT, this is required."
    ensures Framed(NotIsDeleteQueryException())
    ensures TextOf(NotIsDeleteQueryException(), "SQLServer::delete()")
         == "The string sent does not start with DELETE, this is required."
    ensures Framed(NotIsProcedureException())
    ensures TextOf(NotIsProcedureException(), ProcedureMethod)
         == "The string sent does not start with EXEC, this is required."
  {
    Carries("SQLServer::insert()", "The string sent does not start with INSERT, this is required.");
    Carries("SQLServer::delete()", "The string sent does not start with DELETE, this is required.");
    Carries(ProcedureMethod, "The string sent does not start with EXEC, this is required.");
  }
}
