/** src/Validator/SQLServerValidator.php: checks a named connection's
    configuration before it is used. The list of installed PDO drivers is a
    parameter of `Verify` instead of a call into the runtime. */
module SQLServerValidator {
  import opened Wrappers
  import opened PhpStrings
  import opened PhpValues
  import opened Exceptions

  const DriverMissingMessage := "The 'sqlsrv' driver is not installed in the PHP environment."

  function NotConfiguredMessage(connection: string): string {
    "The connection '" + connection + "' is not configured in config/database.php, within the connections array"
  }

  /** The shape every `messages()` entry has. */
  function MessageFor(key: string): string {
    "The " + key + " is not present in the connection config file"
  }

  lemma MessageForInjective(a: string, b: string)
    requires MessageFor(a) == MessageFor(b)
    ensures a == b
  {
    assert |a| == |b|;
    assert a == MessageFor(a)[4..4 + |a|];
    assert b == MessageFor(b)[4..4 + |b|];
  }

  class Validator {
    /** The connection's configuration array, keyed by option name. */
    const credentials: map<string, Value>
    const connection: string

    constructor(credentials: map<string, Value>, connection: string)
      ensures this.credentials == credentials && this.connection == connection
    {
      this.credentials := credentials;
      this.connection := connection;
    }

    /** `mandatory()`: the required options, in the order they are checked. */
    function Mandatory(): (r: seq<string>)
      ensures |r| == 4
    {
      ["host", "database", "username", "password"]
    }

    /** `messages()`: the complaint for each required option, each of the
        form "The <option> is not present in the connection config file". */
    function Messages(): map<string, string> {
      map[
        "host" := MessageFor("host"),
        "database" := MessageFor("database"),
        "username" := MessageFor("username"),
        "password" := MessageFor("password")
      ]
    }

    /** `mandatory()` and the keys of `messages()` are the same four names,
        and each message names its own option. */
    lemma MandatoryMatchesMessages()
      ensures forall i :: 0 <= i < |Mandatory()| ==>
        Mandatory()[i] in Messages() && Messages()[Mandatory()[i]] == MessageFor(Mandatory()[i])
      ensures forall k :: k in Messages() <==> k in Mandatory()
      ensures forall i, j :: 0 <= i < j < |Mandatory()| ==> Mandatory()[i] != Mandatory()[j]
    {
      var m := Mandatory();
      assert m[0] == "host" && m[1] == "database" && m[2] == "username" && m[3] == "password";
      assert Messages().Keys == {"host", "database", "username", "password"};
    }

    /** An option counts as missing when its key is absent or its value is
        PHP-empty (null, "", "0", 0, false or []). */
    predicate Missing(key: string) {
      key !in credentials || IsEmpty(credentials[key])
    }

    /** The messages `verify` collects for `keys`, in order. */
    function MissingMessages(keys: seq<string>): seq<string> {
      if keys == [] then []
      else
        var last := keys[|keys| - 1];
        MissingMessages(keys[..|keys| - 1]) + (if Missing(last) then [MessageFor(last)] else [])
    }

    /** Every collected message belongs to a missing option of `keys`. */
    lemma {:induction false} MissingMessagesSound(keys: seq<string>)
      ensures forall m :: m in MissingMessages(keys) ==>
        exists i :: 0 <= i < |keys| && Missing(keys[i]) && m == MessageFor(keys[i])
    {
      if keys != [] {
        var init := keys[..|keys| - 1];
        MissingMessagesSound(init);
        forall m | m in MissingMessages(keys)
          ensures exists i :: 0 <= i < |keys| && Missing(keys[i]) && m == MessageFor(keys[i])
        {
          if m in MissingMessages(init) {
            var i :| 0 <= i < |init| && Missing(init[i]) && m == MessageFor(init[i]);
            assert keys[i] == init[i];
          }
        }
      }
    }

    /** An option's message is collected exactly when that option is one of
        `keys` and is missing, so every missing option is reported, not just
        the first. */
    lemma {:induction false} MissingMessagesComplete(keys: seq<string>, k: string)
      ensures MessageFor(k) in MissingMessages(keys) <==> k in keys && Missing(k)
    {
      MissingMessagesSound(keys);
      if MessageFor(k) in MissingMessages(keys) {
        var i :| 0 <= i < |keys| && Missing(keys[i]) && MessageFor(k) == MessageFor(keys[i]);
        MessageForInjective(k, keys[i]);
      }
      if k in keys && Missing(k) {
        var init := keys[..|keys| - 1];
        if k == keys[|keys| - 1] {
          assert MessageFor(k) == MissingMessages(keys)[|MissingMessages(keys)| - 1];
        } else {
          var i :| 0 <= i < |keys| && keys[i] == k;
          assert init[i] == k;
          MissingMessagesComplete(init, k);
        }
      }
    }

    /** `verify()`: the driver check, then the empty-configuration check,
        then one pass over the required options collecting a message for
        each missing one; raises with the messages joined by ", " if any
        were collected, and returns true otherwise. */
    method Verify(availableDrivers: seq<string>) returns (r: Result<bool, Exception>)
      ensures "sqlsrv" !in availableDrivers ==> r == Err(CreateSQLServerException(DriverMissingMessage))
      ensures "sqlsrv" in availableDrivers && credentials == map[] ==>
        r == Err(CreateSQLServerException(NotConfiguredMessage(connection)))
      ensures "sqlsrv" in availableDrivers && credentials != map[] ==>
        var missing := MissingMessages(Mandatory());
        && (missing == [] ==> r == Ok(true))
        && (missing != [] ==> r == Err(CreateSQLServerException(Join(", ", missing))))
    {
      if "sqlsrv" !in availableDrivers {
        return Err(CreateSQLServerException(DriverMissingMessage));
      }
      if credentials == map[] {
        return Err(CreateSQLServerException(NotConfiguredMessage(connection)));
      }
      MandatoryMatchesMessages();
      var keys := Mandatory();
      var errors: seq<string> := [];
      var i := 0;
      while i < |keys|
        invariant 0 <= i <= |keys|
        invariant errors == MissingMessages(keys[..i])
      {
        var key := keys[i];
        if key !in credentials || IsEmpty(credentials[key]) {
          errors := errors + [Messages()[key]];
        }
        assert keys[..i + 1] == keys[..i] + [key];
        i := i + 1;
      }
      assert keys[..i] == keys;
      if errors != [] {
        return Err(CreateSQLServerException(Join(", ", errors)));
      }
      return Ok(true);
    }

    /** `verify` gets past the option loop exactly when all four required
        options are present and non-empty; otherwise its message lists the
        complaint of every missing option. */
    lemma VerifyReportsEveryMissingOption()
      ensures MissingMessages(Mandatory()) == [] <==>
        forall i :: 0 <= i < |Mandatory()| ==> !Missing(Mandatory()[i])
      ensures forall i :: 0 <= i < |Mandatory()| ==>
        (MessageFor(Mandatory()[i]) in MissingMessages(Mandatory()) <==> Missing(Mandatory()[i]))
    {
      var keys := Mandatory();
      forall i | 0 <= i < |keys| ensures MessageFor(keys[i]) in MissingMessages(keys) <==> Missing(keys[i]) {
        MissingMessagesComplete(keys, keys[i]);
      }
      MissingMessagesSound(keys);
      var missing := MissingMessages(keys);
      if missing != [] {
        assert missing[0] in missing;
      }
    }
  }
}
