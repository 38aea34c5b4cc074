/** src/SetCredentials.php: turns one of three credential sources (an
    array, environment variables, a framework connection entry) into a DSN,
    a user and a password.

    A credentials array is a `map<string, string>`: a key that is absent and
    a key whose value is null are both left out of the map, which is how
    the code treats them (`array_key_exists` fails or `trim(null)` is "",
    and `isset` fails). The environment and the framework configuration are
    parameters: maps from variable name, or connection name, to value. */
module SetCredentials {
  import opened Wrappers
  import opened PhpStrings
  import opened Exceptions

  type Array = map<string, string>

  /** The required keys, in the order they are checked. */
  const RequiredKeys: seq<string> := ["server", "database", "user", "password"]

  /** `$a[$key]` where a missing value reads as "" (null in `trim` and in
      string concatenation). */
  function Get(a: Array, key: string): string {
    if key in a then a[key] else ""
  }

  /** `!array_key_exists($key, $a) || empty(trim($a[$key]))`. */
  predicate Blank(a: Array, key: string) {
    key !in a || IsEmptyString(Trim(a[key]))
  }

  /** The position of the first of `keys` that is blank, if any. */
  function FirstBlankAt(a: Array, keys: seq<string>): (r: Option<nat>)
    ensures r.Some? ==> r.value < |keys|
  {
    FirstBlankFrom(a, keys, 0)
  }

  /** The same search, starting at position `k`. */
  function FirstBlankFrom(a: Array, keys: seq<string>, k: nat): (r: Option<nat>)
    requires k <= |keys|
    decreases |keys| - k
    ensures r.Some? ==> k <= r.value < |keys|
  {
    if k == |keys| then None
    else if Blank(a, keys[k]) then Some(k)
    else FirstBlankFrom(a, keys, k + 1)
  }

  /** The search from `k` finds nothing exactly when no key from `k` on is
      blank, and otherwise a blank key with none blank between `k` and it. */
  lemma {:induction false} FirstBlankFromSpec(a: Array, keys: seq<string>, k: nat)
    requires k <= |keys|
    decreases |keys| - k
    ensures FirstBlankFrom(a, keys, k).None? <==> forall i :: k <= i < |keys| ==> !Blank(a, keys[i])
    ensures FirstBlankFrom(a, keys, k).Some? ==>
      var r := FirstBlankFrom(a, keys, k).value;
      Blank(a, keys[r]) && forall j :: k <= j < r ==> !Blank(a, keys[j])
  {
    if k < |keys| && !Blank(a, keys[k]) {
      FirstBlankFromSpec(a, keys, k + 1);
    }
  }

  /** `FirstBlankAt` finds nothing exactly when no key is blank, and
      otherwise a blank key with none blank before it. */
  lemma FirstBlankAtSpec(a: Array, keys: seq<string>)
    ensures FirstBlankAt(a, keys).None? <==> forall i :: 0 <= i < |keys| ==> !Blank(a, keys[i])
    ensures FirstBlankAt(a, keys).Some? ==>
      var r := FirstBlankAt(a, keys).value;
      Blank(a, keys[r]) && forall j :: 0 <= j < r ==> !Blank(a, keys[j])
  {
    FirstBlankFromSpec(a, keys, 0);
  }

  /** The first of `keys` that is blank, if any. */
  function FirstBlank(a: Array, keys: seq<string>): Option<string> {
    match FirstBlankAt(a, keys)
    case None => None
    case Some(i) => Some(keys[i])
  }

  /** The first blank key is the one at `i` when none before it is. */
  lemma FirstBlankIs(a: Array, keys: seq<string>, i: nat)
    requires i < |keys| && Blank(a, keys[i])
    requires forall j :: 0 <= j < i ==> !Blank(a, keys[j])
    ensures FirstBlankAt(a, keys) == Some(i)
  {
    FirstBlankAtSpec(a, keys);
  }

  /** The `foreach ($requiredKeys as $key)` loop the three setters share:
      it stops at the first blank key. */
  method FindBlank(a: Array, keys: seq<string>) returns (r: Option<string>)
    ensures r == FirstBlank(a, keys)
  {
    var i := 0;
    while i < |keys|
      invariant 0 <= i <= |keys|
      invariant forall j :: 0 <= j < i ==> !Blank(a, keys[j])
    {
      var key := keys[i];
      if key !in a || IsEmptyString(Trim(a[key])) {
        FirstBlankIs(a, keys, i);
        return Some(key);
      }
      i := i + 1;
    }
    FirstBlankAtSpec(a, keys);
    return None;
  }

  // ---------------------------------------------------------------------
  // buildDsn
  // ---------------------------------------------------------------------

  /** The port part: `','.intval($port)` when the port is set, not
      PHP-empty and numeric; nothing otherwise. */
  function PortSegment(a: Array): string {
    if "port" in a && !IsEmptyString(a["port"]) && IsDigits(a["port"])
    then "," + NatToString(IntVal(a["port"]))
    else ""
  }

  /** The instance part: a backslash and the instance name, untrimmed, when
      the instance is set and not PHP-empty. */
  function InstanceSegment(a: Array): string {
    if "instance" in a && !IsEmptyString(a["instance"]) then "\\" + a["instance"] else ""
  }

  const ServerTag := "sqlsrv:Server="
  const DatabaseTag := ";Database="

  /** The server part, trimmed. */
  function DsnHead(a: Array): string {
    ServerTag + Trim(Get(a, "server"))
  }

  /** The database part, trimmed. */
  function DsnTail(a: Array): string {
    DatabaseTag + Trim(Get(a, "database"))
  }

  /** `buildDsn($credentials)`: server, port part, instance part,
      database. */
  function BuildDsn(a: Array): string {
    DsnHead(a) + (PortSegment(a) + InstanceSegment(a)) + DsnTail(a)
  }

  lemma SplitThree(h: string, m: string, t: string)
    ensures var s := h + m + t;
      StartsWith(s, h) && |h| + |t| <= |s| && s[|s| - |t|..] == t && s[|h|..|s| - |t|] == m
  {
    var s := h + m + t;
    assert s[..|h|] == h;
    assert s[|s| - |t|..] == t;
    assert s[|h|..|s| - |t|] == m;
  }

  /** The DSN opens with the trimmed server and closes with the trimmed
      database; between them sit the port part, then the instance part,
      and nothing else. */
  lemma DsnShape(a: Array)
    ensures var dsn := BuildDsn(a);
      && StartsWith(dsn, ServerTag + Trim(Get(a, "server")))
      && |DsnHead(a)| + |DsnTail(a)| <= |dsn|
      && dsn[|dsn| - |DsnTail(a)|..] == DatabaseTag + Trim(Get(a, "database"))
      && dsn[|DsnHead(a)|..|dsn| - |DsnTail(a)|] == PortSegment(a) + InstanceSegment(a)
  {
    SplitThree(DsnHead(a), PortSegment(a) + InstanceSegment(a), DsnTail(a));
  }

  /** Without a usable port or instance the DSN is only server and
      database: no default port is filled in. */
  lemma DsnWithoutPortOrInstance(a: Array)
    requires "port" !in a || IsEmptyString(a["port"]) || !IsDigits(a["port"])
    requires "instance" !in a || IsEmptyString(a["instance"])
    ensures BuildDsn(a) == DsnHead(a) + DsnTail(a)
  {
    assert PortSegment(a) == "" && InstanceSegment(a) == "";
    EmptyMiddle(DsnHead(a), DsnTail(a));
  }

  lemma EmptyMiddle(h: string, t: string)
    ensures h + ("" + "") + t == h + t
  {
  }

  /** The port part is present exactly when the port is set, not "0", and
      all digits; it is then a comma and the port's number in canonical
      decimal, which reads back to the same number (so "01433" gives
      ",1433"), except that a number past `PHP_INT_MAX` is written as
      `PHP_INT_MAX`. */
  lemma {:induction false} PortSegmentSpec(a: Array)
    ensures PortSegment(a) != "" <==>
      "port" in a && !IsEmptyString(a["port"]) && IsDigits(a["port"])
    ensures PortSegment(a) != "" ==>
      var p := PortSegment(a);
      && p[0] == ','
      && IsDigits(p[1..])
      && (|p| > 2 ==> p[1] != '0')
      && DigitsValue(p[1..]) <= PhpIntMax
      && (DigitsValue(a["port"]) <= PhpIntMax ==> DigitsValue(p[1..]) == DigitsValue(a["port"]))
      && (DigitsValue(a["port"]) > PhpIntMax ==> DigitsValue(p[1..]) == PhpIntMax)
  {
    if "port" in a && !IsEmptyString(a["port"]) && IsDigits(a["port"]) {
      var n := IntVal(a["port"]);
      NatToStringRoundTrip(n);
      NatToStringCanonical(n);
      assert PortSegment(a)[1..] == NatToString(n);
    }
  }

  /** The instance part is present exactly when the instance is set and not
      PHP-empty, and carries the instance exactly as given: unlike server
      and database it is not trimmed. */
  lemma InstanceSegmentSpec(a: Array)
    ensures InstanceSegment(a) != "" <==> "instance" in a && !IsEmptyString(a["instance"])
    ensures InstanceSegment(a) != "" ==>
      InstanceSegment(a)[0] == '\\' && InstanceSegment(a)[1..] == a["instance"]
  {
  }

  // ---------------------------------------------------------------------
  // The arrays the environment and the framework configuration give
  // ---------------------------------------------------------------------

  /** The environment variable each credential comes from, after the
      prefix. */
  const EnvironmentSuffixes: map<string, string> := map[
    "server" := "_SQLSRV_NAME",
    "instance" := "_SQLSRV_INSTANCE",
    "port" := "_SQLSRV_PORT",
    "database" := "_SQLSRV_DATABASE",
    "user" := "_SQLSRV_USER",
    "password" := "_SQLSRV_PASS"
  ]

  /** The `$database` array of `setCredentialsFromEnvironment`: each
      credential is the variable `<prefix><suffix>`, null when unset. */
  function EnvironmentArray(prefix: string, env: map<string, string>): (r: Array)
    ensures forall k :: k in r <==> k in EnvironmentSuffixes && prefix + EnvironmentSuffixes[k] in env
    ensures forall k :: k in r ==> r[k] == env[prefix + EnvironmentSuffixes[k]]
  {
    map k | k in EnvironmentSuffixes && prefix + EnvironmentSuffixes[k] in env ::
      env[prefix + EnvironmentSuffixes[k]]
  }

  /** `$config[$first] ?? $config[$second] ?? null`. */
  function Coalesce(config: Array, first: string, second: string): Option<string> {
    if first in config then Some(config[first])
    else if second in config then Some(config[second])
    else None
  }

  /** The six credentials every source fills in. */
  const CredentialKeys: set<string> := {"server", "instance", "port", "database", "user", "password"}

  /** The entry keys a credential of a connection entry is read from, in
      the order `??` tries them: `host` then `server`, `username` then
      `user`, and the credential's own name otherwise. */
  function ConnectionSources(k: string): (string, string) {
    if k == "server" then ("host", "server")
    else if k == "user" then ("username", "user")
    else (k, k)
  }

  function ConnectionValue(config: Array, k: string): Option<string> {
    Coalesce(config, ConnectionSources(k).0, ConnectionSources(k).1)
  }

  /** The `$database` array of `setCredentialsFromConnections`. */
  function ConnectionArray(config: Array): Array {
    map k | k in CredentialKeys && ConnectionValue(config, k).Some? :: ConnectionValue(config, k).value
  }

  /** `??` falls back only on a missing value, not on a blank one: a blank
      `host` hides a usable `server` and makes the server blank, and
      likewise `username` hides `user`. */
  lemma ConnectionPrecedence(config: Array)
    ensures var a := ConnectionArray(config);
      && ("host" in config ==> "server" in a && a["server"] == config["host"])
      && ("host" !in config && "server" in config ==> "server" in a && a["server"] == config["server"])
      && ("host" !in config && "server" !in config ==> Blank(a, "server"))
      && ("username" in config ==> "user" in a && a["user"] == config["username"])
      && ("username" !in config && "user" in config ==> "user" in a && a["user"] == config["user"])
      && ("username" !in config && "user" !in config ==> Blank(a, "user"))
      && (forall k :: k in a ==> k in CredentialKeys)
  {
    assert "server" in CredentialKeys && "user" in CredentialKeys;
    assert ConnectionSources("server") == ("host", "server");
    assert ConnectionSources("user") == ("username", "user");
  }

  /** The object `getCredentials()` returns. */
  datatype CredentialsObject = CredentialsObject(dsn: string, user: string, password: string)

  class SetCredentials {
    var dsn: string
    var user: string
    var password: string
    /** The three typed properties have been assigned (PHP raises an Error
        when an unassigned typed property is read). */
    var initialized: bool

    constructor()
      ensures !initialized
    {
      dsn, user, password := "", "", "";
      initialized := false;
    }

    /** The success path shared by the three setters. */
    method Assign(a: Array)
      modifies this
      ensures initialized
      ensures dsn == BuildDsn(a)
      ensures user == Trim(Get(a, "user")) && password == Trim(Get(a, "password"))
    {
      dsn := BuildDsn(a);
      user := Trim(Get(a, "user"));
      password := Trim(Get(a, "password"));
      initialized := true;
    }

    /** `setCredentialsFromArray`: raises for the first required key that is
        missing or blank, naming it, and otherwise stores the DSN and the
        trimmed user and password. */
    method SetCredentialsFromArray(credentials: Array) returns (r: Result<Unit, Exception>)
      modifies this
      ensures FirstBlank(credentials, RequiredKeys).Some? ==>
        && r == Err(InvalidArgumentException(NonExistentKeyException(FirstBlank(credentials, RequiredKeys).value)))
        && unchanged(this)
      ensures FirstBlank(credentials, RequiredKeys).None? ==>
        && r == Ok(Unit) && initialized
        && dsn == BuildDsn(credentials)
        && user == Trim(Get(credentials, "user")) && password == Trim(Get(credentials, "password"))
    {
      var blank := Store(credentials);
      if blank.Some? {
        return Err(InvalidArgumentException(NonExistentKeyException(blank.value)));
      }
      return Ok(Unit);
    }

    /** The check and assignment the three setters share: the first blank
        required key, if any, and otherwise the credentials stored. */
    method Store(a: Array) returns (blank: Option<string>)
      modifies this
      ensures blank == FirstBlank(a, RequiredKeys)
      ensures blank.Some? ==> unchanged(this)
      ensures blank.None? ==>
        && initialized && dsn == BuildDsn(a)
        && user == Trim(Get(a, "user")) && password == Trim(Get(a, "password"))
    {
      blank := FindBlank(a, RequiredKeys);
      if blank.None? {
        Assign(a);
      }
    }

    /** `setCredentialsFromEnvironment`: the same check on the variables
        `<prefix>_SQLSRV_*`, with one message whichever is missing. */
    method SetCredentialsFromEnvironment(prefix: string, env: map<string, string>)
      returns (r: Result<Unit, Exception>)
      modifies this
      ensures var a := EnvironmentArray(prefix, env);
        && (FirstBlank(a, RequiredKeys).Some? ==>
              r == Err(InvalidArgumentException(UndefinedEnvironmentVariableException())) && unchanged(this))
        && (FirstBlank(a, RequiredKeys).None? ==>
              && r == Ok(Unit) && initialized && dsn == BuildDsn(a)
              && user == Trim(Get(a, "user")) && password == Trim(Get(a, "password")))
    {
      var database := EnvironmentArray(prefix, env);
      var blank := Store(database);
      if blank.Some? {
        return Err(InvalidArgumentException(UndefinedEnvironmentVariableException()));
      }
      return Ok(Unit);
    }

    /** `setCredentialsFromConnections`: outside the framework it raises
        before reading any configuration; otherwise it checks the named
        connection's entry (an unknown name reads as an empty entry) and
        names the first blank key. */
    method SetCredentialsFromConnections(connectName: string, inLaravel: bool,
                                         connections: map<string, Array>)
      returns (r: Result<Unit, Exception>)
      modifies this
      ensures !inLaravel ==> r == Err(PlainException(OutsideOfLaravel())) && unchanged(this)
      ensures inLaravel ==>
        var a := ConnectionArray(if connectName in connections then connections[connectName] else map[]);
        && (FirstBlank(a, RequiredKeys).Some? ==>
              && r == Err(InvalidArgumentException(NonExistentKeyLaravelException(FirstBlank(a, RequiredKeys).value)))
              && unchanged(this))
        && (FirstBlank(a, RequiredKeys).None? ==>
              r == Ok(Unit) && initialized && dsn == BuildDsn(a) &&
              user == Trim(Get(a, "user")) && password == Trim(Get(a, "password")))
    {
      if !inLaravel {
        return Err(PlainException(OutsideOfLaravel()));
      }
      var config: Array := if connectName in connections then connections[connectName] else map[];
      var database := ConnectionArray(config);
      var blank := Store(database);
      if blank.Some? {
        return Err(InvalidArgumentException(NonExistentKeyLaravelException(blank.value)));
      }
      return Ok(Unit);
    }

    /** `getCredentials()`: the stored DSN, user and password. */
    function GetCredentials(): (r: CredentialsObject)
      reads this
      requires initialized
      ensures r.dsn == dsn && r.user == user && r.password == password
    {
      CredentialsObject(dsn, user, password)
    }
  }

  /** Credentials that pass the check give a usable DSN and login: the
      server and database in the DSN and the stored user and password are
      neither empty nor "0". */
  lemma AcceptedCredentialsAreUsable(a: Array)
    requires FirstBlank(a, RequiredKeys).None?
    ensures forall k :: k in RequiredKeys ==> k in a && !IsEmptyString(Trim(a[k]))
    ensures StartsWith(BuildDsn(a), ServerTag + Trim(Get(a, "server")))
  {
    NoneBlank(a, RequiredKeys);
    DsnShape(a);
  }

  /** When the search finds nothing, none of the keys is blank. */
  lemma NoneBlank(a: Array, keys: seq<string>)
    requires FirstBlank(a, keys).None?
    ensures forall k :: k in keys ==> !Blank(a, k)
  {
    FirstBlankAtSpec(a, keys);
    forall k | k in keys ensures !Blank(a, k) {
      var i :| 0 <= i < |keys| && keys[i] == k;
    }
  }
}
