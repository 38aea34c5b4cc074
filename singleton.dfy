/** src/Singleton/SQLServerSingleton.php: the process-wide registry of open
    connections and the flag that makes new connections join a transaction.

    The two static properties become the fields of one `Registry` object;
    the insertion order PHP arrays keep is the `order` field. A connection
    handle is a value recording what it was opened with, whether a
    transaction is open on it, and the transaction calls it has accepted.
    The driver's answers are parameters: an optional error message for
    opening and for beginning in `Mount`, and, for the loops, a map from
    connection name to the error message the driver raises for that
    connection (names not in the map succeed). */
module Singleton {
  import opened Wrappers
  import opened PhpStrings
  import opened Exceptions

  /** A credentials object: property name to value, an unset or null
      property being absent. */
  type Properties = map<string, string>

  /** `$credentials->$name` inside a string: "" when unset. */
  function Property(c: Properties, name: string): string {
    if name in c then c[name] else ""
  }

  /** `isset($c->$name) && !empty($c->$name)`. */
  predicate Usable(c: Properties, name: string) {
    name in c && !IsEmptyString(c[name])
  }

  const DefaultPort := "1433"

  /** The port part: the port as given, or 1433 when it is unset or
      PHP-empty (so "0" also gives 1433). */
  function MountPort(c: Properties): string {
    "," + (if Usable(c, "port") then c["port"] else DefaultPort)
  }

  function MountInstance(c: Properties): string {
    if Usable(c, "instance") then "\\" + c["instance"] else ""
  }

  function MountHead(c: Properties): string {
    "sqlsrv:Server=" + Property(c, "host")
  }

  function MountTail(c: Properties, loginTimeout: int): string {
    ";Database=" + Property(c, "database") + ";LoginTimeout=" + IntToString(loginTimeout)
  }

  /** The DSN `mount` opens: host, port part, instance part, then database
      and login timeout. Nothing is trimmed. */
  function MountDsn(c: Properties, loginTimeout: int): string {
    MountHead(c) + (MountPort(c) + MountInstance(c)) + MountTail(c, loginTimeout)
  }

  lemma SplitThree(h: string, m: string, t: string)
    ensures var s := h + m + t;
      StartsWith(s, h) && |h| + |t| <= |s| && s[|s| - |t|..] == t && s[|h|..|s| - |t|] == m
  {
    var s := h + m + t;
    assert s[..|h|] == h;
    assert s[|s| - |t|..] == t;
    assert s[|h|..|s| - |t|] == m;
  }

  /** Unlike `buildDsn`, the DSN `mount` builds always names a port,
      falling back to 1433, and names the instance, untrimmed, after it only
      when one is given. */
  lemma MountDsnShape(c: Properties, loginTimeout: int)
    ensures var dsn := MountDsn(c, loginTimeout);
            var head := MountHead(c);
            var tail := MountTail(c, loginTimeout);
      && StartsWith(dsn, "sqlsrv:Server=" + Property(c, "host"))
      && |head| + |tail| <= |dsn|
      && dsn[|dsn| - |tail|..] == ";Database=" + Property(c, "database") + ";LoginTimeout=" + IntToString(loginTimeout)
      && dsn[|head|..|dsn| - |tail|] ==
         (if Usable(c, "port") then "," + c["port"] else ",1433") +
         (if Usable(c, "instance") then "\\" + c["instance"] else "")
  {
    SplitThree(MountHead(c), MountPort(c) + MountInstance(c), MountTail(c, loginTimeout));
  }

  datatype TxEvent = Began | Committed | RolledBack

  /** An open connection: what it was opened with, whether a transaction
      is open on it, and the transaction calls it has accepted. */
  datatype Handle = Handle(dsn: string, username: string, password: string,
                           inTransaction: bool, history: seq<TxEvent>)

  /** The effect on one handle of a transaction call the driver accepts. */
  function Apply(h: Handle, e: TxEvent): Handle {
    h.(inTransaction := e == Began, history := h.history + [e])
  }

  /** The registry after the call `e` was accepted by the handles `names`,
      one after the other. */
  function ApplyTo(m: map<string, Handle>, names: seq<string>, e: TxEvent): map<string, Handle> {
    if names == [] then m
    else
      var m' := ApplyTo(m, names[..|names| - 1], e);
      var n := names[|names| - 1];
      if n in m' then m'[n := Apply(m'[n], e)] else m'
  }

  lemma ApplyToSnoc(m: map<string, Handle>, names: seq<string>, n: string, e: TxEvent)
    ensures var m' := ApplyTo(m, names, e);
      ApplyTo(m, names + [n], e) == if n in m' then m'[n := Apply(m'[n], e)] else m'
  {
    assert (names + [n])[..|names|] == names;
  }

  /** One more turn of the loop over `names`: the handle at position `i`,
      still registered, takes the call. */
  lemma ApplyStep(m: map<string, Handle>, names: seq<string>, i: nat, e: TxEvent)
    requires i < |names| && names[i] in m
    requires ApplyTo(m, names[..i], e).Keys == m.Keys
    ensures var m' := ApplyTo(m, names[..i], e);
      && ApplyTo(m, names[..i + 1], e) == m'[names[i] := Apply(m'[names[i]], e)]
      && ApplyTo(m, names[..i + 1], e).Keys == m.Keys
  {
    assert names[..i + 1][..i] == names[..i];
  }

  predicate Distinct(s: seq<string>) {
    forall i, j :: 0 <= i < j < |s| ==> s[i] != s[j]
  }

  /** Applying a call along distinct names applies it once to each named
      handle and leaves every other handle, and the set of names, as they
      were. */
  lemma {:induction false} ApplyToSpec(m: map<string, Handle>, names: seq<string>, e: TxEvent)
    requires Distinct(names)
    ensures ApplyTo(m, names, e).Keys == m.Keys
    ensures forall n :: n in m ==>
      ApplyTo(m, names, e)[n] == if n in names then Apply(m[n], e) else m[n]
  {
    if names != [] {
      var init := names[..|names| - 1];
      var last := names[|names| - 1];
      assert Distinct(init);
      ApplyToSpec(m, init, e);
      forall i | 0 <= i < |init| ensures init[i] != last {
        assert names[i] != names[|names| - 1];
      }
      forall n | n in names ensures n in init || n == last {
        var i :| 0 <= i < |names| && names[i] == n;
        if i < |names| - 1 {
          assert init[i] == n;
        }
      }
    }
  }

  /** After every handle began and then committed, no transaction is open
      on any of them and each has accepted exactly those two calls last. */
  lemma BeginThenCommit(m: map<string, Handle>, names: seq<string>)
    requires Distinct(names)
    requires forall n :: n in names ==> n in m
    ensures var after := ApplyTo(ApplyTo(m, names, Began), names, Committed);
      && after.Keys == m.Keys
      && forall n :: n in names ==>
         !after[n].inTransaction && after[n].history == m[n].history + [Began, Committed]
  {
    var begun := ApplyTo(m, names, Began);
    ApplyToSpec(m, names, Began);
    ApplyToSpec(begun, names, Committed);
    forall n | n in names
      ensures ApplyTo(begun, names, Committed)[n].history == m[n].history + [Began, Committed]
    {
      assert begun[n].history == m[n].history + [Began];
    }
  }

  /** The position of the first of `names` the driver refuses, if any. */
  function FirstRefused(names: seq<string>, refusals: map<string, string>): (r: Option<nat>)
    ensures r.None? <==> forall i :: 0 <= i < |names| ==> names[i] !in refusals
    ensures r.Some? ==> (r.value < |names| && names[r.value] in refusals &&
      forall j :: 0 <= j < r.value ==> names[j] !in refusals)
  {
    if names == [] then None
    else if names[0] in refusals then Some(0)
    else
      match FirstRefused(names[1..], refusals)
      case None => None
      case Some(k) => Some(k + 1)
  }

  /** The first refused name is the one at `i` when none before it is. */
  lemma FirstRefusedAt(names: seq<string>, refusals: map<string, string>, i: nat)
    requires i < |names| && names[i] in refusals
    requires forall j :: 0 <= j < i ==> names[j] !in refusals
    ensures FirstRefused(names, refusals) == Some(i)
  {
  }

  /** The loop itself, on values: applies `e` to the handles `names` in
      order and stops at the first one the driver refuses. */
  method ApplyEach(m: map<string, Handle>, names: seq<string>, e: TxEvent, refusals: map<string, string>)
    returns (m': map<string, Handle>, failed: Option<string>)
    requires forall i :: 0 <= i < |names| ==> names[i] in m
    ensures m'.Keys == m.Keys
    ensures match FirstRefused(names, refusals)
      case None => failed == None && m' == ApplyTo(m, names, e)
      case Some(k) => failed == Some(refusals[names[k]]) && m' == ApplyTo(m, names[..k], e)
  {
    m' := m;
    var i := 0;
    while i < |names|
      invariant 0 <= i <= |names|
      invariant m' == ApplyTo(m, names[..i], e) && m'.Keys == m.Keys
      invariant forall j :: 0 <= j < i ==> names[j] !in refusals
    {
      if names[i] in refusals {
        FirstRefusedAt(names, refusals, i);
        return m', Some(refusals[names[i]]);
      }
      ApplyStep(m, names, i, e);
      m' := m'[names[i] := Apply(m'[names[i]], e)];
      i := i + 1;
    }
    assert names[..i] == names;
    assert FirstRefused(names, refusals) == None;
    failed := None;
  }

  const NotInitializedMessage := "The connection to the database is not initialized."

  class Registry {
    /** `self::$instance`: connection name to open handle. */
    var instances: map<string, Handle>
    /** The names of `instances`, in the order they were registered. */
    var order: seq<string>
    /** `self::$beginTransaction`. */
    var beginTransaction: bool

    predicate Valid()
      reads this
    {
      && (forall n :: n in instances ==> n in order)
      && (forall i :: 0 <= i < |order| ==> order[i] in instances)
      && Distinct(order)
    }

    constructor()
      ensures Valid() && instances == map[] && order == [] && !beginTransaction
    {
      instances := map[];
      order := [];
      beginTransaction := false;
    }

    /** `mount($credentials, $connection, $loginTimeout)`: a name already
        registered gets its stored handle back and nothing changes.
        Otherwise the connection is opened, joins a transaction if the flag
        is set, and only then is registered; a driver error at either step
        is re-raised as an SQLServerException and registers nothing. */
    method Mount(credentials: Properties, connection: string, loginTimeout: int,
                 openError: Option<string>, beginError: Option<string>)
      returns (r: Result<Handle, Exception>)
      requires Valid()
      modifies this
      ensures Valid()
      ensures connection in old(instances) ==> r == Ok(old(instances)[connection]) && unchanged(this)
      ensures connection !in old(instances) && openError.Some? ==>
        r == Err(CreateSQLServerException(openError.value)) && unchanged(this)
      ensures connection !in old(instances) && openError.None? && beginTransaction && beginError.Some? ==>
        r == Err(CreateSQLServerException(beginError.value)) && unchanged(this)
      ensures connection !in old(instances) && openError.None? && !(beginTransaction && beginError.Some?) ==>
        var h := Handle(MountDsn(credentials, loginTimeout), Property(credentials, "username"),
                        Property(credentials, "password"), beginTransaction,
                        if beginTransaction then [Began] else []);
        && r == Ok(h)
        && instances == old(instances)[connection := h]
        && order == old(order) + [connection]
        && beginTransaction == old(beginTransaction)
    {
      if connection !in instances {
        var dsn := MountDsn(credentials, loginTimeout);
        if openError.Some? {
          return Err(CreateSQLServerException(openError.value));
        }
        var h := Handle(dsn, Property(credentials, "username"), Property(credentials, "password"), false, []);
        if beginTransaction {
          if beginError.Some? {
            return Err(CreateSQLServerException(beginError.value));
          }
          h := Apply(h, Began);
          assert h.history == [Began];
        }
        assert connection !in order;
        instances := instances[connection := h];
        order := order + [connection];
      }
      return Ok(instances[connection]);
    }

    /** The `foreach (self::$instance ...)` loop shared by the three
        transaction calls: applies `e` to each handle in registration order
        and stops at the first one the driver refuses, returning its error. */
    method ApplyAll(e: TxEvent, refusals: map<string, string>) returns (failed: Option<string>)
      requires Valid()
      modifies this
      ensures Valid()
      ensures order == old(order) && beginTransaction == old(beginTransaction)
      ensures match FirstRefused(order, refusals)
        case None => failed == None && instances == ApplyTo(old(instances), order, e)
        case Some(k) => failed == Some(refusals[order[k]]) && instances == ApplyTo(old(instances), order[..k], e)
    {
      var m;
      m, failed := ApplyEach(instances, order, e, refusals);
      instances := m;
      SameKeysValid(old(instances));
    }

    /** Replacing handles without adding or removing names keeps the
        registry consistent with its order. */
    lemma SameKeysValid(m: map<string, Handle>)
      requires (forall n :: n in m ==> n in order) && (forall i :: 0 <= i < |order| ==> order[i] in m)
      requires Distinct(order) && instances.Keys == m.Keys
      ensures Valid()
    {
    }

    /** `beginTransaction()`: begins on every handle in order, then sets
        the flag; an empty registry only sets the flag. A driver refusal
        escapes as a PDOException with the handles before it already begun
        and the flag unchanged. */
    method BeginTransaction(refusals: map<string, string>) returns (r: Result<Unit, Exception>)
      requires Valid()
      modifies this
      ensures Valid() && order == old(order)
      ensures match FirstRefused(order, refusals)
        case None => r == Ok(Unit) && instances == ApplyTo(old(instances), order, Began) && beginTransaction
        case Some(k) =>
          && r == Err(PDOException(refusals[order[k]]))
          && instances == ApplyTo(old(instances), order[..k], Began)
          && beginTransaction == old(beginTransaction)
    {
      var failed := ApplyAll(Began, refusals);
      if failed.Some? {
        return Err(PDOException(failed.value));
      }
      beginTransaction := true;
      return Ok(Unit);
    }

    /** `commit()`: an empty registry raises "not initialized" and changes
        nothing; otherwise commits every handle in order and then clears
        the flag. A refusal at handle k leaves the handles before k
        committed, the rest untouched and the flag set. */
    method Commit(refusals: map<string, string>) returns (r: Result<Unit, Exception>)
      requires Valid()
      modifies this
      ensures Valid() && order == old(order)
      ensures old(instances) == map[] ==>
        r == Err(CreateSQLServerException(NotInitializedMessage)) && unchanged(this)
      ensures old(instances) != map[] ==>
        match FirstRefused(order, refusals)
        case None => r == Ok(Unit) && instances == ApplyTo(old(instances), order, Committed) && !beginTransaction
        case Some(k) =>
          && r == Err(PDOException(refusals[order[k]]))
          && instances == ApplyTo(old(instances), order[..k], Committed)
          && beginTransaction == old(beginTransaction)
    {
      if instances == map[] {
        return Err(CreateSQLServerException(NotInitializedMessage));
      }
      var failed := ApplyAll(Committed, refusals);
      if failed.Some? {
        return Err(PDOException(failed.value));
      }
      beginTransaction := false;
      return Ok(Unit);
    }

    /** `rollback()`: as `commit`, rolling back instead. */
    method Rollback(refusals: map<string, string>) returns (r: Result<Unit, Exception>)
      requires Valid()
      modifies this
      ensures Valid() && order == old(order)
      ensures old(instances) == map[] ==>
        r == Err(CreateSQLServerException(NotInitializedMessage)) && unchanged(this)
      ensures old(instances) != map[] ==>
        match FirstRefused(order, refusals)
        case None => r == Ok(Unit) && instances == ApplyTo(old(instances), order, RolledBack) && !beginTransaction
        case Some(k) =>
          && r == Err(PDOException(refusals[order[k]]))
          && instances == ApplyTo(old(instances), order[..k], RolledBack)
          && beginTransaction == old(beginTransaction)
    {
      if instances == map[] {
        return Err(CreateSQLServerException(NotInitializedMessage));
      }
      var failed := ApplyAll(RolledBack, refusals);
      if failed.Some? {
        return Err(PDOException(failed.value));
      }
      beginTransaction := false;
      return Ok(Unit);
    }
  }

  /** What a refused commit (or rollback) at position k leaves behind: the
      handles registered before k have ended their transaction, the
      refusing handle and every later one are exactly as they were. */
  lemma PartialEnd(m: map<string, Handle>, order: seq<string>, k: nat, e: TxEvent)
    requires Distinct(order) && k <= |order|
    requires forall n :: n in order ==> n in m
    requires e != Began
    ensures var after := ApplyTo(m, order[..k], e);
      && after.Keys == m.Keys
      && (forall j :: 0 <= j < k ==> !after[order[j]].inTransaction && after[order[j]].history == m[order[j]].history + [e])
      && (forall j :: k <= j < |order| ==> after[order[j]] == m[order[j]])
  {
    assert Distinct(order[..k]);
    ApplyToSpec(m, order[..k], e);
    forall j, i | k <= j < |order| && 0 <= i < k ensures order[..k][i] != order[j] {
      assert order[..k][i] == order[i];
    }
    forall j | 0 <= j < k ensures order[j] in order[..k] {
      assert order[..k][j] == order[j];
    }
  }
}
