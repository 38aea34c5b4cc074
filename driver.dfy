/** The database driver (PDO) as the library uses it, reduced to what the
    library can observe: every call it makes is appended to a log, and the
    driver's answer to the call at log position p is `answer(p)`, a
    function fixed when the connection is made. An answer either raises
    (`error`, the exception message) or returns. `rowCount()` and
    `lastInsertId()` are read from the answer to the `execute` they follow,
    and binding a parameter never fails. */
module Driver {
  import opened Wrappers
  import opened PhpValues

  datatype Command =
    | Prepare(sql: string)
    | Bind(key: Key, value: Value)
    | Execute
    | ExecuteWith(params: seq<Entry>)   // `execute($params)`
    | FetchAll                          // `fetchAll(PDO::FETCH_ASSOC)`
    | FetchColumn                       // `fetchAll(PDO::FETCH_COLUMN)`
    | CloseCursor
    | Exec(sql: string)
    | Query(sql: string)
    | SetAttribute(attribute: string, setting: string)

  /** The driver's answer to one call: whether it raised, and otherwise
      what it returned. `success` is false for a call that returns false
      (`exec`, `execute`, `query`), `count` the affected rows, `id` the
      last insert id, `rows` and `texts` the fetched rows and column. */
  datatype Answer = Answer(error: Option<string>, success: bool, count: int, id: Value,
                           rows: seq<Value>, texts: seq<string>)

  /** Binding is the one call taken never to raise. */
  predicate CanFail(c: Command) {
    !c.Bind?
  }

  /** `Some(k)` moved on by `n` positions. */
  function Plus(n: nat, r: Option<nat>): Option<nat> {
    match r
    case None => None
    case Some(k) => Some(n + k)
  }

  /** The position in `plan` of the first call that raises when the plan
      is issued from log position `start`. */
  function FirstError(answer: nat -> Answer, start: nat, plan: seq<Command>): (r: Option<nat>)
    ensures r.Some? ==> r.value < |plan|
  {
    FirstErrorFrom(answer, start, plan, 0)
  }

  /** The first call at or after position `k` of `plan` that raises. */
  function FirstErrorFrom(answer: nat -> Answer, start: nat, plan: seq<Command>, k: nat): (r: Option<nat>)
    requires k <= |plan|
    decreases |plan| - k
    ensures r.Some? ==> k <= r.value < |plan|
  {
    if k == |plan| then None
    else if CanFail(plan[k]) && answer(start + k).error.Some? then Some(k)
    else FirstErrorFrom(answer, start, plan, k + 1)
  }

  /** The search from `k` finds the first raising call at or after `k`. */
  lemma {:induction false} FirstErrorFromSpec(answer: nat -> Answer, start: nat, plan: seq<Command>, k: nat)
    requires k <= |plan|
    decreases |plan| - k
    ensures FirstErrorFrom(answer, start, plan, k).None? ==>
      forall j :: k <= j < |plan| && CanFail(plan[j]) ==> answer(start + j).error.None?
    ensures FirstErrorFrom(answer, start, plan, k).Some? ==>
      var r := FirstErrorFrom(answer, start, plan, k).value;
      && CanFail(plan[r]) && answer(start + r).error.Some?
      && forall j :: k <= j < r && CanFail(plan[j]) ==> answer(start + j).error.None?
  {
    if k < |plan| && !(CanFail(plan[k]) && answer(start + k).error.Some?) {
      FirstErrorFromSpec(answer, start, plan, k + 1);
    }
  }

  /** `FirstError` finds the first raising call: every call before it
      returns, and it raises; `None` means no call of the plan raises. */
  lemma FirstErrorSpec(answer: nat -> Answer, start: nat, plan: seq<Command>)
    ensures FirstError(answer, start, plan).None? ==>
      forall j :: 0 <= j < |plan| && CanFail(plan[j]) ==> answer(start + j).error.None?
    ensures FirstError(answer, start, plan).Some? ==>
      var k := FirstError(answer, start, plan).value;
      && k < |plan| && CanFail(plan[k]) && answer(start + k).error.Some?
      && forall j :: 0 <= j < k && CanFail(plan[j]) ==> answer(start + j).error.None?
  {
    FirstErrorFromSpec(answer, start, plan, 0);
  }

  /** The calls of `plan` actually made: all of them, or up to and
      including the first that raises. */
  function Issued(answer: nat -> Answer, start: nat, plan: seq<Command>): seq<Command> {
    match FirstError(answer, start, plan)
    case None => plan
    case Some(j) => plan[..j + 1]
  }

  /** The message of the first call of `plan` that raises, if any. */
  function ErrorOf(answer: nat -> Answer, start: nat, plan: seq<Command>): (r: Option<string>)
    ensures r.Some? <==> FirstError(answer, start, plan).Some?
  {
    FirstErrorSpec(answer, start, plan);
    match FirstError(answer, start, plan)
    case None => None
    case Some(j) => answer(start + j).error
  }

  /** Searching `p + q` inside `p` is searching `p`, and, past its end,
      searching `q` from its start. */
  lemma {:induction false} AppendFromLow(answer: nat -> Answer, start: nat, p: seq<Command>, q: seq<Command>, k: nat)
    requires k <= |p|
    decreases |p| - k
    ensures FirstErrorFrom(answer, start, p + q, k) ==
      match FirstErrorFrom(answer, start, p, k)
      case Some(j) => Some(j)
      case None => FirstErrorFrom(answer, start, p + q, |p|)
  {
    if k < |p| {
      assert (p + q)[k] == p[k];
      AppendFromLow(answer, start, p, q, k + 1);
    }
  }

  /** Searching `p + q` past the end of `p` is searching `q`, shifted. */
  lemma {:induction false} AppendFromHigh(answer: nat -> Answer, start: nat, p: seq<Command>, q: seq<Command>, k: nat)
    requires |p| <= k <= |p| + |q|
    decreases |p| + |q| - k
    ensures FirstErrorFrom(answer, start, p + q, k) == Plus(|p|, FirstErrorFrom(answer, start + |p|, q, k - |p|))
  {
    if k < |p| + |q| {
      assert (p + q)[k] == q[k - |p|];
      assert start + k == (start + |p|) + (k - |p|);
      AppendFromHigh(answer, start, p, q, k + 1);
    }
  }

  /** Issuing `p + q` is issuing `p`, then, if nothing in `p` raised,
      issuing `q` right after it. */
  lemma FirstErrorAppend(answer: nat -> Answer, start: nat, p: seq<Command>, q: seq<Command>)
    ensures FirstError(answer, start, p + q) ==
      match FirstError(answer, start, p)
      case Some(j) => Some(j)
      case None => Plus(|p|, FirstError(answer, start + |p|, q))
  {
    AppendFromLow(answer, start, p, q, 0);
    AppendFromHigh(answer, start, p, q, |p|);
  }

  /** The same split stated for the calls made and the error raised. */
  lemma IssuedAppend(answer: nat -> Answer, start: nat, p: seq<Command>, q: seq<Command>)
    ensures FirstError(answer, start, p).Some? ==> FirstError(answer, start, p + q) == FirstError(answer, start, p)
    ensures FirstError(answer, start, p).None? ==>
      FirstError(answer, start, p + q) == Plus(|p|, FirstError(answer, start + |p|, q))
    ensures FirstError(answer, start, p).Some? ==>
      Issued(answer, start, p + q) == Issued(answer, start, p) &&
      ErrorOf(answer, start, p + q) == ErrorOf(answer, start, p)
    ensures FirstError(answer, start, p).None? ==>
      Issued(answer, start, p + q) == p + Issued(answer, start + |p|, q) &&
      ErrorOf(answer, start, p + q) == ErrorOf(answer, start + |p|, q)
  {
    FirstErrorAppend(answer, start, p, q);
    var pq := p + q;
    match FirstError(answer, start, p)
    case Some(j) =>
      assert pq[..j + 1] == p[..j + 1];
    case None =>
      match FirstError(answer, start + |p|, q)
      case None =>
      case Some(k) =>
        assert pq[..|p| + k + 1] == p + q[..k + 1];
  }

  /** A plan of one call raises exactly when that call can fail and its
      answer is a raise. */
  lemma OneCall(answer: nat -> Answer, start: nat, c: Command)
    ensures FirstError(answer, start, [c]) == (if CanFail(c) && answer(start).error.Some? then Some(0) else None)
    ensures Issued(answer, start, [c]) == [c]
    ensures ErrorOf(answer, start, [c]) == (if CanFail(c) then answer(start).error else None)
  {
    assert start + 0 == start;
    assert [c][..1] == [c];
  }

  /** A plan whose first raise is at position `k` is issued up to and
      including that call, and fails with its message. */
  lemma StopsAt(answer: nat -> Answer, start: nat, plan: seq<Command>, k: nat)
    requires FirstError(answer, start, plan) == Some(k)
    ensures Issued(answer, start, plan) == plan[..k + 1]
    ensures ErrorOf(answer, start, plan) == answer(start + k).error
  {
  }

  /** A plan that only binds never raises. */
  lemma BindsNeverFail(answer: nat -> Answer, start: nat, plan: seq<Command>)
    requires forall j :: 0 <= j < |plan| ==> plan[j].Bind?
    ensures FirstError(answer, start, plan) == None
    ensures Issued(answer, start, plan) == plan && ErrorOf(answer, start, plan) == None
  {
    BindsFromNeverFail(answer, start, plan, 0);
  }

  lemma {:induction false} BindsFromNeverFail(answer: nat -> Answer, start: nat, plan: seq<Command>, k: nat)
    requires k <= |plan|
    requires forall j :: 0 <= j < |plan| ==> plan[j].Bind?
    decreases |plan| - k
    ensures FirstErrorFrom(answer, start, plan, k) == None
  {
    if k < |plan| {
      BindsFromNeverFail(answer, start, plan, k + 1);
    }
  }

  /** An open connection and everything the library has asked of it. */
  class Connection {
    var log: seq<Command>
    const answer: nat -> Answer

    constructor(answer: nat -> Answer)
      ensures log == [] && this.answer == answer
    {
      log := [];
      this.answer := answer;
    }

    /** Makes one call and returns the driver's answer to it. */
    method Call(c: Command) returns (a: Answer)
      modifies this
      ensures log == old(log) + [c]
      ensures a == answer(|old(log)|)
    {
      a := answer(|log|);
      log := log + [c];
    }

    /** Makes the calls of `plan` in order, stopping after the first that
        raises, and returns its message. */
    method Run(plan: seq<Command>) returns (error: Option<string>)
      modifies this
      ensures log == old(log) + Issued(answer, |old(log)|, plan)
      ensures error == ErrorOf(answer, |old(log)|, plan)
    {
      var start := |log|;
      var i := 0;
      while i < |plan|
        invariant 0 <= i <= |plan|
        invariant log == old(log) + plan[..i]
        invariant FirstError(answer, start, plan) == FirstErrorFrom(answer, start, plan, i)
      {
        var a := Call(plan[i]);
        if CanFail(plan[i]) && a.error.Some? {
          assert log == old(log) + plan[..i + 1];
          return a.error;
        }
        i := i + 1;
      }
      assert plan[..i] == plan;
      return None;
    }
  }
}
