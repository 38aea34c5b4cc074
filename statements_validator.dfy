/** src/Validator/StatementsValidator.php: comment stripping, the
    forbidden-token check, the per-verb checks and the parameter-shape
    check. All of it is pure: each check either returns or raises a
    `SQLServerException`. */
module StatementsValidator {
  import opened Wrappers
  import opened PhpStrings
  import opened PhpValues
  import opened Exceptions
  import opened Utilities

  // ---------------------------------------------------------------------
  // Line comments: preg_replace('/(--|\/\/).*$/m', '', $s)
  // ---------------------------------------------------------------------

  /** A line-comment marker, two dashes or two slashes, starts at `i`. */
  predicate LineMarkerAt(s: string, i: nat) {
    i + 1 < |s| && s[i] == s[i + 1] && (s[i] == '-' || s[i] == '/')
  }

  /** What is left of `s` from its first newline on (`.*$` in multiline
      mode stops before the newline and keeps it). */
  function FromNewline(s: string): (r: string)
    ensures |r| <= |s| && r == s[|s| - |r|..]
    ensures r == [] || r[0] == '\n'
    ensures forall i :: 0 <= i < |s| - |r| ==> s[i] != '\n'
  {
    if s == [] || s[0] == '\n' then s else FromNewline(s[1..])
  }

  /** The regex scans left to right: at the leftmost marker it deletes up
      to the end of that line, then resumes at the newline. */
  function StripLineComments(s: string): string
    decreases |s|
  {
    if s == [] then []
    else if LineMarkerAt(s, 0) then StripLineComments(FromNewline(s))
    else [s[0]] + StripLineComments(s[1..])
  }

  /** No marker survives line-comment removal, and the result opens either
      with a newline or with the input's own first character. */
  lemma {:induction false} StripLineCommentsShape(s: string)
    decreases |s|
    ensures var r := StripLineComments(s);
      && (forall i: nat :: !LineMarkerAt(r, i))
      && (r != [] ==> r[0] == '\n' || (r[0] == s[0] && !LineMarkerAt(s, 0)))
  {
    if s == [] {
    } else if LineMarkerAt(s, 0) {
      StripLineCommentsShape(FromNewline(s));
    } else {
      StripLineCommentsShape(s[1..]);
      var t := StripLineComments(s[1..]);
      var r := [s[0]] + t;
      forall i: nat ensures !LineMarkerAt(r, i) {
        if i >= 1 {
          assert !LineMarkerAt(t, i - 1);
        }
      }
    }
  }

  /** A statement with no marker is left as it is. */
  lemma {:induction false} StripLineCommentsNoMarker(s: string)
    requires forall i: nat :: !LineMarkerAt(s, i)
    ensures StripLineComments(s) == s
  {
    if s != [] {
      assert forall i: nat :: !LineMarkerAt(s[1..], i) by {
        forall i: nat ensures !LineMarkerAt(s[1..], i) {
          assert !LineMarkerAt(s, i + 1);
        }
      }
      StripLineCommentsNoMarker(s[1..]);
    }
  }

  /** Everything before the first marker is kept, and the text from that
      marker to the end of its line is deleted. */
  lemma {:induction false} StripLineCommentsFirstMarker(s: string, k: nat)
    decreases k
    requires LineMarkerAt(s, k)
    requires forall i: nat :: i < k ==> !LineMarkerAt(s, i)
    ensures StripLineComments(s) == s[..k] + StripLineComments(FromNewline(s[k..]))
  {
    if k == 0 {
      assert s[..0] == [] && s[0..] == s;
    } else {
      var u := s[1..];
      MarkersShift(s, k);
      StripLineCommentsFirstMarker(u, k - 1);
      assert u[k - 1..] == s[k..];
      KeptHead(s, k, StripLineComments(u), StripLineComments(FromNewline(s[k..])));
    }
  }

  lemma MarkersShift(s: string, k: nat)
    requires 0 < k <= |s| && forall i: nat :: i < k ==> !LineMarkerAt(s, i)
    ensures forall i: nat :: i < k - 1 ==> !LineMarkerAt(s[1..], i)
  {
    forall i: nat | i < k - 1 ensures !LineMarkerAt(s[1..], i) {
      assert !LineMarkerAt(s, i + 1);
    }
  }

  lemma KeptHead(s: string, k: nat, rest: string, tail: string)
    requires 0 < k <= |s| && rest == s[1..][..k - 1] + tail
    ensures [s[0]] + rest == s[..k] + tail
  {
    assert s[..k] == [s[0]] + s[1..][..k - 1];
  }

  // ---------------------------------------------------------------------
  // Block comments: preg_replace('/\/\*.*?\*\//s', '', $s)
  // ---------------------------------------------------------------------

  /** A block-comment opener, slash then star, starts at `i`. */
  predicate OpenerAt(s: string, i: nat) {
    i + 1 < |s| && s[i] == '/' && s[i + 1] == '*'
  }

  /** A block-comment closer, star then slash, starts at `i`. */
  predicate CloserAt(s: string, i: nat) {
    i + 1 < |s| && s[i] == '*' && s[i + 1] == '/'
  }

  /** The nearest closer starting at or after `from` (the lazy `.*?`). */
  function FindCloser(s: string, from: nat): (r: Option<nat>)
    decreases |s| - from
    ensures r.Some? ==> from <= r.value && CloserAt(s, r.value)
    ensures r.Some? ==> forall j: nat :: from <= j < r.value ==> !CloserAt(s, j)
    ensures r.None? ==> forall j: nat :: from <= j ==> !CloserAt(s, j)
  {
    if from + 1 >= |s| then None
    else if CloserAt(s, from) then Some(from)
    else FindCloser(s, from + 1)
  }

  /** At the leftmost opener the match ends at the nearest closer starting
      two or more characters later; without one there is no match there
      nor anywhere further right, and the rest is kept. */
  function StripBlockComments(s: string): string
    decreases |s|
  {
    if s == [] then []
    else if OpenerAt(s, 0) then
      match FindCloser(s, 2)
      case None => s
      case Some(e) => StripBlockComments(s[e + 2..])
    else [s[0]] + StripBlockComments(s[1..])
  }

  /** A statement without an opener is left as it is. */
  lemma {:induction false} StripBlockCommentsNoOpener(s: string)
    requires forall i: nat :: !OpenerAt(s, i)
    ensures StripBlockComments(s) == s
  {
    if s != [] {
      assert forall i: nat :: !OpenerAt(s[1..], i) by {
        forall i: nat ensures !OpenerAt(s[1..], i) {
          assert !OpenerAt(s, i + 1);
        }
      }
      StripBlockCommentsNoOpener(s[1..]);
    }
  }

  /** The first comment, from the leftmost opener `k` through the nearest
      closer `e` at or after `k + 2`, is deleted; the text before it is
      kept and the scan resumes after the closer. */
  lemma {:induction false} StripBlockCommentsFirstComment(s: string, k: nat, e: nat)
    decreases k
    requires OpenerAt(s, k)
    requires forall i: nat :: i < k ==> !OpenerAt(s, i)
    requires k + 2 <= e && CloserAt(s, e)
    requires forall j: nat :: k + 2 <= j < e ==> !CloserAt(s, j)
    ensures StripBlockComments(s) == s[..k] + StripBlockComments(s[e + 2..])
  {
    if k == 0 {
      assert s[..0] == [];
      assert FindCloser(s, 2) == Some(e);
    } else {
      var u := s[1..];
      OpenersShift(s, k);
      ClosersShift(s, k + 2, e);
      StripBlockCommentsFirstComment(u, k - 1, e - 1);
      assert u[e + 1..] == s[e + 2..];
      KeptHead(s, k, StripBlockComments(u), StripBlockComments(s[e + 2..]));
    }
  }

  lemma OpenersShift(s: string, k: nat)
    requires 0 < k <= |s| && forall i: nat :: i < k ==> !OpenerAt(s, i)
    ensures forall i: nat :: i < k - 1 ==> !OpenerAt(s[1..], i)
  {
    forall i: nat | i < k - 1 ensures !OpenerAt(s[1..], i) {
      assert !OpenerAt(s, i + 1);
    }
  }

  lemma ClosersShift(s: string, from: nat, e: nat)
    requires 0 < from && s != [] && forall j: nat :: from <= j < e ==> !CloserAt(s, j)
    ensures forall j: nat :: from - 1 <= j < e - 1 ==> !CloserAt(s[1..], j)
  {
    forall j: nat | from - 1 <= j < e - 1 ensures !CloserAt(s[1..], j) {
      assert !CloserAt(s, j + 1);
    }
  }

  /** An opener with no closer after it ends the rewriting: the statement
      is returned unchanged. */
  lemma {:induction false} StripBlockCommentsUnterminated(s: string, k: nat)
    decreases k
    requires OpenerAt(s, k)
    requires forall i: nat :: i < k ==> !OpenerAt(s, i)
    requires forall j: nat :: k + 2 <= j ==> !CloserAt(s, j)
    ensures StripBlockComments(s) == s
  {
    if k > 0 {
      var u := s[1..];
      assert forall i: nat :: i < k - 1 ==> !OpenerAt(u, i) by {
        forall i: nat | i < k - 1 ensures !OpenerAt(u, i) {
          assert !OpenerAt(s, i + 1);
        }
      }
      assert forall j: nat :: k + 1 <= j ==> !CloserAt(u, j) by {
        forall j: nat | k + 1 <= j ensures !CloserAt(u, j) {
          assert !CloserAt(s, j + 1);
        }
      }
      StripBlockCommentsUnterminated(u, k - 1);
    }
  }

  // ---------------------------------------------------------------------
  // withoutComments
  // ---------------------------------------------------------------------

  const ForbiddenTokens: seq<string> := ["/*", "*/", "//", "--", "<-", "->"]

  /** `stripos($s, $p)` used as a condition: `false` and the index 0 are both
      falsy, so only a leftmost occurrence past the start counts. */
  predicate FoundPastStart(s: string, p: string) {
    Stripos(s, p).Some? && Stripos(s, p).value > 0
  }

  /** The condition is true exactly when the (case-folded) token occurs
      somewhere but not at index 0: an occurrence at 0 hides every later
      one. */
  lemma FoundPastStartIff(s: string, p: string)
    ensures FoundPastStart(s, p) <==>
      (exists i: nat :: OccursAt(Lower(s), Lower(p), i)) && !OccursAt(Lower(s), Lower(p), 0)
  {
    FindFromSpec(Lower(s), Lower(p), 0);
    var r := Stripos(s, p);
    if r.Some? {
      assert OccursAt(Lower(s), Lower(p), r.value);
    }
  }

  /** The foreach over the forbidden tokens: the first one (in list order)
      whose condition holds. */
  function FirstReported(s: string, tokens: seq<string>): (r: Option<string>)
    ensures r.None? <==> forall j :: 0 <= j < |tokens| ==> !FoundPastStart(s, tokens[j])
    ensures r.Some? ==>
      exists j :: (0 <= j < |tokens| && tokens[j] == r.value && FoundPastStart(s, tokens[j]) &&
                   forall i :: 0 <= i < j ==> !FoundPastStart(s, tokens[i]))
  {
    if tokens == [] then None
    else if FoundPastStart(s, tokens[0]) then Some(tokens[0])
    else
      var r := FirstReported(s, tokens[1..]);
      assert forall j :: 1 <= j < |tokens| ==> tokens[j] == tokens[1..][j - 1];
      r
  }

  /** Both rewrites, line comments first. */
  function StripComments(statement: string): string {
    StripBlockComments(StripLineComments(statement))
  }

  function CommentsMessage(token: string): string {
    "The statement contains comments (" + token + "); please remove them to proceed."
  }

  /** `withoutComments($statement)`. */
  function WithoutComments(statement: string): Result<string, Exception> {
    var t := StripComments(statement);
    match FirstReported(t, ForbiddenTokens)
    case None => Ok(t)
    case Some(p) => Err(CreateSQLServerException(CommentsMessage(p)))
  }

  /** A token occurs somewhere in `s`. */
  predicate OccursAnywhere(s: string, p: string) {
    exists i: nat :: i <= |s| && OccursAt(s, p, i)
  }

  lemma ForbiddenTokensFolded()
    ensures forall j :: 0 <= j < |ForbiddenTokens| ==> Lower(ForbiddenTokens[j]) == ForbiddenTokens[j]
  {
    assert Lower("/*") == "/*" && Lower("*/") == "*/" && Lower("//") == "//";
    assert Lower("--") == "--" && Lower("<-") == "<-" && Lower("->") == "->";
  }

  /** `withoutComments` returns the stripped statement exactly when every
      forbidden token is either absent from it or opens it; otherwise it
      raises naming the first token, in list order, whose leftmost
      occurrence is past the start. */
  lemma WithoutCommentsSpec(statement: string)
    ensures var t := StripComments(statement);
      && (WithoutComments(statement).Ok? <==>
           forall j :: 0 <= j < |ForbiddenTokens| ==>
             OccursAnywhere(Lower(t), ForbiddenTokens[j]) ==> OccursAt(Lower(t), ForbiddenTokens[j], 0))
      && (WithoutComments(statement).Ok? ==> WithoutComments(statement).value == t)
      && (WithoutComments(statement).Err? ==>
           exists j :: 0 <= j < |ForbiddenTokens|
             && WithoutComments(statement).error == CreateSQLServerException(CommentsMessage(ForbiddenTokens[j]))
             && OccursAnywhere(Lower(t), ForbiddenTokens[j])
             && !OccursAt(Lower(t), ForbiddenTokens[j], 0))
  {
    var t := StripComments(statement);
    ForbiddenTokensFolded();
    forall j | 0 <= j < |ForbiddenTokens|
      ensures FoundPastStart(t, ForbiddenTokens[j]) <==>
        OccursAnywhere(Lower(t), ForbiddenTokens[j]) && !OccursAt(Lower(t), ForbiddenTokens[j], 0)
    {
      FoundPastStartIff(t, ForbiddenTokens[j]);
    }
  }

  /** A token that opens the stripped statement is never reported, however
      often it recurs further on (so "->x->" passes). */
  lemma OpeningTokenNeverReported(statement: string, j: nat)
    requires j < |ForbiddenTokens|
    requires OccursAt(Lower(StripComments(statement)), ForbiddenTokens[j], 0)
    ensures WithoutComments(statement).Err? ==>
      WithoutComments(statement).error != CreateSQLServerException(CommentsMessage(ForbiddenTokens[j]))
  {
    var t := StripComments(statement);
    ForbiddenTokensFolded();
    FoundPastStartIff(t, ForbiddenTokens[j]);
    var r := FirstReported(t, ForbiddenTokens);
    if r.Some? {
      var m := r.value;
      if CreateSQLServerException(CommentsMessage(m)) == CreateSQLServerException(CommentsMessage(ForbiddenTokens[j])) {
        assert CommentsMessage(m) == CommentsMessage(ForbiddenTokens[j]);
        CommentsMessageInjective(m, ForbiddenTokens[j]);
      }
    }
  }

  lemma CommentsMessageInjective(a: string, b: string)
    requires CommentsMessage(a) == CommentsMessage(b)
    ensures a == b
  {
    var pre := "The statement contains comments (";
    var post := "); please remove them to proceed.";
    assert CommentsMessage(a) == pre + a + post;
    assert |a| == |b|;
    assert a == CommentsMessage(a)[|pre|..|pre| + |a|];
    assert b == CommentsMessage(b)[|pre|..|pre| + |b|];
  }

  /** Every forbidden token holds a '/' or a '-', so a statement with
      neither character passes unchanged. */
  lemma WithoutCommentsClean(statement: string)
    requires forall i :: 0 <= i < |statement| ==> statement[i] != '/' && statement[i] != '-'
    ensures WithoutComments(statement) == Ok(statement)
  {
    StripLineCommentsNoMarker(statement);
    StripBlockCommentsNoOpener(statement);
    ForbiddenTokensFolded();
    forall j | 0 <= j < |ForbiddenTokens| ensures !FoundPastStart(statement, ForbiddenTokens[j]) {
      FoundPastStartIff(statement, ForbiddenTokens[j]);
      TokenMarked(j);
      CleanHoldsNoToken(statement, ForbiddenTokens[j]);
    }
  }

  /** Each forbidden token is two characters long and holds a '/' or a '-'. */
  lemma TokenMarked(j: nat)
    requires j < |ForbiddenTokens|
    ensures var p := ForbiddenTokens[j];
      |p| == 2 && (p[0] == '/' || p[0] == '-' || p[1] == '/' || p[1] == '-')
  {
  }

  lemma CleanHoldsNoToken(statement: string, p: string)
    requires forall i :: 0 <= i < |statement| ==> statement[i] != '/' && statement[i] != '-'
    requires |p| == 2 && (p[0] == '/' || p[0] == '-' || p[1] == '/' || p[1] == '-')
    ensures forall i: nat :: !OccursAt(Lower(statement), p, i)
  {
    var folded := Lower(statement);
    forall i: nat ensures !OccursAt(folded, p, i) {
      if i + 2 <= |folded| {
        assert folded[i..i + 2][0] == folded[i] && folded[i..i + 2][1] == folded[i + 1];
      }
    }
  }

  // ---------------------------------------------------------------------
  // isSelect / isUpdate / isInsert / isDelete / isProcedure
  // ---------------------------------------------------------------------

  /** PHP `===`: same type and same value. */
  predicate StrictlyEqual(a: Value, b: Value) {
    a == b
  }

  /** The shared body of the five verb checks: trim, strip comments, then
      `!stripos($statement, $verb) === 0`, which compares a boolean with the
      integer 0 and so never raises. */
  function VerbCheck(verb: string, noun: string, statement: string): Result<Unit, Exception> {
    match WithoutComments(Trim(statement))
    case Err(e) => Err(e)
    case Ok(t) =>
      if StrictlyEqual(Bool(!FoundPastStart(t, verb)), Int(0)) then
        Err(CreateSQLServerException("Invalid " + noun + " statement. Please provide a valid " + noun + " query."))
      else Ok(Unit)
  }

  function IsSelect(statement: string): Result<Unit, Exception> {
    VerbCheck("SELECT", "SELECT", statement)
  }

  function IsUpdate(statement: string): Result<Unit, Exception> {
    VerbCheck("UPDATE", "UPDATE", statement)
  }

  function IsInsert(statement: string): Result<Unit, Exception> {
    VerbCheck("INSERT", "INSERT", statement)
  }

  function IsDelete(statement: string): Result<Unit, Exception> {
    VerbCheck("DELETE", "DELETE", statement)
  }

  function IsProcedure(statement: string): Result<Unit, Exception> {
    VerbCheck("EXEC", "PROCEDURE", statement)
  }

  /** The verb is never looked at: each check succeeds or fails exactly as
      `withoutComments` does on the trimmed statement, with the same
      exception. */
  lemma VerbChecksOnlyCheckComments(statement: string)
    ensures var w := WithoutComments(Trim(statement));
      && (IsSelect(statement).Ok? <==> w.Ok?)
      && (IsUpdate(statement).Ok? <==> w.Ok?)
      && (IsInsert(statement).Ok? <==> w.Ok?)
      && (IsDelete(statement).Ok? <==> w.Ok?)
      && (IsProcedure(statement).Ok? <==> w.Ok?)
      && (w.Err? ==> IsSelect(statement) == Err(w.error) && IsProcedure(statement) == Err(w.error))
  {
  }

  /** Hence a statement of any verb passes every check when it holds no
      '/' or '-', e.g. "DROP TABLE x" passes `isSelect`. */
  lemma VerbChecksAcceptAnyVerb(statement: string)
    requires forall i :: 0 <= i < |statement| ==> statement[i] != '/' && statement[i] != '-'
    ensures IsSelect(statement).Ok? && IsUpdate(statement).Ok? && IsInsert(statement).Ok?
    ensures IsDelete(statement).Ok? && IsProcedure(statement).Ok?
  {
    var t := Trim(statement);
    assert TrimLeft(statement) == statement[|statement| - |TrimLeft(statement)|..];
    forall i | 0 <= i < |t| ensures t[i] != '/' && t[i] != '-' {
      assert t[i] == TrimLeft(statement)[i];
      assert TrimLeft(statement)[i] == statement[|statement| - |TrimLeft(statement)| + i];
    }
    WithoutCommentsClean(t);
    VerbChecksOnlyCheckComments(statement);
  }

  // ---------------------------------------------------------------------
  // isValidParams
  // ---------------------------------------------------------------------

  const MultipleParametersMessage := "Arrays with multiple parameters can only be used for data insertion processes."

  /** `isValidParams($params)`: raises exactly when some parameter value is
      itself an array (the batch shape only inserts may use). */
  function IsValidParams(params: seq<Entry>): Result<Unit, Exception> {
    if HasArrayElement(Arr(params)) then Err(CreateSQLServerException(MultipleParametersMessage))
    else Ok(Unit)
  }

  /** The check rejects exactly the parameter lists holding an array
      value. */
  lemma IsValidParamsSpec(params: seq<Entry>)
    ensures IsValidParams(params).Err? <==> exists i :: 0 <= i < |params| && params[i].value.Arr?
  {
  }

  /** The exception `isValidParams` throws carries the fixed message about
      multiple parameters. */
  lemma IsValidParamsError(params: seq<Entry>)
    requires IsValidParams(params).Err?
    ensures IsValidParams(params).error.SQLServerException?
    ensures IsValidParams(params).error == CreateSQLServerException(MultipleParametersMessage)
  {
  }
}
