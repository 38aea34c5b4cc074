/** src/Utilities/Utilities.php: detection of nested parameter arrays and
    the table-name heuristic used by constraint bracketing. */
module Utilities {
  import opened Wrappers
  import opened PhpStrings
  import opened PhpValues

  /** The array holds at least one element that is itself an array. */
  predicate HasArrayElement(v: Value) {
    v.Arr? && exists i :: 0 <= i < |v.entries| && v.entries[i].value.Arr?
  }

  /** `hasSubArrays($array)`: false for anything that is not an array;
      otherwise scans the elements and stops at the first array. */
  method HasSubArrays(v: Value) returns (r: bool)
    ensures r == HasArrayElement(v)
    ensures !v.Arr? ==> !r
  {
    if !v.Arr? {
      return false;
    }
    var i := 0;
    while i < |v.entries|
      invariant 0 <= i <= |v.entries|
      invariant forall j :: 0 <= j < i ==> !v.entries[j].value.Arr?
    {
      if v.entries[i].value.Arr? {
        return true;
      }
      i := i + 1;
    }
    return false;
  }

  /** `substr($s, $start)` for a non-negative start: "" once the start is at
      or past the end (PHP 8). */
  function Substr(s: string, start: nat): string {
    if start >= |s| then "" else s[start..]
  }

  /** `explode(' ', $s)[0]`: everything before the first space. */
  function BeforeFirstSpace(s: string): string {
    FindFromSpec(s, " ", 0);
    match IndexOf(s, " ")
    case None => s
    case Some(k) => s[..k]
  }

  /** `getNameTable($statement)`: drop the first six characters (the verb),
      trim, and keep the first space-separated word. */
  function GetNameTable(statement: string): string {
    BeforeFirstSpace(Trim(Substr(statement, 6)))
  }

  lemma NoSpaceBefore(s: string, k: nat)
    requires forall j :: 0 <= j < k ==> !OccursAt(s, " ", j)
    requires k <= |s|
    ensures ' ' !in s[..k]
  {
    forall j | 0 <= j < k ensures s[j] != ' ' {
      if s[j] == ' ' {
        assert s[j..j + 1] == " ";
        assert OccursAt(s, " ", j);
      }
    }
  }

  /** The first word of a text that does not open with trim whitespace is
      a prefix of it, holds no space, does not open with trim whitespace,
      and is followed (if at all) by a space. */
  lemma BeforeFirstSpaceShape(rest: string)
    requires rest == [] || !IsTrimChar(rest[0])
    ensures var r := BeforeFirstSpace(rest);
      && StartsWith(rest, r)
      && ' ' !in r
      && (r == [] || !IsTrimChar(r[0]))
      && (|r| < |rest| ==> rest[|r|] == ' ')
  {
    FindFromSpec(rest, " ", 0);
    match IndexOf(rest, " ")
    case None =>
      NoSpaceBefore(rest, |rest|);
      assert rest[..|rest|] == rest;
    case Some(k) =>
      NoSpaceBefore(rest, k);
      assert OccursAt(rest, " ", k);
      assert rest[k..k + 1] == " ";
      if k != 0 {
        assert rest[..k][0] == rest[0];
      }
  }

  /** The extracted name is the first word of what follows the six-character
      verb: it is a prefix of that trimmed remainder, holds no space, does
      not start with trim whitespace, and is followed (if at all) by a
      space. */
  lemma GetNameTableShape(statement: string)
    ensures var r := GetNameTable(statement);
            var rest := Trim(Substr(statement, 6));
      && StartsWith(rest, r)
      && ' ' !in r
      && (r == [] || !IsTrimChar(r[0]))
      && (|r| < |rest| ==> rest[|r|] == ' ')
  {
    BeforeFirstSpaceShape(Trim(Substr(statement, 6)));
  }

  /** Statements of six characters or fewer give the empty name. */
  lemma GetNameTableShort(statement: string)
    requires |statement| <= 6
    ensures GetNameTable(statement) == ""
  {
  }

  /** A string that opens with one trim character and neither continues
      nor ends with one loses exactly that character. */
  lemma TrimOneLeading(s: string)
    requires |s| >= 2 && IsTrimChar(s[0]) && !IsTrimChar(s[1]) && !IsTrimChar(s[|s| - 1])
    ensures Trim(s) == s[1..]
  {
    assert TrimLeft(s[1..]) == s[1..];
  }

  /** The first word ends at the first space. */
  lemma BeforeFirstSpaceAt(s: string, k: nat)
    requires k < |s| && s[k] == ' '
    requires forall j :: 0 <= j < k ==> s[j] != ' '
    ensures BeforeFirstSpace(s) == s[..k]
  {
    FindFromSpec(s, " ", 0);
    assert s[k..k + 1] == [s[k]];
    assert OccursAt(s, " ", k);
    var m := IndexOf(s, " ").value;
    assert s[m..m + 1] == " ";
    assert s[m] == s[m..m + 1][0];
  }

  lemma FirstWordOfUpdate()
    ensures Trim(" t SET") == "t SET" && BeforeFirstSpace("t SET") == "t"
  {
    TrimOfUpdate();
    WordOfUpdate();
  }

  lemma TrimOfUpdate()
    ensures Trim(" t SET") == "t SET"
  {
    var s := " t SET";
    assert |s| == 6 && IsTrimChar(s[0]) && !IsTrimChar(s[1]) && !IsTrimChar(s[5]);
    TrimOneLeading(s);
    assert s[1..] == "t SET";
  }

  lemma WordOfUpdate()
    ensures BeforeFirstSpace("t SET") == "t"
  {
    var s := "t SET";
    assert s[1] == ' ' && s[0] != ' ';
    BeforeFirstSpaceAt(s, 1);
    assert s[..1] == "t";
  }

  lemma FirstWordOfInsert()
    ensures Trim(" INTO t") == "INTO t" && BeforeFirstSpace("INTO t") == "INTO"
  {
    TrimOfInsert();
    WordOfInsert();
  }

  lemma TrimOfInsert()
    ensures Trim(" INTO t") == "INTO t"
  {
    var s := " INTO t";
    assert |s| == 7 && IsTrimChar(s[0]) && !IsTrimChar(s[1]) && !IsTrimChar(s[6]);
    TrimOneLeading(s);
    assert s[1..] == "INTO t";
  }

  lemma WordOfInsert()
    ensures BeforeFirstSpace("INTO t") == "INTO"
  {
    var s := "INTO t";
    assert s[4] == ' ' && forall j :: 0 <= j < 4 ==> s[j] != ' ';
    BeforeFirstSpaceAt(s, 4);
    assert s[..4] == "INTO";
  }

  /** Only the six characters of the verb are dropped. */
  lemma AfterVerb(statement: string, rest: string)
    requires |statement| == 6 + |rest| && statement[6..] == rest
    ensures GetNameTable(statement) == BeforeFirstSpace(Trim(rest))
  {
  }

  /** Only six characters are dropped: an UPDATE names its table, but an
      INSERT INTO names the keyword INTO. */
  lemma GetNameTableExamples()
    ensures GetNameTable("UPDATE t SET") == "t"
    ensures GetNameTable("INSERT INTO t") == "INTO"
  {
    UpdateNamesItsTable();
    InsertNamesInto();
  }

  lemma UpdateNamesItsTable()
    ensures GetNameTable("UPDATE t SET") == "t"
  {
    AfterVerb("UPDATE t SET", " t SET");
    FirstWordOfUpdate();
  }

  lemma InsertNamesInto()
    ensures GetNameTable("INSERT INTO t") == "INTO"
  {
    AfterVerb("INSERT INTO t", " INTO t");
    FirstWordOfInsert();
  }
}
