/** The statement predicates of src/Traits/CommonFunctions.php. Each is a
    single `stripos` comparison against index 0 on the untrimmed statement;
    two of them compare with `!==` and so answer the opposite of their
    names. (`isNonEmptyArray` and `hasValidPDOConnection` read fields of the
    client and live on the `SQLServer` class.) */
module CommonFunctions {
  import opened Wrappers
  import opened PhpStrings

  /** `stripos($statement, $verb) === 0`. */
  predicate VerbAtStart(statement: string, verb: string) {
    Stripos(statement, verb) == Some(0)
  }

  /** `isSelectQuery`: `!== 0`, so true when the statement does NOT start
      with SELECT. */
  predicate IsSelectQuery(statement: string) {
    !VerbAtStart(statement, "SELECT")
  }

  /** `isUpdateQuery`: `!== 0`, inverted like `isSelectQuery`. */
  predicate IsUpdateQuery(statement: string) {
    !VerbAtStart(statement, "UPDATE")
  }

  predicate IsInsertQuery(statement: string) {
    VerbAtStart(statement, "INSERT")
  }

  predicate IsDeleteQuery(statement: string) {
    VerbAtStart(statement, "DELETE")
  }

  predicate IsStoredProcedure(statement: string) {
    VerbAtStart(statement, "EXEC")
  }

  /** Every predicate reduces to an ASCII case-insensitive prefix test on
      the statement as given: the SELECT and UPDATE predicates hold exactly
      when the prefix is absent, the others exactly when it is present. */
  lemma QueryPredicatesAsPrefixTests(statement: string)
    ensures IsSelectQuery(statement) <==> !StartsWithCI(statement, "SELECT")
    ensures IsUpdateQuery(statement) <==> !StartsWithCI(statement, "UPDATE")
    ensures IsInsertQuery(statement) <==> StartsWithCI(statement, "INSERT")
    ensures IsDeleteQuery(statement) <==> StartsWithCI(statement, "DELETE")
    ensures IsStoredProcedure(statement) <==> StartsWithCI(statement, "EXEC")
  {
    StriposZeroIffPrefix(statement, "SELECT");
    StriposZeroIffPrefix(statement, "UPDATE");
    StriposZeroIffPrefix(statement, "INSERT");
    StriposZeroIffPrefix(statement, "DELETE");
    StriposZeroIffPrefix(statement, "EXEC");
  }

  /** No predicate trims: a statement that opens with trim whitespace never
      starts with a verb that opens with a letter. */
  lemma LeadingWhitespaceNeverMatches(statement: string, verb: string)
    requires statement != [] && IsTrimChar(statement[0])
    requires verb != [] && 'A' <= verb[0] <= 'Z'
    ensures !VerbAtStart(statement, verb)
  {
    StriposZeroIffPrefix(statement, verb);
  }

  /** Only a prefix matters, in any case: whatever follows the verb (as in
      "SELECTED") and however it is capitalised (as in "select"), the
      statement counts as starting with it. */
  lemma PrefixInAnyCaseMatches(statement: string, verb: string, written: string)
    requires |written| == |verb| && Lower(written) == Lower(verb)
    requires StartsWith(statement, written)
    ensures VerbAtStart(statement, verb)
  {
    StriposZeroIffPrefix(statement, verb);
  }

  /** So the inverted SELECT predicate rejects every statement opening with
      "select" in any capitalisation, and accepts every statement opening
      with another letter, such as "DROP TABLE x". */
  lemma SelectPredicateExamples(statement: string)
    ensures StartsWith(statement, "select") || StartsWith(statement, "SELECT")
            ==> !IsSelectQuery(statement)
    ensures statement != [] && LowerChar(statement[0]) != 's' ==> IsSelectQuery(statement)
  {
    assert Lower("select") == Lower("SELECT");
    if StartsWith(statement, "select") {
      PrefixInAnyCaseMatches(statement, "SELECT", "select");
    }
    if StartsWith(statement, "SELECT") {
      PrefixInAnyCaseMatches(statement, "SELECT", "SELECT");
    }
    QueryPredicatesAsPrefixTests(statement);
    if statement != [] && StartsWithCI(statement, "SELECT") {
      assert Lower(statement[..6])[0] == Lower("SELECT")[0];
    }
  }
}
