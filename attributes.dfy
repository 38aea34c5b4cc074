/** The argument handling of src/Traits/Attributes.php: the whitelists that
    `setErrorMode` and `setEncoding` normalise their argument against, the
    driver settings they write, and the ON/OFF gate of the four `SET`
    options. The setters themselves act on the client's connection and
    live on the `SQLServer` class. */
module Attributes {
  import opened Wrappers
  import opened PhpStrings

  const ErrorModes: seq<string> := ["silent", "warning", "exception"]
  const Encodings: seq<string> := ["binary", "utf8", "system", "default"]

  /** `strtolower`, then `in_array` against the whitelist, falling back to
      `fallback` for anything else. */
  function Whitelisted(value: string, valid: seq<string>, fallback: string): (r: string)
    requires fallback in valid
    ensures r in valid
    ensures Lower(value) in valid ==> r == Lower(value)
    ensures Lower(value) !in valid ==> r == fallback
  {
    var v := Lower(value);
    if v in valid then v else fallback
  }

  /** The mode `setErrorMode` settles on. */
  function ErrorMode(mode: string): string {
    Whitelisted(mode, ErrorModes, "exception")
  }

  /** The encoding `setEncoding` settles on. */
  function Encoding(name: string): string {
    Whitelisted(name, Encodings, "utf8")
  }

  /** The PDO constant `setErrorMode` writes, by name. */
  function ErrorModeSetting(mode: string): string {
    "ERRMODE_" + Upper(ErrorMode(mode))
  }

  /** The PDO constant `setEncoding` writes, by name. */
  function EncodingSetting(name: string): string {
    "SQLSRV_ENCODING_" + Upper(Encoding(name))
  }

  lemma LowerCharUpperChar(c: char)
    ensures LowerChar(UpperChar(c)) == LowerChar(c)
    ensures LowerChar(LowerChar(c)) == LowerChar(c)
  {
  }

  /** Folding to lower case forgets the case the text was written in. */
  lemma LowerForgetsCase(s: string)
    ensures Lower(Upper(s)) == Lower(s)
    ensures Lower(Lower(s)) == Lower(s)
  {
    forall i | 0 <= i < |s| ensures Lower(Upper(s))[i] == Lower(s)[i] && Lower(Lower(s))[i] == Lower(s)[i] {
      LowerCharUpperChar(s[i]);
    }
  }

  /** A whitelist of lower-case names folds every spelling of a name to
      the same entry, and applying it again changes nothing. */
  lemma WhitelistedCaseInsensitive(value: string, valid: seq<string>, fallback: string)
    requires fallback in valid
    requires forall v :: v in valid ==> Lower(v) == v
    ensures Whitelisted(Upper(value), valid, fallback) == Whitelisted(value, valid, fallback)
    ensures Whitelisted(Whitelisted(value, valid, fallback), valid, fallback) == Whitelisted(value, valid, fallback)
  {
    LowerForgetsCase(value);
  }

  lemma ErrorModesLower()
    ensures forall v :: v in ErrorModes ==> Lower(v) == v
  {
    assert Lower("silent") == "silent";
    assert Lower("warning") == "warning";
    assert Lower("exception") == "exception";
  }

  lemma EncodingsLower()
    ensures forall v :: v in Encodings ==> Lower(v) == v
  {
    assert Lower("binary") == "binary";
    assert Lower("utf8") == "utf8";
    assert Lower("system") == "system";
    assert Lower("default") == "default";
  }

  /** `setErrorMode` keeps a listed mode in any spelling, turns anything
      else into "exception", ignores case, and settles: normalising again
      changes nothing. */
  lemma {:induction false} ErrorModeSpec(mode: string)
    ensures ErrorMode(mode) in ErrorModes
    ensures Lower(mode) in ErrorModes ==> ErrorMode(mode) == Lower(mode)
    ensures Lower(mode) !in ErrorModes ==> ErrorMode(mode) == "exception"
    ensures ErrorMode(Upper(mode)) == ErrorMode(mode)
    ensures ErrorMode(ErrorMode(mode)) == ErrorMode(mode)
  {
    ErrorModesLower();
    WhitelistedCaseInsensitive(mode, ErrorModes, "exception");
  }

  /** `setEncoding` does the same with its own list and "utf8". */
  lemma {:induction false} EncodingSpec(name: string)
    ensures Encoding(name) in Encodings
    ensures Lower(name) in Encodings ==> Encoding(name) == Lower(name)
    ensures Lower(name) !in Encodings ==> Encoding(name) == "utf8"
    ensures Encoding(Upper(name)) == Encoding(name)
    ensures Encoding(Encoding(name)) == Encoding(name)
  {
    EncodingsLower();
    WhitelistedCaseInsensitive(name, Encodings, "utf8");
  }

  /** Whatever the argument, the constant written (`ERRMODE_` and this
      suffix) is one of the three PDO error modes, so `constant()` never
      fails. */
  lemma ErrorModeSettingIsConstant(mode: string)
    ensures Upper(ErrorMode(mode)) in ["SILENT", "WARNING", "EXCEPTION"]
  {
    ErrorModeSpec(mode);
    var m := ErrorMode(mode);
    if m == "silent" {
      assert Upper(m) == "SILENT";
    } else if m == "warning" {
      assert Upper(m) == "WARNING";
    } else {
      assert Upper(m) == "EXCEPTION";
    }
  }

  /** Whatever the argument, the constant written (`SQLSRV_ENCODING_` and
      this suffix) is one of the four driver encodings. */
  lemma EncodingSettingIsConstant(name: string)
    ensures Upper(Encoding(name)) in ["BINARY", "UTF8", "SYSTEM", "DEFAULT"]
  {
    EncodingSpec(name);
    var m := Encoding(name);
    if m == "binary" {
      assert Upper(m) == "BINARY";
    } else if m == "utf8" {
      assert Upper(m) == "UTF8";
    } else if m == "system" {
      assert Upper(m) == "SYSTEM";
    } else {
      assert Upper(m) == "DEFAULT";
    }
  }

  // ---------------------------------------------------------------------
  // The SET options

  datatype SetOption = AnsiNulls | AnsiPadding | AnsiWarnings | ArithAbort

  function OptionName(o: SetOption): string {
    match o
    case AnsiNulls => "ANSI_NULLS"
    case AnsiPadding => "ANSI_PADDING"
    case AnsiWarnings => "ANSI_WARNINGS"
    case ArithAbort => "ARITHABORT"
  }

  /** The statement `setAnsiNulls` and its siblings execute for `value`:
      `strtoupper`, then `"SET <option> <value>"` for ON and OFF only. */
  function OptionCommand(o: SetOption, value: string): Option<string> {
    var v := Upper(value);
    if v == "ON" || v == "OFF" then Some("SET " + OptionName(o) + " " + v) else None
  }

  lemma UpperCharIs(c: char, u: char)
    requires 'A' <= u <= 'Z'
    ensures UpperChar(c) == u <==> c == u || c == LowerChar(u)
  {
  }

  /** The gate accepts exactly the spellings of "on" and "off" in any
      case. */
  lemma OptionGate(o: SetOption, value: string)
    ensures OptionCommand(o, value).Some? <==> Lower(value) == "on" || Lower(value) == "off"
  {
    if |value| == 2 {
      UpperCharIs(value[0], 'O');
      UpperCharIs(value[1], 'N');
      assert Upper(value) == "ON" <==> Lower(value) == "on";
    } else if |value| == 3 {
      UpperCharIs(value[0], 'O');
      UpperCharIs(value[1], 'F');
      UpperCharIs(value[2], 'F');
      assert Upper(value) == "OFF" <==> Lower(value) == "off";
    }
  }

  /** An accepted value gives one of exactly two statements per option,
      carrying the value in upper case. */
  lemma OptionTexts(o: SetOption, value: string)
    requires OptionCommand(o, value).Some?
    ensures OptionCommand(o, value).value == "SET " + OptionName(o) + " ON" ||
            OptionCommand(o, value).value == "SET " + OptionName(o) + " OFF"
  {
  }

  /** The gate ignores the case the value is written in. */
  lemma OptionCaseFree(o: SetOption, value: string)
    ensures OptionCommand(o, Upper(value)) == OptionCommand(o, value)
  {
    var u := Upper(value);
    assert Upper(u) == u by {
      forall i | 0 <= i < |value| ensures Upper(u)[i] == u[i] {
      }
    }
  }
}
