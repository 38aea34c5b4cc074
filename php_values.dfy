/** PHP values as the library sees them: scalars, and arrays as ordered
    sequences of key/value entries (PHP arrays keep insertion order).
    Parameter arrays, fetched rows and the response buffer are all such
    values. Floats and objects are not part of this model. */
module PhpValues {
  import opened Wrappers
  import opened PhpStrings

  datatype Key = IntKey(n: int) | StrKey(s: string)

  datatype Value =
    | Null
    | Bool(b: bool)
    | Int(i: int)
    | Str(s: string)
    | Arr(entries: seq<Entry>)

  datatype Entry = Entry(key: Key, value: Value)

  /** PHP `empty($v)`: null, false, 0, "", "0" and the empty array. */
  predicate IsEmpty(v: Value) {
    match v
    case Null => true
    case Bool(b) => !b
    case Int(i) => i == 0
    case Str(s) => IsEmptyString(s)
    case Arr(es) => es == []
  }

  /** How a key is written when interpolated into a string (`":$key"`). */
  function KeyText(k: Key): string {
    match k
    case IntKey(n) => IntToString(n)
    case StrKey(s) => s
  }

  /** A PHP list: the values under the keys 0, 1, 2, ... */
  function ListOf(vs: seq<Value>): (r: Value)
    ensures r.Arr? && |r.entries| == |vs|
    ensures forall i :: 0 <= i < |vs| ==> r.entries[i] == Entry(IntKey(i), vs[i])
  {
    Arr(seq(|vs|, i requires 0 <= i < |vs| => Entry(IntKey(i), vs[i])))
  }

  /** `$row[$k]` for an array row; `None` when the key is absent. */
  function Lookup(entries: seq<Entry>, k: Key): (r: Option<Value>)
    ensures r.Some? <==> exists i :: 0 <= i < |entries| && entries[i].key == k
    ensures r.Some? ==> exists i :: 0 <= i < |entries| && entries[i] == Entry(k, r.value)
  {
    if entries == [] then None
    else if entries[0].key == k then Some(entries[0].value)
    else
      var r := Lookup(entries[1..], k);
      assert forall i :: 1 <= i < |entries| ==> entries[i] == entries[1..][i - 1];
      r
  }
}
