/** The list operations of src/Traits/Methods.php and the `chunk` accessor of
    src/SQLServer.php, stated on the response as a PHP list: `array_reverse`,
    `array_slice`, `array_column`, `array_pad`, `array_chunk`, and the effect
    of repeated `array_unshift`. */
module ResponseOps {
  import opened Wrappers
  import opened PhpValues

  // ---------------------------------------------------------------------
  // array_reverse
  // ---------------------------------------------------------------------

  function Reverse<T>(s: seq<T>): (r: seq<T>)
    ensures |r| == |s|
  {
    if s == [] then [] else Reverse(s[1..]) + [s[0]]
  }

  /** Position k of the reversal holds the element k places from the end. */
  lemma {:induction false} ReverseAt<T>(s: seq<T>, k: nat)
    requires k < |s|
    ensures Reverse(s)[k] == s[|s| - 1 - k]
  {
    if k < |s| - 1 {
      ReverseAt(s[1..], k);
    }
  }

  /** Reversing twice gives the list back. */
  lemma ReverseTwice<T>(s: seq<T>)
    ensures Reverse(Reverse(s)) == s
  {
    forall k | 0 <= k < |s| ensures Reverse(Reverse(s))[k] == s[k] {
      ReverseAt(Reverse(s), k);
      ReverseAt(s, |s| - 1 - k);
    }
  }

  /** Appending one element at the end puts it first in the reversal. */
  lemma ReverseSnoc<T>(s: seq<T>, x: T)
    ensures Reverse(s + [x]) == [x] + Reverse(s)
  {
    var l := s + [x];
    forall k | 0 <= k < |l| ensures Reverse(l)[k] == ([x] + Reverse(s))[k] {
      ReverseAt(l, k);
      if k > 0 {
        ReverseAt(s, k - 1);
      }
    }
  }

  // ---------------------------------------------------------------------
  // array_unshift, one value at a time
  // ---------------------------------------------------------------------

  /** `foreach ($values as $value) array_unshift($s, $value)`. */
  function UnshiftEach<T>(s: seq<T>, values: seq<T>): seq<T>
    decreases |values|
  {
    if values == [] then s else UnshiftEach([values[0]] + s, values[1..])
  }

  /** Prepending the values one at a time leaves them in reverse order in
      front of the list. */
  lemma {:induction false} UnshiftEachReverses<T>(s: seq<T>, values: seq<T>)
    decreases |values|
    ensures UnshiftEach(s, values) == Reverse(values) + s
  {
    if values != [] {
      UnshiftEachReverses([values[0]] + s, values[1..]);
      assert Reverse(values) == Reverse(values[1..]) + [values[0]];
    }
  }

  // ---------------------------------------------------------------------
  // array_slice($s, $offset, $length) on a list (keys are renumbered)
  // ---------------------------------------------------------------------

  /** Where the slice starts: past the end gives the end; a negative offset
      counts from the end, clamped to the start. */
  function SliceStart(n: nat, offset: int): (lo: nat)
    ensures lo <= n
  {
    if offset > n then n
    else if offset < 0 then (if n + offset < 0 then 0 else n + offset)
    else offset
  }

  /** Where the slice ends: a null length runs to the end, a negative one
      stops that many before the end, a positive one is clamped to the
      end; a length that leaves nothing gives an empty slice. */
  function SliceEnd(n: nat, lo: nat, length: Option<int>): (hi: nat)
    requires lo <= n
    ensures lo <= hi <= n
  {
    var len := match length
      case None => n
      case Some(l) => if l < 0 then n - lo + l else l;
    if len <= 0 then lo
    else if lo + len > n then n
    else lo + len
  }

  function Slice<T>(s: seq<T>, offset: int, length: Option<int>): seq<T> {
    var lo := SliceStart(|s|, offset);
    s[lo..SliceEnd(|s|, lo, length)]
  }

  function Min(a: int, b: int): int {
    if a <= b then a else b
  }

  /** A non-negative offset keeps the elements from that offset on, up to
      `length` of them when a non-negative length is given. */
  lemma SliceFromOffset<T>(s: seq<T>, offset: nat, length: Option<int>)
    requires length.Some? ==> length.value >= 0
    ensures length.None? ==> Slice(s, offset, length) == s[Min(offset, |s|)..]
    ensures length.Some? ==>
      Slice(s, offset, length) == s[Min(offset, |s|)..Min(offset + length.value, |s|)]
  {
  }

  /** A negative offset of at most the list's length keeps that many
      elements from the end. */
  lemma SliceFromEnd<T>(s: seq<T>, k: nat)
    requires 0 < k <= |s|
    ensures Slice(s, -(k as int), None) == s[|s| - k..]
  {
  }

  /** A negative length drops that many elements from the end of what the
      offset leaves. */
  lemma SliceDropLast<T>(s: seq<T>, offset: nat, k: nat)
    requires 0 < k && offset + k <= |s|
    ensures Slice(s, offset, Some(-(k as int))) == s[offset..|s| - k]
  {
  }

  // ---------------------------------------------------------------------
  // array_column($rows, $column)
  // ---------------------------------------------------------------------

  /** The value a row holds under `c`; rows that are not arrays hold none. */
  function CellOf(row: Value, c: Key): Option<Value> {
    if row.Arr? then Lookup(row.entries, c) else None
  }

  /** Each row's value under `c`, in order, skipping rows that lack it. */
  function Column(rows: seq<Value>, c: Key): seq<Value> {
    if rows == [] then []
    else
      var rest := Column(rows[1..], c);
      match CellOf(rows[0], c)
      case Some(v) => [v] + rest
      case None => rest
  }

  /** When every row holds `c`, the column has one value per row, in row
      order. */
  lemma {:induction false} ColumnOfComplete(rows: seq<Value>, c: Key)
    requires forall i :: 0 <= i < |rows| ==> CellOf(rows[i], c).Some?
    ensures |Column(rows, c)| == |rows|
    ensures forall i :: 0 <= i < |rows| ==> Column(rows, c)[i] == CellOf(rows[i], c).value
  {
    if rows != [] {
      ColumnOfComplete(rows[1..], c);
      var rest := Column(rows[1..], c);
      forall i | 0 < i < |rows| ensures Column(rows, c)[i] == CellOf(rows[i], c).value {
        assert rows[1..][i - 1] == rows[i];
      }
    }
  }

  /** Every value of the column comes from some row, and the column is
      never longer than the list of rows. */
  lemma {:induction false} ColumnSound(rows: seq<Value>, c: Key)
    ensures |Column(rows, c)| <= |rows|
    ensures forall v :: v in Column(rows, c) ==>
      exists i :: 0 <= i < |rows| && CellOf(rows[i], c) == Some(v)
  {
    if rows != [] {
      ColumnSound(rows[1..], c);
      forall v | v in Column(rows, c) ensures exists i :: 0 <= i < |rows| && CellOf(rows[i], c) == Some(v) {
        if v in Column(rows[1..], c) {
          var i :| 0 <= i < |rows[1..]| && CellOf(rows[1..][i], c) == Some(v);
          assert rows[i + 1] == rows[1..][i];
        } else {
          assert CellOf(rows[0], c) == Some(v);
        }
      }
    }
  }

  /** Rows that lack `c` contribute nothing. */
  lemma {:induction false} ColumnOfNone(rows: seq<Value>, c: Key)
    requires forall i :: 0 <= i < |rows| ==> CellOf(rows[i], c).None?
    ensures Column(rows, c) == []
  {
    if rows != [] {
      assert forall i :: 0 <= i < |rows[1..]| ==> rows[1..][i] == rows[i + 1];
      ColumnOfNone(rows[1..], c);
    }
  }

  // ---------------------------------------------------------------------
  // array_pad($s, $size, $value)
  // ---------------------------------------------------------------------

  function Fill<T>(n: nat, v: T): (r: seq<T>)
    ensures |r| == n && forall i :: 0 <= i < n ==> r[i] == v
  {
    seq(n, _ => v)
  }

  /** A positive size pads at the end, a negative one at the front, up to
      the absolute size; a size no larger than the list leaves it alone. */
  function Pad<T>(s: seq<T>, size: int, v: T): seq<T> {
    if size > |s| then s + Fill(size - |s|, v)
    else if -size > |s| then Fill(-size - |s|, v) + s
    else s
  }

  function Abs(x: int): nat {
    if x < 0 then -x else x
  }

  /** The most elements one `array_pad` may add (PHP 8.0 to 8.2). */
  const PadLimit: nat := 1048576

  /** `array_pad` accepts the size unless it would add more than
      `PadLimit` elements; it then raises a ValueError. */
  predicate PadAccepted(n: nat, size: int) {
    Abs(size) - n <= PadLimit
  }

  /** An accepted size adds at most `PadLimit` elements, and every size
      that does not grow the list is accepted. */
  lemma PadAcceptedBound<T>(s: seq<T>, size: int, v: T)
    ensures PadAccepted(|s|, size) ==> |Pad(s, size, v)| <= |s| + PadLimit
    ensures Abs(size) <= |s| ==> PadAccepted(|s|, size) && Pad(s, size, v) == s
    ensures !PadAccepted(|s|, size) ==> |s| + PadLimit < Abs(size)
  {
    PadSpec(s, size, v);
  }

  /** The padded list is as long as the size asks (never shorter than the
      list), keeps the list in order, and holds only copies of `v` besides. */
  lemma PadSpec<T>(s: seq<T>, size: int, v: T)
    ensures var r := Pad(s, size, v);
      && |r| == (if Abs(size) > |s| then Abs(size) else |s|)
      && (size >= 0 ==> r[..|s|] == s && forall i :: |s| <= i < |r| ==> r[i] == v)
      && (size < 0 ==> r[|r| - |s|..] == s && forall i :: 0 <= i < |r| - |s| ==> r[i] == v)
  {
    var r := Pad(s, size, v);
    if size > |s| {
      assert r[..|s|] == s;
    } else if -size > |s| {
      assert r[|r| - |s|..] == s;
    }
  }

  // ---------------------------------------------------------------------
  // array_chunk($s, $size)
  // ---------------------------------------------------------------------

  function Chunk<T>(s: seq<T>, size: nat): seq<seq<T>>
    requires size > 0
    decreases |s|
  {
    if s == [] then []
    else if |s| <= size then [s]
    else [s[..size]] + Chunk(s[size..], size)
  }

  function Flatten<T>(ss: seq<seq<T>>): seq<T> {
    if ss == [] then [] else ss[0] + Flatten(ss[1..])
  }

  /** The chunks put back together are the list; none is empty or larger
      than the size, and only the last may be smaller. */
  lemma {:induction false} ChunkSpec<T>(s: seq<T>, size: nat)
    requires size > 0
    decreases |s|
    ensures var r := Chunk(s, size);
      && Flatten(r) == s
      && (forall i :: 0 <= i < |r| ==> 0 < |r[i]| <= size)
      && (forall i :: 0 <= i < |r| - 1 ==> |r[i]| == size)
      && (s == [] <==> r == [])
  {
    if |s| > size {
      ChunkSpec(s[size..], size);
      var r := Chunk(s, size);
      var rest := Chunk(s[size..], size);
      assert r[1..] == rest;
      assert s == s[..size] + s[size..];
      forall i | 0 < i < |r| ensures 0 < |r[i]| <= size && (i < |r| - 1 ==> |r[i]| == size) {
        assert r[i] == rest[i - 1];
      }
    } else if s != [] {
      assert Flatten([s]) == s + Flatten([s][1..]);
    }
  }
}
