/** The pieces of the Python runtime that the typing program relies on:
    the exceptions it can raise, sequence indexing and slicing with negative
    indices, `str.isspace`, `str.strip`, and how iterating over a text file
    splits its contents into rows. */
module PyBuiltins {

  /** The exceptions the modelled code raises or lets escape. */
  datatype PyError = IndexError | ValueError | FileNotFoundError | NotADirectoryError | AttributeError

  /** An optional value; `None` is Python's `None`. */
  datatype Option<+T> = None | Some(value: T)

  /** A value, or the exception raised while computing it. */
  datatype Result<+T> = Ok(value: T) | Err(error: PyError) {
    predicate IsFailure() { Err? }
    function PropagateFailure<U>(): Result<U> requires Err? { Err(error) }
    function Extract(): T requires Ok? { value }
  }

  /** The outcome of a statement that returns `None` or raises. */
  datatype Outcome = Pass | Fail(error: PyError) {
    predicate IsFailure() { Fail? }
    function PropagateFailure(): Outcome requires Fail? { this }
  }

  /** Python's `xs[i]`: a negative index counts from the end. */
  function PyIndex<T>(xs: seq<T>, i: int): (r: Result<T>)
    ensures r.Ok? <==> -|xs| <= i < |xs|
    ensures 0 <= i < |xs| ==> r == Ok(xs[i])
    ensures -|xs| <= i < 0 ==> r == Ok(xs[|xs| + i])
    ensures r.Err? ==> r.error == IndexError
  {
    if 0 <= i < |xs| then Ok(xs[i])
    else if -|xs| <= i < 0 then Ok(xs[|xs| + i])
    else Err(IndexError)
  }

  /** Python's `s[i:]`: the start is counted from the end when negative and
      clamped to the bounds of `s` either way, so it never raises. */
  function PySliceFrom<T>(s: seq<T>, i: int): (r: seq<T>)
    ensures |r| <= |s| && r == s[|s| - |r|..]
    ensures i < 0 ==> |r| == if -i < |s| then -i else |s|
    ensures 0 <= i ==> |r| == if i < |s| then |s| - i else 0
  {
    if i < 0 then (if -i < |s| then s[|s| + i..] else s)
    else if i < |s| then s[i..] else []
  }

  /** Python's `str.isspace` for a single character. */
  predicate IsSpace(c: char) {
    || '\U{0009}' <= c <= '\U{000D}'
    || '\U{001C}' <= c <= '\U{0020}'
    || c == '\U{0085}' || c == '\U{00A0}' || c == '\U{1680}'
    || '\U{2000}' <= c <= '\U{200A}'
    || c == '\U{2028}' || c == '\U{2029}' || c == '\U{202F}' || c == '\U{205F}' || c == '\U{3000}'
  }

  /** `s.lstrip()`: the longest suffix of `s` that does not start with whitespace. */
  function LStrip(s: string): (r: string)
    ensures |r| <= |s| && r == s[|s| - |r|..]
    ensures forall i :: 0 <= i < |s| - |r| ==> IsSpace(s[i])
    ensures r == [] || !IsSpace(r[0])
  {
    if s != [] && IsSpace(s[0]) then LStrip(s[1..]) else s
  }

  /** `s.rstrip()`: the longest prefix of `s` that does not end with whitespace. */
  function RStrip(s: string): (r: string)
    ensures |r| <= |s| && r == s[..|r|]
    ensures forall i :: |r| <= i < |s| ==> IsSpace(s[i])
    ensures r == [] || !IsSpace(r[|r| - 1])
  {
    if s != [] && IsSpace(s[|s| - 1]) then RStrip(s[..|s| - 1]) else s
  }

  /** Where `s.strip()` starts: every character before it is whitespace and
      the one at it, if any, is not. */
  function StripStart(s: string): (lo: nat)
    ensures lo <= |s|
    ensures forall i :: 0 <= i < lo ==> IsSpace(s[i])
    ensures lo == |s| || !IsSpace(s[lo])
  {
    |s| - |LStrip(s)|
  }

  /** `s.strip()`: whitespace removed from both ends. The result is the slice
      of `s` that starts at `StripStart(s)` with only whitespace after it,
      and it neither starts nor ends with whitespace. */
  function Strip(s: string): (r: string)
    ensures StripStart(s) + |r| <= |s|
    ensures r == s[StripStart(s)..StripStart(s) + |r|]
    ensures forall i :: StripStart(s) + |r| <= i < |s| ==> IsSpace(s[i])
    ensures r == [] || (!IsSpace(r[0]) && !IsSpace(r[|r| - 1]))
  {
    RStrip(LStrip(s))
  }

  /** The length of the first row of a non-empty file text, counting the
      newline that ends it, if any. */
  function RowLength(s: string): (k: nat)
    requires s != []
    ensures 1 <= k <= |s|
    ensures forall i :: 0 <= i < k - 1 ==> s[i] != '\n'
    ensures k == |s| || s[k - 1] == '\n'
  {
    if s[0] == '\n' || |s| == 1 then 1 else 1 + RowLength(s[1..])
  }

  /** A row as a text file yields it: non-empty, with no newline except
      possibly its last character. */
  predicate IsRow(row: string) {
    row != [] && forall i :: 0 <= i < |row| - 1 ==> row[i] != '\n'
  }

  /** The concatenation of a sequence of strings. */
  function Concat(rows: seq<string>): string {
    if rows == [] then [] else rows[0] + Concat(rows[1..])
  }

  /** The rows `for row in file` yields for a file whose text (after
      universal-newline translation) is `s`: every row but the last ends in
      a newline, and together they are exactly `s`. */
  function Rows(s: string): (rows: seq<string>)
    ensures forall i :: 0 <= i < |rows| ==> IsRow(rows[i])
    ensures forall i :: 0 <= i < |rows| - 1 ==> rows[i] != [] && rows[i][|rows[i]| - 1] == '\n'
    ensures Concat(rows) == s
    ensures s == [] <==> rows == []
    decreases |s|
  {
    if s == [] then []
    else
      var k := RowLength(s);
      var rest := Rows(s[k..]);
      var rows := [s[..k]] + rest;
      assert rows[1..] == rest;
      assert s[..k] + s[k..] == s;
      rows
  }

  /** A row that has no newline except possibly at its end has none at all
      once stripped, because a newline is whitespace. */
  lemma StrippedRowHasNoNewline(row: string)
    requires IsRow(row)
    ensures '\n' !in Strip(row)
  {
  }
}
