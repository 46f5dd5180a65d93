/** The back end of the typing-practice program: the loaded text as a
    sequence of lines, a `(row, column)` cursor into it and a `running`
    flag. Each keystroke is compared with the character under the cursor
    (a newline at the end of a line) and the cursor then moves on by one
    position, wrapping to the start of the next line. */
module Typing {
  import opened PyBuiltins
  import opened Os

  /** The cursor `(row_index, column_index)`. */
  datatype Cursor = Cursor(row: nat, col: nat)

  /** `a` comes strictly before `b` in reading order. */
  predicate Before(a: Cursor, b: Cursor) {
    a.row < b.row || (a.row == b.row && a.col < b.col)
  }

  /** The cursor is on a line of `text`, at one of its characters or just
      after its last one. */
  predicate InRange(text: seq<string>, c: Cursor) {
    c.row < |text| && c.col <= |text[c.row]|
  }

  /** No line of `text` contains a newline. */
  predicate NoNewlines(text: seq<string>) {
    forall i :: 0 <= i < |text| ==> '\n' !in text[i]
  }

  // ---------------------------------------------------------------------
  // The cursor operations on a loaded text

  /** `__read_cursor`: the character the user is expected to type next. At
      the end of a line this is a newline; off the text it raises IndexError. */
  function Read(text: seq<string>, c: Cursor): (r: Result<string>)
    ensures r.Ok? <==> InRange(text, c)
    ensures r.Err? ==> r.error == IndexError
    ensures InRange(text, c) && c.col == |text[c.row]| ==> r == Ok("\n")
    ensures InRange(text, c) && c.col < |text[c.row]| ==> r == Ok([text[c.row][c.col]])
  {
    var line :- PyIndex(text, c.row);
    if c.col == |line| then Ok("\n")
    else
      var ch :- PyIndex(line, c.col);
      Ok([ch])
  }

  /** `__move_cursor_forwards`: the flag it returns ("end of text reached")
      and the new cursor. The end-of-text test compares the row with the
      number of lines only after the row has been used as an index, so it
      can never succeed. */
  function Advance(text: seq<string>, c: Cursor): (r: Result<(bool, Cursor)>)
    ensures r.Ok? <==> c.row < |text|
    ensures r.Err? ==> r.error == IndexError
    ensures r.Ok? ==> !r.value.0
    ensures r.Ok? && c.col == |text[c.row]| ==> r.value.1 == Cursor(c.row + 1, 0)
    ensures r.Ok? && c.col != |text[c.row]| ==> r.value.1 == Cursor(c.row, c.col + 1)
    ensures r.Ok? ==> Before(c, r.value.1)
  {
    var line :- PyIndex(text, c.row);
    if c.col == |line| then
      if c.row == |text| then Ok((true, c))
      else Ok((false, Cursor(c.row + 1, 0)))
    else Ok((false, Cursor(c.row, c.col + 1)))
  }

  /** `next_character(ch)`: whether `ch` is the expected character, and the
      cursor after the one step taken whatever the answer. */
  function Feed(text: seq<string>, c: Cursor, ch: string): (r: Result<(bool, Cursor)>)
    ensures r.Ok? <==> InRange(text, c)
    ensures r.Err? ==> r.error == IndexError
    ensures r.Ok? ==> r.value.0 == (ch == Read(text, c).value)
    ensures r.Ok? ==> Advance(text, c).Ok? && r.value.1 == Advance(text, c).value.1
  {
    var expected :- Read(text, c);
    Ok((ch == expected, Advance(text, c).value.1))
  }

  /** The answers to typing `keys` one character at a time from `c`, and
      the cursor afterwards; the first exception ends the run. */
  function FeedAll(text: seq<string>, c: Cursor, keys: string): Result<(seq<bool>, Cursor)>
    decreases |keys|
  {
    if keys == [] then Ok(([], c))
    else
      var first :- Feed(text, c, [keys[0]]);
      var rest :- FeedAll(text, first.1, keys[1..]);
      Ok(([first.0] + rest.0, rest.1))
  }

  /** The keys a user types to go through `text` without a mistake: each
      line followed by a newline. */
  function Flatten(text: seq<string>): string {
    if text == [] then [] else text[0] + "\n" + Flatten(text[1..])
  }

  /** `n` correct keystrokes. */
  function Hits(n: nat): (r: seq<bool>)
    ensures |r| == n && forall i :: 0 <= i < n ==> r[i]
  {
    seq(n, _ => true)
  }

  // ---------------------------------------------------------------------
  // Properties of the cursor operations

  /** The expected character is a newline exactly at the end of a line,
      provided no line contains one. */
  lemma ReadNewlineIff(text: seq<string>, c: Cursor)
    requires NoNewlines(text) && InRange(text, c)
    ensures Read(text, c) == Ok("\n") <==> c.col == |text[c.row]|
  {
  }

  /** From a cursor in range, advancing stays in range unless it leaves the
      end of the last line, in which case it lands on row `|text|`. */
  lemma AdvanceKeepsInRange(text: seq<string>, c: Cursor)
    requires InRange(text, c)
    ensures Advance(text, c).Ok?
    ensures InRange(text, Advance(text, c).value.1)
            || (c == Cursor(|text| - 1, |text[|text| - 1]|) && Advance(text, c).value.1 == Cursor(|text|, 0))
  {
  }

  /** Once the cursor is on row `|text|`, reading and advancing both raise
      IndexError: the text has no end-of-text state. */
  lemma PastLastLineRaises(text: seq<string>, col: nat)
    ensures Read(text, Cursor(|text|, col)) == Err(IndexError)
    ensures Advance(text, Cursor(|text|, col)) == Err(IndexError)
  {
  }

  /** The cursor takes the same single step whatever key is typed. */
  lemma FeedStepIgnoresKey(text: seq<string>, c: Cursor, ch: string, other: string)
    requires InRange(text, c)
    ensures Feed(text, c, ch).value.1 == Feed(text, c, other).value.1
  {
  }

  /** Typing the rest of the current line and its newline correctly gives
      one hit per key and leaves the cursor at the start of the next line. */
  lemma {:induction false} TypeRestOfLine(text: seq<string>, c: Cursor, rest: string)
    requires InRange(text, c)
    ensures var n := |text[c.row]| - c.col + 1;
      FeedAll(text, c, text[c.row][c.col..] + "\n" + rest)
      == match FeedAll(text, Cursor(c.row + 1, 0), rest)
         case Ok((bs, last)) => Ok((Hits(n) + bs, last))
         case Err(e) => Err(e)
    decreases |text[c.row]| - c.col
  {
    var line := text[c.row];
    var keys := line[c.col..] + "\n" + rest;
    var n := |line| - c.col + 1;
    if c.col == |line| {
      assert keys == "\n" + rest;
      assert keys[1..] == rest;
      assert Feed(text, c, [keys[0]]) == Ok((true, Cursor(c.row + 1, 0)));
      assert Hits(1) == [true];
    } else {
      var next := Cursor(c.row, c.col + 1);
      assert keys[0] == line[c.col];
      assert keys[1..] == line[c.col + 1..] + "\n" + rest;
      assert Feed(text, c, [keys[0]]) == Ok((true, next));
      TypeRestOfLine(text, next, rest);
      assert [true] + Hits(n - 1) == Hits(n);
      match FeedAll(text, Cursor(c.row + 1, 0), rest)
      case Ok((bs, last)) =>
        assert [true] + (Hits(n - 1) + bs) == Hits(n) + bs;
      case Err(e) =>
    }
  }

  /** Typing every line from row `r` on, each followed by a newline, gives
      only hits and leaves the cursor at `(|text|, 0)`. */
  lemma {:induction false} TypeLinesFrom(text: seq<string>, r: nat)
    requires r <= |text|
    ensures FeedAll(text, Cursor(r, 0), Flatten(text[r..]))
            == Ok((Hits(|Flatten(text[r..])|), Cursor(|text|, 0)))
    decreases |text| - r
  {
    if r == |text| {
      assert text[r..] == [];
    } else {
      var rest := Flatten(text[r + 1..]);
      assert text[r..][1..] == text[r + 1..];
      assert Flatten(text[r..]) == text[r][0..] + "\n" + rest;
      TypeRestOfLine(text, Cursor(r, 0), rest);
      TypeLinesFrom(text, r + 1);
      assert Hits(|text[r]| + 1) + Hits(|rest|) == Hits(|Flatten(text[r..])|);
    }
  }

  /** Typing the whole text without a mistake from `(0, 0)` is answered
      with a hit for every key, and parks the cursor at `(|text|, 0)`,
      where the next keystroke raises IndexError. */
  lemma TypeWholeText(text: seq<string>)
    ensures FeedAll(text, Cursor(0, 0), Flatten(text))
            == Ok((Hits(|Flatten(text)|), Cursor(|text|, 0)))
    ensures forall ch :: Feed(text, Cursor(|text|, 0), ch) == Err(IndexError)
  {
    TypeLinesFrom(text, 0);
    assert text[0..] == text;
  }

  // ---------------------------------------------------------------------
  // Loading a text

  /** `os.path.join(folder, e)` for each listed entry `e`, in order. */
  function JoinAll(folder: string, entries: seq<string>): (paths: seq<string>)
    ensures |paths| == |entries|
    ensures forall i :: 0 <= i < |entries| ==> paths[i] == Join(folder, entries[i])
  {
    seq(|entries|, i requires 0 <= i < |entries| => Join(folder, entries[i]))
  }

  /** The paths that pass `os.path.isfile`: every path of `paths` that is a
      regular file is in the list, and every path in the list is one of
      `paths` and a regular file. */
  function RegularFiles(fs: FileSystem, paths: seq<string>): (names: seq<string>)
    ensures |names| <= |paths|
    ensures forall i :: 0 <= i < |names| ==> IsFile(fs, names[i])
    ensures forall i :: 0 <= i < |names| ==> exists j :: 0 <= j < |paths| && names[i] == paths[j]
    ensures forall j :: 0 <= j < |paths| && IsFile(fs, paths[j]) ==> paths[j] in names
    ensures names == [] <==> forall j :: 0 <= j < |paths| ==> !IsFile(fs, paths[j])
  {
    if paths == [] then []
    else
      var rest := RegularFiles(fs, paths[1..]);
      assert forall j :: 1 <= j < |paths| ==> paths[j] == paths[1..][j - 1];
      assert forall i :: 0 <= i < |rest| ==> exists j :: 0 <= j < |paths| && rest[i] == paths[j] by {
        forall i | 0 <= i < |rest|
          ensures exists j :: 0 <= j < |paths| && rest[i] == paths[j]
        {
          var k :| 0 <= k < |paths| - 1 && rest[i] == paths[1..][k];
          assert rest[i] == paths[k + 1];
        }
      }
      if IsFile(fs, paths[0]) then [paths[0]] + rest else rest
  }

  /** The sample names of `load_file`: the paths `os.path.join(folder, e)`
      of the listed entries `e` that are regular files. Every such path is
      in the list, and every path in the list is such a path. */
  function SampleNames(fs: FileSystem, folder: string, entries: seq<string>): (names: seq<string>)
    ensures |names| <= |entries|
    ensures forall i :: 0 <= i < |names| ==> IsFile(fs, names[i])
    ensures forall i :: 0 <= i < |names| ==>
      exists j :: 0 <= j < |entries| && names[i] == Join(folder, entries[j])
    ensures forall j :: (0 <= j < |entries| && IsFile(fs, Join(folder, entries[j])))
                          ==> Join(folder, entries[j]) in names
    ensures names == [] <==> forall j :: 0 <= j < |entries| ==> !IsFile(fs, Join(folder, entries[j]))
  {
    RegularFiles(fs, JoinAll(folder, entries))
  }

  /** `[row.strip() for row in rows]`. */
  function StripRows(rows: seq<string>): (lines: seq<string>)
    ensures |lines| == |rows|
    ensures forall i :: 0 <= i < |rows| ==> lines[i] == Strip(rows[i])
  {
    seq(|rows|, i requires 0 <= i < |rows| => Strip(rows[i]))
  }

  /** The file `load_file` reads: the given path, or with none the
      `pick`-th (modulo their number) of the regular files listed in
      `folder`, standing in for `random.sample`; `None` when that folder
      holds no file. Listing a folder that does not exist raises. */
  function Choose(path: Option<string>, folder: string, fs: FileSystem, pick: nat): (r: Result<Option<string>>)
    ensures path.Some? ==> r == Ok(path)
    ensures path.None? ==> (r.Err? <==> folder !in fs.dirs)
    ensures path.None? && r.Err? ==> r.error == ListDir(fs, folder).error
    ensures path.None? ==>
      (r == Ok(None) <==>
         folder in fs.dirs && forall i :: 0 <= i < |fs.dirs[folder]| ==> !IsFile(fs, Join(folder, fs.dirs[folder][i])))
    ensures path.None? && r.Ok? && r.value.Some? ==>
      && IsFile(fs, r.value.value)
      && exists j :: 0 <= j < |fs.dirs[folder]| && r.value.value == Join(folder, fs.dirs[folder][j])
  {
    if path.Some? then Ok(path)
    else
      var entries :- ListDir(fs, folder);
      var names := SampleNames(fs, folder, entries);
      if names == [] then Ok(None) else Ok(Some(names[pick % |names|]))
  }

  lemma ModOfSmaller(k: nat, n: nat)
    requires k < n
    ensures k % n == k
  {
  }

  /** Every regular file the sample folder lists is chosen for some value
      of the random pick, so no sample is out of reach. */
  lemma EverySampleCanBeChosen(folder: string, fs: FileSystem, j: nat)
    requires folder in fs.dirs && j < |fs.dirs[folder]|
    requires IsFile(fs, Join(folder, fs.dirs[folder][j]))
    ensures exists pick: nat :: Choose(None, folder, fs, pick) == Ok(Some(Join(folder, fs.dirs[folder][j])))
  {
    var names := SampleNames(fs, folder, fs.dirs[folder]);
    var p := Join(folder, fs.dirs[folder][j]);
    assert p in names;
    var k :| 0 <= k < |names| && names[k] == p;
    ChooseSampleAt(folder, fs, k);
  }

  /** With no path, a pick below the number of samples selects the sample
      at that position. */
  lemma ChooseSampleAt(folder: string, fs: FileSystem, k: nat)
    requires folder in fs.dirs && k < |SampleNames(fs, folder, fs.dirs[folder])|
    ensures Choose(None, folder, fs, k) == Ok(Some(SampleNames(fs, folder, fs.dirs[folder])[k]))
  {
    ModOfSmaller(k, |SampleNames(fs, folder, fs.dirs[folder])|);
  }

  /** The text `load_file` installs, or the exception it raises: `[""]`
      when there is no file to choose from, ValueError for a path that is
      not a regular file, and otherwise the file's rows, each stripped at
      both ends, so that no line holds a newline. */
  function Load(path: Option<string>, folder: string, fs: FileSystem, pick: nat): (r: Result<seq<string>>)
    ensures r.Ok? ==> NoNewlines(r.value)
  {
    var chosen :- Choose(path, folder, fs, pick);
    if chosen.None? then Ok([""])
    else if !IsFile(fs, chosen.value) then Err(ValueError)
    else
      var rows := Rows(fs.files[chosen.value]);
      var lines := StripRows(rows);
      assert NoNewlines(lines) by {
        forall i | 0 <= i < |lines| ensures '\n' !in lines[i] {
          StrippedRowHasNoNewline(rows[i]);
        }
      }
      Ok(lines)
  }

  /** With no path and a folder that holds no regular file, the text
      becomes a single empty line and nothing is raised. */
  lemma LoadEmptyFolder(folder: string, fs: FileSystem, pick: nat)
    requires folder in fs.dirs
    requires forall i :: 0 <= i < |fs.dirs[folder]| ==> !IsFile(fs, Join(folder, fs.dirs[folder][i]))
    ensures Load(None, folder, fs, pick) == Ok([""])
  {
  }

  /** With no path and a folder that does not exist, `os.listdir` raises
      FileNotFoundError. */
  lemma LoadMissingFolder(folder: string, fs: FileSystem, pick: nat)
    requires folder !in fs.dirs && !IsFile(fs, folder)
    ensures Load(None, folder, fs, pick) == Err(FileNotFoundError)
  {
  }

  /** With no path and a folder path that is a regular file, `os.listdir`
      raises NotADirectoryError. */
  lemma LoadFolderIsFile(folder: string, fs: FileSystem, pick: nat)
    requires folder !in fs.dirs && IsFile(fs, folder)
    ensures Load(None, folder, fs, pick) == Err(NotADirectoryError)
  {
  }

  /** A given path that is not a regular file raises ValueError. */
  lemma LoadMissingPath(path: string, folder: string, fs: FileSystem, pick: nat)
    requires !IsFile(fs, path)
    ensures Load(Some(path), folder, fs, pick) == Err(ValueError)
  {
  }

  /** A given path that is a file yields its rows stripped at both ends,
      one line per row. */
  lemma LoadFile_StripsRows(path: string, folder: string, fs: FileSystem, pick: nat)
    requires IsFile(fs, path)
    ensures Load(Some(path), folder, fs, pick).Ok?
    ensures var lines := Load(Some(path), folder, fs, pick).value;
            var rows := Rows(fs.files[path]);
            |lines| == |rows| && forall i :: 0 <= i < |rows| ==> lines[i] == Strip(rows[i])
  {
  }

  /** A randomly chosen sample never raises: the chosen name is one of the
      folder's files, and the text is that file's stripped rows. */
  lemma LoadSampleSucceeds(folder: string, fs: FileSystem, pick: nat)
    requires folder in fs.dirs
    requires SampleNames(fs, folder, fs.dirs[folder]) != []
    ensures var names := SampleNames(fs, folder, fs.dirs[folder]);
            var chosen := names[pick % |names|];
            && chosen in names && IsFile(fs, chosen)
            && Load(None, folder, fs, pick) == Ok(StripRows(Rows(fs.files[chosen])))
  {
  }

  // ---------------------------------------------------------------------
  // The program object

  /** `TypingProgram`. `text` is `None` until `load_file` has assigned it;
      reading it before then raises AttributeError. `cursor` and `running`
      are the `cursor` and `running` properties themselves. */
  class TypingProgram {
    var text: Option<seq<string>>
    var cursor: Cursor
    var running: bool

    /** Every text `load_file` installs is free of newlines, so the newline
        the cursor reads at the end of a line cannot be confused with one
        inside it. */
    ghost predicate Valid()
      reads this
    {
      text.Some? ==> NoNewlines(text.value)
    }

    /** `__init__`: cursor at `(0, 0)`, not running, no text yet. */
    constructor ()
      ensures Valid()
      ensures text == None && cursor == Cursor(0, 0) && !running
    {
      text := None;
      cursor := Cursor(0, 0);
      running := false;
    }

    /** `start`. */
    method Start()
      modifies this`running
      ensures running
      ensures text == old(text) && cursor == old(cursor)
      ensures old(Valid()) ==> Valid()
    {
      running := true;
    }

    /** `stop`. */
    method Stop()
      modifies this`running
      ensures !running
      ensures text == old(text) && cursor == old(cursor)
      ensures old(Valid()) ==> Valid()
    {
      running := false;
    }

    /** `load_file(path, default_folder_path)`, with the file system, the
        random choice and the file's contents passed in. On success the
        text is replaced and the cursor is left where it was. */
    method LoadFile(path: Option<string>, folder: string, fs: FileSystem, pick: nat) returns (r: Outcome)
      requires Valid()
      modifies this`text
      ensures Valid()
      ensures cursor == old(cursor) && running == old(running)
      ensures Load(path, folder, fs, pick).Ok? ==> r == Pass && text == Some(Load(path, folder, fs, pick).value)
      ensures Load(path, folder, fs, pick).Err? ==> r == Fail(Load(path, folder, fs, pick).error) && text == old(text)
    {
      var chosen: string;
      if path.None? {
        var entries := ListDir(fs, folder);
        if entries.Err? {
          return Fail(entries.error);
        }
        var names := SampleNames(fs, folder, entries.value);
        if names == [] {
          text := Some([""]);
          return Pass;
        }
        chosen := names[pick % |names|];
      } else {
        chosen := path.value;
      }
      assert Choose(path, folder, fs, pick) == Ok(Some(chosen));
      if !IsFile(fs, chosen) {
        return Fail(ValueError);
      }
      var lines := StripRows(Rows(fs.files[chosen]));
      assert Load(path, folder, fs, pick) == Ok(lines);
      text := Some(lines);
      r := Pass;
    }

    /** `__move_cursor_forwards`. */
    method MoveCursorForwards() returns (r: Result<bool>)
      modifies this`cursor
      ensures text == old(text) && running == old(running)
      ensures old(Valid()) ==> Valid()
      ensures text.None? ==> r == Err(AttributeError) && cursor == old(cursor)
      ensures text.Some? ==>
        match Advance(text.value, old(cursor))
        case Ok((atEnd, next)) => r == Ok(atEnd) && cursor == next
        case Err(e) => r == Err(e) && cursor == old(cursor)
    {
      if text.None? {
        return Err(AttributeError);
      }
      var line := PyIndex(text.value, cursor.row);
      if line.Err? {
        return Err(line.error);
      }
      if cursor.col == |line.value| {
        if cursor.row == |text.value| {
          return Ok(true);
        }
        cursor := Cursor(cursor.row + 1, 0);
        return Ok(false);
      }
      cursor := Cursor(cursor.row, cursor.col + 1);
      return Ok(false);
    }

    /** `__read_cursor`. */
    function ReadCursor(): (r: Result<string>)
      reads this
      ensures text.None? ==> r == Err(AttributeError)
      ensures text.Some? ==> r == Read(text.value, cursor)
      ensures Valid() && r.Ok? ==> (r == Ok("\n") <==> cursor.col == |text.value[cursor.row]|)
    {
      if text.None? then Err(AttributeError) else Read(text.value, cursor)
    }

    /** `next_character(ch)`: compare, then advance exactly once. */
    method NextCharacter(ch: string) returns (r: Result<bool>)
      modifies this`cursor
      ensures text == old(text) && running == old(running)
      ensures old(Valid()) ==> Valid()
      ensures text.None? ==> r == Err(AttributeError) && cursor == old(cursor)
      ensures text.Some? ==>
        match Feed(text.value, old(cursor), ch)
        case Ok((hit, next)) => r == Ok(hit) && cursor == next
        case Err(e) => r == Err(e) && cursor == old(cursor)
    {
      var expected := ReadCursor();
      if expected.Err? {
        return Err(expected.error);
      }
      // A successful read puts the row in range, so advancing cannot raise
      // and its result is discarded as in the source.
      if ch == expected.value {
        var _ := MoveCursorForwards();
        return Ok(true);
      }
      var _ := MoveCursorForwards();
      return Ok(false);
    }

    /** `previous_line`: the line above the cursor, where Python's negative
        indexing turns row 0 into the last line instead of raising. */
    function PreviousLine(): (r: Result<string>)
      reads this
      ensures text.None? ==> r == Err(AttributeError)
      ensures text.Some? && 0 < cursor.row <= |text.value| ==> r == Ok(text.value[cursor.row - 1])
      ensures text.Some? && cursor.row == 0 && text.value != [] ==> r == Ok(text.value[|text.value| - 1])
      ensures text.Some? && (cursor.row > |text.value| || text.value == []) ==> r == Err(IndexError)
    {
      if text.None? then Err(AttributeError) else PyIndex(text.value, cursor.row - 1)
    }

    /** `current_line`: the line the cursor is on. */
    function CurrentLine(): (r: Result<string>)
      reads this
      ensures text.None? ==> r == Err(AttributeError)
      ensures text.Some? && cursor.row < |text.value| ==> r == Ok(text.value[cursor.row])
      ensures text.Some? && cursor.row >= |text.value| ==> r == Err(IndexError)
    {
      if text.None? then Err(AttributeError) else PyIndex(text.value, cursor.row)
    }

    /** `next_line`: the line below the cursor; raises on the last line. */
    function NextLine(): (r: Result<string>)
      reads this
      ensures text.None? ==> r == Err(AttributeError)
      ensures text.Some? && cursor.row + 1 < |text.value| ==> r == Ok(text.value[cursor.row + 1])
      ensures text.Some? && cursor.row + 1 >= |text.value| ==> r == Err(IndexError)
    {
      if text.None? then Err(AttributeError) else PyIndex(text.value, cursor.row + 1)
    }

    /** `line_count`. */
    function LineCount(): (r: Result<nat>)
      reads this
      ensures text.None? ==> r == Err(AttributeError)
      ensures text.Some? ==> r == Ok(|text.value|)
    {
      if text.None? then Err(AttributeError) else Ok(|text.value|)
    }
  }

  /** The first row of the example session's sample file is `"cat\n"`. */
  lemma CatRowLength()
    ensures RowLength("cat\ndog\n") == 4
  {
    var s := "cat\ndog\n";
    assert s[1..] == "at\ndog\n";
    assert s[2..] == "t\ndog\n";
    assert s[3..] == "\ndog\n";
  }

  /** The second and last row of the example session's sample file. */
  lemma DogRows()
    ensures Rows("dog\n") == ["dog\n"]
  {
    var d := "dog\n";
    assert d[1..] == "og\n";
    assert d[2..] == "g\n";
    assert d[3..] == "\n";
    assert RowLength(d) == 4;
    assert d[..4] == d && d[4..] == [];
  }

  /** The rows of the example session's sample file. */
  lemma CatDogRows()
    ensures Rows("cat\ndog\n") == ["cat\n", "dog\n"]
  {
    CatRowLength();
    DogRows();
    var s := "cat\ndog\n";
    assert s[..4] == "cat\n" && s[4..] == "dog\n";
  }

  /** A word that neither starts nor ends with whitespace, followed by a
      newline, strips to the word. */
  lemma StripDropsNewline(w: string)
    requires w != [] && !IsSpace(w[0]) && !IsSpace(w[|w| - 1])
    ensures Strip(w + "\n") == w
  {
    var s := w + "\n";
    assert s[0] == w[0];
    assert LStrip(s) == s;
    assert s[|s| - 1] == '\n';
    assert s[..|s| - 1] == w;
    assert RStrip(w) == w;
  }

  /** Stripping the example session's rows drops their newlines. */
  lemma CatDogStripped()
    ensures StripRows(["cat\n", "dog\n"]) == ["cat", "dog"]
  {
    var cat, dog := "cat", "dog";
    assert !IsSpace(cat[0]) && !IsSpace(cat[2]) && !IsSpace(dog[0]) && !IsSpace(dog[2]);
    StripDropsNewline(cat);
    StripDropsNewline(dog);
    assert cat + "\n" == "cat\n" && dog + "\n" == "dog\n";
    var lines := StripRows(["cat\n", "dog\n"]);
    assert |lines| == 2;
    assert lines[0] == cat && lines[1] == dog;
  }

  /** The sample file of the example session loads as `["cat", "dog"]`. */
  lemma CatDogLoads(fs: FileSystem)
    requires fs == FileSystem(map[], map["cat.txt" := "cat\ndog\n"])
    ensures Load(Some("cat.txt"), "samples", fs, 0) == Ok(["cat", "dog"])
  {
    CatDogRows();
    CatDogStripped();
    assert Choose(Some("cat.txt"), "samples", fs, 0) == Ok(Some("cat.txt"));
    assert IsFile(fs, "cat.txt") && fs.files["cat.txt"] == "cat\ndog\n";
  }

  /** The four keystrokes of the example session, one step each. */
  lemma CatDogKeystrokes(text: seq<string>)
    requires text == ["cat", "dog"]
    ensures Feed(text, Cursor(0, 0), "c") == Ok((true, Cursor(0, 1)))
    ensures Feed(text, Cursor(0, 1), "a") == Ok((true, Cursor(0, 2)))
    ensures Feed(text, Cursor(0, 2), "t") == Ok((true, Cursor(0, 3)))
    ensures Feed(text, Cursor(0, 3), "\n") == Ok((true, Cursor(1, 0)))
  {
    assert |text[0]| == 3 && text[0][0] == 'c' && text[0][1] == 'a' && text[0][2] == 't';
    assert Read(text, Cursor(0, 0)) == Ok("c");
    assert Read(text, Cursor(0, 1)) == Ok("a");
    assert Read(text, Cursor(0, 2)) == Ok("t");
    assert Read(text, Cursor(0, 3)) == Ok("\n");
  }

  /** The session on the text `["cat", "dog"]`: typing `c`, `a`, `t` is
      answered with three hits and leaves the cursor at `(0, 3)`; the
      newline then gives a fourth hit and moves the cursor to `(1, 0)`.
      Loading an empty sample folder afterwards installs `[""]` but keeps
      the cursor on row 1, so the current line raises IndexError. */
  method CatDogSession() returns (hits: seq<bool>, afterCat: Cursor, afterNewline: Cursor,
                                  afterReload: Result<string>)
    ensures hits == [true, true, true, true]
    ensures afterCat == Cursor(0, 3) && afterNewline == Cursor(1, 0)
    ensures afterReload == Err(IndexError)
  {
    var program := new TypingProgram();
    var fs := FileSystem(map[], map["cat.txt" := "cat\ndog\n"]);
    CatDogLoads(fs);
    var loaded := program.LoadFile(Some("cat.txt"), "samples", fs, 0);
    assert program.text == Some(["cat", "dog"]);
    program.Start();
    CatDogKeystrokes(["cat", "dog"]);
    var c := program.NextCharacter("c");
    var a := program.NextCharacter("a");
    var t := program.NextCharacter("t");
    afterCat := program.cursor;
    var newline := program.NextCharacter("\n");
    afterNewline := program.cursor;
    hits := [c.value, a.value, t.value, newline.value];
    var empty := FileSystem(map["samples" := []], map[]);
    LoadEmptyFolder("samples", empty, 0);
    var reloaded := program.LoadFile(None, "samples", empty, 0);
    afterReload := program.CurrentLine();
  }
}
