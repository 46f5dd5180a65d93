# Typing practice: the program model and the font manager in Dafny

This project models the back end of a small typing-practice application.

`TypingProgram` holds three things:

- the loaded text, as a sequence of lines;
- a `(row, column)` cursor into the text;
- a `running` flag.

Each keystroke is compared with the character under the cursor. At the end of a line that character is a newline. The cursor then moves on by one position, wrapping to the start of the next line. Accessors return the previous, current and next line and the line count.

`FontManager` validates a font path and a point size before storing them and reloading the font handle.

Layout:

- `python_builtins.dfy` (module `PyBuiltins`): the Python behaviour the code relies on. This covers the exceptions as a `Result`/`Outcome` value, indexing with negative indices, `s[i:]` slicing, `str.isspace`, `str.strip`, and how iterating over a text file splits it into rows.
- `os_model.dfy` (module `Os`): the file system as a value. It gives the names each directory lists and the text of each regular file, with `os.listdir`, `os.path.isfile` and `os.path.join`.
- `typing_program.dfy` (module `Typing`): the value-level specification functions and the `TypingProgram` class.
  - `Read` is `__read_cursor`, `Advance` is `__move_cursor_forwards`, `Feed` is `next_character` and `Load` is `load_file`.
  - `FeedAll` types a string of keys one at a time.
  - The class methods are proved against these functions.
- `font_manager.dfy` (module `Fonts`): the validators and the `FontManager` class.

The source's behaviour at the boundaries is modelled as written:

- The end-of-text test in `__move_cursor_forwards` compares the row with `len(text)`. It does so only after `text[row]` has been indexed, so it can never succeed (`Advance`).
- Typing the whole text without a mistake therefore leaves the cursor at `(line_count, 0)`. From there the next keystroke raises IndexError (`TypeWholeText`, `PastLastLineRaises`).
- `previous_line` at row 0 returns the last line, through Python's negative indexing.
- `next_line` on the last line raises IndexError.
- `load_file` does not reset the cursor. `CatDogSession` shows a reload leaving the cursor on a row that no longer exists.
- `load_file` strips whitespace from both ends of each row (typingprogram.py:45).
- `load_file` raises ValueError for a path that is not a regular file (typingprogram.py:41-42).

Python's exceptions are values of `PyError`. Each operation returns the exception it would raise instead of requiring its absence. Before the first `load_file`, the attribute `__text` does not exist, so the text is `None` and every read of it gives AttributeError.

## Model

| member | source | states |
|---|---|---|
| `PyBuiltins.PyIndex` | typingprogram.py:77-89 | Python indexing succeeds exactly for `-len <= i < len`; a negative index counts from the end; otherwise IndexError |
| `PyBuiltins.PySliceFrom` | fontmanager.py:33 | `s[i:]` is a suffix of `s` of length `min(-i, len)` for negative `i` (the whole string when shorter), and never raises |
| `PyBuiltins.IsSpace` | typingprogram.py:45 | the characters `str.isspace` accepts, which `str.strip` removes; defined by their list, with no contract |
| `PyBuiltins.Strip` | typingprogram.py:45 | `row.strip()` is the slice of the row with only whitespace before and after it; it neither starts nor ends with whitespace |
| `PyBuiltins.Rows` | typingprogram.py:44-45 | the rows a text file yields are non-empty, hold a newline only as their last character, all but the last end in one, and concatenate back to the file's text |
| `PyBuiltins.StrippedRowHasNoNewline` | typingprogram.py:45 | a stripped row contains no newline |
| `Os.IsFile` | typingprogram.py:34 | `os.path.isfile`: the path names a regular file; defined by the file system value, with no contract |
| `Os.ListDir` | typingprogram.py:33 | listing succeeds exactly for a directory and gives its names; a path that is a regular file raises NotADirectoryError, any other path FileNotFoundError |
| `Os.Join` | typingprogram.py:32-34 | joining with a relative name keeps the folder as prefix and the name as suffix, with at most one separator between them; the separator is `/` and is inserted exactly when the folder is non-empty and does not already end in `/`; an absolute name replaces the folder |
| `Typing.Read` | typingprogram.py:62-66 | the expected character exists exactly when the cursor is in range; it is a newline at the end of the line and the character under the cursor otherwise; off the text it is IndexError |
| `Typing.ReadNewlineIff` | typingprogram.py:62-66 | on a loaded text (no line holds a newline) the expected character is a newline if and only if the column equals the line's length |
| `Typing.Advance` | typingprogram.py:54-60 | advancing raises IndexError exactly when the row is off the text; otherwise it never reports end of text, goes to `(r, c+1)` inside a line or to `(r+1, 0)` at its end, and moves strictly forwards in reading order |
| `Typing.AdvanceKeepsInRange` | typingprogram.py:54-60 | from an in-range cursor, advancing succeeds and stays in range, except from the end of the last line, which lands on `(line_count, 0)` |
| `Typing.PastLastLineRaises` | typingprogram.py:54-66 | on row `line_count`, reading and advancing both raise IndexError |
| `Typing.Feed` | typingprogram.py:68-74 | `next_character(ch)` succeeds exactly when the cursor is in range, else IndexError; it answers `ch == expected` and moves the cursor by exactly the one step `Advance` takes |
| `Typing.FeedStepIgnoresKey` | typingprogram.py:70-74 | the cursor ends in the same place whichever key is typed, hit or miss |
| `Typing.TypeRestOfLine` | typingprogram.py:54-74 | typing the rest of a line and its newline correctly scores one hit per key and reaches the start of the next line |
| `Typing.TypeLinesFrom` | typingprogram.py:54-74 | typing every line from row `r` on correctly scores only hits and reaches `(line_count, 0)` |
| `Typing.TypeWholeText` | typingprogram.py:54-74 | typing the whole text correctly from `(0, 0)` scores only hits and parks the cursor at `(line_count, 0)`, where any further key raises IndexError |
| `Typing.JoinAll` | typingprogram.py:32-33 | one joined path per listed entry, in order |
| `Typing.RegularFiles` | typingprogram.py:34 | the filter keeps exactly the regular files: each kept path is one of the inputs and a file, each input that is a file is kept, and nothing is kept exactly when no input is a file |
| `Typing.SampleNames` | typingprogram.py:31-35 | every sample name is a regular file and the joined path of some listed entry; every listed entry whose joined path is a regular file is a sample name; the list is empty exactly when no entry is a file |
| `Typing.StripRows` | typingprogram.py:45 | one stripped line per file row, in order |
| `Typing.Choose` | typingprogram.py:30-39 | a given path is used as is; with none, the choice raises exactly when the folder is not a directory, with the error `os.listdir` gives; it yields no file exactly when no listed entry is a regular file; otherwise it yields a regular file that is the joined path of a listed entry |
| `Typing.ChooseSampleAt` | typingprogram.py:36-39 | with no path, a pick below the number of samples selects the sample at that position |
| `Typing.EverySampleCanBeChosen` | typingprogram.py:31-39 | every listed entry that is a regular file is the choice for some value of the random pick |
| `Typing.Load` | typingprogram.py:26-45 | a successfully loaded text never holds a newline in any line |
| `Typing.LoadEmptyFolder` | typingprogram.py:36-38 | a sample folder with no regular file yields the text `[""]` without raising |
| `Typing.LoadMissingFolder` | typingprogram.py:31-33 | a sample folder that does not exist raises FileNotFoundError |
| `Typing.LoadFolderIsFile` | typingprogram.py:31-33 | a sample folder path that is a regular file raises NotADirectoryError |
| `Typing.LoadMissingPath` | typingprogram.py:41-42 | a path that is not a regular file raises ValueError |
| `Typing.LoadFile_StripsRows` | typingprogram.py:44-45 | an existing file yields one line per row, each row stripped at both ends |
| `Typing.LoadSampleSucceeds` | typingprogram.py:30-45 | a randomly chosen sample is a regular file of the folder, so loading it never raises, and the text is its stripped rows |
| `Typing.TypingProgram.constructor` | typingprogram.py:12-16 | a new program has no text, cursor `(0, 0)` and is not running |
| `Typing.TypingProgram.Start` | typingprogram.py:18-20 | `running` becomes true; text and cursor are unchanged; the text stays free of newlines |
| `Typing.TypingProgram.Stop` | typingprogram.py:22-24 | `running` becomes false; text and cursor are unchanged; the text stays free of newlines |
| `Typing.TypingProgram.LoadFile` | typingprogram.py:26-45 | the text becomes what `Load` gives, or stays as it was when `Load` raises; the cursor is never reset; no line of the text ever holds a newline |
| `Typing.TypingProgram.MoveCursorForwards` | typingprogram.py:47-60 | the cursor and the returned flag are those of `Advance`; AttributeError before a text is loaded; a raise leaves the cursor where it was; the text stays free of newlines |
| `Typing.TypingProgram.ReadCursor` | typingprogram.py:62-66 | the expected character of the stored text at the stored cursor, or AttributeError before a text is loaded; on a loaded text it is a newline exactly at the end of the line |
| `Typing.TypingProgram.NextCharacter` | typingprogram.py:68-74 | the answer and the new cursor are those of `Feed`: one comparison, then exactly one step; the text stays free of newlines |
| `Typing.TypingProgram.PreviousLine` | typingprogram.py:76-79 | the line above the cursor; at row 0 the last line; IndexError on an empty text or a row past the end |
| `Typing.TypingProgram.CurrentLine` | typingprogram.py:86-89 | the line the cursor is on, or IndexError when the row is past the last line |
| `Typing.TypingProgram.NextLine` | typingprogram.py:81-84 | the line below the cursor, or IndexError on the last line and beyond |
| `Typing.TypingProgram.LineCount` | typingprogram.py:96-99 | the number of lines, or AttributeError before a text is loaded |
| `Typing.CatDogSession` | typingprogram.py:26-89 | on `["cat", "dog"]`, typing `c`, `a`, `t` scores three hits and leaves the cursor at `(0, 3)`; the newline scores a hit and moves to `(1, 0)`; reloading an empty sample folder keeps the cursor on row 1, so the current line raises IndexError |
| `Fonts.HasFontSuffix` | fontmanager.py:33 | the suffix test accepts a path if and only if it has at least four characters and ends in `.ttf` or `.otf`, case-sensitively |
| `Fonts.FontSuffixExamples` | fontmanager.py:33-34 | a bare `.ttf` passes; `font.TTF`, `ttf` and a trailing space fail |
| `Fonts.ValidateFontPath` | fontmanager.py:30-37 | a path is accepted if and only if it has a font suffix and is a file; a bad suffix raises ValueError even when the file exists; a good suffix with no file raises FileNotFoundError |
| `Fonts.ValidateFontSize` | fontmanager.py:56-60 | a size is accepted if and only if it is positive; otherwise ValueError |
| `Fonts.FontManager.constructor` | fontmanager.py:13-14 | the defaults: path `""`, size `1`, no font loaded |
| `Fonts.FontManager.LoadFont` | fontmanager.py:21-23 | the font is reloaded from the stored path and size |
| `Fonts.FontManager.SetFontPath` | fontmanager.py:39-49 | the outcome is the path validation; on success the path is stored and the font reloaded with the old size; on failure nothing changes; the manager's invariant is kept |
| `Fonts.FontManager.SetFontSize` | fontmanager.py:62-72 | the outcome is the size validation; on success the size is stored and the font reloaded with the old path; on failure nothing changes; the manager's invariant is kept |
| `Fonts.FontManager.SetFont` | fontmanager.py:79-84 | validates the path and then the size, raising the first failure; succeeds exactly for a valid pair, and assigns no field either way |
| `Fonts.FontManager.Create` | fontmanager.py:10-19 | sets the path and then the size, raising the first failure; succeeds exactly for a font file path and a positive size, and then holds exactly the arguments and the font loaded from them |

## Left out

- The graphical interface (`typinginterface.py`): display modes, the event loop, drawing, frame pacing and the JSON window-state and colour files. This is I/O through pygame. Its layout formulas use floating point.
- The entry point `index.py`, which only constructs and runs the interface.
- `random.sample`: the random choice is the parameter `pick`, and the `pick`-th sample name (modulo their number) is used. Every name can be chosen.
- File I/O: `os.listdir`, `os.path.isfile` and `open` read a `FileSystem` value. Text decoding, universal-newline translation and errors raised while reading an existing file are not modelled. A file's text is given after translation.
- `os.path.join` is modelled for POSIX paths only.
- Typing.SampleNames: the order of the sample names is not stated. The random pick is arbitrary, so only which names are in the list matters.
- A path present both as a directory and as a regular file of the `FileSystem` value is treated as a directory.
- `str.isspace` is modelled by its list of whitespace characters; other Unicode properties are not needed.
- The `font_manager` argument of `TypingProgram.__init__` is stored but never read, so it is not modelled.
- `pygame.font.init` and `pygame.font.Font`: the font is an opaque handle recording the path and size it was loaded with. Errors that pygame raises for a file that is not a usable font are not modelled.
- Fonts.ValidateFontPath: the `isinstance(font_path, str)` test is implied by the parameter's type, so a non-string path is not modelled.
- Fonts.ValidateFontSize: a non-integer size (a float, for example) is not modelled; the size is an integer.
- Fonts.FontManager.Create: an exception leaves the partly initialised object unreachable in Python; the model returns it together with the raised error.
- The getters `cursor` and `running` of `TypingProgram` and `font_path`, `font_size` and `font` of `FontManager` are the class fields themselves.
