# A line editor, modelled in Dafny

This project models the core of a small line-oriented terminal text editor
written in Rust. The editor keeps a buffer of lines, a buffer name and a
cursor, `current_line`, and reads commands one input line at a time. The
first character of each line selects the command:

- `+` add a line.
- `r` replace the current line.
- `R` repeat the line two above.
- `d` insert below.
- `D` duplicate the previous line.
- `c` copy and `v` paste.
- `.` and `,` move the cursor.
- `-` remove a line.
- `g` go to a line.
- `S` search.
- `p` print and `l` show the cursor.
- `n` rename.
- `w` write.
- `o` open a file.
- `C` clear.
- `?` help.
- `q` quit.

The session is bound to a file, `File::New` or `File::Open(path)`. That file decides what is read at startup and where `w` writes.

The model has three layers:

- **Values and helpers**:
  - `Usize`: `usize` arithmetic under both build profiles. `Checked` is a debug build, where an overflow panics. `Wrapping` is a release build, where it wraps modulo 2^64.
  - `Decimal`: `str::parse::<usize>`.
  - `Text`: `str::lines`, `str::contains`, and the concatenation that `w` writes.
  - `Buffer`: `Vec::insert`, `Vec::remove`, and the numbered listings of `p` and `S`.
  - `Source`: `File`, `disk_read` and `open`, over a snapshot of the file system.
  - `Commands`: how an input line is classified by its first character.
- **`Machine`**: one iteration of the loop in `run` as a pure function, `Step`. It maps a session state, an input line, the outside world (the files and the clipboard) and the build profile to the next state and an `Outcome`. The outcome can be a silent success, a stop, a printed error, a listing, a loaded file, a write, a clipboard update, or a panic. `Run` folds `Step` over the input lines until `q`, end of input or a panic. A panic is caught by `catch_unwind` in `main` and ends the session.
- **`Interpreter.Editor`**: a class whose fields `lines`, `bufferName` and `cursor` are updated in place, as the Rust locals are. Each method is proved to leave exactly the state, and return exactly the outcome, that the `Machine` function specifies. `Run` is a loop proved equal to `Machine.Run`.

`Laws` collects properties of whole sessions. They cover appending, write then reload, `d` then `-`, searching, and the `g` command.

Where the code does something a user might not expect, the model follows the code:

- After `n` lines are added with `+` to an empty buffer (release build), the cursor is `n`, one past the last line, not `n - 1`. The next `r` then panics. In a debug build the first `+` on an empty buffer panics, because it computes `0 - 1`.
- The cursor is not kept within the buffer. `.` advances it with no bound, and `C` leaves it where it was.
- `o path` replaces only the lines. The session's file, the buffer name and the cursor stay as they were, so a later `w` still writes to the session's file (for `New`, the file named by the buffer name).
- A session started on a path that does not exist cannot be written. `open` for `File::Open` has no create flag.
- `w` writes the lines with nothing between them. The lines read by `disk_read` have no terminators, so writing a loaded buffer joins its lines. The write/reload round trip holds only for lines typed with their newline (`Laws.WriteReloadRoundTrip`, `Text.UnterminatedLinesMerge`).
- Command arguments keep the input line's trailing newline. So `g` succeeds only on a final input line that has no newline, and `S` looks for the needle followed by `\n`.
- `str::lines` removes a `\r` only when it directly precedes a `\n`.

## Model

| member | source | states |
|---|---|---|
| Usize.AddUsize | src/main.rs:109 | `current_line += 1`: fails exactly when overflow checks are on and the sum exceeds `usize::MAX`; otherwise the result is the sum modulo 2^64 |
| Usize.SubUsize | src/main.rs:103 | `len - 1` and `current_line - 1`: fails exactly when checks are on and the subtrahend is larger; exact when no underflow; otherwise congruent modulo 2^64 and within `usize` |
| Usize.WrappingSubUsize | src/main.rs:171 | `current_line - 2` in a release build: the difference modulo 2^64, exact when no underflow |
| Usize.SaturatingSubUsize | src/main.rs:94 | `len.saturating_sub(1)`: the difference, or 0 when it would be negative |
| Decimal.ParseUsize | src/main.rs:145 | `parse::<usize>`: succeeds only on an optional `+` followed by a non-empty run of digits, and then returns the value of those digits; so an empty argument, a lone `+`, a `-`, a space or a trailing newline fails |
| Decimal.ParseDigits | src/main.rs:145 | conversely, every non-empty run of digits whose value fits in `usize` parses to that value, with or without a leading `+` (so `+5` and `05` both give 5) |
| Decimal.Show | src/main.rs:145 | the decimal spelling of a number is non-empty and all digits |
| Decimal.ValueOfShow | src/main.rs:145 | the digits of the spelling of `n` have value `n` |
| Decimal.ParseShow | src/main.rs:145 | parsing the decimal spelling of any `usize` gives it back |
| Text.NewlineAt | src/main.rs:326 | the position of the first `\n`, or the length when there is none |
| Text.Concat | src/main.rs:126-127 | the file written by `w` starts with the first line, and holds a `\n` exactly when some line brought one; what reading it back gives is stated by `Text.LinesOfConcat` and `Text.ConcatOfLines` |
| Text.Lines | src/main.rs:326 | `str::lines`: no more lines than characters, and no line contains `\n` |
| Text.Bodies | src/main.rs:126-127 | each newline-terminated line is its body followed by `\n` |
| Text.NewlineAtBreak | src/main.rs:326 | the first `\n` after a newline-free prefix is at the end of that prefix |
| Text.LinesLf | src/main.rs:326 | `str::lines` on a line ended by a bare `\n` (no `\r` before it): the line without the `\n`, then the lines of the rest |
| Text.LinesCrLf | src/main.rs:326 | `str::lines` on a line ended by `\r\n`: the line without both characters, then the lines of the rest |
| Text.LinesLast | src/main.rs:326 | `str::lines` on a final piece without `\n`: one line, kept whole, a trailing `\r` included |
| Text.NewlineAtTerminated | src/main.rs:326 | in a newline-terminated line followed by any text, the first `\n` is the line's last character |
| Text.LinesOfConcat | src/main.rs:126-127 | writing newline-terminated lines and reading them back with `lines` gives the lines without their terminators |
| Text.UnterminatedLinesMerge | src/main.rs:126-127 | the lines "a", "b", "c" with no terminators are written as one text that reads back as the single line "abc" |
| Text.WithoutNewlinesAround | src/main.rs:326 | dropping the newlines of a newline-free body, one `\n`, and more text keeps the body and drops the newlines of the rest |
| Text.ConcatOfSingleLine | src/main.rs:326 | text with no line break and no `\r` reads as one line and is written back unchanged |
| Text.ConcatOfLinesStep | src/main.rs:326 | reading up to the first `\n` and writing back gives the body followed by what the rest writes back |
| Text.ConcatOfLines | src/main.rs:326 | for text without `\r`, writing back the lines read from it gives the text with every `\n` removed |
| Text.Contains | src/main.rs:183 | `str::contains`: an empty needle is in every line, and a needle that is in a line is no longer than it; its exact meaning is `Text.ContainsIff` |
| Text.ContainsIff | src/main.rs:183 | `contains` holds exactly when the needle occurs at some position of the line |
| Text.LongerNeverContained | src/main.rs:183 | a line never contains a needle longer than itself |
| Buffer.Insert | src/main.rs:106 | `Vec::insert`: one element longer, the element at the index, the elements before unchanged and those after shifted by one |
| Buffer.RemoveAt | src/main.rs:242 | `Vec::remove`: one element shorter, the elements before unchanged and those after shifted back by one |
| Buffer.RemoveInsert | src/main.rs:196 | removing the element just inserted restores the original sequence |
| Buffer.Numbering | src/main.rs:137-139 | the `p` listing: one row per line, numbered from 0, in order |
| Buffer.MatchesOf | src/main.rs:182-187 | the rows the `S` loop collects, one line at a time, are never more than the lines |
| Buffer.MatchesOfSound | src/main.rs:182-187 | every row of the `S` loop is a line containing the needle, with that line's index, and the indices strictly increase |
| Buffer.MatchesOfComplete | src/main.rs:182-187 | every line containing the needle has its row |
| Buffer.MatchesOfLists | src/main.rs:179-193 | the rows are exactly the listing `ListsMatches` describes, and there are none exactly when no line contains the needle (the "No lines found" case) |
| Buffer.MatchesExample | src/main.rs:179-193 | searching ["abc", "xbx", "abc"] for "abc" lists lines 0 and 2 |
| Source.DiskRead | src/main.rs:304-329 | `New` reads nothing; `Open(path)` succeeds exactly when the path names a readable file, and then gives its `lines`; on failure the buffer is empty |
| Source.OpenForWrite | src/main.rs:331-340 | `New` creates the file named by the buffer name and fails when it exists or the name is empty; `Open(path)` opens without creating and fails when the path does not exist |
| Commands.Skip | src/main.rs:101 | `chars().skip(k)` is the input without its first `k` characters, or empty |
| Commands.Classify | src/main.rs:99-101 | end of input exactly for the empty line; otherwise the command's key (`Key`, the character that selects it in `run`'s `match`) is the first character, unknown exactly when that character names no command; the text of `+ r S d` is the line after 1 character and that of `n g o` after 2, trailing newline included |
| Machine.Advanced | src/main.rs:109 | storing the edited lines and `current_line += 1`: continues exactly when the increment does not overflow, with only the lines and the cursor changed; otherwise an overflow panic with the state untouched; below `usize::MAX` the cursor moves one line down, and at `usize::MAX` a release build wraps it to 0 |
| Machine.PreviousIndex | src/main.rs:201-205 | the line above the cursor, or line 0 at the top: never past the cursor, one less than it when it is positive, and 0 exactly when the cursor is 0 or 1 |
| Machine.AddLine | src/main.rs:100-110 | `+`: appends at or past the last line, inserts at the cursor before it, and advances; panics in a debug build on an empty buffer; in a release build, adding to an empty buffer at cursor 0 leaves the cursor at 1 |
| Machine.SetName | src/main.rs:112-114 | `n`: only the buffer name changes |
| Machine.WriteOut | src/main.rs:115-135 | `w`: writes the concatenated lines exactly when the session's file opens for writing, otherwise reports; the state is unchanged |
| Machine.GoToLine | src/main.rs:144-163 | `g`: moves to the parsed line exactly when it is at most the last index; reports an invalid number or out of range otherwise; on an empty buffer a debug build panics and a release build accepts any number |
| Machine.ReplaceLine | src/main.rs:164-167 | `r`: overwrites only the current line, or panics when the cursor is past the end |
| Machine.RepeatLastLine | src/main.rs:169-177 | `R`: copies the line two above, or line 0 when the cursor is 1, onto the current line; at line 0 a debug build panics and a release build indexes out of range |
| Machine.SearchLines | src/main.rs:179-193 | `S`: reports no lines found exactly when no line contains the needle; otherwise lists rows that are sound, ascending and complete; the state is unchanged |
| Machine.InsertLineBelow | src/main.rs:194-198 | `d`: inserts the text just below the cursor and moves onto it; panics when the cursor is past the end; at `usize::MAX` a debug build panics and a release build wraps, inserting at line 0 with the cursor at 0 |
| Machine.CopyPrevious | src/main.rs:200-209 | `c`: puts the line above the cursor (line 0 at the top) on the clipboard; panics without a clipboard or when that line does not exist |
| Machine.DuplicatePreviousLine | src/main.rs:211-220 | `D`: inserts a copy of the line above the cursor at the cursor and advances; panics when that line does not exist |
| Machine.PasteLine | src/main.rs:222-227 | `v`: inserts the clipboard text at the cursor and advances; panics without a clipboard or when the cursor is past the end |
| Machine.MoveForward | src/main.rs:228-230 | `.`: advances the cursor with no bound; at `usize::MAX` it panics in a debug build and wraps to 0 in a release build |
| Machine.MoveBack | src/main.rs:231-239 | `,`: moves up one line, or reports an empty buffer at line 0 |
| Machine.RemoveLine | src/main.rs:240-249 | `-`: removes the current line and moves up; refused at line 0 even when the buffer is not empty; panics past the end |
| Machine.OpenFileAt | src/main.rs:250-262 | `o`: the lines become those of the named file, or empty when it cannot be read; file, name and cursor are kept |
| Machine.ClearBuffer | src/main.rs:263-266 | `C`: empties the lines and the name and keeps the cursor |
| Machine.Step | src/main.rs:96-299 | one loop iteration: never changes the session's file; only successful edits and loads change the state; empty input and `q` stop; an unknown prefix is reported and changes nothing |
| Machine.Start | src/main.rs:85-94 | startup: buffer name "test.txt", the lines read from the file, the cursor on the last line or 0 |
| Machine.Run | src/main.rs:96-300 | the loop: at most one outcome per input line; no outcome but the last ends the session; stopping before the input is used up means the last outcome was `q`, end of input or a panic |
| Interpreter.Editor.constructor | src/main.rs:85-94 | the editor starts in the state `Machine.Start` gives |
| Interpreter.Editor.Advance | src/main.rs:109 | `current_line += 1` in place, or a panic that changes nothing |
| Interpreter.Editor.AddLine | src/main.rs:100-110 | the in-place `+` has exactly the effect and outcome of `Machine.AddLine` |
| Interpreter.Editor.GoToLine | src/main.rs:144-163 | the in-place `g` equals `Machine.GoToLine` |
| Interpreter.Editor.ReplaceLine | src/main.rs:164-167 | the in-place `r` equals `Machine.ReplaceLine` |
| Interpreter.Editor.RepeatLastLine | src/main.rs:169-177 | the in-place `R` equals `Machine.RepeatLastLine` |
| Interpreter.Editor.SetName | src/main.rs:112-114 | the in-place `n` equals `Machine.SetName` |
| Interpreter.Editor.WriteOut | src/main.rs:115-135 | `w` leaves the buffer untouched and reports exactly what `Machine.WriteOut` does |
| Interpreter.Editor.Search | src/main.rs:179-193 | the search loop returns exactly the rows of `MatchesOf`, which list every matching line in order and nothing else, and `found` holds exactly when there is a row |
| Interpreter.Editor.SearchLines | src/main.rs:179-193 | `S` leaves the buffer untouched and reports exactly what `Machine.SearchLines` does |
| Interpreter.Editor.CopyPrevious | src/main.rs:200-209 | `c` leaves the buffer untouched and reports exactly what `Machine.CopyPrevious` does |
| Interpreter.Editor.InsertLineBelow | src/main.rs:194-198 | the in-place `d` equals `Machine.InsertLineBelow` |
| Interpreter.Editor.DuplicatePreviousLine | src/main.rs:211-220 | the in-place `D` equals `Machine.DuplicatePreviousLine` |
| Interpreter.Editor.PasteLine | src/main.rs:222-227 | the in-place `v` equals `Machine.PasteLine` |
| Interpreter.Editor.MoveForward | src/main.rs:228-230 | the in-place `.` equals `Machine.MoveForward` |
| Interpreter.Editor.MoveBack | src/main.rs:231-239 | the in-place `,` equals `Machine.MoveBack` |
| Interpreter.Editor.RemoveLine | src/main.rs:240-249 | the in-place `-` equals `Machine.RemoveLine` |
| Interpreter.Editor.OpenFileAt | src/main.rs:250-262 | the in-place `o` equals `Machine.OpenFileAt` |
| Interpreter.Editor.ClearBuffer | src/main.rs:263-266 | the in-place `C` equals `Machine.ClearBuffer` |
| Interpreter.Editor.Step | src/main.rs:96-299 | one in-place loop iteration equals `Machine.Step` |
| Interpreter.Editor.Run | src/main.rs:96-300 | the in-place loop reaches the final state and outcomes of `Machine.Run` |
| Laws.AddInputs | src/main.rs:100-101 | the input lines `+t`, one for each text, in order |
| Laws.AppendsAccumulate | src/main.rs:100-110 | with the cursor on or past the last line of a non-empty buffer, a run of `+` appends the texts in order and advances the cursor once per text |
| Laws.QuitEndsRun | src/main.rs:111 | a line starting with `q` ends the session at once, with the state unchanged and nothing after it read |
| Laws.FreshSessionAppends | src/main.rs:85-110 | in a release build, `+` lines typed into a session without a file give exactly those lines, with the cursor equal to their count |
| Laws.FreshSessionAddPanics | src/main.rs:103 | in a debug build, the first `+` of a session without a file panics and ends it |
| Laws.FreshSessionReplacePanics | src/main.rs:164-166 | in a release build, after the first `+` of a fresh session the cursor is 1, and an `r` then panics |
| Laws.InsertBelowThenRemove | src/main.rs:194-198 | `d` followed by `-` restores the lines and the cursor |
| Laws.GoToTypedLineFails | src/main.rs:144-153 | a `g` line that ends in a newline always reports an invalid number and changes nothing |
| Laws.GoToAtEndOfInput | src/main.rs:144-163 | `g`, any separator and the decimal spelling of an existing line index move the cursor there |
| Laws.WriteReloadRoundTrip | src/main.rs:115-135 | in a session without a file, `w` creates the file named by the buffer with the concatenated lines, and reading it back gives the newline-terminated lines without their terminators |
| Laws.MissingStartupFileCannotBeWritten | src/main.rs:331-340 | a session started on a missing path begins empty, and its `w` reports an open failure |
| Laws.SearchExample | src/main.rs:179-193 | `Sabc` on ["abc", "xbx", "abc"] lists lines 0 and 2 |
| Laws.SearchTypedLineExample | src/main.rs:179-193 | `Sabc` with its newline on the same buffer finds nothing |

## Left out

- Terminal output: the banner, the help box, the error boxes and the `p`/`S`/`l` print formats. The model reports them as abstract outcomes: `Listed`, `LineShown`, `HelpShown`, `Report`.
- Reading from standard input: input lines are given as a sequence, and a failing `read_line` is not modelled.
- Command-line arguments: the session's file is a parameter of `Start` and of `Editor`. Both `expect`s on the first argument are not modelled; the `String`-to-`PathBuf` conversion never fails.
- `o`'s error arm: it is unreachable, because converting a `String` to a `PathBuf` cannot fail.
- File system: the disk is a snapshot mapping paths to readable or unreadable text. Permissions, directories and I/O errors are reduced to "readable or not" and "exists or not".
- File writes: `w` reports the target and the content to write, and does not apply them. A failing `write_all` for one line (which skips that line) is not modelled. Neither are the old bytes left past the end when an existing file is overwritten without truncation.
- Clipboard: the clipboard is a value that is either present or missing. A failing `set_contents` or `get_contents` while the service exists counts as a missing clipboard.
- Effects between steps: within one `Run` the world is fixed, so a `w` or `c` does not change what a later `o` or `v` sees. In particular a second `w` in a session without a file is modelled as writing again, where the program's `create_new` would fail because the first `w` created the file.
- Memory: allocation failure and `Vec` capacity overflow are not modelled, and the buffer is unbounded. A 64-bit target is assumed for `usize`.
- Panics: a panic ends the session, and the state it reports is the state before the panicking command. Partial effects before the unwind do not matter, since nothing reads them.
- Interpreter.Editor.constructor: it does not return the startup read result. `Machine.Start` reports it as `Loaded`.
- Machine.AddLine: its contract leaves a few cases to the body. These are a cursor at `usize::MAX`, and a release build with an empty buffer and a cursor of `usize::MAX`. `Interpreter.Editor.AddLine` still matches the function in every case.
- Machine.RepeatLastLine: its contract does not spell out a release build at line 0 with a buffer of `usize::MAX` lines. `Interpreter.Editor.RepeatLastLine` still matches the function in every case.
- Machine.Step: its contract gives the general frame (source kept, failures change nothing). Each command's own function states what that command does.
- Text.Lines: its contract gives bounds and freedom from newlines. The exact result is given piece by piece by `Text.LinesLf`, `Text.LinesCrLf` and `Text.LinesLast`, with the empty text giving no lines, and for whole texts of terminated lines by `Text.LinesOfConcat`.
