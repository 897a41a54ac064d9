/**
 * One iteration of the editor's read-eval loop as a pure transition: the
 * session state before, one input line, the outside world, and the build
 * profile determine the state after and what the iteration reports.
 */
module Machine {
  import opened Wrappers
  import opened Usize
  import opened Decimal
  import opened Text
  import opened Buffer
  import opened Source
  import opened Commands

  /** `state.lines`, `state.buffer_name`, the local `current_line` and the session's `file`. */
  datatype State = State(lines: seq<string>, bufferName: string, cursor: USize, source: File)

  /** What the editor reads from outside: the files that exist and the clipboard (`None`: no clipboard service). */
  datatype World = World(disk: Disk, clipboard: Option<string>)

  /** The messages printed to the error stream; each leaves the session running. */
  datatype ErrorKind =
    | EmptyBuffer      // ',' and '-' at line 0: "Buffer is empty"
    | InvalidNumber    // 'g' whose argument does not parse
    | OutOfRange       // 'g' past the last line
    | NoLinesFound     // 'S' without a match
    | OpenFailed       // 'w' when the target cannot be opened
    | UnknownPrefix    // unrecognised first character

  /** Why a command panicked; a panic ends the session. */
  datatype PanicKind = Overflow | IndexOutOfBounds | ClipboardUnavailable

  datatype Outcome =
    | Continue                              // the command did its work silently
    | Stop                                  // 'q' or end of input: the loop ends
    | Report(error: ErrorKind)
    | Listed(rows: seq<Numbered>)           // 'p' and 'S'
    | LineShown(line: USize)                // 'l'
    | HelpShown                             // '?'
    | Loaded(readable: bool)                // 'o' (an unreadable file is reported and empties the buffer)
    | WriteFile(target: Target, content: string)   // 'w' once its target is open
    | ClipboardSet(text: string)            // 'c'
    | Panic(reason: PanicKind)

  datatype Transition = Transition(state: State, outcome: Outcome)

  /** Outcomes after which the loop ends: 'q', end of input, and a panic caught by `catch_unwind`. */
  predicate Ends(o: Outcome) { o.Stop? || o.Panic? }

  /** The line index the `c` and `D` commands copy from: one before the cursor, or 0 at the top. */
  function PreviousIndex(cursor: USize): (i: nat)
    ensures i <= cursor && (cursor > 0 ==> i + 1 == cursor)
    ensures i == 0 <==> cursor <= 1
  {
    if cursor > 0 then cursor - 1 else 0
  }

  /** Store the edited lines and advance the cursor by one (`current_line += 1`), or panic on overflow. */
  function Advanced(s: State, lines: seq<string>, p: Profile): (t: Transition)
    ensures t.outcome == Continue || t == Transition(s, Panic(Overflow))
    ensures t.outcome == Continue <==> AddUsize(p, s.cursor, 1).Some?
    ensures t.outcome == Continue ==>
              t.state == s.(lines := lines, cursor := AddUsize(p, s.cursor, 1).value)
    ensures s.cursor < USIZE_MAX ==> t.outcome == Continue && t.state.cursor == s.cursor + 1
    ensures s.cursor == USIZE_MAX && p == Wrapping ==> t.outcome == Continue && t.state.cursor == 0
  {
    match AddUsize(p, s.cursor, 1)
    case None => Transition(s, Panic(Overflow))
    case Some(c) => Transition(s.(lines := lines, cursor := c), Continue)
  }

  /** `+text`: append when the cursor is at or past the last line, otherwise insert at the cursor; then advance. */
  function AddLine(s: State, text: string, p: Profile): (t: Transition)
    ensures t.outcome == Continue || t.outcome.Panic?
    ensures t.outcome.Panic? ==> t.state == s
    ensures t.outcome == Continue ==> t.state.bufferName == s.bufferName && t.state.source == s.source
                                      && |t.state.lines| == |s.lines| + 1
    ensures |s.lines| > 0 && s.cursor < USIZE_MAX ==>
              t.outcome == Continue && t.state.cursor == s.cursor + 1
              && (s.cursor >= |s.lines| - 1 ==> t.state.lines == s.lines + [text])
              && (s.cursor < |s.lines| - 1 ==> t.state.lines == Insert(s.lines, s.cursor, text))
    ensures |s.lines| == 0 && p == Checked ==> t.outcome == Panic(Overflow)
    ensures |s.lines| == 0 && p == Wrapping && s.cursor == 0 ==>
              t.outcome == Continue && t.state.lines == [text] && t.state.cursor == 1
    ensures |s.lines| == 0 && p == Wrapping && 0 < s.cursor < USIZE_MAX ==> t.outcome == Panic(IndexOutOfBounds)
  {
    match SubUsize(p, |s.lines|, 1)
    case None => Transition(s, Panic(Overflow))
    case Some(last) =>
      if s.cursor >= last then Advanced(s, s.lines + [text], p)
      else if s.cursor <= |s.lines| then Advanced(s, Insert(s.lines, s.cursor, text), p)
      else Transition(s, Panic(IndexOutOfBounds))
  }

  /** `n name`: the buffer name becomes the rest of the line after two characters. */
  function SetName(s: State, name: string): (t: Transition)
    ensures t.outcome == Continue && t.state.bufferName == name
    ensures t.state.lines == s.lines && t.state.cursor == s.cursor && t.state.source == s.source
  {
    Transition(s.(bufferName := name), Continue)
  }

  /** `w`: open the target the session's file names and write the concatenated lines to it. */
  function WriteOut(s: State, disk: Disk): (t: Transition)
    ensures t.state == s
    ensures t.outcome.WriteFile? || t.outcome == Report(OpenFailed)
    ensures t.outcome.WriteFile? <==> OpenForWrite(s.source, s.bufferName, disk).Some?
    ensures t.outcome.WriteFile? ==> t.outcome.target == OpenForWrite(s.source, s.bufferName, disk).value
                                     && t.outcome.content == Concat(s.lines)
  {
    match OpenForWrite(s.source, s.bufferName, disk)
    case None => Transition(s, Report(OpenFailed))
    case Some(target) => Transition(s, WriteFile(target, Concat(s.lines)))
  }

  /** `g n`: move the cursor to line n if it parses and is at most `len - 1`; otherwise report and stay. */
  function GoToLine(s: State, arg: string, p: Profile): (t: Transition)
    ensures t.outcome != Continue ==> t.state == s
    ensures t.outcome == Continue ==> ParseUsize(arg).Some? && t.state == s.(cursor := ParseUsize(arg).value)
    ensures ParseUsize(arg).None? ==> t.outcome == Report(InvalidNumber)
    ensures ParseUsize(arg).Some? && |s.lines| > 0 ==>
              (t.outcome == Continue <==> ParseUsize(arg).value < |s.lines|)
              && (t.outcome != Continue ==> t.outcome == Report(OutOfRange))
    ensures ParseUsize(arg).Some? && |s.lines| == 0 ==> t.outcome == if p == Checked then Panic(Overflow) else Continue
  {
    match ParseUsize(arg)
    case None => Transition(s, Report(InvalidNumber))
    case Some(n) =>
      match SubUsize(p, |s.lines|, 1)
      case None => Transition(s, Panic(Overflow))
      case Some(last) => if n > last then Transition(s, Report(OutOfRange)) else Transition(s.(cursor := n), Continue)
  }

  /** `r text`: overwrite the current line. */
  function ReplaceLine(s: State, text: string): (t: Transition)
    ensures s.cursor < |s.lines| ==>
              t.outcome == Continue && t.state.cursor == s.cursor && t.state.bufferName == s.bufferName
              && t.state.source == s.source && |t.state.lines| == |s.lines| && t.state.lines[s.cursor] == text
              && forall i :: 0 <= i < |s.lines| && i != s.cursor ==> t.state.lines[i] == s.lines[i]
    ensures s.cursor >= |s.lines| ==> t == Transition(s, Panic(IndexOutOfBounds))
  {
    if s.cursor < |s.lines| then Transition(s.(lines := s.lines[s.cursor := text]), Continue)
    else Transition(s, Panic(IndexOutOfBounds))
  }

  /**
   * `R`: overwrite the current line with the line two above it, or with line
   * 0 when the cursor is 1 (`if current_line - 1 > 0 { current_line - 2 } else { 0 }`).
   * With overflow checks off, `current_line - 1` at line 0 wraps, so the
   * source index becomes `usize::MAX - 1`.
   */
  function RepeatLastLine(s: State, p: Profile): (t: Transition)
    ensures t.outcome == Continue || t.outcome.Panic?
    ensures t.outcome.Panic? ==> t.state == s
    ensures p == Checked && s.cursor == 0 ==> t.outcome == Panic(Overflow)
    ensures 1 <= s.cursor < |s.lines| ==>
              var from := if s.cursor >= 2 then s.cursor - 2 else 0;
              t.outcome == Continue && t.state.cursor == s.cursor && t.state.bufferName == s.bufferName
              && t.state.source == s.source && |t.state.lines| == |s.lines|
              && t.state.lines[s.cursor] == s.lines[from]
              && forall i :: 0 <= i < |s.lines| && i != s.cursor ==> t.state.lines[i] == s.lines[i]
    ensures s.cursor >= |s.lines| && (s.cursor > 0 || p == Wrapping) ==> t.outcome == Panic(IndexOutOfBounds)
    ensures p == Wrapping && s.cursor == 0 && |s.lines| < USIZE_MAX ==> t.outcome == Panic(IndexOutOfBounds)
  {
    match SubUsize(p, s.cursor, 1)
    case None => Transition(s, Panic(Overflow))
    case Some(d) =>
      // `d > 0` means `current_line >= 2` unless the subtraction wrapped, so
      // only a wrapped `d` makes the second subtraction wrap too.
      var from := if d > 0 then WrappingSubUsize(s.cursor, 2) else 0;
      if from < |s.lines| && s.cursor < |s.lines| then
        Transition(s.(lines := s.lines[s.cursor := s.lines[from]]), Continue)
      else Transition(s, Panic(IndexOutOfBounds))
  }

  /** `S needle`: list every line containing the needle, or report that none does. */
  function SearchLines(s: State, needle: string): (t: Transition)
    ensures t.state == s
    ensures t.outcome == Report(NoLinesFound) <==> forall i :: 0 <= i < |s.lines| ==> !Contains(s.lines[i], needle)
    ensures t.outcome != Report(NoLinesFound) ==>
              t.outcome == Listed(MatchesOf(s.lines, needle)) && ListsMatches(s.lines, needle, t.outcome.rows)
  {
    var rows := MatchesOf(s.lines, needle);
    MatchesOfLists(s.lines, needle);
    if rows == [] then Transition(s, Report(NoLinesFound)) else Transition(s, Listed(rows))
  }

  /** `d text`: insert the text just below the cursor (`insert(current_line + 1, ..)`) and move onto it. */
  function InsertLineBelow(s: State, text: string, p: Profile): (t: Transition)
    ensures t.outcome == Continue || t.outcome.Panic?
    ensures t.outcome.Panic? ==> t.state == s
    ensures s.cursor < |s.lines| && s.cursor < USIZE_MAX ==>
              t.outcome == Continue && t.state == s.(lines := Insert(s.lines, s.cursor + 1, text), cursor := s.cursor + 1)
              && t.state.lines[t.state.cursor] == text
    ensures s.cursor >= |s.lines| && s.cursor < USIZE_MAX ==> t.outcome == Panic(IndexOutOfBounds)
    ensures s.cursor == USIZE_MAX ==>
              t == if p == Checked then Transition(s, Panic(Overflow))
                   else Transition(s.(lines := Insert(s.lines, 0, text), cursor := 0), Continue)
  {
    match AddUsize(p, s.cursor, 1)
    case None => Transition(s, Panic(Overflow))
    case Some(k) =>
      if k <= |s.lines| then Transition(s.(lines := Insert(s.lines, k, text), cursor := k), Continue)
      else Transition(s, Panic(IndexOutOfBounds))
  }

  /** `c`: put the line above the cursor (line 0 at the top) on the clipboard. */
  function CopyPrevious(s: State, clipboard: Option<string>): (t: Transition)
    ensures t.state == s
    ensures PreviousIndex(s.cursor) >= |s.lines| ==> t.outcome == Panic(IndexOutOfBounds)
    ensures PreviousIndex(s.cursor) < |s.lines| ==>
              t.outcome == if clipboard.Some? then ClipboardSet(s.lines[PreviousIndex(s.cursor)]) else Panic(ClipboardUnavailable)
  {
    var from := PreviousIndex(s.cursor);
    if from >= |s.lines| then Transition(s, Panic(IndexOutOfBounds))
    else if clipboard.None? then Transition(s, Panic(ClipboardUnavailable))
    else Transition(s, ClipboardSet(s.lines[from]))
  }

  /** `D`: insert a copy of the line above the cursor (line 0 at the top) at the cursor, then advance. */
  function DuplicatePreviousLine(s: State, p: Profile): (t: Transition)
    ensures t.outcome == Continue || t.outcome.Panic?
    ensures t.outcome.Panic? ==> t.state == s
    ensures PreviousIndex(s.cursor) < |s.lines| && s.cursor < USIZE_MAX ==>
              t.outcome == Continue
              && t.state == s.(lines := Insert(s.lines, s.cursor, s.lines[PreviousIndex(s.cursor)]), cursor := s.cursor + 1)
    ensures PreviousIndex(s.cursor) >= |s.lines| ==> t.outcome == Panic(IndexOutOfBounds)
  {
    var from := PreviousIndex(s.cursor);
    if from < |s.lines| then Advanced(s, Insert(s.lines, s.cursor, s.lines[from]), p)
    else Transition(s, Panic(IndexOutOfBounds))
  }

  /** `v`: insert the clipboard text at the cursor, then advance. */
  function PasteLine(s: State, clipboard: Option<string>, p: Profile): (t: Transition)
    ensures t.outcome == Continue || t.outcome.Panic?
    ensures t.outcome.Panic? ==> t.state == s
    ensures clipboard.None? ==> t.outcome == Panic(ClipboardUnavailable)
    ensures clipboard.Some? && s.cursor <= |s.lines| && s.cursor < USIZE_MAX ==>
              t.outcome == Continue
              && t.state == s.(lines := Insert(s.lines, s.cursor, clipboard.value), cursor := s.cursor + 1)
    ensures clipboard.Some? && s.cursor > |s.lines| ==> t.outcome == Panic(IndexOutOfBounds)
  {
    match clipboard
    case None => Transition(s, Panic(ClipboardUnavailable))
    case Some(text) =>
      if s.cursor <= |s.lines| then Advanced(s, Insert(s.lines, s.cursor, text), p)
      else Transition(s, Panic(IndexOutOfBounds))
  }

  /** `.`: advance the cursor, with no check against the length of the buffer. */
  function MoveForward(s: State, p: Profile): (t: Transition)
    ensures t.state.lines == s.lines && t.state.bufferName == s.bufferName && t.state.source == s.source
    ensures s.cursor < USIZE_MAX ==> t.outcome == Continue && t.state.cursor == s.cursor + 1
    ensures s.cursor == USIZE_MAX ==>
              if p == Checked then t == Transition(s, Panic(Overflow)) else t.outcome == Continue && t.state.cursor == 0
  {
    match AddUsize(p, s.cursor, 1)
    case None => Transition(s, Panic(Overflow))
    case Some(c) => Transition(s.(cursor := c), Continue)
  }

  /** `,`: move the cursor up one line; at line 0 report and stay. */
  function MoveBack(s: State): (t: Transition)
    ensures t.state.lines == s.lines && t.state.bufferName == s.bufferName && t.state.source == s.source
    ensures s.cursor > 0 ==> t.outcome == Continue && t.state.cursor == s.cursor - 1
    ensures s.cursor == 0 ==> t == Transition(s, Report(EmptyBuffer))
  {
    if s.cursor > 0 then Transition(s.(cursor := s.cursor - 1), Continue)
    else Transition(s, Report(EmptyBuffer))
  }

  /** `-`: remove the current line and move up one; refused at line 0, even in a non-empty buffer. */
  function RemoveLine(s: State): (t: Transition)
    ensures s.cursor == 0 ==> t == Transition(s, Report(EmptyBuffer))
    ensures 0 < s.cursor < |s.lines| ==>
              t.outcome == Continue && t.state == s.(lines := RemoveAt(s.lines, s.cursor), cursor := s.cursor - 1)
    ensures 0 < s.cursor && s.cursor >= |s.lines| ==> t == Transition(s, Panic(IndexOutOfBounds))
  {
    if s.cursor == 0 then Transition(s, Report(EmptyBuffer))
    else if s.cursor < |s.lines| then Transition(s.(lines := RemoveAt(s.lines, s.cursor), cursor := s.cursor - 1), Continue)
    else Transition(s, Panic(IndexOutOfBounds))
  }

  /**
   * `o path`: replace the lines with those read from `path`. The session's
   * file, the buffer name and the cursor stay as they were: the `File::Open`
   * built here is used for this one read only.
   */
  function OpenFileAt(s: State, path: string, disk: Disk): (t: Transition)
    ensures t.state.bufferName == s.bufferName && t.state.cursor == s.cursor && t.state.source == s.source
    ensures t.outcome == Loaded(path in disk && disk[path].Readable?)
    ensures t.outcome == Loaded(true) ==> t.state.lines == Lines(disk[path].text)
    ensures t.outcome == Loaded(false) ==> t.state.lines == []
  {
    var read := DiskRead(Open(path), disk);
    Transition(s.(lines := read.lines), Loaded(read.ok))
  }

  /** `C`: empty the buffer and its name; the cursor is left where it was. */
  function ClearBuffer(s: State): (t: Transition)
    ensures t.outcome == Continue && t.state.lines == [] && t.state.bufferName == []
    ensures t.state.cursor == s.cursor && t.state.source == s.source
  {
    Transition(s.(lines := [], bufferName := []), Continue)
  }

  /** One iteration of the loop in `run`. */
  function Step(s: State, input: string, world: World, p: Profile): (t: Transition)
    ensures t.state.source == s.source
    ensures !(t.outcome.Continue? || t.outcome.Loaded?) ==> t.state == s
    ensures input == [] ==> t == Transition(s, Stop)
    ensures input != [] && input[0] == 'q' ==> t == Transition(s, Stop)
    ensures input != [] && input[0] !in Prefixes ==> t == Transition(s, Report(UnknownPrefix))
  {
    match Classify(input)
    case EndOfInput => Transition(s, Stop)
    case Append(text) => AddLine(s, text, p)
    case Quit => Transition(s, Stop)
    case Rename(name) => SetName(s, name)
    case Write => WriteOut(s, world.disk)
    case Print => Transition(s, Listed(Numbering(s.lines)))
    case ShowLine => Transition(s, LineShown(s.cursor))
    case GoTo(arg) => GoToLine(s, arg, p)
    case Replace(text) => ReplaceLine(s, text)
    case RepeatLast => RepeatLastLine(s, p)
    case Search(needle) => SearchLines(s, needle)
    case InsertBelow(text) => InsertLineBelow(s, text, p)
    case Copy => CopyPrevious(s, world.clipboard)
    case DuplicatePrevious => DuplicatePreviousLine(s, p)
    case Paste => PasteLine(s, world.clipboard, p)
    case Forward => MoveForward(s, p)
    case Back => MoveBack(s)
    case Remove => RemoveLine(s)
    case OpenFile(path) => OpenFileAt(s, path, world.disk)
    case Clear => ClearBuffer(s)
    case Help => Transition(s, HelpShown)
    case Unknown(_) => Transition(s, Report(UnknownPrefix))
  }

  /**
   * The start of `run`: the buffer is named "test.txt", holds what the
   * session's file reads as (nothing for `New` or on a read error), and the
   * cursor is on its last line (`len.saturating_sub(1)`).
   */
  function Start(source: File, disk: Disk): (t: Transition)
    ensures t.state.source == source && t.state.bufferName == "test.txt"
    ensures t.state.lines == DiskRead(source, disk).lines && t.outcome == Loaded(DiskRead(source, disk).ok)
    ensures |t.state.lines| > 0 ==> t.state.cursor == |t.state.lines| - 1
    ensures |t.state.lines| == 0 ==> t.state.cursor == 0
  {
    var read := DiskRead(source, disk);
    Transition(State(read.lines, "test.txt", SaturatingSubUsize(|read.lines|, 1), source), Loaded(read.ok))
  }

  /** The state after a run of input lines and what each line reported. */
  datatype Trace = Trace(final: State, outcomes: seq<Outcome>)

  /** The loop of `run`: one step per input line, until 'q', end of input or a panic. */
  function Run(s: State, inputs: seq<string>, world: World, p: Profile): (tr: Trace)
    ensures tr.final.source == s.source
    ensures |tr.outcomes| <= |inputs|
    ensures forall k :: 0 <= k < |tr.outcomes| - 1 ==> !Ends(tr.outcomes[k])
    ensures |tr.outcomes| < |inputs| ==> |tr.outcomes| > 0 && Ends(tr.outcomes[|tr.outcomes| - 1])
    decreases |inputs|
  {
    if inputs == [] then Trace(s, [])
    else
      var t := Step(s, inputs[0], world, p);
      if Ends(t.outcome) then Trace(t.state, [t.outcome])
      else
        var rest := Run(t.state, inputs[1..], world, p);
        Trace(rest.final, [t.outcome] + rest.outcomes)
  }
}
