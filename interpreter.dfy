/**
 * The editor session as the source runs it: `run` keeps `state.lines`,
 * `state.buffer_name`, `current_line` and the session's `file` in local
 * mutable state and changes them in place, one input line at a time. Each
 * method here is proved to have exactly the effect of the corresponding
 * transition of `Machine`, whose properties are stated there and in `Laws`.
 */
module Interpreter {
  import opened Wrappers
  import opened Usize
  import opened Text
  import opened Buffer
  import opened Source
  import opened Commands
  import Decimal
  import Machine

  class Editor {
    var lines: seq<string>
    var bufferName: string
    var cursor: USize
    /** The session's file: fixed at start-up, since `o` does not reassign it. */
    const source: File
    /** Whether this build panics or wraps on `usize` overflow. */
    const profile: Profile

    function Snapshot(): Machine.State
      reads this
    {
      Machine.State(lines, bufferName, cursor, source)
    }

    /** Start-up: read the session's file and put the cursor on the last line read. */
    constructor (source: File, disk: Disk, profile: Profile)
      ensures Snapshot() == Machine.Start(source, disk).state && this.profile == profile
    {
      var read := DiskRead(source, disk);
      this.source := source;
      this.profile := profile;
      lines := read.lines;
      bufferName := "test.txt";
      cursor := SaturatingSubUsize(|read.lines|, 1);
    }

    /** Advance the cursor after an insertion (`current_line += 1`). */
    method Advance() returns (out: Machine.Outcome)
      modifies this
      ensures out == Machine.Continue || out == Machine.Panic(Machine.Overflow)
      ensures out == Machine.Continue ==>
                lines == old(lines) && bufferName == old(bufferName) && Some(cursor) == AddUsize(profile, old(cursor), 1)
      ensures out != Machine.Continue ==> AddUsize(profile, old(cursor), 1).None? && Snapshot() == old(Snapshot())
    {
      var next := AddUsize(profile, cursor, 1);
      if next.None? {
        return Machine.Panic(Machine.Overflow);
      }
      cursor := next.value;
      out := Machine.Continue;
    }

    method AddLine(text: string) returns (out: Machine.Outcome)
      modifies this
      ensures Machine.Transition(Snapshot(), out) == Machine.AddLine(old(Snapshot()), text, profile)
    {
      var last := SubUsize(profile, |lines|, 1);
      if last.None? {
        return Machine.Panic(Machine.Overflow);
      }
      if cursor < last.value && cursor > |lines| {
        return Machine.Panic(Machine.IndexOutOfBounds);
      }
      if AddUsize(profile, cursor, 1).None? {
        return Machine.Panic(Machine.Overflow);
      }
      if cursor >= last.value {
        lines := lines + [text];
      } else {
        lines := lines[..cursor] + [text] + lines[cursor..];
      }
      out := Advance();
    }

    method GoToLine(arg: string) returns (out: Machine.Outcome)
      modifies this
      ensures Machine.Transition(Snapshot(), out) == Machine.GoToLine(old(Snapshot()), arg, profile)
    {
      var n := Decimal.ParseUsize(arg);
      if n.None? {
        return Machine.Report(Machine.InvalidNumber);
      }
      var last := SubUsize(profile, |lines|, 1);
      if last.None? {
        return Machine.Panic(Machine.Overflow);
      }
      if n.value > last.value {
        return Machine.Report(Machine.OutOfRange);
      }
      cursor := n.value;
      out := Machine.Continue;
    }

    method ReplaceLine(text: string) returns (out: Machine.Outcome)
      modifies this
      ensures Machine.Transition(Snapshot(), out) == Machine.ReplaceLine(old(Snapshot()), text)
    {
      if cursor >= |lines| {
        return Machine.Panic(Machine.IndexOutOfBounds);
      }
      lines := lines[cursor := text];
      out := Machine.Continue;
    }

    method RepeatLastLine() returns (out: Machine.Outcome)
      modifies this
      ensures Machine.Transition(Snapshot(), out) == Machine.RepeatLastLine(old(Snapshot()), profile)
    {
      var d := SubUsize(profile, cursor, 1);
      if d.None? {
        return Machine.Panic(Machine.Overflow);
      }
      var from := if d.value > 0 then WrappingSubUsize(cursor, 2) else 0;
      if from >= |lines| || cursor >= |lines| {
        return Machine.Panic(Machine.IndexOutOfBounds);
      }
      lines := lines[cursor := lines[from]];
      out := Machine.Continue;
    }

    /** The search loop of `S`: collect every line containing `needle`, and whether any did. */
    method Search(needle: string) returns (rows: seq<Numbered>, found: bool)
      ensures rows == MatchesOf(lines, needle)
      ensures found <==> rows != []
      ensures ListsMatches(lines, needle, rows)
    {
      rows, found := [], false;
      var i := 0;
      while i < |lines|
        invariant 0 <= i <= |lines|
        invariant rows == MatchesOf(lines[..i], needle)
        invariant found <==> rows != []
      {
        MatchesOfPrefix(lines, i, needle, rows);
        if Contains(lines[i], needle) {
          rows := rows + [Numbered(i, lines[i])];
          found := true;
        }
        i := i + 1;
      }
      assert lines[..i] == lines;
      MatchesOfLists(lines, needle);
    }

    method InsertLineBelow(text: string) returns (out: Machine.Outcome)
      modifies this
      ensures Machine.Transition(Snapshot(), out) == Machine.InsertLineBelow(old(Snapshot()), text, profile)
    {
      var k := AddUsize(profile, cursor, 1);
      if k.None? {
        return Machine.Panic(Machine.Overflow);
      }
      if k.value > |lines| {
        return Machine.Panic(Machine.IndexOutOfBounds);
      }
      lines := lines[..k.value] + [text] + lines[k.value..];
      cursor := k.value;
      out := Machine.Continue;
    }

    method DuplicatePreviousLine() returns (out: Machine.Outcome)
      modifies this
      ensures Machine.Transition(Snapshot(), out) == Machine.DuplicatePreviousLine(old(Snapshot()), profile)
    {
      var from := if cursor > 0 then cursor - 1 else 0;
      if from >= |lines| {
        return Machine.Panic(Machine.IndexOutOfBounds);
      }
      if AddUsize(profile, cursor, 1).None? {
        return Machine.Panic(Machine.Overflow);
      }
      lines := lines[..cursor] + [lines[from]] + lines[cursor..];
      out := Advance();
    }

    method PasteLine(clipboard: Option<string>) returns (out: Machine.Outcome)
      modifies this
      ensures Machine.Transition(Snapshot(), out) == Machine.PasteLine(old(Snapshot()), clipboard, profile)
    {
      if clipboard.None? {
        return Machine.Panic(Machine.ClipboardUnavailable);
      }
      if cursor > |lines| {
        return Machine.Panic(Machine.IndexOutOfBounds);
      }
      if AddUsize(profile, cursor, 1).None? {
        return Machine.Panic(Machine.Overflow);
      }
      lines := lines[..cursor] + [clipboard.value] + lines[cursor..];
      out := Advance();
    }

    method MoveForward() returns (out: Machine.Outcome)
      modifies this
      ensures Machine.Transition(Snapshot(), out) == Machine.MoveForward(old(Snapshot()), profile)
    {
      out := Advance();
    }

    method MoveBack() returns (out: Machine.Outcome)
      modifies this
      ensures Machine.Transition(Snapshot(), out) == Machine.MoveBack(old(Snapshot()))
    {
      if cursor > 0 {
        cursor := cursor - 1;
        out := Machine.Continue;
      } else {
        out := Machine.Report(Machine.EmptyBuffer);
      }
    }

    method RemoveLine() returns (out: Machine.Outcome)
      modifies this
      ensures Machine.Transition(Snapshot(), out) == Machine.RemoveLine(old(Snapshot()))
    {
      if cursor == 0 {
        return Machine.Report(Machine.EmptyBuffer);
      }
      if cursor >= |lines| {
        return Machine.Panic(Machine.IndexOutOfBounds);
      }
      lines := lines[..cursor] + lines[cursor + 1..];
      cursor := cursor - 1;
      out := Machine.Continue;
    }

    method OpenFileAt(path: string, disk: Disk) returns (out: Machine.Outcome)
      modifies this
      ensures Machine.Transition(Snapshot(), out) == Machine.OpenFileAt(old(Snapshot()), path, disk)
    {
      var read := DiskRead(Open(path), disk);
      lines := read.lines;
      out := Machine.Loaded(read.ok);
    }

    method ClearBuffer()
      modifies this
      ensures Snapshot() == Machine.ClearBuffer(old(Snapshot())).state
    {
      lines := [];
      bufferName := "";
    }

    method SetName(name: string) returns (out: Machine.Outcome)
      modifies this
      ensures Machine.Transition(Snapshot(), out) == Machine.SetName(old(Snapshot()), name)
    {
      bufferName := name;
      out := Machine.Continue;
    }

    /** `w`: open the session's file for writing and hand over the concatenated lines; the buffer is untouched. */
    method WriteOut(disk: Disk) returns (out: Machine.Outcome)
      ensures Machine.WriteOut(Snapshot(), disk) == Machine.Transition(Snapshot(), out)
    {
      var target := OpenForWrite(source, bufferName, disk);
      if target.None? {
        return Machine.Report(Machine.OpenFailed);
      }
      out := Machine.WriteFile(target.value, Concat(lines));
    }

    /** `S`: print the rows of the search loop, or report that there are none; the buffer is untouched. */
    method SearchLines(needle: string) returns (out: Machine.Outcome)
      ensures Machine.SearchLines(Snapshot(), needle) == Machine.Transition(Snapshot(), out)
    {
      var rows, found := Search(needle);
      out := if found then Machine.Listed(rows) else Machine.Report(Machine.NoLinesFound);
    }

    /** `c`: put the line above the cursor on the clipboard; the buffer is untouched. */
    method CopyPrevious(clipboard: Option<string>) returns (out: Machine.Outcome)
      ensures Machine.CopyPrevious(Snapshot(), clipboard) == Machine.Transition(Snapshot(), out)
    {
      var from := if cursor > 0 then cursor - 1 else 0;
      if from >= |lines| {
        return Machine.Panic(Machine.IndexOutOfBounds);
      }
      if clipboard.None? {
        return Machine.Panic(Machine.ClipboardUnavailable);
      }
      out := Machine.ClipboardSet(lines[from]);
    }

    /** One iteration of the loop: classify the line by its first character and run that command. */
    method Step(input: string, world: Machine.World) returns (out: Machine.Outcome)
      modifies this
      ensures Machine.Transition(Snapshot(), out) == Machine.Step(old(Snapshot()), input, world, profile)
    {
      ghost var s := Snapshot();
      match Classify(input)
      case EndOfInput => out := Machine.Stop;
      case Append(text) =>
        assert Machine.Step(s, input, world, profile) == Machine.AddLine(s, text, profile);
        out := AddLine(text);
      case Quit => out := Machine.Stop;
      case Rename(name) =>
        assert Machine.Step(s, input, world, profile) == Machine.SetName(s, name);
        out := SetName(name);
      case Write =>
        assert Machine.Step(s, input, world, profile) == Machine.WriteOut(s, world.disk);
        out := WriteOut(world.disk);
      case Print => out := Machine.Listed(Numbering(lines));
      case ShowLine => out := Machine.LineShown(cursor);
      case GoTo(arg) =>
        assert Machine.Step(s, input, world, profile) == Machine.GoToLine(s, arg, profile);
        out := GoToLine(arg);
      case Replace(text) =>
        assert Machine.Step(s, input, world, profile) == Machine.ReplaceLine(s, text);
        out := ReplaceLine(text);
      case RepeatLast =>
        assert Machine.Step(s, input, world, profile) == Machine.RepeatLastLine(s, profile);
        out := RepeatLastLine();
      case Search(needle) =>
        assert Machine.Step(s, input, world, profile) == Machine.SearchLines(s, needle);
        out := SearchLines(needle);
      case InsertBelow(text) =>
        assert Machine.Step(s, input, world, profile) == Machine.InsertLineBelow(s, text, profile);
        out := InsertLineBelow(text);
      case Copy =>
        assert Machine.Step(s, input, world, profile) == Machine.CopyPrevious(s, world.clipboard);
        out := CopyPrevious(world.clipboard);
      case DuplicatePrevious =>
        assert Machine.Step(s, input, world, profile) == Machine.DuplicatePreviousLine(s, profile);
        out := DuplicatePreviousLine();
      case Paste =>
        assert Machine.Step(s, input, world, profile) == Machine.PasteLine(s, world.clipboard, profile);
        out := PasteLine(world.clipboard);
      case Forward =>
        assert Machine.Step(s, input, world, profile) == Machine.MoveForward(s, profile);
        out := MoveForward();
      case Back =>
        assert Machine.Step(s, input, world, profile) == Machine.MoveBack(s);
        out := MoveBack();
      case Remove =>
        assert Machine.Step(s, input, world, profile) == Machine.RemoveLine(s);
        out := RemoveLine();
      case OpenFile(path) =>
        assert Machine.Step(s, input, world, profile) == Machine.OpenFileAt(s, path, world.disk);
        out := OpenFileAt(path, world.disk);
      case Clear =>
        assert Machine.Step(s, input, world, profile) == Machine.ClearBuffer(s);
        ClearBuffer();
        out := Machine.Continue;
      case Help => out := Machine.HelpShown;
      case Unknown(_) => out := Machine.Report(Machine.UnknownPrefix);
    }

    /** The loop of `run`: step through the input lines until 'q', end of input or a panic ends the session. */
    method Run(inputs: seq<string>, world: Machine.World) returns (outcomes: seq<Machine.Outcome>)
      modifies this
      ensures Machine.Run(old(Snapshot()), inputs, world, profile) == Machine.Trace(Snapshot(), outcomes)
    {
      outcomes := [];
      var i := 0;
      while i < |inputs|
        invariant 0 <= i <= |inputs|
        invariant var rest := Machine.Run(Snapshot(), inputs[i..], world, profile);
                  Machine.Run(old(Snapshot()), inputs, world, profile) == Machine.Trace(rest.final, outcomes + rest.outcomes)
      {
        assert inputs[i..][0] == inputs[i] && inputs[i..][1..] == inputs[i + 1..];
        var out := Step(inputs[i], world);
        outcomes := outcomes + [out];
        if Machine.Ends(out) {
          return;
        }
        i := i + 1;
      }
      assert inputs[i..] == [];
    }
  }
}
