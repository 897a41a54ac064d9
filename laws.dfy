/**
 * Properties of whole sessions and of commands in sequence, stated over the
 * pure transitions of `Machine`.
 */
module Laws {
  import opened Usize
  import opened Decimal
  import opened Text
  import opened Buffer
  import opened Source
  import opened Commands
  import opened Machine

  /** The input lines "+t" for each text t, as typed one after the other. */
  function AddInputs(texts: seq<string>): (r: seq<string>)
    ensures |r| == |texts|
    ensures forall i :: 0 <= i < |texts| ==> r[i] == "+" + texts[i]
  {
    seq(|texts|, i requires 0 <= i < |texts| => "+" + texts[i])
  }

  function Continues(n: nat): (r: seq<Outcome>)
    ensures |r| == n && forall i :: 0 <= i < n ==> r[i] == Continue
  {
    seq(n, _ => Continue)
  }

  /** One '+' command at or past the last line of a non-empty buffer appends its text and moves one line down. */
  lemma AppendStep(s: State, text: string, world: World, p: Profile)
    requires |s.lines| > 0 && s.cursor >= |s.lines| - 1 && s.cursor < USIZE_MAX
    ensures Step(s, "+" + text, world, p) == Transition(s.(lines := s.lines + [text], cursor := s.cursor + 1), Continue)
  {
    assert Classify("+" + text) == Append(text);
    var t := AddLine(s, text, p);
    assert t.state == s.(lines := s.lines + [text], cursor := s.cursor + 1);
  }

  /** In a build without overflow checks, '+' on an empty buffer with the cursor at 0 gives the one-line buffer. */
  lemma AppendToEmpty(s: State, text: string, world: World)
    requires s.lines == [] && s.cursor == 0
    ensures Step(s, "+" + text, world, Wrapping) == Transition(s.(lines := [text], cursor := 1), Continue)
  {
    assert Classify("+" + text) == Append(text);
    var t := AddLine(s, text, Wrapping);
    assert t.state == s.(lines := [text], cursor := 1);
  }

  /**
   * With the cursor on (or past) the last line of a non-empty buffer, a run
   * of '+' commands appends the texts in order and leaves the cursor one
   * past the last line for each of them.
   */
  lemma {:induction false} AppendsAccumulate(s: State, texts: seq<string>, world: World, p: Profile)
    requires |s.lines| > 0 && s.cursor >= |s.lines| - 1 && s.cursor + |texts| <= USIZE_MAX
    ensures Run(s, AddInputs(texts), world, p)
            == Trace(s.(lines := s.lines + texts, cursor := s.cursor + |texts|), Continues(|texts|))
    decreases |texts|
  {
    var inputs := AddInputs(texts);
    var final := s.(lines := s.lines + texts, cursor := s.cursor + |texts|);
    if texts == [] {
      assert inputs == [];
      assert final == s by { assert s.lines + texts == s.lines; }
    } else {
      var next := s.(lines := s.lines + [texts[0]], cursor := s.cursor + 1);
      AppendStep(s, texts[0], world, p);
      assert inputs[1..] == AddInputs(texts[1..]);
      AppendsAccumulate(next, texts[1..], world, p);
      var rest := Run(next, inputs[1..], world, p);
      assert rest.final == final by {
        assert next.lines + texts[1..] == s.lines + texts;
      }
      assert [Continue] + rest.outcomes == Continues(|texts|);
    }
  }

  /**
   * A session started without a file, in a build without overflow checks:
   * typing '+' lines gives a buffer holding exactly those texts in order, with
   * the cursor equal to their count (one past the last line).
   */
  lemma FreshSessionAppends(texts: seq<string>, world: World)
    requires |texts| <= USIZE_MAX
    ensures var tr := Run(Start(New, world.disk).state, AddInputs(texts), world, Wrapping);
            tr.final.lines == texts && tr.final.cursor == |texts| && tr.outcomes == Continues(|texts|)
  {
    if texts == [] {
      assert AddInputs(texts) == [];
    } else {
      var s := Start(New, world.disk).state;
      var inputs := AddInputs(texts);
      var next := s.(lines := [texts[0]], cursor := 1);
      AppendToEmpty(s, texts[0], world);
      assert inputs[1..] == AddInputs(texts[1..]);
      AppendsAccumulate(next, texts[1..], world, Wrapping);
      assert [texts[0]] + texts[1..] == texts;
      assert [Continue] + Continues(|texts| - 1) == Continues(|texts|);
    }
  }

  /** A line starting with 'q' ends the session on the spot: nothing after it is read, nothing changes. */
  lemma QuitEndsRun(s: State, line: string, rest: seq<string>, world: World, p: Profile)
    requires line != [] && line[0] == 'q'
    ensures Run(s, [line] + rest, world, p) == Trace(s, [Stop])
  {
    assert ([line] + rest)[0] == line;
  }

  /** In a build with overflow checks, the first '+' of a session started without a file panics (`0 - 1`). */
  lemma FreshSessionAddPanics(text: string, rest: seq<string>, world: World)
    ensures Run(Start(New, world.disk).state, ["+" + text] + rest, world, Checked)
            == Trace(Start(New, world.disk).state, [Panic(Overflow)])
  {
    assert Classify("+" + text) == Append(text);
  }

  /**
   * In a build without overflow checks, the first '+' of a session started
   * without a file leaves the cursor one past the last line, so an `r` that
   * follows indexes out of range and panics.
   */
  lemma FreshSessionReplacePanics(text: string, other: string, world: World)
    ensures var t := Step(Start(New, world.disk).state, "+" + text, world, Wrapping);
            t.state.lines == [text] && t.state.cursor == 1
            && Step(t.state, "r" + other, world, Wrapping).outcome == Panic(IndexOutOfBounds)
  {
    assert Classify("+" + text) == Append(text);
    assert Classify("r" + other) == Replace(other);
  }

  /** `d` followed by `-` undoes the insertion exactly: same lines, same cursor. */
  lemma InsertBelowThenRemove(s: State, text: string, p: Profile)
    requires s.cursor < |s.lines| && s.cursor < USIZE_MAX
    ensures RemoveLine(InsertLineBelow(s, text, p).state) == Transition(s, Continue)
  {
    RemoveInsert(s.lines, s.cursor + 1, text);
  }

  /**
   * A `g` line read with its newline never moves the cursor: the argument
   * keeps the '\n', which `parse::<usize>` rejects.
   */
  lemma GoToTypedLineFails(s: State, input: string, world: World, p: Profile)
    requires |input| > 0 && input[0] == 'g' && input[|input| - 1] == '\n'
    ensures Step(s, input, world, p) == Transition(s, Report(InvalidNumber))
  {
  }

  /** `g` works on a last input line without newline: "g" plus any separator plus n moves to line n when it exists. */
  lemma GoToAtEndOfInput(s: State, sep: char, n: USize, world: World, p: Profile)
    requires n < |s.lines|
    ensures Step(s, ['g', sep] + Show(n), world, p) == Transition(s.(cursor := n), Continue)
  {
    var input := ['g', sep] + Show(n);
    assert Skip(input, 2) == Show(n);
    ParseShow(n);
  }

  /**
   * Writing newline-terminated lines from a session without a file creates
   * the file named by the buffer, and reading that file back gives the
   * lines without their terminators.
   */
  lemma WriteReloadRoundTrip(s: State, world: World, p: Profile)
    requires s.source == New && s.bufferName != "" && s.bufferName !in world.disk
    requires forall i :: 0 <= i < |s.lines| ==> Terminated(s.lines[i])
    requires |Concat(s.lines)| <= ISIZE_MAX
    ensures Step(s, "w\n", world, p) == Transition(s, WriteFile(Target(s.bufferName, CreateNew), Concat(s.lines)))
    ensures var written: Disk := world.disk[s.bufferName := Readable(Concat(s.lines))];
            Start(Open(s.bufferName), written).state.lines == Bodies(s.lines)
  {
    LinesOfConcat(s.lines);
  }

  /**
   * A session started on a path that does not exist begins with an empty
   * buffer, and `w` cannot write it: the session's file is `Open(path)`,
   * which opens without creating.
   */
  lemma MissingStartupFileCannotBeWritten(path: string, world: World, p: Profile)
    requires path != "" && path !in world.disk
    ensures var t := Start(Open(path), world.disk);
            t.state.lines == [] && t.outcome == Loaded(false)
            && Step(t.state, "w\n", world, p) == Transition(t.state, Report(OpenFailed))
  {
  }

  /** Searching ["abc", "xbx", "abc"] for "abc" lists lines 0 and 2, in that order. */
  lemma SearchExample(s: State, world: World, p: Profile)
    requires s.lines == ["abc", "xbx", "abc"]
    ensures Step(s, "Sabc", world, p) == Transition(s, Listed([Numbered(0, "abc"), Numbered(2, "abc")]))
  {
    assert Classify("Sabc") == Search("abc");
    MatchesExample(s.lines);
  }

  /** The same search typed as a line with its newline looks for "abc\n" and finds nothing. */
  lemma SearchTypedLineExample(s: State, world: World, p: Profile)
    requires s.lines == ["abc", "xbx", "abc"]
    ensures Step(s, "Sabc\n", world, p) == Transition(s, Report(NoLinesFound))
  {
    assert Classify("Sabc\n") == Search("abc\n");
    LongerNeverContained("abc", "abc\n");
    LongerNeverContained("xbx", "abc\n");
  }
}
