/**
 * Text as the editor loads, saves and searches it: Rust's `str::lines`
 * (used when a file is read), the concatenation the `w` command writes, and
 * `str::contains` (used by the `S` command).
 */
module Text {

  /** The index of the first '\n' in `s`, or `|s|` when there is none. */
  function NewlineAt(s: string): (k: nat)
    ensures k <= |s|
    ensures k < |s| ==> s[k] == '\n'
    ensures forall j :: 0 <= j < k ==> s[j] != '\n'
  {
    if s == [] || s[0] == '\n' then 0 else 1 + NewlineAt(s[1..])
  }

  /** Drops the '\r' of a "\r\n" terminator from a line whose '\n' is already gone. */
  function StripCr(line: string): string
  {
    if |line| > 0 && line[|line| - 1] == '\r' then line[..|line| - 1] else line
  }

  /**
   * `contents.lines()`: the text split at every '\n'. A line terminated by
   * "\r\n" loses both characters; a final piece without a terminator keeps
   * everything, including a '\r'; a trailing '\n' does not start an empty
   * final line.
   */
  function Lines(s: string): (r: seq<string>)
    ensures |r| <= |s|
    ensures forall i :: 0 <= i < |r| ==> '\n' !in r[i]
    decreases |s|
  {
    if s == [] then []
    else
      var k := NewlineAt(s);
      if k == |s| then [s] else [StripCr(s[..k])] + Lines(s[k + 1..])
  }

  /**
   * The file content `w` writes: every line's bytes in order, with nothing
   * added between them. So the first line starts the file, and the file has
   * a '\n' only where some line brought one.
   */
  function Concat(lines: seq<string>): (r: string)
    ensures |lines| > 0 ==> lines[0] <= r
    ensures '\n' !in r <==> forall i :: 0 <= i < |lines| ==> '\n' !in lines[i]
  {
    if lines == [] then [] else lines[0] + Concat(lines[1..])
  }

  /** A line as `read_line` delivers it: a body free of '\n' that does not end in '\r', then one '\n'. */
  predicate Terminated(line: string)
  {
    |line| > 0 && line[|line| - 1] == '\n' && '\n' !in line[..|line| - 1]
    && !(|line| >= 2 && line[|line| - 2] == '\r')
  }

  /** The lines with their terminating '\n' removed. */
  function Bodies(lines: seq<string>): (r: seq<string>)
    requires forall i :: 0 <= i < |lines| ==> Terminated(lines[i])
    ensures |r| == |lines|
    ensures forall i :: 0 <= i < |lines| ==> r[i] + "\n" == lines[i]
  {
    if lines == [] then []
    else
      assert Terminated(lines[0]);
      [lines[0][..|lines[0]| - 1]] + Bodies(lines[1..])
  }

  lemma NewlineAtTerminated(line: string, rest: string)
    requires Terminated(line)
    ensures NewlineAt(line + rest) == |line| - 1
  {
    var s := line + rest;
    assert s[|line| - 1] == '\n';
  }

  /**
   * Writing newline-terminated lines and reading the file back gives the
   * lines without their terminators.
   */
  lemma {:induction false} LinesOfConcat(lines: seq<string>)
    requires forall i :: 0 <= i < |lines| ==> Terminated(lines[i])
    ensures Lines(Concat(lines)) == Bodies(lines)
  {
    if lines != [] {
      var head, rest := lines[0], Concat(lines[1..]);
      var s := head + rest;
      NewlineAtTerminated(head, rest);
      assert s[..|head| - 1] == head[..|head| - 1];
      assert s[|head|..] == rest;
      LinesOfConcat(lines[1..]);
    }
  }

  /** Lines that do not end in '\n' run together: the three lines "a", "b", "c" read back as the single line "abc". */
  lemma UnterminatedLinesMerge()
    ensures Lines(Concat(["a", "b", "c"])) == ["abc"]
  {
    assert Concat(["a", "b", "c"]) == "abc" by {
      assert ["a", "b", "c"][1..] == ["b", "c"];
      assert ["b", "c"][1..] == ["c"];
    }
    assert NewlineAt("abc") == 3 by {
      assert "abc"[1..] == "bc";
      assert "bc"[1..] == "c";
      assert "c"[1..] == [];
    }
  }

  /** Every character of `s` except the '\n's, in order. */
  function WithoutNewlines(s: string): (r: string)
    ensures '\n' !in r
    ensures |r| <= |s|
  {
    if s == [] then [] else (if s[0] == '\n' then [] else [s[0]]) + WithoutNewlines(s[1..])
  }

  lemma WithoutNewlinesAppend(a: string, b: string)
    ensures WithoutNewlines(a + b) == WithoutNewlines(a) + WithoutNewlines(b)
  {
    if a != [] {
      assert (a + b)[0] == a[0];
      assert (a + b)[1..] == a[1..] + b;
      WithoutNewlinesAppend(a[1..], b);
    } else {
      assert a + b == b;
    }
  }

  lemma WithoutNewlinesFree(s: string)
    requires '\n' !in s
    ensures WithoutNewlines(s) == s
  {
  }

  lemma ConcatCons(x: string, ls: seq<string>)
    ensures Concat([x] + ls) == x + Concat(ls)
  {
    assert ([x] + ls)[1..] == ls;
  }

  /** Cutting out the '\n' at index `k`. */
  lemma SplitAt(s: string, k: nat)
    requires k < |s| && s[k] == '\n'
    ensures s == s[..k] + "\n" + s[k + 1..]
  {
    assert s[k..] == [s[k]] + s[k + 1..];
    assert s == s[..k] + s[k..];
  }

  /** Splitting at the first newline: the text before it, the newline, the text after it. */
  lemma SplitAtNewline(s: string, k: nat)
    requires k == NewlineAt(s) && k < |s|
    ensures s == s[..k] + "\n" + s[k + 1..]
    ensures '\n' !in s[..k]
  {
    SplitAt(s, k);
    var before := s[..k];
    assert forall j :: 0 <= j < |before| ==> before[j] != '\n';
  }

  lemma LinesAt(s: string, k: nat)
    requires k == NewlineAt(s) && k < |s|
    ensures Lines(s) == [StripCr(s[..k])] + Lines(s[k + 1..])
  {
  }

  /** The first '\n' after a newline-free prefix is the one that ends it. */
  lemma NewlineAtBreak(x: string, y: string)
    requires '\n' !in x
    ensures NewlineAt(x + "\n" + y) == |x|
  {
    var s := x + "\n" + y;
    assert s[|x|] == '\n';
    assert forall j :: 0 <= j < |x| ==> s[j] == x[j];
  }

  /** A line ended by a bare '\n' (no '\r' before it) loses the '\n', and reading goes on after it. */
  lemma LinesLf(body: string, rest: string)
    requires '\n' !in body && (body == [] || body[|body| - 1] != '\r')
    ensures Lines(body + "\n" + rest) == [body] + Lines(rest)
  {
    var s := body + "\n" + rest;
    NewlineAtBreak(body, rest);
    LinesAt(s, |body|);
    assert s[..|body|] == body && s[|body| + 1..] == rest;
  }

  /** A line ended by "\r\n" loses both characters, and reading goes on after them. */
  lemma LinesCrLf(body: string, rest: string)
    requires '\n' !in body
    ensures Lines(body + "\r\n" + rest) == [body] + Lines(rest)
  {
    var x := body + "\r";
    var s := body + "\r\n" + rest;
    assert s == x + "\n" + rest;
    assert '\n' !in x by { assert forall j :: 0 <= j < |x| ==> x[j] == if j < |body| then body[j] else '\r'; }
    NewlineAtBreak(x, rest);
    LinesAt(s, |x|);
    assert s[..|x|] == x && s[|x| + 1..] == rest;
    assert x[..|x| - 1] == body;
  }

  /** A final piece without '\n' is one line, kept whole, a trailing '\r' included. */
  lemma LinesLast(body: string)
    requires body != [] && '\n' !in body
    ensures Lines(body) == [body]
  {
    assert forall j :: 0 <= j < |body| ==> body[j] != '\n';
  }

  lemma NotInSlice(s: string, c: char, i: nat, j: nat)
    requires c !in s && i <= j <= |s|
    ensures c !in s[i..j]
  {
  }

  /** Text with no line break reads as one line, which is written back unchanged. */
  lemma ConcatOfSingleLine(s: string)
    requires s != [] && '\r' !in s && NewlineAt(s) == |s|
    ensures Concat(Lines(s)) == WithoutNewlines(s)
  {
    assert '\n' !in s by {
      assert forall j :: 0 <= j < |s| ==> s[j] != '\n';
    }
    assert Lines(s) == [s];
    WithoutNewlinesFree(s);
    ConcatCons(s, []);
  }

  /** Removing the newlines around one line break that follows a newline-free body. */
  lemma WithoutNewlinesAround(before: string, after: string)
    requires '\n' !in before
    ensures WithoutNewlines(before + "\n" + after) == before + WithoutNewlines(after)
  {
    var line := before + "\n";
    assert WithoutNewlines(line) == before by {
      WithoutNewlinesAppend(before, "\n");
      WithoutNewlinesFree(before);
      assert WithoutNewlines("\n") == [] by { assert "\n"[1..] == []; }
    }
    WithoutNewlinesAppend(line, after);
  }

  /** The first line's body followed by the rest: the step of `ConcatOfLines`. */
  lemma ConcatOfLinesStep(s: string, k: nat)
    requires '\r' !in s && k == NewlineAt(s) && k < |s|
    requires Concat(Lines(s[k + 1..])) == WithoutNewlines(s[k + 1..])
    ensures Concat(Lines(s)) == WithoutNewlines(s)
  {
    var before, after := s[..k], s[k + 1..];
    SplitAtNewline(s, k);
    NotInSlice(s, '\r', 0, k);
    assert |before| > 0 ==> before[|before| - 1] in before;
    assert StripCr(before) == before;
    LinesAt(s, k);
    ConcatCons(before, Lines(after));
    WithoutNewlinesAround(before, after);
  }

  /**
   * Loading a file and writing it straight back loses every line break: for
   * text without '\r', the bytes written are the original bytes with all
   * '\n' removed.
   */
  lemma {:induction false} ConcatOfLines(s: string)
    requires '\r' !in s
    ensures Concat(Lines(s)) == WithoutNewlines(s)
    decreases |s|
  {
    if s != [] {
      var k := NewlineAt(s);
      if k == |s| {
        ConcatOfSingleLine(s);
      } else {
        NotInSlice(s, '\r', k + 1, |s|);
        ConcatOfLines(s[k + 1..]);
        ConcatOfLinesStep(s, k);
      }
    }
  }

  /** `needle` occurs in `hay` starting at index `i`. */
  predicate OccursAt(hay: string, needle: string, i: int)
  {
    0 <= i && i + |needle| <= |hay| && hay[i..i + |needle|] == needle
  }

  /** `hay.contains(needle)`, as the `S` command tests each line; the empty needle occurs in every line. */
  function Contains(hay: string, needle: string): (r: bool)
    ensures needle == [] ==> r
    ensures r ==> |needle| <= |hay|
    decreases |hay|
  {
    needle <= hay || (hay != [] && Contains(hay[1..], needle))
  }

  /** `Contains` holds exactly when the needle occurs at some position. */
  lemma {:induction false} ContainsIff(hay: string, needle: string)
    ensures Contains(hay, needle) <==> exists i :: OccursAt(hay, needle, i)
    decreases |hay|
  {
    if needle <= hay {
      assert hay[0..|needle|] == needle;
      assert OccursAt(hay, needle, 0);
    } else if hay == [] {
    } else {
      var tail := hay[1..];
      ContainsIff(tail, needle);
      assert Contains(hay, needle) == Contains(tail, needle);
      if Contains(tail, needle) {
        var i :| OccursAt(tail, needle, i);
        assert tail[i..i + |needle|] == hay[i + 1..i + 1 + |needle|];
        assert OccursAt(hay, needle, i + 1);
      }
      if i :| OccursAt(hay, needle, i) {
        assert i != 0 by { assert hay[..|needle|] == hay[0..|needle|]; }
        assert tail[i - 1..i - 1 + |needle|] == hay[i..i + |needle|];
        assert OccursAt(tail, needle, i - 1);
      }
    }
  }

  /** A needle longer than the line never occurs in it. */
  lemma {:induction false} LongerNeverContained(hay: string, needle: string)
    requires |needle| > |hay|
    ensures !Contains(hay, needle)
    decreases |hay|
  {
    if hay != [] {
      LongerNeverContained(hay[1..], needle);
    }
  }
}
