/**
 * The buffer of lines (`state.lines`, a `Vec<String>`): the in-place edits
 * the commands apply to it and the numbered listings the `p` and `S`
 * commands print.
 */
module Buffer {
  import opened Text

  /** One printed row: a line's index and its text. */
  datatype Numbered = Numbered(index: nat, text: string)

  /** `lines.insert(k, x)`: `x` lands at index `k` and the lines from `k` on move back by one. */
  function Insert(lines: seq<string>, k: nat, x: string): (r: seq<string>)
    requires k <= |lines|
    ensures |r| == |lines| + 1 && r[k] == x
    ensures forall i :: 0 <= i < k ==> r[i] == lines[i]
    ensures forall i :: k < i < |r| ==> r[i] == lines[i - 1]
  {
    lines[..k] + [x] + lines[k..]
  }

  /** `lines.remove(k)`: the line at `k` goes and the lines after it move forward by one. */
  function RemoveAt(lines: seq<string>, k: nat): (r: seq<string>)
    requires k < |lines|
    ensures |r| == |lines| - 1
    ensures forall i :: 0 <= i < k ==> r[i] == lines[i]
    ensures forall i :: k <= i < |r| ==> r[i] == lines[i + 1]
  {
    lines[..k] + lines[k + 1..]
  }

  /** Removing what was just inserted at the same index restores the buffer. */
  lemma RemoveInsert(lines: seq<string>, k: nat, x: string)
    requires k <= |lines|
    ensures RemoveAt(Insert(lines, k, x), k) == lines
  {
    var r := RemoveAt(Insert(lines, k, x), k);
    assert forall i :: 0 <= i < |lines| ==> r[i] == lines[i];
  }

  /** Every line with its index, in order (`lines.iter().enumerate()`). */
  function Numbering(lines: seq<string>): (r: seq<Numbered>)
    ensures |r| == |lines|
    ensures forall i :: 0 <= i < |r| ==> r[i] == Numbered(i, lines[i])
  {
    seq(|lines|, i requires 0 <= i < |lines| => Numbered(i, lines[i]))
  }

  /** Each row is a line of `lines` that contains `needle`, with its index. */
  ghost predicate RowsSound(lines: seq<string>, needle: string, rows: seq<Numbered>)
  {
    forall k :: 0 <= k < |rows| ==>
      rows[k].index < |lines| && rows[k].text == lines[rows[k].index] && Contains(rows[k].text, needle)
  }

  /** The rows are in strictly ascending order of index. */
  ghost predicate RowsAscending(rows: seq<Numbered>)
  {
    forall k, j :: 0 <= k < j < |rows| ==> rows[k].index < rows[j].index
  }

  /** Every line that contains `needle` has a row. */
  ghost predicate RowsComplete(lines: seq<string>, needle: string, rows: seq<Numbered>)
  {
    forall i :: 0 <= i < |lines| && Contains(lines[i], needle) ==> Numbered(i, lines[i]) in rows
  }

  /** What the `S` command's listing must be: sound, ascending and complete. */
  ghost predicate ListsMatches(lines: seq<string>, needle: string, rows: seq<Numbered>)
  {
    RowsSound(lines, needle, rows) && RowsAscending(rows) && RowsComplete(lines, needle, rows)
  }

  /** The rows the `S` loop prints, built one line at a time. */
  function MatchesOf(lines: seq<string>, needle: string): (r: seq<Numbered>)
    ensures |r| <= |lines|
    decreases |lines|
  {
    if lines == [] then []
    else
      var last := |lines| - 1;
      var before := MatchesOf(lines[..last], needle);
      if Contains(lines[last], needle) then before + [Numbered(last, lines[last])] else before
  }

  /** Every row is a matching line with its index, and the indices ascend. */
  lemma {:induction false} MatchesOfSound(lines: seq<string>, needle: string)
    ensures RowsSound(lines, needle, MatchesOf(lines, needle))
    ensures RowsAscending(MatchesOf(lines, needle))
    decreases |lines|
  {
    if lines != [] {
      var last := |lines| - 1;
      var before := MatchesOf(lines[..last], needle);
      MatchesOfSound(lines[..last], needle);
      if Contains(lines[last], needle) {
        var r := before + [Numbered(last, lines[last])];
        forall k | 0 <= k < |r|
          ensures r[k].index < |lines| && r[k].text == lines[r[k].index] && Contains(r[k].text, needle)
        {
          if k < |before| {
            assert r[k] == before[k];
            assert lines[..last][before[k].index] == lines[before[k].index];
          }
        }
        assert forall k :: 0 <= k < |before| ==> r[k] == before[k];
      } else {
        forall k | 0 <= k < |before|
          ensures before[k].text == lines[before[k].index]
        {
          assert lines[..last][before[k].index] == lines[before[k].index];
        }
      }
    }
  }

  /** Every matching line has its row. */
  lemma {:induction false} MatchesOfComplete(lines: seq<string>, needle: string)
    ensures RowsComplete(lines, needle, MatchesOf(lines, needle))
    decreases |lines|
  {
    if lines != [] {
      var last := |lines| - 1;
      MatchesOfComplete(lines[..last], needle);
      forall i | 0 <= i < |lines| && Contains(lines[i], needle)
        ensures Numbered(i, lines[i]) in MatchesOf(lines, needle)
      {
        if i < last {
          assert lines[..last][i] == lines[i];
        }
      }
    }
  }

  /** The loop's rows are the listing, and there are none exactly when no line matches. */
  lemma MatchesOfLists(lines: seq<string>, needle: string)
    ensures ListsMatches(lines, needle, MatchesOf(lines, needle))
    ensures MatchesOf(lines, needle) == [] <==> forall i :: 0 <= i < |lines| ==> !Contains(lines[i], needle)
  {
    MatchesOfSound(lines, needle);
    MatchesOfComplete(lines, needle);
  }

  /** Extending the searched prefix by one line adds that line's row, if it matches. */
  lemma MatchesOfPrefix(lines: seq<string>, i: nat, needle: string, before: seq<Numbered>)
    requires i < |lines| && MatchesOf(lines[..i], needle) == before
    ensures MatchesOf(lines[..i + 1], needle)
            == before + (if Contains(lines[i], needle) then [Numbered(i, lines[i])] else [])
  {
    assert lines[..i + 1][..i] == lines[..i];
  }

  lemma XbxLacksAbc()
    ensures !Contains("xbx", "abc")
  {
    ContainsIff("xbx", "abc");
    assert "xbx"[0..3] == "xbx" && "xbx"[0] != "abc"[0];
  }

  // The rows of the search below, one line at a time: each step is kept in
  // its own lemma, so that each proof reasons about a single prefix.

  lemma MatchesExampleOne(lines: seq<string>)
    requires lines == ["abc", "xbx", "abc"]
    ensures MatchesOf(lines[..1], "abc") == [Numbered(0, "abc")]
  {
    assert lines[..0] == [];
    assert Contains(lines[0], "abc");
    MatchesOfPrefix(lines, 0, "abc", []);
  }

  lemma MatchesExampleTwo(lines: seq<string>)
    requires lines == ["abc", "xbx", "abc"]
    ensures MatchesOf(lines[..2], "abc") == [Numbered(0, "abc")]
  {
    MatchesExampleOne(lines);
    XbxLacksAbc();
    MatchesOfPrefix(lines, 1, "abc", [Numbered(0, "abc")]);
  }

  lemma MatchesExample(lines: seq<string>)
    requires lines == ["abc", "xbx", "abc"]
    ensures MatchesOf(lines, "abc") == [Numbered(0, "abc"), Numbered(2, "abc")]
  {
    MatchesExampleTwo(lines);
    assert Contains(lines[2], "abc");
  }
}
