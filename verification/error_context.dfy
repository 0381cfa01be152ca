/**
 * `extract_error_context`: split a build log into lines, find every line
 * containing an error marker, and return for each such line the
 * newline-joined window of up to three lines before and three lines after
 * it. Windows are clamped to the log and are never merged.
 */
module ErrorContext {
  import opened Text

  /** The marker Azure Pipelines writes in front of error lines. */
  const DefaultMarker: string := "##[error]"

  /** Lines of context kept on each side of a matching line. */
  const Window: nat := 3

  /** `log_text.split("\n")`. */
  function Lines(logText: string): seq<string>
  {
    Split(logText, '\n')
  }

  /** `max(0, i - window)`. */
  function WindowStart(i: nat): nat
  {
    if i >= Window then i - Window else 0
  }

  /** `min(len(lines), i + window + 1)`. */
  function WindowEnd(n: nat, i: nat): nat
  {
    if i + Window + 1 <= n then i + Window + 1 else n
  }

  /** Indices `>= from` of the lines containing `marker`, ascending: the
      list comprehension over `enumerate(lines)`. */
  function MatchesFrom(lines: seq<string>, marker: string, from: nat): (idx: seq<nat>)
    requires from <= |lines|
    ensures forall k :: 0 <= k < |idx| ==> from <= idx[k] < |lines| && Contains(lines[idx[k]], marker)
    ensures forall k, l :: 0 <= k < l < |idx| ==> idx[k] < idx[l]
    ensures forall i :: from <= i < |lines| && Contains(lines[i], marker) ==> i in idx
    decreases |lines| - from
  {
    if from == |lines| then []
    else
      var rest := MatchesFrom(lines, marker, from + 1);
      if Contains(lines[from], marker) then [from] + rest else rest
  }

  /** `error_indices`: every index whose line contains the marker. */
  function MatchIndices(lines: seq<string>, marker: string): seq<nat>
  {
    MatchesFrom(lines, marker, 0)
  }

  /** The snippet emitted for the match at line `i`. */
  function Snippet(lines: seq<string>, i: nat): string
    requires i < |lines|
  {
    Join(lines[WindowStart(i)..WindowEnd(|lines|, i)], "\n")
  }

  /** `extract_error_context(log_text, error_marker)`. */
  function ExtractErrorContext(logText: string, marker: string): (snippets: seq<string>)
    ensures |snippets| == |MatchIndices(Lines(logText), marker)|
  {
    var lines := Lines(logText);
    var idx := MatchIndices(lines, marker);
    seq(|idx|, k requires 0 <= k < |idx| => Snippet(lines, idx[k]))
  }

  /** Snippet `k` belongs to the `k`-th matching line `i`: splitting it on
      newlines gives back exactly lines `max(0, i-3)` up to (excluding)
      `min(len, i+4)` of the log, between one and seven lines that include
      line `i`. Snippets follow the order of their lines. */
  lemma SnippetIsWindow(logText: string, marker: string, k: nat)
    requires k < |ExtractErrorContext(logText, marker)|
    ensures var lines := Lines(logText);
      var idx := MatchIndices(lines, marker);
      var i := idx[k];
      var lo := if i < 3 then 0 else i - 3;
      var hi := if i + 4 > |lines| then |lines| else i + 4;
      && i < |lines| && Contains(lines[i], marker)
      && lo <= i < hi && 1 <= hi - lo <= 7
      && Split(ExtractErrorContext(logText, marker)[k], '\n') == lines[lo..hi]
      && (forall l :: k < l < |idx| ==> i < idx[l])
  {
    var lines := Lines(logText);
    var idx := MatchIndices(lines, marker);
    var i := idx[k];
    var window := lines[WindowStart(i)..WindowEnd(|lines|, i)];
    assert forall j :: 0 <= j < |window| ==> window[j] == lines[WindowStart(i) + j];
    SplitJoin(window, '\n');
  }

  /** The set of values a sequence of indices holds. */
  ghost function Elements(idx: seq<nat>): (e: set<int>)
    ensures forall x :: x in e <==> x in idx
    decreases |idx|
  {
    if |idx| == 0 then {} else {idx[0] as int} + Elements(idx[1..])
  }

  /** Distinct ascending indices form a set of the same size. */
  lemma {:induction false} AscendingCard(idx: seq<nat>)
    requires forall k, l :: 0 <= k < l < |idx| ==> idx[k] < idx[l]
    ensures |Elements(idx)| == |idx|
    decreases |idx|
  {
    if |idx| > 0 {
      var tail := idx[1..];
      forall k, l | 0 <= k < l < |tail| ensures tail[k] < tail[l] {
        assert tail[k] == idx[k + 1] && tail[l] == idx[l + 1];
      }
      AscendingCard(tail);
      assert idx[0] !in tail by {
        forall k | 0 <= k < |tail| ensures tail[k] != idx[0] {
          assert tail[k] == idx[k + 1];
        }
      }
      assert idx[0] !in Elements(tail);
    }
  }

  /** The indices of the lines that contain the marker. */
  ghost function MatchingLines(lines: seq<string>, marker: string): set<int>
  {
    set i | 0 <= i < |lines| && Contains(lines[i], marker)
  }

  /** One snippet per line containing the marker: the number of snippets
      is the number of matching lines. */
  lemma SnippetCountIsMatchCount(logText: string, marker: string)
    ensures |ExtractErrorContext(logText, marker)| == |MatchingLines(Lines(logText), marker)|
  {
    var lines := Lines(logText);
    var idx := MatchIndices(lines, marker);
    var matching := MatchingLines(lines, marker);
    var found := Elements(idx);
    assert matching == found;
    AscendingCard(idx);

  }

  /** No snippets exactly when no line contains the marker. */
  lemma NoMatchNoSnippets(logText: string, marker: string)
    ensures var lines := Lines(logText);
      var noneMatch := forall i :: 0 <= i < |lines| ==> !Contains(lines[i], marker);
      ExtractErrorContext(logText, marker) == [] <==> noneMatch
  {
    var lines := Lines(logText);
    var idx := MatchIndices(lines, marker);
    if idx != [] {
      assert Contains(lines[idx[0]], marker);
    }
  }

  /** The empty marker matches every line: one snippet per line, snippet
      `k` centred on line `k`. */
  lemma {:induction false} EmptyMarkerMatchesAll(lines: seq<string>, from: nat)
    requires from <= |lines|
    ensures |MatchesFrom(lines, "", from)| == |lines| - from
    ensures forall k :: 0 <= k < |lines| - from ==> MatchesFrom(lines, "", from)[k] == from + k
    decreases |lines| - from
  {
    if from < |lines| {
      EmptyIsEverywhere(lines[from]);
      EmptyMarkerMatchesAll(lines, from + 1);
    }
  }

  /** With the empty marker there is one snippet per line of the log, and
      snippet `k` belongs to line `k`. */
  lemma EmptyMarkerOneSnippetPerLine(logText: string)
    ensures |ExtractErrorContext(logText, "")| == |Lines(logText)|
    ensures forall k :: 0 <= k < |Lines(logText)| ==> MatchIndices(Lines(logText), "")[k] == k
  {
    EmptyMarkerMatchesAll(Lines(logText), 0);
  }

  /** The six lines of the example log below. */
  lemma ExampleLines(log: string)
    requires log == "a\nb\n##[error] c\nd\ne\nf"
    ensures Lines(log) == ["a", "b", "##[error] c", "d", "e", "f"]
  {
    var l4 := ["e", "f"];
    var l3 := ["d"] + l4;
    var l2 := ["##[error] c"] + l3;
    var l1 := ["b"] + l2;
    var lines := ["a"] + l1;
    JoinCons("d", l4, "\n");
    JoinCons("##[error] c", l3, "\n");
    JoinCons("b", l2, "\n");
    JoinCons("a", l1, "\n");
    assert Join(l4, "\n") == "e" + "\n" + "f";
    assert log == "a" + "\n" + ("b" + "\n" + ("##[error] c" + "\n" + ("d" + "\n" + ("e" + "\n" + "f"))));
    assert Join(lines, "\n") == log;
    assert lines == ["a", "b", "##[error] c", "d", "e", "f"];
    SplitJoin(lines, '\n');
  }

  /** A six-line log whose third line is an error: the window covers the
      whole log. */
  lemma ExampleWholeLog(log: string)
    requires log == "a\nb\n##[error] c\nd\ne\nf"
    ensures ExtractErrorContext(log, DefaultMarker) == [log]
  {
    var lines := ["a", "b", "##[error] c", "d", "e", "f"];
    ExampleLines(log);
    assert Contains(lines[2], DefaultMarker) by {
      assert lines[2][..|DefaultMarker|] == DefaultMarker;
    }
    assert forall i :: 0 <= i < 6 && i != 2 ==> |lines[i]| < |DefaultMarker|;
    var idx := MatchIndices(lines, DefaultMarker);
    assert idx == [2] by {
      assert 2 in idx;
      assert forall k :: 0 <= k < |idx| ==> idx[k] == 2;
    }
    assert lines[WindowStart(2)..WindowEnd(6, 2)] == lines;
    assert Snippet(lines, 2) == log by {
      JoinSplit(log, '\n');
    }
  }
}
