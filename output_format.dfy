/**
 * The two line formatters the server applies to a finished command's output:
 * `_format_command_output` tags each line of standard output by keyword, and
 * `_format_error_output` marks every non-blank line of standard error.
 *
 * Both first strip the whole text and split it on '\n' (`OutputLines`), then
 * build a list of formatted lines in a loop and join it with '\n'.
 */
module OutputFormat {
  import opened PyText

  /** The severity a line of standard output is tagged with. */
  datatype Tag = Success | Warning | Error | Plain

  /** Case-insensitive substring test, as `word in line.lower()`. */
  predicate Mentions(line: string, word: string) {
    Contains(Lower(line), word)
  }

  predicate MentionsSuccess(line: string) {
    Mentions(line, "success") || Mentions(line, "passed") || Mentions(line, "complete")
  }

  /** The first keyword group that matches decides the tag. */
  function Classify(line: string): Tag {
    if MentionsSuccess(line) then Success
    else if Mentions(line, "warning") then Warning
    else if Mentions(line, "error") then Error
    else Plain
  }

  function Icon(t: Tag): string {
    match t
    case Success => "✅ "
    case Warning => "🟡 "
    case Error => "🔴 "
    case Plain => ""
  }

  /** One line of `_format_command_output`'s result. */
  function FormatLine(line: string): string {
    Icon(Classify(line)) + line
  }

  /** `output.strip().split('\n')`. */
  function OutputLines(output: string): (lines: seq<string>)
    ensures |lines| >= 1
    ensures forall i :: 0 <= i < |lines| ==> '\n' !in lines[i]
  {
    Split(Strip(output), '\n')
  }

  /** Every line formatted, in the same order. */
  function FormatAll(lines: seq<string>): (r: seq<string>)
    ensures |r| == |lines|
    ensures forall i :: 0 <= i < |lines| ==> r[i] == FormatLine(lines[i])
  {
    if lines == [] then [] else [FormatLine(lines[0])] + FormatAll(lines[1..])
  }

  /** What `_format_command_output(output)` returns. */
  function ClassifiedText(output: string): string {
    Join("\n", FormatAll(OutputLines(output)))
  }

  /** `_format_command_output`: tag each line of the stripped output and join them again. */
  method FormatCommandOutput(output: string) returns (text: string)
    ensures text == ClassifiedText(output)
  {
    var split := OutputLines(output);
    var formatted: seq<string> := [];
    var i := 0;
    while i < |split|
      invariant 0 <= i <= |split|
      invariant |formatted| == i
      invariant forall k :: 0 <= k < i ==> formatted[k] == FormatLine(split[k])
    {
      var line := split[i];
      if MentionsSuccess(line) {
        formatted := formatted + ["✅ " + line];
      } else if Mentions(line, "warning") {
        formatted := formatted + ["🟡 " + line];
      } else if Mentions(line, "error") {
        formatted := formatted + ["🔴 " + line];
      } else {
        formatted := formatted + [line];
      }
      i := i + 1;
    }
    assert formatted == FormatAll(split);
    text := Join("\n", formatted);
  }

  // ---------------------------------------------------------------- properties of the classifier

  /**
   * Each formatted line is the original line, unchanged, behind exactly one of
   * the three icons or behind none; the icon is chosen by substring occurrence
   * in the lower-cased line, success words first, then "warning", then "error".
   */
  lemma FormatLineCases(line: string)
    ensures var low := Lower(line);
      var s := (exists i :: OccursAt(low, "success", i)) || (exists i :: OccursAt(low, "passed", i))
               || (exists i :: OccursAt(low, "complete", i));
      var w := exists i :: OccursAt(low, "warning", i);
      var e := exists i :: OccursAt(low, "error", i);
      && (FormatLine(line) == "✅ " + line <==> s)
      && (FormatLine(line) == "🟡 " + line <==> !s && w)
      && (FormatLine(line) == "🔴 " + line <==> !s && !w && e)
      && (FormatLine(line) == line <==> !s && !w && !e)
  {
    IconsDiffer(line);
  }

  lemma IconsDiffer(line: string)
    ensures "✅ " + line != "🟡 " + line && "✅ " + line != "🔴 " + line && "🟡 " + line != "🔴 " + line
    ensures "✅ " + line != line && "🟡 " + line != line && "🔴 " + line != line
  {
    assert ("✅ " + line)[0] == '✅' && ("🟡 " + line)[0] == '🟡' && ("🔴 " + line)[0] == '🔴';
    assert |"✅ " + line| != |line|;
  }

  /** Matching ignores case: lines that agree once lower-cased get the same tag. */
  lemma ClassifyIgnoresCase(a: string, b: string)
    requires Lower(a) == Lower(b)
    ensures Classify(a) == Classify(b)
  {
  }

  /** A line that mentions both "error" and a success word is tagged as a success. */
  lemma SuccessBeatsError(line: string)
    requires Mentions(line, "error") && MentionsSuccess(line)
    ensures Classify(line) == Success && FormatLine(line) == "✅ " + line
  {
  }

  /** A whitespace-only line, in particular an empty one, passes through unprefixed. */
  lemma BlankLinePassesThrough(line: string)
    requires AllSpace(line)
    ensures FormatLine(line) == line
  {
    NoWordInBlank(line, "success");
    NoWordInBlank(line, "passed");
    NoWordInBlank(line, "complete");
    NoWordInBlank(line, "warning");
    NoWordInBlank(line, "error");
  }

  /**
   * Classification depends only on the keywords in the text: classifying a
   * rendered line again, icon included, gives the tag the line first had.
   */
  lemma ReclassifyRendered(line: string)
    ensures Classify(FormatLine(line)) == Classify(line)
  {
    var p := Icon(Classify(line));
    LowerAppend(p, line);
    assert Lower(p) == p;
    ContainsAfterForeignPrefix(p, Lower(line), "success");
    ContainsAfterForeignPrefix(p, Lower(line), "passed");
    ContainsAfterForeignPrefix(p, Lower(line), "complete");
    ContainsAfterForeignPrefix(p, Lower(line), "warning");
    ContainsAfterForeignPrefix(p, Lower(line), "error");
  }

  /**
   * The classified text has exactly one line per line of the stripped input,
   * in the same order, each being that input line formatted.
   */
  lemma ClassifiedTextLines(output: string)
    ensures var lines := OutputLines(output);
      var out := Split(ClassifiedText(output), '\n');
      |out| == |lines| && forall i :: 0 <= i < |lines| ==> out[i] == FormatLine(lines[i])
  {
    var lines := OutputLines(output);
    var f := FormatAll(lines);
    forall i | 0 <= i < |f| ensures '\n' !in f[i] {
      assert f[i] == Icon(Classify(lines[i])) + lines[i];
      assert '\n' !in Icon(Classify(lines[i]));
    }
    SplitJoin(f, '\n');
  }

  // ---------------------------------------------------------------- the error-stream formatter

  /** The lines for which `line.strip()` is non-empty (`!AllSpace(line)`), each behind the
      fire icon, in their original order. */
  function Highlight(lines: seq<string>): seq<string> {
    if lines == [] then []
    else (if AllSpace(lines[0]) then [] else ["🔥 " + lines[0]]) + Highlight(lines[1..])
  }

  /** What `_format_error_output(output)` returns. */
  function HighlightedText(output: string): string {
    Join("\n", Highlight(OutputLines(output)))
  }

  /** `_format_error_output`: keep the non-blank lines of the stripped text, each behind the fire icon. */
  method FormatErrorOutput(output: string) returns (text: string)
    ensures text == HighlightedText(output)
  {
    var split := OutputLines(output);
    var formatted: seq<string> := [];
    var i := 0;
    while i < |split|
      invariant 0 <= i <= |split|
      invariant formatted == Highlight(split[..i])
    {
      var line := split[i];
      HighlightAppend(split[..i], [line]);
      assert split[..i + 1] == split[..i] + [line];
      StripEmptyIffAllSpace(line);
      if Strip(line) != "" {
        formatted := formatted + ["🔥 " + line];
      }
      i := i + 1;
    }
    assert split[..i] == split;
    text := Join("\n", formatted);
  }

  /** Highlighting works line by line, so it keeps the order of the lines. */
  lemma {:induction false} HighlightAppend(a: seq<string>, b: seq<string>)
    ensures Highlight(a + b) == Highlight(a) + Highlight(b)
    decreases |a|
  {
    if a == [] {
      assert a + b == b;
    } else {
      assert (a + b)[1..] == a[1..] + b;
      HighlightAppend(a[1..], b);
    }
  }

  /**
   * The highlighted lines are exactly the non-blank input lines behind the fire
   * icon: no more lines than the input, every output line comes from a non-blank
   * input line, and every non-blank input line appears.
   */
  lemma {:induction false} HighlightContents(lines: seq<string>)
    ensures |Highlight(lines)| <= |lines|
    ensures forall j :: 0 <= j < |Highlight(lines)| ==>
              exists i :: 0 <= i < |lines| && !AllSpace(lines[i]) && Highlight(lines)[j] == "🔥 " + lines[i]
    ensures forall i :: 0 <= i < |lines| && !AllSpace(lines[i]) ==> "🔥 " + lines[i] in Highlight(lines)
    decreases |lines|
  {
    if lines != [] {
      HighlightContents(lines[1..]);
      var head := if AllSpace(lines[0]) then [] else ["🔥 " + lines[0]];
      var h := Highlight(lines);
      var t := Highlight(lines[1..]);
      assert h == head + t;
      forall j | 0 <= j < |h|
        ensures exists i :: 0 <= i < |lines| && !AllSpace(lines[i]) && h[j] == "🔥 " + lines[i]
      {
        if j < |head| {
          assert h[j] == "🔥 " + lines[0];
        } else {
          var i :| 0 <= i < |lines[1..]| && !AllSpace(lines[1..][i]) && t[j - |head|] == "🔥 " + lines[1..][i];
          assert h[j] == "🔥 " + lines[i + 1];
        }
      }
      forall i | 0 <= i < |lines| && !AllSpace(lines[i]) ensures "🔥 " + lines[i] in h {
        if i > 0 {
          assert lines[i] == lines[1..][i - 1];
        }
      }
    }
  }

  /** No highlighted line is blank: each starts with the fire icon. */
  lemma HighlightNeverBlank(lines: seq<string>)
    ensures forall j :: 0 <= j < |Highlight(lines)| ==> !AllSpace(Highlight(lines)[j])
  {
    HighlightContents(lines);
    forall j | 0 <= j < |Highlight(lines)| ensures !AllSpace(Highlight(lines)[j]) {
      var i :| 0 <= i < |lines| && !AllSpace(lines[i]) && Highlight(lines)[j] == "🔥 " + lines[i];
      assert Highlight(lines)[j][0] == '🔥';
    }
  }

  /**
   * The highlighted text is empty when the error stream holds only blank lines;
   * otherwise its lines are exactly the highlighted lines.
   */
  lemma HighlightedTextLines(output: string)
    ensures var h := Highlight(OutputLines(output));
      (h == [] ==> HighlightedText(output) == "")
      && (h != [] ==> Split(HighlightedText(output), '\n') == h)
  {
    var lines := OutputLines(output);
    var h := Highlight(lines);
    if h != [] {
      HighlightContents(lines);
      forall j | 0 <= j < |h| ensures '\n' !in h[j] {
        var i :| 0 <= i < |lines| && !AllSpace(lines[i]) && h[j] == "🔥 " + lines[i];
      }
      SplitJoin(h, '\n');
    }
  }
}
