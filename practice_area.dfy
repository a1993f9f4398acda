/**
 * The practice area: its numbered output format, and the run, reset and
 * clear buttons with the state they leave behind (the run button, the
 * main console, the practice output box and the editor). The execution
 * request is a parameter given by its outcome.
 */
module PracticeArea {
  import opened Strings

  // ================================================================ formatPracticeOutput

  const NoOutput := "<div class=\"output-empty\">No output</div>"

  /** One output line with its number, counted from one. */
  function NumberedLine(index: nat, line: string): string {
    "<span class=\"line-number\">" + DecimalString(index + 1) + "</span> " + line + "\n"
  }

  /** The first `n` lines, numbered, in order. */
  function NumberedLines(lines: seq<string>, n: nat): string
    requires n <= |lines|
  {
    if n == 0 then [] else NumberedLines(lines, n - 1) + NumberedLine(n - 1, lines[n - 1])
  }

  /** `formatPracticeOutput`: the fixed remark for no output, else every piece between newlines, numbered. */
  method FormatPracticeOutput(output: string) returns (html: string)
    ensures output == [] ==> html == NoOutput
    ensures output != [] ==> var lines := Split(output, "\n");
      html == "<pre class=\"formatted-output\">" + NumberedLines(lines, |lines|) + "</pre>"
  {
    if output == [] {
      return NoOutput;
    }
    var lines := Split(output, "\n");
    var numbered := "";
    var index := 0;
    while index < |lines|
      invariant 0 <= index <= |lines|
      invariant numbered == NumberedLines(lines, index)
    {
      numbered := numbered + NumberedLine(index, lines[index]);
      index := index + 1;
    }
    html := "<pre class=\"formatted-output\">" + numbered + "</pre>";
  }

  /** The last piece of a split of text ending in the separator is empty. */
  lemma {:induction false} SplitLastEmpty(s: string, c: char)
    requires s != [] && s[|s| - 1] == c
    ensures var r := Split(s, [c]); |r| >= 2 && r[|r| - 1] == []
    decreases |s|
  {
    var r := Split(s, [c]);
    if |s| == 1 {
      assert StartsWith(s, [c]);
      assert s[1..] == [];
    } else {
      SplitLastEmpty(s[1..], c);
      assert s[1..][|s[1..]| - 1] == c;
      if !StartsWith(s, [c]) {
        var q := Split(s[1..], [c]);
        assert r == [[s[0]] + q[0]] + q[1..];
      }
    }
  }

  /**
   * Output ending in a newline gets one numbered line more than it has
   * newlines' worth of text: the last numbered line is empty.
   */
  lemma TrailingNewlineNumbersEmptyLine(output: string)
    requires output != [] && output[|output| - 1] == '\n'
    ensures var lines := Split(output, "\n");
      |lines| == CountChar(output, '\n') + 1 && |lines| >= 2 && lines[|lines| - 1] == []
  {
    SplitCount(output, '\n');
    SplitLastEmpty(output, '\n');
  }

  // ================================================================ the run, reset and clear buttons

  /** The JSON body of an execution request. */
  datatype RunResult = RunResult(success: bool, output: string, error: string)

  /** The request's outcome: failed (network or JSON), or answered. */
  datatype RunFetch = RunFailed(message: string) | RunAnswered(result: RunResult)

  const CorrectBanner := "<div class=\"success\">✓ Correct! Your solution works.</div>"
  const RunningLabel := "<div class=\"loading-indicator\"></div> Running..."
  const RunningNote := "<div class=\"loading-indicator\"></div> Running your code..."
  const OutputBelow := "<div class=\"success\">Output in console below ⬇️</div>"
  const ErrorBelow := "<div class=\"error-message\">Error in console below ⬇️</div>"
  const Starter := "# Write your solution here"

  /** When the "Correct!" banner shows: a successful run whose output mentions 8 and that reports no error. */
  predicate Correct(r: RunResult) {
    r.success && Contains(r.output, "8") && r.error == []
  }

  /** The main console after a run. */
  function ConsoleAfter(f: RunFetch): (html: string)
    ensures f.RunAnswered? && Correct(f.result) ==> html == f.result.output + CorrectBanner
    ensures f.RunAnswered? && f.result.success && !Correct(f.result) ==>
      html == if f.result.output != [] then f.result.output else NoOutput
    ensures f.RunAnswered? && !f.result.success ==>
      html == if f.result.error != [] then f.result.error else "An error occurred"
    ensures f.RunFailed? ==> html == "<div class=\"error-message\">Error: " + f.message + "</div>"
  {
    match f
    case RunFailed(message) => "<div class=\"error-message\">Error: " + message + "</div>"
    case RunAnswered(r) =>
      if r.success then
        if r.output != [] && Contains(r.output, "8") && r.error == [] then r.output + CorrectBanner
        else if r.output != [] then r.output else NoOutput
      else if r.error != [] then r.error else "An error occurred"
  }

  /** The banner needs output: a run that prints nothing is never graded correct. */
  lemma NoOutputNotCorrect(r: RunResult)
    requires r.output == []
    ensures !Correct(r)
  {
  }

  class Practice {
    /** `runBtn.disabled`. */
    var running: bool
    /** The run button's label. */
    var button: string
    /** The main console's content. */
    var console: string
    /** The practice output box. */
    var box: string
    /** The practice editor's text. */
    var editor: string

    constructor (code: string)
      ensures !running && button == "Run Code" && console == [] && box == [] && editor == code
    {
      running := false;
      button := "Run Code";
      console := [];
      box := [];
      editor := code;
    }

    /** A click on Run: the button is disabled and shows that the code runs. */
    method StartRun()
      modifies this
      ensures running && button == RunningLabel
      ensures box == RunningNote
      ensures console == old(console) && editor == old(editor)
    {
      running := true;
      button := RunningLabel;
      box := RunningNote;
    }

    /** The request settled: on either path the button is enabled and labelled Run Code again. */
    method FinishRun(f: RunFetch)
      modifies this
      ensures !running && button == "Run Code"
      ensures console == ConsoleAfter(f)
      ensures box == if f.RunAnswered? && f.result.success then OutputBelow else ErrorBelow
      ensures editor == old(editor)
    {
      match f {
        case RunAnswered(r) =>
          if r.success {
            if r.output != [] && Contains(r.output, "8") && r.error == [] {
              console := r.output + CorrectBanner;
            } else {
              console := if r.output != [] then r.output else NoOutput;
            }
            box := OutputBelow;
          } else {
            console := if r.error != [] then r.error else "An error occurred";
            box := ErrorBelow;
          }
          running := false;
          button := "Run Code";
        case RunFailed(message) =>
          running := false;
          button := "Run Code";
          console := "<div class=\"error-message\">Error: " + message + "</div>";
          box := ErrorBelow;
      }
    }

    /** A click on Reset: the editor holds the starter line; nothing else changes. */
    method Reset()
      modifies this
      ensures editor == Starter
      ensures running == old(running) && button == old(button) && console == old(console) && box == old(box)
    {
      editor := Starter;
    }

    /** A click on Clear: both output areas are emptied. */
    method ClearOutput()
      modifies this
      ensures box == [] && console == []
      ensures running == old(running) && button == old(button) && editor == old(editor)
    {
      box := [];
      console := [];
    }
  }
}
