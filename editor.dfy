/**
 * The plain-textarea code editor of the page script and of the editor
 * component: the Tab and Enter key handlers, which rewrite the text and move
 * the caret, the small `window.editor` facade over the textarea, and the
 * single-slot debounce timer that runs the real-world update after typing.
 */
module Editor {
  import opened Wrappers
  import opened Strings

  // ================================================================ the edits as text functions

  /** The text with `value[start..end]` replaced by `insertion`. */
  function Splice(value: string, start: nat, end: nat, insertion: string): (r: string)
    requires start <= end <= |value|
    ensures |r| == |value| - (end - start) + |insertion|
    ensures r[..start] == value[..start]
    ensures r[start..start + |insertion|] == insertion
    ensures r[start + |insertion|..] == value[end..]
  {
    var r := value[..start] + insertion + value[end..];
    assert r[..start] == value[..start];
    assert r[start..start + |insertion|] == insertion;
    assert r[start + |insertion|..] == value[end..];
    r
  }

  /**
   * The line the caret is on, up to the caret: from one past the last newline
   * at or before `start - 1` (JavaScript `lastIndexOf('\n', start - 1)`), up
   * to `start`, with `substring`'s swap of reversed bounds.
   */
  function CurrentLine(value: string, start: nat): string
    requires start <= |value|
  {
    JsSubstring(value, JsLastIndexOf(value, "\n", start - 1) + 1, start)
  }

  lemma NewlineAt(s: string, j: nat)
    ensures OccursAt(s, "\n", j) <==> j < |s| && s[j] == '\n'
  {
    if j < |s| && s[j] == '\n' {
      assert s[j..][..1] == "\n";
    }
  }

  /**
   * With the caret past the first character, the current line is the text
   * between the last newline before the caret (or the start) and the caret,
   * and it holds no newline.
   */
  lemma CurrentLineShape(value: string, start: nat)
    requires 0 < start <= |value|
    ensures |CurrentLine(value, start)| <= start
    ensures CurrentLine(value, start) == value[start - |CurrentLine(value, start)|..start]
    ensures '\n' !in CurrentLine(value, start)
    ensures |CurrentLine(value, start)| == start || value[start - |CurrentLine(value, start)| - 1] == '\n'
  {
    var r := JsLastIndexOf(value, "\n", start - 1);
    var line := CurrentLine(value, start);
    assert Clamp(start - 1, |value|) == start - 1;
    if r == -1 {
      assert line == value[0..start];
      forall i | 0 <= i < start ensures value[i] != '\n' {
        NewlineAt(value, i);
      }
    } else {
      NewlineAt(value, r);
      assert line == value[r + 1..start];
      forall i | r < i < start ensures value[i] != '\n' {
        NewlineAt(value, i);
      }
    }
  }

  /** `indent`: what `/^\s*` matches at the head of the current line. */
  function Indent(value: string, start: nat): (indent: string)
    requires start <= |value|
    ensures AllSpace(Js, indent)
    ensures |indent| <= |CurrentLine(value, start)| && indent == CurrentLine(value, start)[..|indent|]
  {
    LeadingSpace(Js, CurrentLine(value, start))
  }

  /** The current line, trimmed, ends with a colon: a block is being opened. */
  predicate OpensBlock(value: string, start: nat)
    requires start <= |value|
  {
    EndsWith(Trim(Js, CurrentLine(value, start)), ":")
  }

  /**
   * What Enter inserts in the page script's editor: a newline, the current
   * line's indentation, and four more spaces after a colon.
   */
  function EnterInsertion(value: string, start: nat): (ins: string)
    requires start <= |value|
    ensures ins == "\n" + Indent(value, start) + (if OpensBlock(value, start) then "    " else "")
  {
    var indent := Indent(value, start);
    if OpensBlock(value, start) then "\n" + indent + "    "
    else if |indent| > 0 then "\n" + indent
    else "\n"
  }

  /**
   * At the very start of a text that begins with a newline, `lastIndexOf`
   * with -1 finds that newline at 0, `substring(1, 0)` swaps into `"\n"`, and
   * that newline counts as indentation: Enter inserts two newlines.
   */
  lemma EnterAtStartBeforeNewline(value: string)
    requires value != [] && value[0] == '\n'
    ensures CurrentLine(value, 0) == "\n"
    ensures EnterInsertion(value, 0) == "\n\n"
  {
    NewlineAt(value, 0);
    assert JsLastIndexOf(value, "\n", -1) == 0;
    assert CurrentLine(value, 0) == value[0..1];
    assert IsJsSpace('\n');
    assert Indent(value, 0) == "\n";
    assert Trim(Js, "\n") == [];
  }

  /**
   * The editor component intercepts Enter only when a block opens or the line
   * is indented; otherwise the textarea's own newline stands.
   */
  function ComponentEnterInsertion(value: string, start: nat): Option<string>
    requires start <= |value|
  {
    var indent := Indent(value, start);
    if OpensBlock(value, start) then Some("\n" + indent + "    ")
    else if |indent| > 0 then Some("\n" + indent)
    else None
  }

  /**
   * The two Enter handlers agree: the component steps in exactly when the
   * page script would insert more than a bare newline, and then inserts the
   * same text.
   */
  lemma EnterHandlersAgree(value: string, start: nat)
    requires start <= |value|
    ensures ComponentEnterInsertion(value, start).Some? <==> EnterInsertion(value, start) != "\n"
    ensures ComponentEnterInsertion(value, start).Some? ==> ComponentEnterInsertion(value, start).value == EnterInsertion(value, start)
  {
    var indent := Indent(value, start);
    if OpensBlock(value, start) {
      assert |EnterInsertion(value, start)| == |indent| + 5;
    } else if |indent| > 0 {
      assert |EnterInsertion(value, start)| == |indent| + 1;
    }
  }

  /** Each piece of a split on one character is free of that character. */
  lemma {:induction false} SplitPiecesFree(s: string, c: char)
    ensures forall k | 0 <= k < |Split(s, [c])| :: c !in Split(s, [c])[k]
    decreases |s|
  {
    if StartsWith(s, [c]) {
      SplitPiecesFree(s[1..], c);
    } else if s != [] {
      SplitPiecesFree(s[1..], c);
      assert s[0] != c;
    }
  }

  // ================================================================ the textarea

  class TextArea {
    var value: string
    var selectionStart: nat
    var selectionEnd: nat

    /** The browser keeps the selection inside the text, start first. */
    predicate Valid()
      reads this
    {
      selectionStart <= selectionEnd <= |value|
    }

    constructor (initial: string)
      ensures value == initial && selectionStart == selectionEnd == |initial|
      ensures Valid()
    {
      value := initial;
      selectionStart, selectionEnd := |initial|, |initial|;
    }

    /** Tab: the selection is replaced by four spaces and the caret put after them (both editors). */
    method Tab()
      requires Valid()
      modifies this
      ensures Valid()
      ensures value == Splice(old(value), old(selectionStart), old(selectionEnd), "    ")
      ensures selectionStart == selectionEnd == old(selectionStart) + 4
    {
      var start, end := selectionStart, selectionEnd;
      value := JsSubstring(value, 0, start) + "    " + JsSubstring(value, end, |value|);
      selectionStart, selectionEnd := start + 4, start + 4;
    }

    /** `value = value.substring(0, start) + insertion + value.substring(start)`, and the caret after the insertion. */
    method InsertAtCaret(insertion: string)
      requires Valid()
      modifies this
      ensures Valid()
      ensures value == Splice(old(value), old(selectionStart), old(selectionStart), insertion)
      ensures selectionStart == selectionEnd == old(selectionStart) + |insertion|
    {
      var start := selectionStart;
      value := JsSubstring(value, 0, start) + insertion + JsSubstring(value, start, |value|);
      selectionStart, selectionEnd := start + |insertion|, start + |insertion|;
    }

    /**
     * Enter in the page script: the insertion goes in at the caret, the
     * selected text is not removed, and the caret lands after the insertion.
     */
    method Enter()
      requires Valid()
      modifies this
      ensures Valid()
      ensures value == Splice(old(value), old(selectionStart), old(selectionStart), EnterInsertion(old(value), old(selectionStart)))
      ensures selectionStart == selectionEnd == old(selectionStart) + |EnterInsertion(old(value), old(selectionStart))|
    {
      var currentLine := CurrentLine(value, selectionStart);
      var indent := LeadingSpace(Js, currentLine);
      var insertion: string;
      if EndsWith(Trim(Js, currentLine), ":") {
        insertion := "\n" + indent + "    ";
      } else if |indent| > 0 {
        insertion := "\n" + indent;
      } else {
        insertion := "\n";
      }
      InsertAtCaret(insertion);
    }

    /**
     * Enter in the editor component: it rewrites the text only when it
     * intercepts the key; otherwise nothing here changes.
     */
    method ComponentEnter() returns (handled: bool)
      requires Valid()
      modifies this
      ensures Valid()
      ensures handled <==> ComponentEnterInsertion(old(value), old(selectionStart)).Some?
      ensures handled ==> value == Splice(old(value), old(selectionStart), old(selectionStart),
                                          ComponentEnterInsertion(old(value), old(selectionStart)).value)
      ensures handled ==> selectionStart == selectionEnd == old(selectionStart) + |ComponentEnterInsertion(old(value), old(selectionStart)).value|
      ensures !handled ==> value == old(value) && selectionStart == old(selectionStart) && selectionEnd == old(selectionEnd)
    {
      var currentLine := CurrentLine(value, selectionStart);
      var indent := LeadingSpace(Js, currentLine);
      if EndsWith(Trim(Js, currentLine), ":") {
        InsertAtCaret("\n" + indent + "    ");
        handled := true;
      } else if |indent| > 0 {
        InsertAtCaret("\n" + indent);
        handled := true;
      } else {
        handled := false;
      }
    }

    /** `lineCount`: one more than the number of newlines. */
    function LineCount(): (n: nat)
      reads this
      ensures n == CountChar(value, '\n') + 1
    {
      SplitCount(value, '\n');
      |Split(value, "\n")|
    }

    /** `getLine`: the line at that index, or `''` outside the lines. */
    function GetLine(line: int): (r: string)
      reads this
      ensures '\n' !in r
      ensures (line < 0 || line >= CountChar(value, '\n') + 1) ==> r == []
      ensures 0 <= line < |Split(value, "\n")| ==> r == Split(value, "\n")[line]
    {
      SplitCount(value, '\n');
      SplitPiecesFree(value, '\n');
      var lines := Split(value, "\n");
      if 0 <= line < |lines| then lines[line] else []
    }

    /** `setCursor`: whatever position is asked for, the caret goes to the end. */
    method SetCursor()
      modifies this
      ensures value == old(value)
      ensures selectionStart == selectionEnd == |value|
      ensures Valid()
    {
      selectionStart, selectionEnd := |value|, |value|;
    }
  }

  // ================================================================ debounce

  /** The page script updates the real-world example for more than 30 characters, the component for more than 50. */
  const PageThreshold: nat := 30
  const ComponentThreshold: nat := 50

  /** The timer's callback acts only on non-empty code longer than the threshold. */
  predicate Triggers(code: string, threshold: nat) {
    code != [] && |code| > threshold
  }

  /**
   * One timer slot (`window.debounceTimer` or `window.codeChangeTimer`): each
   * input cancels the pending timer and schedules a new one, so at most one
   * is pending; `fired` lists the code each callback sent on.
   */
  class DebounceSlot {
    const threshold: nat
    var pending: bool
    var fired: seq<string>

    constructor (threshold: nat)
      ensures this.threshold == threshold && !pending && fired == []
    {
      this.threshold := threshold;
      pending := false;
      fired := [];
    }

    /** An input event: whatever was pending is replaced by one new timer. */
    method Input()
      modifies this
      ensures pending && fired == old(fired)
    {
      pending := true;
    }

    /** The pending timer fires with the editor's text at that moment. */
    method Fire(code: string)
      requires pending
      modifies this
      ensures !pending
      ensures fired == old(fired) + (if Triggers(code, threshold) then [code] else [])
    {
      pending := false;
      if code != [] && |code| > threshold {
        fired := fired + [code];
      }
    }
  }

  /** Code of 31 to 50 characters updates the page script's example but not the component's. */
  lemma ThresholdsDiffer(code: string)
    requires PageThreshold < |code| <= ComponentThreshold
    ensures Triggers(code, PageThreshold) && !Triggers(code, ComponentThreshold)
  {
  }
}
