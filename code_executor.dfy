/**
 * The text processing of the code executor: escaping text for HTML, wrapping
 * program output, reading a Python error report (type, message, line), laying
 * out the error with the surrounding code lines, and finding the class name of
 * a Java program. Running the interpreters themselves is not modelled.
 */
module CodeExecutor {
  import opened Wrappers
  import opened Strings

  // ================================================================ html_escape

  /** The five characters `html_escape` replaces, in the order it replaces them. */
  const Specials: seq<char> := ['&', '<', '>', '"', '\'']

  /** The entity that replaces each of them. */
  const Entities: seq<string> := ["&amp;", "&lt;", "&gt;", "&quot;", "&#39;"]

  /** The position of `c` in `Specials`, or 5 when it is not special. */
  function SpecialIndex(c: char): (k: nat)
    ensures k <= 5
    ensures k < 5 ==> Specials[k] == c
    ensures k == 5 ==> c !in Specials
  {
    if c == '&' then 0 else if c == '<' then 1 else if c == '>' then 2
    else if c == '"' then 3 else if c == '\'' then 4 else 5
  }

  /** One character after the first `n` replacements of the chain. */
  function EscapeUpTo(n: nat, c: char): string
    requires n <= 5
  {
    var k := SpecialIndex(c);
    if k < n then Entities[k] else [c]
  }

  /** A whole text after the first `n` replacements of the chain: each character escaped on its own. */
  function EscapeAll(n: nat, s: string): string
    requires n <= 5
    decreases |s|
  {
    if s == [] then [] else EscapeUpTo(n, s[0]) + EscapeAll(n, s[1..])
  }

  /**
   * `html_escape`: five `replace` calls, `&` first. The result is the
   * character-by-character escape, which is what makes the order matter:
   * replacing `&` later would also rewrite the `&` of the entities already
   * inserted.
   */
  function HtmlEscape(text: string): (r: string)
    ensures r == EscapeAll(5, text)
  {
    EscapeAll0(text);
    EscapeStep(0, text);
    EscapeStep(1, text);
    EscapeStep(2, text);
    EscapeStep(3, text);
    EscapeStep(4, text);
    Replace(Replace(Replace(Replace(Replace(text, "&", "&amp;"), "<", "&lt;"), ">", "&gt;"), "\"", "&quot;"), "'", "&#39;")
  }

  /** The inverse of `HtmlEscape`: the entities are turned back in the reverse order, `&amp;` last. */
  function HtmlUnescape(text: string): string {
    Replace(Replace(Replace(Replace(Replace(text, "&#39;", "'"), "&quot;", "\""), "&gt;", ">"), "&lt;", "<"), "&amp;", "&")
  }

  lemma {:induction false} EscapeAll0(s: string)
    ensures EscapeAll(0, s) == s
    decreases |s|
  {
    if s != [] {
      EscapeAll0(s[1..]);
    }
  }

  lemma EntityFacts()
    ensures forall k | 0 <= k < 5 :: |Entities[k]| >= 4 && Entities[k][0] == '&'
    ensures forall k, p | 0 <= k < 5 && 1 <= p < |Entities[k]| :: Entities[k][p] !in Specials
    ensures forall k, m | 0 <= k < 5 && 0 <= m < 5 && k != m :: Entities[k][1] != Entities[m][1]
  {
  }

  lemma NoCharInPrefix(b: string, t: string, x: char)
    requires x !in b
    ensures forall p: nat | p < |b| :: !StartsWith((b + t)[p..], [x])
  {
    forall p: nat | p < |b| ensures !StartsWith((b + t)[p..], [x]) {
      assert (b + t)[p..][0] == b[p];
    }
  }

  /** The chain's step `n` turns the text after `n` steps into the text after `n + 1`. */
  lemma {:induction false} EscapeStep(n: nat, s: string)
    requires n < 5
    ensures Replace(EscapeAll(n, s), [Specials[n]], Entities[n]) == EscapeAll(n + 1, s)
    decreases |s|
  {
    if s != [] {
      var c := s[0];
      var blk := EscapeUpTo(n, c);
      var rest := EscapeAll(n, s[1..]);
      EscapeStep(n, s[1..]);
      if SpecialIndex(c) == n {
        assert blk == [Specials[n]];
        ReplaceAtStart(rest, [Specials[n]], Entities[n]);
      } else {
        EntityFacts();
        assert Specials[n] !in blk by {
          if SpecialIndex(c) < n {
            assert blk == Entities[SpecialIndex(c)];
          }
        }
        NoCharInPrefix(blk, rest, Specials[n]);
        ReplaceSkipsPrefix(blk, rest, [Specials[n]], Entities[n]);
      }
    }
  }

  lemma EntityNotInPrefix(b: string, t: string, m: nat)
    requires m < 5 && b != []
    requires b[0] != '&' || (|b| >= 2 && b[1] != Entities[m][1])
    requires forall p | 1 <= p < |b| :: b[p] != '&'
    ensures forall p: nat | p < |b| :: !StartsWith((b + t)[p..], Entities[m])
  {
    EntityFacts();
    forall p: nat | p < |b| ensures !StartsWith((b + t)[p..], Entities[m]) {
      assert (b + t)[p..][0] == b[p];
      if p == 0 && |b| >= 2 {
        assert (b + t)[p..][1] == b[1];
      }
    }
  }

  /** Undoing step `n` of the chain restores the text after `n - 1` steps. */
  lemma {:induction false} UnescapeStep(n: nat, s: string)
    requires 1 <= n <= 5
    ensures Replace(EscapeAll(n, s), Entities[n - 1], [Specials[n - 1]]) == EscapeAll(n - 1, s)
    decreases |s|
  {
    if s != [] {
      var c := s[0];
      var k := SpecialIndex(c);
      var blk := EscapeUpTo(n, c);
      var rest := EscapeAll(n, s[1..]);
      UnescapeStep(n, s[1..]);
      EntityFacts();
      if k == n - 1 {
        ReplaceAtStart(rest, Entities[n - 1], [Specials[n - 1]]);
      } else {
        assert blk == EscapeUpTo(n - 1, c);
        if k < n - 1 {
          assert blk == Entities[k];
        } else {
          assert blk == [c] && c != '&';
        }
        EntityNotInPrefix(blk, rest, n - 1);
        ReplaceSkipsPrefix(blk, rest, Entities[n - 1], [Specials[n - 1]]);
      }
    }
  }

  /** Escaping then unescaping gives back the text. */
  lemma HtmlRoundTrip(text: string)
    ensures HtmlUnescape(HtmlEscape(text)) == text
  {
    UnescapeStep(5, text);
    UnescapeStep(4, text);
    UnescapeStep(3, text);
    UnescapeStep(2, text);
    UnescapeStep(1, text);
    EscapeAll0(text);
  }

  /** The escaped text starts with one of the five entities. */
  predicate StartsEntity(t: string) {
    exists k | 0 <= k < 5 :: StartsWith(t, Entities[k])
  }

  /**
   * The escaped text holds none of `<`, `>`, `"`, `'`, and every `&` in it
   * starts one of the five entities.
   */
  lemma HtmlEscapeSafe(text: string)
    ensures forall i | 0 <= i < |HtmlEscape(text)| :: HtmlEscape(text)[i] !in Specials[1..]
    ensures forall i | 0 <= i < |HtmlEscape(text)| && HtmlEscape(text)[i] == '&' :: StartsEntity(HtmlEscape(text)[i..])
  {
    EscapedSafe(text);
  }

  lemma {:induction false} EscapedSafe(s: string)
    ensures forall i | 0 <= i < |EscapeAll(5, s)| :: EscapeAll(5, s)[i] !in Specials[1..]
    ensures forall i | 0 <= i < |EscapeAll(5, s)| && EscapeAll(5, s)[i] == '&' :: StartsEntity(EscapeAll(5, s)[i..])
    decreases |s|
  {
    var r := EscapeAll(5, s);
    if s != [] {
      var c := s[0];
      var blk := EscapeUpTo(5, c);
      var rest := EscapeAll(5, s[1..]);
      EscapedSafe(s[1..]);
      EntityFacts();
      assert Specials[1..] == ['<', '>', '"', '\''];
      assert r == blk + rest;
      forall i | 0 <= i < |r|
        ensures r[i] !in Specials[1..]
        ensures r[i] == '&' ==> StartsEntity(r[i..])
      {
        if i < |blk| {
          var k := SpecialIndex(c);
          if k < 5 {
            assert blk == Entities[k];
            if i == 0 {
              assert r[i..][..|blk|] == blk;
              assert StartsWith(r[i..], Entities[k]);
            } else {
              assert r[i] == Entities[k][i];
            }
          } else {
            assert r[i] == c;
          }
        } else {
          assert r[i] == rest[i - |blk|];
          assert r[i..] == rest[i - |blk|..];
        }
      }
    }
  }

  // ================================================================ format_output

  const NoOutputHtml := "<div class='output-empty'>No output</div>"

  function OutputLineHtml(line: string): string {
    "<div class='output-line'>" + line + "</div>"
  }

  /** One `output-line` div per line, in order. */
  function LineDivs(lines: seq<string>): (r: seq<string>)
    ensures |r| == |lines| && forall k | 0 <= k < |r| :: r[k] == OutputLineHtml(lines[k])
  {
    seq(|lines|, k requires 0 <= k < |lines| => OutputLineHtml(lines[k]))
  }

  /**
   * `format_output`: the stripped output, split at newlines, one `output-line`
   * div per line inside an `output-stdout` div; a blank last line is skipped,
   * and "No output" is shown when no line is left. Since the stripped text
   * never ends in a blank line, that happens exactly when the output is blank.
   */
  method FormatOutput(output: string) returns (html: string)
    ensures AllSpace(Py, output) ==> html == NoOutputHtml
    ensures !AllSpace(Py, output) ==>
      html == "<div class='output-stdout'>" + Concat(LineDivs(Split(Trim(Py, output), "\n"))) + "</div>"
  {
    var lines := Split(Trim(Py, output), "\n");
    FormatOutputCases(output, lines);
    var formatted := FormatLines(lines);
    if |formatted| == 0 {
      html := NoOutputHtml;
    } else {
      html := "<div class='output-stdout'>" + Concat(formatted) + "</div>";
    }
  }

  /** The loop of `format_output`: every line becomes a div, except a blank last line. */
  method FormatLines(lines: seq<string>) returns (formatted: seq<string>)
    requires lines != []
    ensures formatted == LineDivs(if AllSpace(Py, lines[|lines| - 1]) then lines[..|lines| - 1] else lines)
  {
    formatted := [];
    var i := 0;
    while i < |lines|
      invariant 0 <= i <= |lines|
      invariant formatted == LineDivs(lines[..i])
      invariant i == |lines| ==> Trim(Py, lines[|lines| - 1]) != []
    {
      if i == |lines| - 1 && Trim(Py, lines[i]) == [] {
        // a blank last line is skipped; nothing follows it
        break;
      }
      LineDivsSnoc(lines, i);
      formatted := formatted + [OutputLineHtml(lines[i])];
      i := i + 1;
    }
    TrimEmptyIff(Py, lines[|lines| - 1]);
    assert lines[..|lines|] == lines;
  }

  lemma LineDivsSnoc(lines: seq<string>, i: nat)
    requires i < |lines|
    ensures LineDivs(lines[..i + 1]) == LineDivs(lines[..i]) + [OutputLineHtml(lines[i])]
  {
    var a := LineDivs(lines[..i + 1]);
    var b := LineDivs(lines[..i]) + [OutputLineHtml(lines[i])];
    assert |a| == |b|;
    forall k | 0 <= k < |a| ensures a[k] == b[k] {
      assert lines[..i + 1][k] == lines[k];
      if k < i {
        assert lines[..i][k] == lines[k];
      }
    }
  }

  lemma FormatOutputCases(output: string, lines: seq<string>)
    requires lines == Split(Trim(Py, output), "\n")
    ensures AllSpace(Py, lines[|lines| - 1]) <==> AllSpace(Py, output)
    ensures AllSpace(Py, output) ==> |lines| == 1
  {
    LastLineNotBlank(output);
    if AllSpace(Py, output) {
      TrimEmptyIff(Py, output);
      assert Trim(Py, output) == [];
      assert Split([], "\n") == [[]];
    }
  }

  /** The last line of the stripped output is blank only when the output is blank. */
  lemma LastLineNotBlank(output: string)
    ensures var lines := Split(Trim(Py, output), "\n");
            AllSpace(Py, lines[|lines| - 1]) <==> AllSpace(Py, output)
  {
    var t := Trim(Py, output);
    var lines := Split(t, "\n");
    var last := lines[|lines| - 1];
    TrimEmptyIff(Py, output);
    if t == [] {
      assert lines == [[]];
    } else {
      SplitLast(t, "\n");
      assert !IsPySpace(t[|t| - 1]);
      if last != [] {
        assert last[|last| - 1] == t[|t| - 1];
      }
    }
  }

  lemma EndsWithPrefixed(a: string, b: string, x: string)
    requires EndsWith(b, x)
    ensures EndsWith(a + b, x)
  {
    assert (a + b)[|a + b| - |x|..] == b[|b| - |x|..];
  }

  /** The last piece of a split ends the text, and is empty only after a trailing separator. */
  lemma {:induction false} SplitLast(s: string, sep: string)
    requires sep != []
    ensures var r := Split(s, sep);
            EndsWith(s, r[|r| - 1]) && (r[|r| - 1] == [] ==> s == [] || EndsWith(s, sep))
    decreases |s|
  {
    if StartsWith(s, sep) {
      SplitLastSep(s, sep);
    } else if s != [] {
      SplitLastChar(s, sep);
    }
  }

  lemma SplitLastSep(s: string, sep: string)
    requires sep != [] && StartsWith(s, sep)
    ensures var r := Split(s, sep);
            EndsWith(s, r[|r| - 1]) && (r[|r| - 1] == [] ==> s == [] || EndsWith(s, sep))
    decreases |s|, 0
  {
    var t := s[|sep|..];
    SplitLast(t, sep);
    var r' := Split(t, sep);
    var x := r'[|r'| - 1];
    assert Split(s, sep) == [[]] + r';
    assert Split(s, sep)[|Split(s, sep)| - 1] == x;
    assert s == sep + t;
    EndsWithPrefixed(sep, t, x);
    if x == [] && t != [] {
      EndsWithPrefixed(sep, t, sep);
    }
    if x == [] && t == [] {
      assert s == sep;
      assert EndsWith(s, sep);
    }
  }

  lemma SplitLastChar(s: string, sep: string)
    requires sep != [] && !StartsWith(s, sep) && s != []
    ensures var r := Split(s, sep);
            EndsWith(s, r[|r| - 1]) && (r[|r| - 1] == [] ==> s == [] || EndsWith(s, sep))
    decreases |s|, 0
  {
    SplitLast(s[1..], sep);
    SplitOnePiece(s[1..], sep);
    SplitStep(s, sep);
    LastAfterStep(s, sep, Split(s[1..], sep), Split(s, sep));
  }

  /** A split into one piece is the text itself, and the empty text splits into one piece. */
  lemma SplitOnePiece(t: string, sep: string)
    requires sep != []
    ensures |Split(t, sep)| == 1 ==> Split(t, sep)[0] == t
    ensures t == [] ==> |Split(t, sep)| == 1
  {
    if |Split(t, sep)| == 1 {
      SplitSingle(t, sep);
    }
  }

  /** The last piece after one step of `Split` keeps the property when the first character is put back. */
  lemma LastAfterStep(s: string, sep: string, r': seq<string>, r: seq<string>)
    requires s != [] && |r'| >= 1
    requires EndsWith(s[1..], r'[|r'| - 1]) && (r'[|r'| - 1] == [] ==> s[1..] == [] || EndsWith(s[1..], sep))
    requires |r'| == 1 ==> r'[0] == s[1..]
    requires s[1..] == [] ==> |r'| == 1
    requires r == [[s[0]] + r'[0]] + r'[1..]
    ensures |r| >= 1
    ensures EndsWith(s, r[|r| - 1]) && (r[|r| - 1] == [] ==> s == [] || EndsWith(s, sep))
  {
    LastOfStep([s[0]], r');
    if |r'| == 1 {
      LastOfSingle(s);
    } else {
      LastOfMany(s, sep, r'[|r'| - 1]);
    }
  }

  /** Putting the first character back in front of the tail gives the whole text, which ends itself. */
  lemma LastOfSingle(s: string)
    requires s != []
    ensures [s[0]] + s[1..] == s && EndsWith(s, s)
  {
    assert [s[0]] + s[1..] == s;
    EndsWithSelf(s);
  }

  /** A last piece that ends the tail ends the text, and so does the separator before an empty one. */
  lemma LastOfMany(s: string, sep: string, x: string)
    requires s != [] && EndsWith(s[1..], x) && (x == [] ==> EndsWith(s[1..], sep))
    ensures EndsWith(s, x) && (x == [] ==> EndsWith(s, sep))
  {
    EndsWithPrefixed([s[0]], s[1..], x);
    if x == [] {
      EndsWithPrefixed([s[0]], s[1..], sep);
    }
    assert [s[0]] + s[1..] == s;
  }

  /** The last piece of `[a + r'[0]] + r'[1..]`. */
  lemma LastOfStep<T>(a: seq<T>, r': seq<seq<T>>)
    requires |r'| >= 1
    ensures |[a + r'[0]] + r'[1..]| == |r'|
    ensures ([a + r'[0]] + r'[1..])[|r'| - 1] == if |r'| == 1 then a + r'[0] else r'[|r'| - 1]
  {
  }

  /** One step of `Split` on a text that does not start with the separator. */
  lemma SplitStep(s: string, sep: string)
    requires sep != [] && !StartsWith(s, sep) && s != []
    ensures Split(s, sep) == [[s[0]] + Split(s[1..], sep)[0]] + Split(s[1..], sep)[1..]
  {
  }

  lemma EndsWithSelf(s: string)
    ensures EndsWith(s, s)
  {
    assert s[|s| - |s|..] == s;
  }

  /** A split into one piece leaves the text whole. */
  lemma SplitSingle(t: string, sep: string)
    requires sep != [] && |Split(t, sep)| == 1
    ensures Split(t, sep)[0] == t
  {
    JoinSplit(t, sep);
  }

  // ================================================================ parse_python_error

  /** The markers the instrumented program prints around a traceback. */
  const TracebackStart := "---- ERROR TRACEBACK ----"
  const TracebackEnd := "----- END TRACEBACK -----"

  /** What `parse_python_error` returns: error type, message, line and column. */
  datatype ParsedError = ParsedError(errorType: string, message: string, line: int, column: int)

  /**
   * A raw line number is reported relative to the user's code only when it lies
   * past the instrumentation lines; otherwise the line stays 0 ("unknown").
   */
  function AdjustLine(raw: int, offset: int): (line: int)
    ensures line >= 0
    ensures line > 0 <==> raw > offset
    ensures line > 0 ==> line + offset == raw
  {
    if raw > offset then raw - offset else 0
  }

  /** A traceback frame line, as the scan recognises one. */
  predicate IsFrameLine(line: string) {
    Contains(line, "File ") && Contains(line, ", line ")
  }

  /**
   * The number in a frame line: the text after the first ", line " up to the
   * next comma, stripped; `None` where `int()` raises.
   */
  function FrameLineNumber(line: string): Option<int>
    requires Contains(line, ", line ")
  {
    SplitContains(line, ", line ");
    ParseInt(Trim(Py, Split(Split(line, ", line ")[1], ",")[0]))
  }

  /** The number a line contributes to the scan: `None` for a non-frame line or an unparsable number. */
  function FrameNumberOf(line: string): Option<int> {
    if IsFrameLine(line) then FrameLineNumber(line) else None
  }

  /** The first present value. */
  function FirstSome(xs: seq<Option<int>>): Option<int>
    decreases |xs|
  {
    if xs == [] then None else if xs[0].Some? then xs[0] else FirstSome(xs[1..])
  }

  /** `FirstSome` is the value at the first present position, and `None` when there is none. */
  lemma {:induction false} FirstSomeSpec(xs: seq<Option<int>>)
    ensures FirstSome(xs).None? <==> forall i | 0 <= i < |xs| :: xs[i].None?
    ensures FirstSome(xs).Some? ==>
      exists i | 0 <= i < |xs| :: xs[i] == FirstSome(xs) && forall j | 0 <= j < i :: xs[j].None?
    decreases |xs|
  {
    if xs != [] && xs[0].None? {
      var t := xs[1..];
      FirstSomeSpec(t);
      if FirstSome(t).Some? {
        var i :| 0 <= i < |t| && t[i] == FirstSome(t) && forall j | 0 <= j < i :: t[j].None?;
        assert xs[i + 1] == t[i];
        forall j | 0 <= j < i + 1 ensures xs[j].None? {
          if j > 0 { assert xs[j] == t[j - 1]; }
        }
      } else {
        forall i | 0 <= i < |xs| ensures xs[i].None? {
          if i > 0 { assert xs[i] == t[i - 1]; }
        }
      }
    } else if xs != [] {
      assert xs[0] == FirstSome(xs);
    }
  }

  /** The numbers of all lines, in order. */
  function FrameNumbers(lines: seq<string>): (r: seq<Option<int>>)
    ensures |r| == |lines|
  {
    seq(|lines|, i requires 0 <= i < |lines| => FrameNumberOf(lines[i]))
  }

  /**
   * The `for` loop of the traceback branch: scan the section's lines, stop at
   * the first frame line whose number parses (a line that fails to parse is
   * passed over), and adjust that number by the offset.
   */
  method ScanFrames(lines: seq<string>, offset: int) returns (lineNum: int)
    ensures lineNum == match FirstSome(FrameNumbers(lines))
                       case None => 0
                       case Some(raw) => AdjustLine(raw, offset)
  {
    lineNum := 0;
    var i := 0;
    while i < |lines|
      invariant 0 <= i <= |lines|
      invariant FirstSome(FrameNumbers(lines)[i..]) == FirstSome(FrameNumbers(lines))
    {
      assert FrameNumbers(lines)[i..][1..] == FrameNumbers(lines)[i + 1..];
      var line := lines[i];
      if Contains(line, "File ") && Contains(line, ", line ") {
        var n := FrameLineNumber(line);
        if n.Some? {
          if n.value > offset {
            lineNum := n.value - offset;
          }
          return;
        }
      }
      i := i + 1;
    }
  }

  /** The error type and message read from the last line of a traceback section. */
  function TracebackHead(section: string, stderr: string): (string, string) {
    var lines := Split(Trim(Py, section), "\n");
    var last := lines[|lines| - 1];
    match Find(last, ":")
    case None => ("Error", stderr)
    case Some(k) => (Trim(Py, last[..k]), Trim(Py, last[k + 1..]))
  }

  /** The part of the error report between the two markers. */
  function TracebackSection(stderr: string): string
    requires Contains(stderr, TracebackStart)
  {
    SplitContains(stderr, TracebackStart);
    Split(Split(stderr, TracebackStart)[1], TracebackEnd)[0]
  }

  /** The line number of a report without markers: the first word after "line ", commas stripped. */
  function DirectLineNumber(stderr: string, offset: int): int {
    match Find(stderr, "line ")
    case None => 0
    case Some(p) =>
      var start := p + 5;
      var end := match FindFrom(stderr, "\n", start)
                 case None => |stderr|
                 case Some(e) => e;
      var words := Words(stderr[start..end]);
      if words == [] then 0
      else match ParseInt(RStripChar(words[0], ','))
           case None => 0
           case Some(raw) => AdjustLine(raw, offset)
  }

  /**
   * The error type and message of a report without markers, read from its
   * first line: the last word before the first colon, and the stripped rest.
   * `None` when the report has no colon, or when the text before the colon is
   * blank (the `IndexError` that the outer handler swallows, keeping the
   * defaults).
   */
  function DirectHead(stderr: string): Option<(string, string)> {
    if !Contains(stderr, ":") then None
    else
      var first := Split(Trim(Py, stderr), "\n")[0];
      var (head, msg) := match Find(first, ":")
                         case None => (first, "")
                         case Some(k) => (first[..k], Trim(Py, first[k + 1..]));
      var words := Words(Trim(Py, head));
      if words == [] then None else Some((words[|words| - 1], msg))
  }

  /**
   * `parse_python_error`. With the traceback markers, the type and message come
   * from the section's last line and the line from the first parseable frame
   * line; without them, the line comes from the first "line " and the type from
   * the first line of the report. Whatever cannot be read keeps its default:
   * type "Error", the whole report as message, line 0. The column is always 0.
   */
  method ParsePythonError(stderr: string, offset: int) returns (e: ParsedError)
    ensures e.column == 0 && e.line >= 0
    ensures Contains(stderr, TracebackStart) ==>
      var section := TracebackSection(stderr);
      (e.errorType, e.message) == TracebackHead(section, stderr)
      && e.line == match FirstSome(FrameNumbers(Split(section, "\n")))
                   case None => 0
                   case Some(raw) => AdjustLine(raw, offset)
    ensures !Contains(stderr, TracebackStart) ==>
      e.line == DirectLineNumber(stderr, offset)
      && (e.errorType, e.message) == match DirectHead(stderr)
                                     case None => ("Error", stderr)
                                     case Some(h) => h
    ensures !Contains(stderr, TracebackStart) && !Contains(stderr, "line ") && !Contains(stderr, ":") ==>
      e == ParsedError("Error", stderr, 0, 0)
  {
    if Contains(stderr, TracebackStart) {
      var section := TracebackSection(stderr);
      var (errorType, message) := TracebackHead(section, stderr);
      var lineNum := ScanFrames(Split(section, "\n"), offset);
      e := ParsedError(errorType, message, lineNum, 0);
    } else {
      var lineNum := DirectLineNumber(stderr, offset);
      var head := DirectHead(stderr);
      match head
      case None => e := ParsedError("Error", stderr, lineNum, 0);
      case Some(h) => e := ParsedError(h.0, h.1, lineNum, 0);
    }
  }

  /**
   * The traceback scan reports the adjusted number of the first frame line
   * whose number parses, or 0 when no frame line parses.
   */
  lemma TracebackLine(stderr: string, offset: int)
    requires Contains(stderr, TracebackStart)
    ensures var lines := Split(TracebackSection(stderr), "\n");
      var r := FirstSome(FrameNumbers(lines));
      && (r.None? <==> forall i | 0 <= i < |lines| :: !IsFrameLine(lines[i]) || FrameLineNumber(lines[i]).None?)
      && (r.Some? ==> exists i | 0 <= i < |lines| ::
            IsFrameLine(lines[i]) && FrameLineNumber(lines[i]) == r
            && forall j | 0 <= j < i :: !IsFrameLine(lines[j]) || FrameLineNumber(lines[j]).None?)
  {
    FrameScan(Split(TracebackSection(stderr), "\n"));
  }

  /** The frame scan over any lines: the first frame line whose number parses, or none. */
  lemma FrameScan(lines: seq<string>)
    ensures var r := FirstSome(FrameNumbers(lines));
      && (r.None? <==> forall i | 0 <= i < |lines| :: !IsFrameLine(lines[i]) || FrameLineNumber(lines[i]).None?)
      && (r.Some? ==> exists i | 0 <= i < |lines| ::
            IsFrameLine(lines[i]) && FrameLineNumber(lines[i]) == r
            && forall j | 0 <= j < i :: !IsFrameLine(lines[j]) || FrameLineNumber(lines[j]).None?)
  {
    var xs := FrameNumbers(lines);
    FirstSomeSpec(xs);
    assert forall i | 0 <= i < |lines| :: xs[i] == FrameNumberOf(lines[i]);
    if FirstSome(xs).Some? {
      var i :| 0 <= i < |xs| && xs[i] == FirstSome(xs) && forall j | 0 <= j < i :: xs[j].None?;
      assert IsFrameLine(lines[i]) && FrameLineNumber(lines[i]) == FirstSome(xs);
    }
  }

  // ================================================================ format_python_error

  /** One row of the code context: a numbered code line, or the caret under it. */
  datatype ContextRow = CodeRow(number: nat, isError: bool, text: string) | CaretRow(indent: nat)

  function Spaces(n: nat): (r: string)
    ensures |r| == n && forall i | 0 <= i < n :: r[i] == ' '
  {
    seq(n, _ => ' ')
  }

  function RenderRow(row: ContextRow): string {
    match row
    case CodeRow(n, isError, text) =>
      "<pre class='" + (if isError then "error-line" else "") + "'><span class='line-number'>"
      + RJust(DecimalString(n), 3) + "</span> " + HtmlEscape(text) + "</pre>"
    case CaretRow(k) =>
      "<pre class='error-indicator'><span class='line-number'>   </span> " + Spaces(k) + "^</pre>"
  }

  /** Each row rendered, in order. */
  function RenderedRows(rows: seq<ContextRow>): (r: seq<string>)
    ensures |r| == |rows|
  {
    seq(|rows|, k requires 0 <= k < |rows| => RenderRow(rows[k]))
  }

  function RenderRows(rows: seq<ContextRow>): string {
    Concat(RenderedRows(rows))
  }

  function Min(a: int, b: int): int { if a <= b then a else b }
  function Max(a: int, b: int): int { if a >= b then a else b }

  /**
   * The rows for 0-based code line `i`: the line, and, for a syntax error with
   * a known column on this line, the caret under that column.
   */
  function RowsAt(lines: seq<string>, i: nat, lineNum: int, col: int, syntax: bool): (r: seq<ContextRow>)
    requires i < |lines|
    ensures |r| == if syntax && col > 0 && i == lineNum - 1 then 2 else 1
    ensures r[0] == CodeRow(i + 1, i == lineNum - 1, lines[i])
    ensures |r| == 2 ==> r[1] == CaretRow(Min(col - 1, |lines[i]|))
  {
    var row := CodeRow(i + 1, i == lineNum - 1, lines[i]);
    if syntax && col > 0 && i == lineNum - 1 then [row, CaretRow(Min(col - 1, |lines[i]|))] else [row]
  }

  /** The rows for 0-based code lines `lo` .. `hi - 1`. */
  function RowsUpTo(lines: seq<string>, lo: nat, hi: nat, lineNum: int, col: int, syntax: bool): seq<ContextRow>
    requires hi <= |lines|
    decreases hi
  {
    if hi <= lo then []
    else RowsUpTo(lines, lo, hi - 1, lineNum, col, syntax) + RowsAt(lines, hi - 1, lineNum, col, syntax)
  }

  /** The context window around line `lineNum` (1-based): at most two lines either side. */
  function ContextRows(lines: seq<string>, lineNum: int, col: int, category: string): seq<ContextRow>
    requires 1 <= lineNum <= |lines|
  {
    RowsUpTo(lines, Max(0, lineNum - 3), Min(|lines|, lineNum + 2), lineNum, col, category == "syntax")
  }

  function CodeRowCount(rows: seq<ContextRow>): nat {
    if rows == [] then 0 else CodeRowCount(rows[..|rows| - 1]) + (if rows[|rows| - 1].CodeRow? then 1 else 0)
  }

  function ErrorRowCount(rows: seq<ContextRow>): nat {
    if rows == [] then 0
    else ErrorRowCount(rows[..|rows| - 1]) + (if rows[|rows| - 1].CodeRow? && rows[|rows| - 1].isError then 1 else 0)
  }

  function CaretCount(rows: seq<ContextRow>): nat {
    if rows == [] then 0 else CaretCount(rows[..|rows| - 1]) + (if rows[|rows| - 1].CaretRow? then 1 else 0)
  }

  lemma {:induction false} CountsAppend(rows: seq<ContextRow>, more: seq<ContextRow>)
    ensures CodeRowCount(rows + more) == CodeRowCount(rows) + CodeRowCount(more)
    ensures ErrorRowCount(rows + more) == ErrorRowCount(rows) + ErrorRowCount(more)
    ensures CaretCount(rows + more) == CaretCount(rows) + CaretCount(more)
    decreases |more|
  {
    if more == [] {
      assert rows + more == rows;
    } else {
      assert (rows + more)[..|rows + more| - 1] == rows + more[..|more| - 1];
      CountsAppend(rows, more[..|more| - 1]);
    }
  }

  lemma RowsAtCounts(lines: seq<string>, i: nat, lineNum: int, col: int, syntax: bool)
    requires i < |lines|
    ensures var at := RowsAt(lines, i, lineNum, col, syntax);
      && CodeRowCount(at) == 1
      && ErrorRowCount(at) == (if i == lineNum - 1 then 1 else 0)
      && CaretCount(at) == (if syntax && col > 0 && i == lineNum - 1 then 1 else 0)
  {
    var at := RowsAt(lines, i, lineNum, col, syntax);
    assert [at[0]][..0] == [];
    assert CodeRowCount([at[0]]) == 1 && CaretCount([at[0]]) == 0;
    if |at| == 2 {
      assert at[..1] == [at[0]];
      assert CaretCount(at) == CaretCount(at[..1]) + 1;
      assert ErrorRowCount(at) == ErrorRowCount(at[..1]);
    } else {
      assert at == [at[0]];
    }
  }

  /**
   * The rows for code lines `lo` .. `hi - 1` hold one numbered row per line,
   * exactly one error row when `lineNum` lies in the range, and one caret row
   * exactly when, in addition, it is a syntax error with a known column.
   */
  lemma {:induction false} RowsUpToCounts(lines: seq<string>, lo: nat, hi: nat, lineNum: int, col: int, syntax: bool)
    requires lo <= hi <= |lines|
    ensures var rows := RowsUpTo(lines, lo, hi, lineNum, col, syntax);
      && CodeRowCount(rows) == hi - lo
      && ErrorRowCount(rows) == (if lo < lineNum <= hi then 1 else 0)
      && CaretCount(rows) == (if lo < lineNum <= hi && syntax && col > 0 then 1 else 0)
    decreases hi
  {
    if hi > lo {
      var prev := RowsUpTo(lines, lo, hi - 1, lineNum, col, syntax);
      var at := RowsAt(lines, hi - 1, lineNum, col, syntax);
      RowsUpToCounts(lines, lo, hi - 1, lineNum, col, syntax);
      CountsAppend(prev, at);
      RowsAtCounts(lines, hi - 1, lineNum, col, syntax);
      assert RowsUpTo(lines, lo, hi, lineNum, col, syntax) == prev + at;
    }
  }

  /**
   * Every numbered row carries a number in `lo + 1` .. `hi` and that line's
   * text, and is marked as the error row exactly when its number is `lineNum`.
   */
  predicate NumberedRowsFit(rows: seq<ContextRow>, lines: seq<string>, lo: nat, hi: nat, lineNum: int) {
    forall k | 0 <= k < |rows| && rows[k].CodeRow? ::
      lo < rows[k].number <= hi && rows[k].number <= |lines| && rows[k].text == lines[rows[k].number - 1]
      && (rows[k].isError <==> rows[k].number == lineNum)
  }

  /**
   * Every caret row directly follows the error row, which lies in `lo + 1` ..
   * `hi`, and is indented by the column, capped at the error line's length.
   */
  predicate CaretRowsFit(rows: seq<ContextRow>, lines: seq<string>, lo: nat, hi: nat, lineNum: int, col: int) {
    forall k | 0 <= k < |rows| && rows[k].CaretRow? ::
      0 < k && rows[k - 1].CodeRow? && rows[k - 1].isError
      && lo < lineNum <= hi && lineNum <= |lines| && rows[k].indent == Min(col - 1, |lines[lineNum - 1]|)
  }

  /** The rows for lines `lo` .. `hi - 1` are numbered and marked as described. */
  lemma {:induction false} RowsUpToNumbered(lines: seq<string>, lo: nat, hi: nat, lineNum: int, col: int, syntax: bool)
    requires lo <= hi <= |lines|
    ensures NumberedRowsFit(RowsUpTo(lines, lo, hi, lineNum, col, syntax), lines, lo, hi, lineNum)
    decreases hi
  {
    if hi > lo {
      var prev := RowsUpTo(lines, lo, hi - 1, lineNum, col, syntax);
      var at := RowsAt(lines, hi - 1, lineNum, col, syntax);
      RowsUpToNumbered(lines, lo, hi - 1, lineNum, col, syntax);
      var rows := prev + at;
      forall k | 0 <= k < |rows| && rows[k].CodeRow?
        ensures lo < rows[k].number <= hi && rows[k].number <= |lines| && rows[k].text == lines[rows[k].number - 1]
        ensures rows[k].isError <==> rows[k].number == lineNum
      {
        if k < |prev| {
          assert rows[k] == prev[k];
        } else {
          assert k == |prev| && rows[k] == at[0];
        }
      }
      assert NumberedRowsFit(rows, lines, lo, hi, lineNum);
    }
  }

  /** In the rows for lines `lo` .. `hi - 1`, each caret row follows the error row as described. */
  lemma {:induction false} RowsUpToCarets(lines: seq<string>, lo: nat, hi: nat, lineNum: int, col: int, syntax: bool)
    requires lo <= hi <= |lines|
    ensures CaretRowsFit(RowsUpTo(lines, lo, hi, lineNum, col, syntax), lines, lo, hi, lineNum, col)
    decreases hi
  {
    if hi > lo {
      var prev := RowsUpTo(lines, lo, hi - 1, lineNum, col, syntax);
      var at := RowsAt(lines, hi - 1, lineNum, col, syntax);
      RowsUpToCarets(lines, lo, hi - 1, lineNum, col, syntax);
      var rows := prev + at;
      forall k | 0 <= k < |rows| && rows[k].CaretRow?
        ensures 0 < k && rows[k - 1].CodeRow? && rows[k - 1].isError
        ensures lo < lineNum <= hi && lineNum <= |lines| && rows[k].indent == Min(col - 1, |lines[lineNum - 1]|)
      {
        if k < |prev| {
          assert rows[k] == prev[k];
          assert rows[k - 1] == prev[k - 1];
        } else {
          assert k == |prev| + 1 && rows[k] == at[1] && rows[k - 1] == at[0];
        }
      }
      assert CaretRowsFit(rows, lines, lo, hi, lineNum, col);
    }
  }

  /**
   * The context window of a located error: between one and five numbered code
   * lines, from `max(1, lineNum - 2)` to `min(n, lineNum + 2)`, exactly one of
   * them marked as the error line, and one caret row exactly for a syntax error
   * with a known column.
   */
  lemma ContextRowsShape(lines: seq<string>, lineNum: int, col: int, category: string)
    requires 1 <= lineNum <= |lines|
    ensures var rows := ContextRows(lines, lineNum, col, category);
      && 1 <= CodeRowCount(rows) <= 5
      && CodeRowCount(rows) == Min(|lines|, lineNum + 2) - Max(0, lineNum - 3)
      && ErrorRowCount(rows) == 1
      && CaretCount(rows) == (if col > 0 && category == "syntax" then 1 else 0)
      && NumberedRowsFit(rows, lines, Max(0, lineNum - 3), Min(|lines|, lineNum + 2), lineNum)
      && CaretRowsFit(rows, lines, Max(0, lineNum - 3), Min(|lines|, lineNum + 2), lineNum, col)
  {
    var syntax := category == "syntax";
    RowsUpToCounts(lines, Max(0, lineNum - 3), Min(|lines|, lineNum + 2), lineNum, col, syntax);
    RowsUpToNumbered(lines, Max(0, lineNum - 3), Min(|lines|, lineNum + 2), lineNum, col, syntax);
    RowsUpToCarets(lines, Max(0, lineNum - 3), Min(|lines|, lineNum + 2), lineNum, col, syntax);
  }

  function ErrorHeader(errorType: string, errorMsg: string): string {
    "<div class='error-header'><span class='error-type'>" + errorType + "</span>: " + errorMsg + "</div>"
  }

  function Explanation(category: string): string {
    if category == "runtime" then
      "<div class='error-explanation'>This is a " + category
      + " error. Your code syntax is valid, but there was a problem during execution.</div>"
    else
      "<div class='error-explanation'>This is a " + category
      + " error. You need to fix the syntax before the code can run.</div>"
  }

  lemma RenderedRowsAppend(rows: seq<ContextRow>, more: seq<ContextRow>)
    ensures RenderedRows(rows + more) == RenderedRows(rows) + RenderedRows(more)
  {
    var l := RenderedRows(rows + more);
    var r := RenderedRows(rows) + RenderedRows(more);
    forall k | 0 <= k < |l| ensures l[k] == r[k] {
      if k < |rows| {
        assert (rows + more)[k] == rows[k];
      } else {
        assert (rows + more)[k] == more[k - |rows|];
      }
    }
  }

  /** One step of the context loop: the rendering grows by line `i`'s row and, where due, its caret. */
  lemma RenderStep(lines: seq<string>, lo: nat, i: nat, lineNum: int, col: int, syntax: bool)
    requires lo <= i < |lines|
    ensures var row := CodeRow(i + 1, i == lineNum - 1, lines[i]);
      RenderedRows(RowsUpTo(lines, lo, i + 1, lineNum, col, syntax))
      == RenderedRows(RowsUpTo(lines, lo, i, lineNum, col, syntax)) + [RenderRow(row)]
         + (if syntax && col > 0 && i == lineNum - 1 then [RenderRow(CaretRow(Min(col - 1, |lines[i]|)))] else [])
  {
    var at := RowsAt(lines, i, lineNum, col, syntax);
    var before := RowsUpTo(lines, lo, i, lineNum, col, syntax);
    assert RowsUpTo(lines, lo, i + 1, lineNum, col, syntax) == before + at;
    RenderedRowsAppend(before, at);
    RenderedRowsAt(lines, i, lineNum, col, syntax);
  }

  /** The rendering of one line's rows: its code row, then its caret where due. */
  lemma RenderedRowsAt(lines: seq<string>, i: nat, lineNum: int, col: int, syntax: bool)
    requires i < |lines|
    ensures RenderedRows(RowsAt(lines, i, lineNum, col, syntax))
            == [RenderRow(CodeRow(i + 1, i == lineNum - 1, lines[i]))]
               + (if syntax && col > 0 && i == lineNum - 1 then [RenderRow(CaretRow(Min(col - 1, |lines[i]|)))] else [])
  {
    var at := RowsAt(lines, i, lineNum, col, syntax);
    if syntax && col > 0 && i == lineNum - 1 {
      assert RenderedRows(at) == [RenderRow(at[0]), RenderRow(at[1])];
    } else {
      assert RenderedRows(at) == [RenderRow(at[0])];
    }
  }

  /** The whole error report as laid out by `format_python_error`. */
  function PythonErrorHtml(code: string, errorType: string, errorMsg: string, lineNum: int, col: int, category: string): string {
    ErrorHeader(errorType, errorMsg) + ContextHtml(Split(code, "\n"), lineNum, col, category) + Explanation(category)
  }

  /** The code-context block: present only when the line number names a line of the code. */
  function ContextHtml(lines: seq<string>, lineNum: int, col: int, category: string): string {
    if 1 <= lineNum <= |lines|
    then "<div class='code-context'>" + RenderRows(ContextRows(lines, lineNum, col, category)) + "</div>"
    else ""
  }

  /** The `for` loop of `format_python_error`: render the rows of lines `lo` .. `hi - 1` in order. */
  method RenderContext(lines: seq<string>, lo: nat, hi: nat, lineNum: int, col: int, syntax: bool) returns (context: string)
    requires lo <= hi <= |lines|
    ensures context == RenderRows(RowsUpTo(lines, lo, hi, lineNum, col, syntax))
  {
    context := [];
    for i := lo to hi
      invariant context == Concat(RenderedRows(RowsUpTo(lines, lo, i, lineNum, col, syntax)))
    {
      var line := lines[i];
      ghost var prev := RenderedRows(RowsUpTo(lines, lo, i, lineNum, col, syntax));
      var row := RenderRow(CodeRow(i + 1, i == lineNum - 1, line));
      RenderStep(lines, lo, i, lineNum, col, syntax);
      ConcatAppend(prev, row);
      context := context + row;
      if i == lineNum - 1 && col > 0 && syntax {
        var caret := RenderRow(CaretRow(Min(col - 1, |line|)));
        ConcatAppend(prev + [row], caret);
        context := context + caret;
      } else {
        assert prev + [row] + [] == prev + [row];
      }
    }
  }

  /**
   * `format_python_error`: the header, then the code context when the line
   * number names a line of the code, then the explanation for the category.
   */
  method FormatPythonError(code: string, errorType: string, errorMsg: string, lineNum: int, col: int, category: string)
    returns (html: string)
    ensures html == PythonErrorHtml(code, errorType, errorMsg, lineNum, col, category)
  {
    html := ErrorHeader(errorType, errorMsg);
    var lines := Split(code, "\n");
    if lineNum > 0 && lineNum - 1 < |lines| {
      var context := RenderContext(lines, Max(0, lineNum - 3), Min(|lines|, lineNum + 2), lineNum, col, category == "syntax");
      assert context == RenderRows(ContextRows(lines, lineNum, col, category));
      html := html + ("<div class='code-context'>" + context + "</div>");
    } else {
      assert html + "" == html;
    }
    assert html == ErrorHeader(errorType, errorMsg) + ContextHtml(lines, lineNum, col, category);
    html := html + Explanation(category);
  }

  // ================================================================ the runtime-error call site

  /**
   * The nine lines written ahead of the user's code (code_executor.py:43-51),
   * each entry standing for one line of that text; only their number matters
   * to the line arithmetic.
   */
  const DebugHeaderLines: seq<string> := [
    "import sys, traceback", "def excepthook(...):", "    tb_lines = ...",
    "    print(START, ...)", "    for line in tb_lines:", "        print(line, ...)",
    "    print(END, ...)", "sys.excepthook = excepthook", ""]

  /** Each line followed by a newline. */
  function Lines(ls: seq<string>): string {
    if ls == [] then [] else ls[0] + "\n" + Lines(ls[1..])
  }

  /** The instrumented file: the header lines, then the user's code. */
  function DebugCode(code: string): string {
    Lines(DebugHeaderLines) + code
  }

  lemma {:induction false} SplitAfterLines(ls: seq<string>, code: string)
    requires forall k | 0 <= k < |ls| :: '\n' !in ls[k]
    ensures Split(Lines(ls) + code, "\n") == ls + Split(code, "\n")
    decreases |ls|
  {
    if ls == [] {
      assert Lines(ls) + code == code;
    } else {
      SplitAfterLines(ls[1..], code);
      assert [ls[0]] + ls[1..] == ls;
      LinesConsSplit(ls[0], ls[1..], code, ls[1..] + Split(code, "\n"));
      assert [ls[0]] + (ls[1..] + Split(code, "\n")) == ls + Split(code, "\n");
    }
  }

  /** One more line in front: its text is the first piece, the split of the rest follows. */
  lemma LinesConsSplit(l: string, tail: seq<string>, code: string, pieces: seq<string>)
    requires '\n' !in l
    requires Split(Lines(tail) + code, "\n") == pieces
    ensures Split(Lines([l] + tail) + code, "\n") == [l] + pieces
  {
    var rest := Lines(tail) + code;
    LinesCons(l, tail);
    assert Lines([l] + tail) + code == l + ['\n'] + rest;
    SplitAfterPiece(l, rest, '\n');
  }

  lemma LinesCons(l: string, tail: seq<string>)
    ensures Lines([l] + tail) == l + "\n" + Lines(tail)
  {
    assert ([l] + tail)[1..] == tail;
  }

  lemma HeaderLinesSingle()
    ensures forall k | 0 <= k < |DebugHeaderLines| :: '\n' !in DebugHeaderLines[k]
  {
    assert '\n' !in DebugHeaderLines[0];
    assert '\n' !in DebugHeaderLines[1];
    assert '\n' !in DebugHeaderLines[2];
    assert '\n' !in DebugHeaderLines[3];
    assert '\n' !in DebugHeaderLines[4];
    assert '\n' !in DebugHeaderLines[5];
    assert '\n' !in DebugHeaderLines[6];
    assert '\n' !in DebugHeaderLines[7];
  }

  /** Line `k` of the user's code is line `9 + k` of the instrumented file. */
  lemma DebugCodeLines(code: string)
    ensures Split(DebugCode(code), "\n") == DebugHeaderLines + Split(code, "\n")
  {
    HeaderLinesSingle();
    SplitAfterLines(DebugHeaderLines, code);
  }

  /** The offset passed at code_executor.py:74: the instrumented file's line count minus one. */
  function RuntimeOffsetAsWritten(code: string): int {
    |Split(DebugCode(code), "\n")| - 1
  }

  /** The offset that maps file lines to the user's lines: the number of header lines. */
  function RuntimeOffset(): int {
    |DebugHeaderLines|
  }

  /**
   * As written, a runtime error on line `k` of the user's code (file line
   * `9 + k`) is reported as line 0, except on the code's last line, which is
   * reported as line 1.
   */
  lemma AsWrittenRuntimeLine(code: string, k: int)
    requires 1 <= k <= |Split(code, "\n")|
    ensures AdjustLine(|DebugHeaderLines| + k, RuntimeOffsetAsWritten(code))
            == if k == |Split(code, "\n")| then 1 else 0
  {
    DebugCodeLines(code);
  }

  /** A concrete instance: the `NameError` on line 1 of `y` / `x = 1` is reported as line 0. */
  lemma AsWrittenFirstOfTwo()
    ensures AdjustLine(|DebugHeaderLines| + 1, RuntimeOffsetAsWritten("y\nx = 1")) == 0
  {
    var code := "y\nx = 1";
    assert code == "y" + ['\n'] + "x = 1";
    SplitAfterPiece("y", "x = 1", '\n');
    AsWrittenRuntimeLine(code, 1);
  }

  /**
   * With the header's line count as offset, file line `9 + k` holds line `k`
   * of the user's code and is reported as line `k`.
   */
  lemma CorrectedRuntimeLine(code: string, k: int)
    requires 1 <= k <= |Split(code, "\n")|
    ensures Split(DebugCode(code), "\n") == DebugHeaderLines + Split(code, "\n")
    ensures Split(DebugCode(code), "\n")[|DebugHeaderLines| + k - 1] == Split(code, "\n")[k - 1]
    ensures AdjustLine(|DebugHeaderLines| + k, RuntimeOffset()) == k
  {
    DebugCodeLines(code);
  }

  /**
   * A failed run's error report (code_executor.py:72-75) as written: the
   * report is parsed with the instrumented file's line count minus one as
   * offset, and laid out as a runtime error at the line the parse found,
   * without a column.
   */
  method RuntimeErrorReportAsWritten(code: string, stderr: string) returns (parsed: ParsedError, html: string)
    ensures parsed.line >= 0 && parsed.column == 0
    ensures Contains(stderr, TracebackStart) ==>
      var section := TracebackSection(stderr);
      (parsed.errorType, parsed.message) == TracebackHead(section, stderr)
      && parsed.line == match FirstSome(FrameNumbers(Split(section, "\n")))
                        case None => 0
                        case Some(raw) => AdjustLine(raw, RuntimeOffsetAsWritten(code))
    ensures !Contains(stderr, TracebackStart) ==> parsed.line == DirectLineNumber(stderr, RuntimeOffsetAsWritten(code))
    ensures html == PythonErrorHtml(code, parsed.errorType, parsed.message, parsed.line, 0, "runtime")
  {
    parsed := ParsePythonError(stderr, RuntimeOffsetAsWritten(code));
    html := FormatPythonError(code, parsed.errorType, parsed.message, parsed.line, parsed.column, "runtime");
  }

  /**
   * The same report with the corrected offset, the header's line count: a
   * frame line `9 + k` is reported as line `k` of the user's code
   * (`CorrectedRuntimeLine`).
   */
  method RuntimeErrorReport(code: string, stderr: string) returns (parsed: ParsedError, html: string)
    ensures parsed.line >= 0 && parsed.column == 0
    ensures Contains(stderr, TracebackStart) ==>
      var section := TracebackSection(stderr);
      (parsed.errorType, parsed.message) == TracebackHead(section, stderr)
      && parsed.line == match FirstSome(FrameNumbers(Split(section, "\n")))
                        case None => 0
                        case Some(raw) => AdjustLine(raw, RuntimeOffset())
    ensures !Contains(stderr, TracebackStart) ==> parsed.line == DirectLineNumber(stderr, RuntimeOffset())
    ensures html == PythonErrorHtml(code, parsed.errorType, parsed.message, parsed.line, 0, "runtime")
  {
    parsed := ParsePythonError(stderr, RuntimeOffset());
    html := FormatPythonError(code, parsed.errorType, parsed.message, parsed.line, parsed.column, "runtime");
  }

  // ================================================================ Java class name

  datatype JavaNameError = IndexError

  /** A line the extraction stops at: it holds both "class " and "{". */
  predicate DeclaresClass(line: string) {
    Contains(line, "class ") && Contains(line, "{")
  }

  /**
   * The class name on such a line: the first word between "class " and "{";
   * `IndexError` when there is none (as in "class {"), raised outside the
   * `try` block and so escaping `execute_java_code`.
   */
  function ClassNameOf(line: string): (r: Result<string, JavaNameError>)
    requires DeclaresClass(line)
    ensures r.Ok? ==> IsWord(r.value)
  {
    SplitContains(line, "class ");
    var words := Words(Trim(Py, Split(Split(line, "class ")[1], "{")[0]));
    WordsAreWords(Trim(Py, Split(Split(line, "class ")[1], "{")[0]));
    if words == [] then Err(IndexError) else Ok(words[0])
  }

  /** For each line, whether it declares a class. */
  function DeclaresFlags(lines: seq<string>): (r: seq<bool>)
    ensures |r| == |lines|
  {
    seq(|lines|, i requires 0 <= i < |lines| => DeclaresClass(lines[i]))
  }

  /** The index of the first line declaring a class, or the number of lines when none does. */
  function ClassLine(lines: seq<string>): (i: nat)
    ensures i <= |lines|
    ensures i < |lines| ==> DeclaresClass(lines[i])
    ensures forall j | 0 <= j < i :: !DeclaresClass(lines[j])
  {
    var flags := DeclaresFlags(lines);
    assert forall j | 0 <= j < |lines| :: flags[j] == DeclaresClass(lines[j]);
    FirstTrue(flags)
  }

  /** The name on the first line declaring a class, "Main" when no line does. */
  function ClassNameIn(lines: seq<string>): Result<string, JavaNameError> {
    var i := ClassLine(lines);
    if i < |lines| then ClassNameOf(lines[i]) else Ok("Main")
  }

  /** The loop over the lines: stop at the first one declaring a class. */
  method ScanClassName(lines: seq<string>) returns (r: Result<string, JavaNameError>)
    ensures r == ClassNameIn(lines)
  {
    r := Ok("Main");
    var i := 0;
    while i < |lines|
      invariant 0 <= i <= ClassLine(lines)
    {
      if DeclaresClass(lines[i]) {
        assert ClassLine(lines) == i;
        r := ClassNameOf(lines[i]);
        return;
      }
      assert i != ClassLine(lines);
      i := i + 1;
    }
  }

  /**
   * The class-name extraction of `execute_java_code`: the name on the first
   * line of the code declaring a class, "Main" when no line does.
   */
  method JavaClassName(code: string) returns (r: Result<string, JavaNameError>)
    ensures r == ClassNameIn(Split(code, "\n"))
  {
    var lines := Split(code, "\n");
    r := ScanClassName(lines);
  }

  /** A line "class {" stops the extraction and has no name: the `IndexError` case. */
  lemma ClassWithoutName()
    ensures DeclaresClass("class {") && ClassNameOf("class {") == Err(IndexError)
  {
    ContainsAt("class {", "class ", 0);
    ContainsAt("class {", "{", 6);
    assert "class {" == [] + "class " + "{";
  }
}
