/**
 * The visual output panel: the console text with its error and success
 * highlights, the keyword readings of a run's output that choose the
 * login and vehicle pictures, and the output window that each run clears
 * and refills. Regular expressions are written out as the scans they
 * perform; the pictures' markup is reduced to the state it shows.
 */
module VisualOutput {
  import opened Wrappers
  import opened Strings

  // ================================================================ formatConsoleOutput

  predicate NoTerminator(s: string) {
    forall k | 0 <= k < |s| :: !IsLineTerminator(s[k])
  }

  /** The three alternatives of a highlight pattern. */
  datatype Words = Words(a: string, b: string, c: string)

  const ErrorWords := Words("Error", "Exception", "Traceback")
  const SuccessWords := Words("Success", "Completed", "Done")
  const RedOpen := "<span style=\"color: #e74c3c;\">"
  const GreenOpen := "<span style=\"color: #2ecc71;\">"
  const Close := "</span>"

  /** One of the alternatives occurs at `i`. */
  predicate WordAt(s: string, w: Words, i: nat) {
    OccursAt(s, w.a, i) || OccursAt(s, w.b, i) || OccursAt(s, w.c, i)
  }

  /** Alternatives that a match can start with: not empty and not opening with a line terminator. */
  predicate Matchable(w: Words) {
    w.a != [] && w.b != [] && w.c != []
    && !IsLineTerminator(w.a[0]) && !IsLineTerminator(w.b[0]) && !IsLineTerminator(w.c[0])
  }

  /** The leftmost position at or after `i` where an alternative occurs. */
  function FirstWord(s: string, w: Words, i: nat): (r: Option<nat>)
    requires Matchable(w)
    ensures r.Some? ==> i <= r.value < |s| && WordAt(s, w, r.value)
    ensures r.Some? ==> forall p: nat | i <= p < r.value :: !WordAt(s, w, p)
    ensures r.None? ==> forall p: nat | i <= p :: !WordAt(s, w, p)
    decreases |s| - i
  {
    if i >= |s| then None
    else if WordAt(s, w, i) then Some(i)
    else FirstWord(s, w, i + 1)
  }

  /** Where the line holding `i` ends: the first terminator at or after `i`, else the end. */
  function LineEnd(s: string, i: nat): (j: nat)
    requires i <= |s|
    ensures i <= j <= |s|
    ensures forall k | i <= k < j :: !IsLineTerminator(s[k])
    ensures j < |s| ==> IsLineTerminator(s[j])
    decreases |s| - i
  {
    if i == |s| || IsLineTerminator(s[i]) then i else LineEnd(s, i + 1)
  }

  /**
   * `s.replace(/(a|b|c).*$/gm, open + '$&' + close)`: each match runs from the
   * leftmost alternative to the end of its line; the scan resumes there.
   */
  function Highlight(s: string, w: Words, open: string, close: string): string
    requires Matchable(w)
    decreases |s|
  {
    match FirstWord(s, w, 0)
    case None => s
    case Some(i) =>
      assert !IsLineTerminator(s[i]) by {
        assert s[i] == s[i..][0];
      }
      var j := LineEnd(s, i);
      s[..i] + open + s[i..j] + close + Highlight(s[j..], w, open, close)
  }

  /** At most one span: from the leftmost alternative to the end of the text. */
  function WrapFirst(s: string, w: Words, open: string, close: string): string
    requires Matchable(w)
  {
    match FirstWord(s, w, 0)
    case None => s
    case Some(i) => s[..i] + open + s[i..] + close
  }

  /** `output.replace(/\n/g, '<br>')`. */
  function Br(output: string): string {
    Replace(output, "\n", "<br>")
  }

  /** `formatConsoleOutput`. */
  function FormatConsoleOutput(output: string): string {
    Highlight(Highlight(Br(output), ErrorWords, RedOpen, Close), SuccessWords, GreenOpen, Close)
  }

  /** Turning newlines into `<br>` leaves no newline, and adds no other terminator. */
  lemma {:induction false} BrLeavesNoNewline(s: string)
    ensures forall k | 0 <= k < |Br(s)| :: Br(s)[k] != '\n'
    ensures (forall k | 0 <= k < |s| :: s[k] == '\n' || !IsLineTerminator(s[k])) ==> NoTerminator(Br(s))
    decreases |s|
  {
    if s != [] {
      BrLeavesNoNewline(s[1..]);
      if StartsWith(s, "\n") {
        assert Br(s) == "<br>" + Br(s[1..]);
      } else {
        assert Br(s) == [s[0]] + Br(s[1..]);
      }
      if forall k | 0 <= k < |s| :: s[k] == '\n' || !IsLineTerminator(s[k]) {
        assert forall k | 0 <= k < |s[1..]| :: s[1..][k] == '\n' || !IsLineTerminator(s[1..][k]) by {
          forall k | 0 <= k < |s[1..]| ensures s[1..][k] == '\n' || !IsLineTerminator(s[1..][k]) {
            assert s[1..][k] == s[k + 1];
          }
        }
      }
    }
  }

  /** On a text with no line terminator, a pass wraps at most one span, which reaches the end. */
  lemma OnePassOneSpan(s: string, w: Words, open: string, close: string)
    requires Matchable(w) && NoTerminator(s)
    ensures Highlight(s, w, open, close) == WrapFirst(s, w, open, close)
  {
    match FirstWord(s, w, 0)
    case None =>
    case Some(i) =>
      assert LineEnd(s, i) == |s|;
      assert s[|s|..] == [];
      assert FirstWord([], w, 0).None?;
  }

  lemma WrapKeepsNoTerminator(s: string, w: Words, open: string, close: string)
    requires Matchable(w) && NoTerminator(s) && NoTerminator(open) && NoTerminator(close)
    ensures NoTerminator(WrapFirst(s, w, open, close))
  {
    match FirstWord(s, w, 0)
    case None =>
    case Some(i) =>
      var r := s[..i] + open + s[i..] + close;
      forall k | 0 <= k < |r| ensures !IsLineTerminator(r[k]) {
        if k < i {
          assert r[k] == s[k];
        } else if k < i + |open| {
          assert r[k] == open[k - i];
        } else if k < |s| + |open| {
          assert r[k] == s[k - |open|];
        } else {
          assert r[k] == close[k - |s| - |open|];
        }
      }
  }

  /**
   * Once newlines are `<br>`, an output with no other line terminator gets
   * at most one red span and at most one green span, each running from its
   * first keyword to the end of the text.
   */
  lemma FormatWrapsOnce(output: string)
    requires forall k | 0 <= k < |output| :: output[k] == '\n' || !IsLineTerminator(output[k])
    ensures FormatConsoleOutput(output)
      == WrapFirst(WrapFirst(Br(output), ErrorWords, RedOpen, Close), SuccessWords, GreenOpen, Close)
  {
    var b := Br(output);
    BrLeavesNoNewline(output);
    HighlightConstantsPlain();
    OnePassOneSpan(b, ErrorWords, RedOpen, Close);
    WrapKeepsNoTerminator(b, ErrorWords, RedOpen, Close);
    OnePassOneSpan(WrapFirst(b, ErrorWords, RedOpen, Close), SuccessWords, GreenOpen, Close);
  }

  /** The keywords and the span markup hold no line terminator. */
  lemma HighlightConstantsPlain()
    ensures Matchable(ErrorWords) && Matchable(SuccessWords)
    ensures NoTerminator(RedOpen) && NoTerminator(GreenOpen) && NoTerminator(Close)
  {
  }

  // ================================================================ keyword readings

  /** A text containing `pre + word` contains `word`. */
  lemma ContainsTail(s: string, pre: string, word: string)
    requires Contains(s, pre + word)
    ensures Contains(s, word)
  {
    assert (pre + word)[|pre|..] == word;
    ContainsAt(pre + word, word, |pre|);
    ContainsTransitive(s, pre + word, word);
  }

  datatype LoginPicture = LoginSucceeded | WrongPassword | UnknownUser | AwaitingRun

  /** The login picture, from the source's three keyword flags. */
  function LoginPictureOf(output: string): LoginPicture {
    var isLoginSuccess := Contains(output, "Login successful") || Contains(output, "successful");
    var isPasswordError := Contains(output, "Incorrect password") || Contains(output, "password");
    var isUserNotFound := Contains(output, "User not found") || Contains(output, "not found");
    if isLoginSuccess then LoginSucceeded
    else if isPasswordError then WrongPassword
    else if isUserNotFound then UnknownUser
    else AwaitingRun
  }

  /**
   * Each flag's longer phrase contains its shorter word, so the picture is
   * decided by three plain words, `successful` first.
   */
  lemma LoginPictureByWords(output: string)
    ensures LoginPictureOf(output) == LoginSucceeded <==> Contains(output, "successful")
    ensures LoginPictureOf(output) == WrongPassword <==>
      !Contains(output, "successful") && Contains(output, "password")
    ensures LoginPictureOf(output) == UnknownUser <==>
      !Contains(output, "successful") && !Contains(output, "password") && Contains(output, "not found")
  {
    if Contains(output, "Login successful") {
      assert "Login " + "successful" == "Login successful";
      ContainsTail(output, "Login ", "successful");
    }
    if Contains(output, "Incorrect password") {
      assert "Incorrect " + "password" == "Incorrect password";
      ContainsTail(output, "Incorrect ", "password");
    }
    if Contains(output, "User not found") {
      assert "User " + "not found" == "User not found";
      ContainsTail(output, "User ", "not found");
    }
  }

  /** The vehicle picture: engine running, moving, and the caption. */
  datatype VehiclePicture = VehiclePicture(running: bool, driving: bool, caption: string)

  /** `\w`. */
  predicate IsWordChar(c: char) {
    'A' <= c <= 'Z' || 'a' <= c <= 'z' || '0' <= c <= '9' || c == '_'
  }

  /** The end of the run of `\s` characters from `i`. */
  function SpaceRunEnd(s: string, i: nat): (j: nat)
    requires i <= |s|
    ensures i <= j <= |s| && (j < |s| ==> !IsJsSpace(s[j]))
    ensures forall k | i <= k < j :: IsJsSpace(s[k])
    decreases |s| - i
  {
    if i < |s| && IsJsSpace(s[i]) then SpaceRunEnd(s, i + 1) else i
  }

  /** The end of the run of `\w` characters from `i`. */
  function WordRunEnd(s: string, i: nat): (j: nat)
    requires i <= |s|
    ensures i <= j <= |s| && (j < |s| ==> !IsWordChar(s[j]))
    ensures forall k | i <= k < j :: IsWordChar(s[k])
    decreases |s| - i
  {
    if i < |s| && IsWordChar(s[i]) then WordRunEnd(s, i + 1) else i
  }

  /**
   * Where `/\d{4}\s+\w+\s+\w+/` matched at `i` ends. Each run is taken whole:
   * giving back characters of a run never lets the next run start.
   */
  function MatchEnd(s: string, i: nat): (r: Option<nat>)
    requires i <= |s|
    ensures r.Some? ==> i + 8 <= r.value <= |s|
    ensures r.Some? ==> forall k | i <= k < i + 4 :: IsDigit(s[k])
    ensures r.Some? ==> IsJsSpace(s[i + 4]) && IsWordChar(s[r.value - 1])
  {
    if i + 4 <= |s| && IsDigit(s[i]) && IsDigit(s[i + 1]) && IsDigit(s[i + 2]) && IsDigit(s[i + 3]) then
      var a := SpaceRunEnd(s, i + 4);
      var b := WordRunEnd(s, a);
      var c := SpaceRunEnd(s, b);
      var d := WordRunEnd(s, c);
      if a == i + 4 || b == a || c == b || d == c then None else Some(d)
    else None
  }

  /** The leftmost match at or after `i`: its start and end. */
  function FirstMatch(s: string, i: nat): (r: Option<(nat, nat)>)
    requires i <= |s|
    ensures r.Some? ==> i <= r.value.0 <= |s| && MatchEnd(s, r.value.0) == Some(r.value.1)
    ensures r.Some? ==> forall p | i <= p < r.value.0 :: MatchEnd(s, p).None?
    ensures r.None? ==> forall p | i <= p <= |s| :: MatchEnd(s, p).None?
    decreases |s| - i
  {
    var m := MatchEnd(s, i);
    if m.Some? then Some((i, m.value))
    else if i == |s| then None
    else FirstMatch(s, i + 1)
  }

  /** The caption: the first year-make-model match, else `Vehicle`. */
  function VehicleCaption(output: string): (caption: string)
    ensures caption == "Vehicle" <==> FirstMatch(output, 0).None?
    ensures caption != "Vehicle" ==> |caption| >= 8 && forall k | 0 <= k < 4 :: IsDigit(caption[k])
  {
    match FirstMatch(output, 0)
    case None => "Vehicle"
    case Some((i, j)) =>
      var caption := output[i..j];
      assert IsDigit(caption[0]) && !IsDigit("Vehicle"[0]);
      caption
  }

  /** The vehicle picture, from the source's flags; its `stopped` flag is computed but never shown. */
  function VehiclePictureOf(output: string): VehiclePicture {
    var isEngineStarted := Contains(output, "engine started") || Contains(output, "started");
    var isDriving := Contains(output, "driving") || Contains(output, "is driving");
    VehiclePicture(isEngineStarted, isDriving, VehicleCaption(output))
  }

  /** The engine shows Running exactly when the output says `started`, and Driving exactly when it says `driving`. */
  lemma VehiclePictureByWords(output: string)
    ensures VehiclePictureOf(output).running <==> Contains(output, "started")
    ensures VehiclePictureOf(output).driving <==> Contains(output, "driving")
  {
    if Contains(output, "engine started") {
      assert "engine " + "started" == "engine started";
      ContainsTail(output, "engine ", "started");
    }
    if Contains(output, "is driving") {
      assert "is " + "driving" == "is driving";
      ContainsTail(output, "is ", "driving");
    }
  }

  // ================================================================ the output window

  /** A child of the output window. */
  datatype Child =
    | LoginView(login: LoginPicture)
    | VehicleView(vehicle: VehiclePicture)
    | DecoratorsView(output: string)
    | FunctionsView(output: string)
    | OutputText(text: string)
    | Placeholder(text: string)

  const ConsoleGreeting := "// Output will appear here after you run the code..."

  /** The picture the default visualization shows for a concept. */
  function DefaultChild(concept: string, output: string): (c: Child)
    ensures c.Placeholder? <==> concept !in {"if-else", "oops", "decorators", "functions"}
  {
    if concept == "if-else" then LoginView(LoginPictureOf(output))
    else if concept == "oops" then VehicleView(VehiclePictureOf(output))
    else if concept == "decorators" then DecoratorsView(output)
    else if concept == "functions" then FunctionsView(output)
    else Placeholder("Run the code to see the output visualization")
  }

  class OutputPanel {
    /** The children of the output window. */
    var window: seq<Child>
    /** The console's content. */
    var console: string
    /** How many `<style>` elements the pictures have added to the document head. */
    var styles: nat

    /** `setupOutputPanel`: an empty window and the greeting in the console. */
    constructor ()
      ensures window == [] && console == ConsoleGreeting && styles == 0
    {
      window := [];
      console := ConsoleGreeting;
      styles := 0;
    }

    /**
     * `generateDefaultVisualization`: the window is emptied and gets the
     * concept's one picture; every picture adds one more style element.
     */
    method GenerateDefault(concept: string, output: string)
      modifies this
      ensures window == [DefaultChild(concept, output)]
      ensures styles == old(styles) + (if DefaultChild(concept, output).Placeholder? then 0 else 1)
      ensures console == old(console)
    {
      window := [];
      var child := DefaultChild(concept, output);
      window := window + [child];
      if !child.Placeholder? {
        styles := styles + 1;
      }
    }

    /** `updateVisualOutput`: the console takes the formatted output when there is one; the window a given picture or the default. */
    method Update(consoleOutput: string, visualOutput: string, concept: string)
      modifies this
      ensures console == if consoleOutput != [] then FormatConsoleOutput(consoleOutput) else old(console)
      ensures visualOutput != [] ==> window == [OutputText(visualOutput)] && styles == old(styles)
      ensures visualOutput == [] ==> window == [DefaultChild(concept, consoleOutput)]
    {
      if consoleOutput != [] {
        console := FormatConsoleOutput(consoleOutput);
      }
      if visualOutput != [] {
        window := [OutputText(visualOutput)];
      } else {
        GenerateDefault(concept, consoleOutput);
      }
    }

    /** `resetVisualOutput`: exactly one placeholder in the window and the greeting in the console. */
    method Reset()
      modifies this
      ensures window == [Placeholder("Run your code to see the output")]
      ensures console == ConsoleGreeting
      ensures styles == old(styles)
    {
      window := [];
      console := ConsoleGreeting;
      window := window + [Placeholder("Run your code to see the output")];
    }
  }
}
