/**
 * The page script's decisions around its requests: which code the
 * real-world panel is asked about, how an execution result reaches the
 * console, and how the practice list is built. The requests themselves
 * are parameters: a fetch is given by its outcome.
 */
module PageScript {
  import opened Wrappers
  import opened Strings
  import Editor
  import ConceptExamples

  // ================================================================ updateRealWorldCode

  /** A select's value, or the default when the value is empty. */
  function OrDefault(value: string, default: string): (r: string)
    ensures value != [] ==> r == value
    ensures value == [] ==> r == default
  {
    if value == [] then default else value
  }

  /** What `updateRealWorldCode` does: hand over to the installed component, or request the panel for some code. */
  datatype RealWorldAction = Delegate(code: string) | Request(code: string, concept: string, language: string)

  /**
   * The code the panel is requested for: short code under a concept other
   * than `general` is replaced by that concept's example code, which is
   * never empty.
   */
  function PanelCode(code: string, concept: string, language: string): (c: string)
    ensures |code| >= 30 || concept == "general" ==> c == code
    ensures |code| < 30 && concept != "general" ==> c == ConceptExamples.GetConceptExamples(concept, language)
    ensures c != [] <== code != [] || concept != "general"
  {
    if |code| < 30 && concept != "general" then ConceptExamples.GetConceptExamples(concept, language) else code
  }

  /** `updateRealWorldCode`, with the two selects' values and whether a component installed its own handler. */
  function UpdateRealWorldCode(code: string, conceptValue: string, languageValue: string, installed: bool): (a: RealWorldAction)
    ensures installed <==> a.Delegate?
    ensures a.Delegate? ==> a.code == code
    ensures a.Request? ==> a.concept == OrDefault(conceptValue, "general") && a.language == OrDefault(languageValue, "python")
    ensures a.Request? ==> a.code == PanelCode(code, a.concept, a.language)
  {
    if installed then Delegate(code)
    else
      var concept := OrDefault(conceptValue, "general");
      var language := OrDefault(languageValue, "python");
      Request(PanelCode(code, concept, language), concept, language)
  }

  /**
   * The typing timer hands over only code longer than 30 characters, so the
   * substitution never applies to it: the panel is requested for the code
   * that was typed.
   */
  lemma DebouncedCodeKept(code: string, conceptValue: string, languageValue: string)
    requires Editor.Triggers(code, Editor.PageThreshold)
    ensures UpdateRealWorldCode(code, conceptValue, languageValue, false).code == code
  {
  }

  /** Short code under a concept and a language the table has no example for is asked about the fixed remark. */
  lemma ShortCodeGetsRemark(code: string, concept: string, language: string)
    requires |code| < 30 && concept != [] && concept != "general" && language != []
    requires !ConceptExamples.Available(concept, language)
    ensures UpdateRealWorldCode(code, concept, language, false).code == ConceptExamples.Unavailable
  {
  }

  // ================================================================ executeCode

  /** The JSON body of a successful execution request. */
  datatype ExecResult = ExecResult(success: bool, output: string, error: string)

  /** The request's outcome: thrown, answered with a failing status, or answered. */
  datatype ExecFetch = Threw(message: string) | NotOk | Answered(result: ExecResult)

  /** The console's content, and whether the real-world and demo panels were asked to update. */
  datatype ExecView = ExecView(console: string, panelsUpdated: bool)

  const NoOutput := "<div class=\"output-empty\">No output</div>"
  const UnknownError := "<div class=\"error-message\">An unknown error occurred</div>"

  function ErrorDiv(message: string): string {
    "<div class=\"error-message\">Error: " + message + "</div>"
  }

  /** `a || b` on strings. */
  function Or(a: string, b: string): string {
    if a != [] then a else b
  }

  /**
   * `executeCode` after its request: the output on success, the error
   * otherwise, each with its fixed stand-in; the panels update only after an
   * answered request; a failing status is reported as a thrown error.
   */
  function ExecuteCode(f: ExecFetch): (v: ExecView)
    ensures v.panelsUpdated <==> f.Answered?
    ensures f.Answered? && f.result.success ==> v.console == Or(f.result.output, NoOutput)
    ensures f.Answered? && !f.result.success ==> v.console == Or(f.result.error, UnknownError)
    ensures f.NotOk? ==> v.console == ErrorDiv("Network response was not ok")
    ensures f.Threw? ==> v.console == ErrorDiv(f.message)
    ensures v.console != []
  {
    match f
    case Threw(message) => ExecView(ErrorDiv(message), false)
    case NotOk => ExecView(ErrorDiv("Network response was not ok"), false)
    case Answered(result) =>
      var shown := if result.success then Or(result.output, NoOutput) else Or(result.error, UnknownError);
      ExecView(Or(shown, NoOutput), true)
  }

  // ================================================================ loadPracticeProblems

  datatype Problem = Problem(title: string, description: string, difficulty: string)

  /** The problem list's outcome: thrown, or the body's `problems`, which may be missing. */
  datatype PracticeFetch = PracticeThrew(message: string) | PracticeLoaded(problems: Option<seq<Problem>>)

  const EmptyState := "<div class=\"empty-state\">No practice problems available for this concept yet.</div>"

  /** The first 150 characters of a description, and `...` when that cut something off. */
  function Summary(description: string): (s: string)
    ensures |description| <= 150 ==> s == description
    ensures |description| > 150 ==> |s| == 153 && s[..150] == description[..150] && s[150..] == "..."
  {
    JsSubstring(description, 0, 150) + (if |description| > 150 then "..." else "")
  }

  /** The difficulty shown: the problem's own, or `medium` when it has none. */
  function Difficulty(p: Problem): (d: string)
    ensures d != []
  {
    if p.difficulty != [] then p.difficulty else "medium"
  }

  /** One entry of the list. */
  function Item(index: nat, p: Problem): string {
    "<div class=\"practice-problem-item\" data-id=\"" + DecimalString(index) + "\">"
      + "<div class=\"practice-problem-title\">" + p.title + "</div>"
      + "<div class=\"practice-problem-description\">" + Summary(p.description) + "</div>"
      + "<div class=\"practice-problem-difficulty difficulty-" + Lower(Difficulty(p)) + "\">" + Difficulty(p) + "</div>"
      + "</div>"
  }

  /** The entries of the first `n` problems, in order. */
  function Items(problems: seq<Problem>, n: nat): string
    requires n <= |problems|
  {
    if n == 0 then [] else Items(problems, n - 1) + Item(n - 1, problems[n - 1])
  }

  /** `loadPracticeProblems` after its request: the entries in order, the empty state, or the error. */
  method LoadPracticeProblems(f: PracticeFetch) returns (html: string)
    ensures f.PracticeThrew? ==> html == "<div class=\"error-message\">Error loading practice problems: " + f.message + "</div>"
    ensures f.PracticeLoaded? && (f.problems.None? || f.problems.value == []) ==> html == EmptyState
    ensures f.PracticeLoaded? && f.problems.Some? && f.problems.value != [] ==>
      html == Items(f.problems.value, |f.problems.value|)
  {
    if f.PracticeThrew? {
      return "<div class=\"error-message\">Error loading practice problems: " + f.message + "</div>";
    }
    if f.problems.None? || f.problems.value == [] {
      return EmptyState;
    }
    var problems := f.problems.value;
    html := "";
    var i := 0;
    while i < |problems|
      invariant 0 <= i <= |problems|
      invariant html == Items(problems, i)
    {
      html := html + Item(i, problems[i]);
      i := i + 1;
    }
  }
}
