/**
 * The deterministic part of the root AI service: the fixed answers it gives
 * when the language-model API is not used or fails (pattern-based examples and
 * demos, the complexity estimate, the canned assistant replies), the repairs it
 * applies to generated demo pages (adding missing script functions and button
 * handlers), and the credentials it lifts from login code for the fallback
 * login demo. The API itself is a parameter: the reply it gave, or the message
 * of the exception it raised.
 */
module AiService {
  import opened Wrappers
  import opened Strings
  import opened DemoPatterns

  // ================================================================ API key and short-code guards

  /** The local part of `check_openai_api_key`: a key is only tried when it has at least 30 non-blank characters. */
  predicate KeyLooksValid(key: Option<string>) {
    key.Some? && key.value != [] && |Trim(Py, key.value)| >= 30
  }

  /**
   * What the trial of a well-formed key came to: the `openai` package is not
   * installed, `models.list()` answered (with a non-empty list or not), or the
   * call raised an exception with this message.
   */
  datatype KeyTrial = PackageMissing | Listed(nonEmpty: bool) | TrialRaised(message: string)

  /** The exception test of `check_openai_api_key`: the message speaks of a quota. */
  predicate MentionsQuota(message: string) {
    Contains(Lower(message), "quota") || Contains(message, "insufficient_quota")
  }

  /**
   * `check_openai_api_key`: a key is accepted when it has at least 30
   * non-blank characters and the trial lists at least one model, or raises an
   * error about the quota (the key itself is then taken to be good).
   */
  function CheckOpenAiApiKey(key: Option<string>, trial: KeyTrial): (ok: bool)
    ensures ok <==> KeyLooksValid(key)
                    && (trial == Listed(true) || (trial.TrialRaised? && MentionsQuota(trial.message)))
  {
    if !KeyLooksValid(key) then false
    else
      match trial
      case PackageMissing => false
      case Listed(nonEmpty) => nonEmpty
      case TrialRaised(message) => MentionsQuota(message)
  }

  /** An `insufficient_quota` error already mentions the quota once lower-cased: the second test adds nothing. */
  lemma InsufficientQuotaMentionsQuota(message: string)
    requires Contains(message, "insufficient_quota")
    ensures Contains(Lower(message), "quota")
  {
    LowerKeepsContains(message, "insufficient_quota");
    assert Lower("insufficient_quota") == "insufficient_quota";
    var q := "insufficient_quota";
    assert q[13..][..5] == "quota";
    ContainsAt(q, "quota", 13);
    ContainsTransitive(Lower(message), q, "quota");
  }

  /** A well-formed key whose trial runs into the quota is still reported valid. */
  lemma QuotaErrorKeepsKeyValid(key: Option<string>, message: string)
    requires KeyLooksValid(key)
    requires Contains(message, "insufficient_quota")
    ensures CheckOpenAiApiKey(key, TrialRaised(message))
  {
    InsufficientQuotaMentionsQuota(message);
  }

  /** The guard of `get_real_world_mapping` and `get_interactive_demo`: empty code, or fewer than 10 characters once stripped. */
  predicate IsShortCode(code: string) {
    code == [] || |Trim(Py, code)| < 10
  }

  /** What the API did: answered with a value, or raised an exception with this message. */
  datatype ApiReply<T> = Answered(value: T) | Raised(message: string)

  /** The two messages the service reads as an exhausted quota. */
  predicate IsQuotaError(message: string) {
    Contains(message, "insufficient_quota") || Contains(message, "exceeded your current quota")
  }

  // ================================================================ real-world examples

  datatype Example = Example(title: string, description: string, realWorldCode: string)

  const WriteSomeCode := Example(
    "Real-World Code Example",
    "Write some code to see a real-world example.",
    "# Write code in the editor to see a real-world example")

  /** The four pattern examples; the code samples are short stand-ins for the real snippets. */
  function PatternExample(p: CodePattern): Example {
    Example(PatternTitle(p), PatternDescription(p), PatternCode(p))
  }

  function PatternTitle(p: CodePattern): string {
    match p
    case ClassModel => "Business Domain Model"
    case Conditional => "Data Validation Pipeline"
    case Loop => "Data Processing Pipeline"
    case Plain => "API Endpoint Handler"
  }

  function PatternDescription(p: CodePattern): string {
    match p
    case ClassModel => "Production applications use domain models to represent business entities."
    case Conditional => "Conditional logic is often used for data validation and processing in ETL jobs."
    case Loop => "Loops are extensively used in data processing workflows for batch operations."
    case Plain => "Professional applications use structured code organization for API endpoints."
  }

  function PatternCode(p: CodePattern): string {
    match p
    case ClassModel => "class Product:\n    ..."
    case Conditional => "def validate_customer_data(customer):\n    ..."
    case Loop => "def process_transaction_batch(transactions):\n    ..."
    case Plain => "def handle_customer_request(request_data):\n    ..."
  }

  /**
   * `get_fallback_example`, an if-chain of its own; the inline fallback at
   * the end of `get_real_world_mapping` is a verbatim copy of it.
   */
  function FallbackExample(code: string): Example {
    if Contains(code, "class") then PatternExample(ClassModel)
    else if Contains(code, "if") && Contains(code, "else") then PatternExample(Conditional)
    else if Contains(code, "for") || Contains(code, "while") then PatternExample(Loop)
    else PatternExample(Plain)
  }

  /** The fallback example follows the shared priority order. */
  lemma FallbackExampleFollowsPattern(code: string)
    ensures FallbackExample(code) == PatternExample(PatternOf(code))
    ensures FallbackExample(code).title in
      {"Business Domain Model", "Data Validation Pipeline", "Data Processing Pipeline", "API Endpoint Handler"}
  {
  }

  const QuotaNote := "\n\nNote: This example was generated using fallback content because the OpenAI API quota has been exceeded. Please update your API key for AI-generated examples."

  /** `dict.get(key, default)` on the JSON object the API answered with. */
  function Get(fields: map<string, string>, key: string, default: string): string {
    if key in fields then fields[key] else default
  }

  /**
   * `get_real_world_mapping`. A missing or short key raises before the call,
   * with a message that is no quota error, so it ends in the pattern fallback.
   */
  function RealWorldMapping(code: string, key: Option<string>, reply: ApiReply<map<string, string>>): (r: Example)
    ensures IsShortCode(code) ==> r == WriteSomeCode
    ensures !IsShortCode(code) && !KeyLooksValid(key) ==> r == PatternExample(PatternOf(code))
    ensures !IsShortCode(code) && KeyLooksValid(key) && reply.Raised? && !IsQuotaError(reply.message)
      ==> r == PatternExample(PatternOf(code))
    ensures !IsShortCode(code) && KeyLooksValid(key) && reply.Raised? && IsQuotaError(reply.message)
      ==> r.title == "API Quota Exceeded - Using Fallback Example"
          && r.description == PatternExample(PatternOf(code)).description + QuotaNote
          && r.realWorldCode == PatternExample(PatternOf(code)).realWorldCode
    ensures !IsShortCode(code) && KeyLooksValid(key) && reply.Answered?
      ==> var fields := reply.value;
          && r.title == (if "title" in fields then fields["title"] else "Real-World Application")
          && r.description == (if "description" in fields then fields["description"]
                               else "How this code applies to professional settings.")
          && r.realWorldCode == (if "real_world_code" in fields then fields["real_world_code"]
                                 else "# No code generated")
  {
    FallbackExampleFollowsPattern(code);
    if IsShortCode(code) then WriteSomeCode
    else if !KeyLooksValid(key) then FallbackExample(code)
    else
      match reply
      case Answered(fields) =>
        Example(Get(fields, "title", "Real-World Application"),
                Get(fields, "description", "How this code applies to professional settings."),
                Get(fields, "real_world_code", "# No code generated"))
      case Raised(message) =>
        if IsQuotaError(message) then
          var e := FallbackExample(code);
          Example("API Quota Exceeded - Using Fallback Example", e.description + QuotaNote, e.realWorldCode)
        else FallbackExample(code)
  }

  /** Short code is answered without the API: the key and the reply make no difference. */
  lemma ShortCodeNeedsNoApi(code: string, k1: Option<string>, k2: Option<string>,
                            r1: ApiReply<map<string, string>>, r2: ApiReply<map<string, string>>)
    requires IsShortCode(code)
    ensures RealWorldMapping(code, k1, r1) == RealWorldMapping(code, k2, r2) == WriteSomeCode
  {
  }

  // ================================================================ inserting a script

  const ScriptClose := "</script>"

  /**
   * The insertion step the demo repairs share: `js` goes immediately before
   * the last `</script>`; without one, a new script element (`opener`, `js`,
   * `</script>`) is appended.
   */
  function InsertScript(html: string, js: string, opener: string): (r: string)
    ensures Contains(html, ScriptClose) ==>
      exists i: nat | i <= |html| ::
        OccursAt(html, ScriptClose, i) && (forall j: nat | i < j :: !OccursAt(html, ScriptClose, j))
        && r == html[..i] + js + html[i..]
    ensures !Contains(html, ScriptClose) ==> r == html + opener + js + ScriptClose
  {
    match RFind(html, ScriptClose)
    case Some(i) => html[..i] + js + html[i..]
    case None => html + opener + js + ScriptClose
  }

  /** The inserted script is in the result, and so is every text of the page that has no `<`. */
  lemma InsertScriptKeeps(html: string, js: string, opener: string, q: string)
    requires Contains(html, q) && '<' !in q
    ensures Contains(InsertScript(html, js, opener), q)
  {
    match RFind(html, ScriptClose)
    case Some(i) =>
      assert html == html[..i] + html[i..];
      assert html[i..][0] == '<';
      SpliceKeepsContains(html[..i], js, html[i..], q);
    case None =>
      ContainsInfix([], html, opener + js + ScriptClose, q);
      assert [] + html + (opener + js + ScriptClose) == html + opener + js + ScriptClose;
  }

  lemma InsertScriptAdds(html: string, js: string, opener: string, q: string)
    requires Contains(js, q)
    ensures Contains(InsertScript(html, js, opener), q)
  {
    match RFind(html, ScriptClose)
    case Some(i) =>
      ContainsInfix(html[..i], js, html[i..], q);
    case None =>
      ContainsInfix(html + opener, js, ScriptClose, q);
  }

  /** `html.replace(attr, attr + ' onclick="call"')`: wires a button to a function. */
  function AddOnclick(html: string, attr: string, call: string): string
    requires attr != []
  {
    Replace(html, attr, attr + (" onclick=\"" + call + "\""))
  }

  // ================================================================ fix_timer_functions

  const StartTimerDecl := "function startTimer"

  /** The inserted timer script (shortened; it declares `startTimer` and its helpers). */
  const StartTimerJs := "let timerInterval; " + StartTimerDecl
    + "() {} function updateTimerDisplay() {} function resetTimer() {} function pauseTimer() {}"

  const TimerIdDashed := "id=\"start-timer\""
  const TimerIdCamel := "id=\"startTimer\""
  const TimerClass := "class=\"start-timer\""

  /** The script step: added only when `startTimer` is referenced and not declared. */
  function WithTimerScript(html: string): string {
    if Contains(html, "startTimer") && !Contains(html, StartTimerDecl) then InsertScript(html, StartTimerJs, "<script>")
    else html
  }

  /** The button step: three attribute rewrites, whenever `startTimer` occurs. */
  function WithTimerButtons(html: string): string {
    if Contains(html, "startTimer") then
      AddOnclick(AddOnclick(AddOnclick(html, TimerIdDashed, "startTimer()"), TimerIdCamel, "startTimer()"),
                 TimerClass, "startTimer()")
    else html
  }

  function TimerFixed(html: string): string {
    WithTimerButtons(WithTimerScript(html))
  }

  /** `fix_timer_functions`, up to its regular-expression button loop. */
  method FixTimerFunctions(html: string) returns (r: string)
    ensures r == TimerFixed(html)
    ensures !Contains(html, "startTimer") ==> r == html
    ensures Contains(html, "startTimer") ==> Contains(r, StartTimerDecl)
  {
    r := html;
    if Contains(r, "startTimer") && !Contains(r, StartTimerDecl) {
      r := InsertScript(r, StartTimerJs, "<script>");
    }
    if Contains(r, "startTimer") {
      r := AddOnclick(r, TimerIdDashed, "startTimer()");
      r := AddOnclick(r, TimerIdCamel, "startTimer()");
      r := AddOnclick(r, TimerClass, "startTimer()");
    }
    if Contains(html, "startTimer") {
      TimerDeclared(html);
    }
  }

  lemma DeclMentionsTimer(s: string)
    requires Contains(s, StartTimerDecl)
    ensures Contains(s, "startTimer")
  {
    assert StartTimerDecl == "function " + "startTimer";
    ContainsInfix("function ", "startTimer", [], "startTimer");
    assert "function " + "startTimer" + [] == StartTimerDecl;
    ContainsTransitive(s, StartTimerDecl, "startTimer");
  }

  // The attribute patterns cannot cut the texts the lemmas below follow: the
  // declaration of `startTimer` has no `"` and no `u` past its head, and
  // `id="start-timer"` has no `T`, no `c` and no `d` past its head.

  lemma DeclUncutByDashed()
    ensures Uncut(StartTimerDecl, TimerIdDashed)
  {
    var q, pat := StartTimerDecl, TimerIdDashed;
    var head, tail := q[..|q| - 1], pat[2..];
    assert head == "function startTime";
    assert tail == "=\"start-timer\"";
    assert '"' !in head;
    assert q[1] == 'u' && 'u' !in tail;
    assert pat[3] == '"';
    UncutByChars(q, pat, '"');
  }

  lemma DeclUncutByCamel()
    ensures Uncut(StartTimerDecl, TimerIdCamel)
  {
    var q, pat := StartTimerDecl, TimerIdCamel;
    var head, tail := q[..|q| - 1], pat[2..];
    assert head == "function startTime";
    assert tail == "=\"startTimer\"";
    assert '"' !in head;
    assert q[1] == 'u' && 'u' !in tail;
    assert pat[3] == '"';
    UncutByChars(q, pat, '"');
  }

  lemma DeclUncutByClass()
    ensures Uncut(StartTimerDecl, TimerClass)
  {
    var q, pat := StartTimerDecl, TimerClass;
    var head, tail := q[..|q| - 1], pat[2..];
    assert head == "function startTime";
    assert tail == "ass=\"start-timer\"";
    assert '"' !in head;
    assert q[1] == 'u' && 'u' !in tail;
    assert pat[6] == '"';
    UncutByChars(q, pat, '"');
  }

  lemma DashedUncutByCamel()
    ensures Uncut(TimerIdDashed, TimerIdCamel)
  {
    var q, pat := TimerIdDashed, TimerIdCamel;
    var head, tail := q[..|q| - 1], pat[2..];
    assert head == "id=\"start-timer";
    assert tail == "=\"startTimer\"";
    assert 'T' !in head;
    assert q[1] == 'd' && 'd' !in tail;
    assert pat[9] == 'T';
    UncutByChars(q, pat, 'T');
  }

  lemma DashedUncutByClass()
    ensures Uncut(TimerIdDashed, TimerClass)
  {
    var q, pat := TimerIdDashed, TimerClass;
    var head, tail := q[..|q| - 1], pat[2..];
    assert head == "id=\"start-timer";
    assert tail == "ass=\"start-timer\"";
    assert 'c' !in head;
    assert q[1] == 'd' && 'd' !in tail;
    assert pat[0] == 'c';
    UncutByChars(q, pat, 'c');
  }

  /** After one run the timer function is declared whenever it is referenced, so a second run inserts nothing. */
  lemma TimerDeclared(html: string)
    requires Contains(html, "startTimer")
    ensures Contains(TimerFixed(html), StartTimerDecl)
    ensures WithTimerScript(TimerFixed(html)) == TimerFixed(html)
  {
    var x := WithTimerScript(html);
    if !Contains(html, StartTimerDecl) {
      ContainsInfix("let timerInterval; ", StartTimerDecl,
        "() {} function updateTimerDisplay() {} function resetTimer() {} function pauseTimer() {}", StartTimerDecl);
      InsertScriptAdds(html, StartTimerJs, "<script>", StartTimerDecl);
    }
    assert Contains(x, StartTimerDecl);
    DeclMentionsTimer(x);
    DeclUncutByDashed();
    DeclUncutByCamel();
    DeclUncutByClass();
    var x1 := AddOnclick(x, TimerIdDashed, "startTimer()");
    var x2 := AddOnclick(x1, TimerIdCamel, "startTimer()");
    ReplaceKeepsContains(x, StartTimerDecl, TimerIdDashed, " onclick=\"" + "startTimer()" + "\"");
    ReplaceKeepsContains(x1, StartTimerDecl, TimerIdCamel, " onclick=\"" + "startTimer()" + "\"");
    ReplaceKeepsContains(x2, StartTimerDecl, TimerClass, " onclick=\"" + "startTimer()" + "\"");
    DeclMentionsTimer(TimerFixed(html));
  }

  /**
   * The button rewrites are not idempotent: on a page with
   * `id="start-timer"` every run adds one more `onclick` attribute.
   */
  lemma TimerFixGrows(html: string)
    requires Contains(html, "startTimer") && Contains(html, TimerIdDashed)
    ensures Contains(TimerFixed(html), TimerIdDashed)
    ensures |TimerFixed(TimerFixed(html))| > |TimerFixed(html)|
  {
    var tail := " onclick=\"" + "startTimer()" + "\"";
    var x := WithTimerScript(html);
    if x != html {
      assert TimerIdDashed == "id=\"start-timer\"";
      InsertScriptKeeps(html, StartTimerJs, "<script>", TimerIdDashed);
    }
    var x1 := AddOnclick(x, TimerIdDashed, "startTimer()");
    var x2 := AddOnclick(x1, TimerIdCamel, "startTimer()");
    DashedUncutByCamel();
    DashedUncutByClass();
    ReplaceKeepsPattern(x, TimerIdDashed, tail);
    ReplaceKeepsContains(x1, TimerIdDashed, TimerIdCamel, tail);
    ReplaceKeepsContains(x2, TimerIdDashed, TimerClass, tail);
    var y := TimerFixed(html);
    TimerDeclared(html);
    DeclMentionsTimer(y);
    var y1 := AddOnclick(y, TimerIdDashed, "startTimer()");
    var y2 := AddOnclick(y1, TimerIdCamel, "startTimer()");
    ReplaceLength(y, TimerIdDashed, TimerIdDashed + tail);
    ReplaceLength(y1, TimerIdCamel, TimerIdCamel + tail);
    ReplaceLength(y2, TimerClass, TimerClass + tail);
  }

  // ================================================================ fix_grade_calculator_demo

  const GradeTerms: seq<string> := ["grade", "average", "calculator", "calculate average", "grading", "student grade"]

  /** Python `any(term in html.lower() for term in ...)`. */
  predicate MentionsGrading(html: string) {
    exists k | 0 <= k < |GradeTerms| :: Contains(Lower(html), GradeTerms[k])
  }

  /** `calculate average` and `student grade` are redundant in the list: they contain `average` and `grade`. */
  lemma GradeTermsRedundant(html: string)
    ensures MentionsGrading(html) <==>
      Contains(Lower(html), "grade") || Contains(Lower(html), "average")
      || Contains(Lower(html), "calculator") || Contains(Lower(html), "grading")
  {
    var l := Lower(html);
    if Contains(l, "calculate average") {
      assert "calculate average" == "calculate " + "average" + [];
      ContainsInfix("calculate ", "average", [], "average");
      ContainsTransitive(l, "calculate average", "average");
    }
    if Contains(l, "student grade") {
      assert "student grade" == "student " + "grade" + [];
      ContainsInfix("student ", "grade", [], "grade");
      ContainsTransitive(l, "student grade", "grade");
    }
    if Contains(l, "grade") { assert Contains(l, GradeTerms[0]); }
    if Contains(l, "average") { assert Contains(l, GradeTerms[1]); }
    if Contains(l, "calculator") { assert Contains(l, GradeTerms[2]); }
    if Contains(l, "grading") { assert Contains(l, GradeTerms[4]); }
  }

  const CalculateGradesJs := "function calculateGrades() {}"
  const CalculateAverageJs := "function calculateAverage() { return average; }"

  predicate IsMissing(html: string, reference: string, declaration: string) {
    Contains(html, reference) && !Contains(html, declaration)
  }

  function GradeScripts(html: string): string {
    (if IsMissing(html, "calculateGrades", "function calculateGrades") then CalculateGradesJs else "")
    + (if IsMissing(html, "calculateAverage", "function calculateAverage") then CalculateAverageJs else "")
  }

  function GradeButtons(html: string): string {
    AddOnclick(AddOnclick(AddOnclick(html, "id=\"calculate-grades\"", "calculateGrades()"),
      "id=\"calculateGrades\"", "calculateGrades()"), "class=\"calculate-grades\"", "calculateGrades()")
  }

  function AverageButtons(html: string): string {
    AddOnclick(AddOnclick(AddOnclick(html, "id=\"calculate-average\"", "calculateAverage()"),
      "id=\"calculateAverage\"", "calculateAverage()"), "class=\"calculate-average\"", "calculateAverage()")
  }

  /** The grade repair on a page that mentions grading. Both flags are taken from the page before any change. */
  function GradeFixed(html: string): string {
    if !MentionsGrading(html) then html
    else
      var js := GradeScripts(html);
      var h1 := if js != "" then InsertScript(html, js, "<script>") else html;
      var h2 := if IsMissing(html, "calculateGrades", "function calculateGrades") then GradeButtons(h1) else h1;
      if IsMissing(html, "calculateAverage", "function calculateAverage") then AverageButtons(h2) else h2
  }

  /** `fix_grade_calculator_demo`, up to its regular-expression button loops. */
  method FixGradeCalculatorDemo(html: string) returns (r: string)
    ensures r == GradeFixed(html)
    ensures !MentionsGrading(html) ==> r == html
    ensures (!IsMissing(html, "calculateGrades", "function calculateGrades")
             && !IsMissing(html, "calculateAverage", "function calculateAverage")) ==> r == html
  {
    if !MentionsGrading(html) {
      return html;
    }
    var needsGrades := IsMissing(html, "calculateGrades", "function calculateGrades");
    var needsAverage := IsMissing(html, "calculateAverage", "function calculateAverage");
    var functionsToAdd := "";
    if needsGrades {
      functionsToAdd := functionsToAdd + CalculateGradesJs;
    }
    assert functionsToAdd == if needsGrades then CalculateGradesJs else "";
    ghost var grades := functionsToAdd;
    if needsAverage {
      functionsToAdd := functionsToAdd + CalculateAverageJs;
    }
    assert functionsToAdd == grades + if needsAverage then CalculateAverageJs else "";
    r := html;
    if functionsToAdd != "" {
      r := InsertScript(r, functionsToAdd, "<script>");
    }
    ghost var h1 := r;
    if needsGrades {
      r := AddOnclick(r, "id=\"calculate-grades\"", "calculateGrades()");
      r := AddOnclick(r, "id=\"calculateGrades\"", "calculateGrades()");
      r := AddOnclick(r, "class=\"calculate-grades\"", "calculateGrades()");
      assert r == GradeButtons(h1);
    }
    ghost var h2 := r;
    if needsAverage {
      r := AddOnclick(r, "id=\"calculate-average\"", "calculateAverage()");
      r := AddOnclick(r, "id=\"calculateAverage\"", "calculateAverage()");
      r := AddOnclick(r, "class=\"calculate-average\"", "calculateAverage()");
      assert r == AverageButtons(h2);
    }
  }

  // ================================================================ add_auto_run_functionality

  /** A helper the auto-run repair supplies: the text that shows it is called, its declaration, and the rest of its code. */
  datatype Helper = Helper(reference: string, declaration: string, rest: string)

  function HelperCode(h: Helper): string {
    "\n" + h.declaration + h.rest
  }

  /**
   * The six helpers with an implementation, in the order they are appended.
   * `calculateAverage` and `startTimer` are also tested, but nothing is added
   * for them here.
   */
  const AutoHelpers: seq<Helper> := [
    Helper("calculateFactorial", "function calculateFactorial", "(n) {}"),
    Helper("calculate(", "function calculate", "() {}"),
    Helper("generateOutput", "function generateOutput", "() {}"),
    Helper("processInput", "function processInput", "() {}"),
    Helper("updateDisplay", "function updateDisplay", "() {}"),
    Helper("validateForm", "function validateForm", "() {}")
  ]

  /** What one check adds: the helper's code when the page calls it without declaring it. */
  function HelperPart(html: string, h: Helper): string {
    if IsMissing(html, h.reference, h.declaration) then HelperCode(h) else ""
  }

  /** The code of every helper the page calls without declaring, in table order. */
  function MissingHelperCode(html: string, helpers: seq<Helper>): string
    decreases |helpers|
  {
    if helpers == [] then ""
    else MissingHelperCode(html, helpers[..|helpers| - 1]) + HelperPart(html, helpers[|helpers| - 1])
  }

  /** Every helper the page calls without declaring has its declaration in the added code. */
  lemma {:induction false} MissingHelpersDeclared(html: string, helpers: seq<Helper>)
    ensures forall k | 0 <= k < |helpers| && IsMissing(html, helpers[k].reference, helpers[k].declaration) ::
      Contains(MissingHelperCode(html, helpers), helpers[k].declaration)
    decreases |helpers|
  {
    if helpers != [] {
      var init := MissingHelperCode(html, helpers[..|helpers| - 1]);
      var h := helpers[|helpers| - 1];
      var code := HelperPart(html, h);
      assert MissingHelperCode(html, helpers) == init + code;
      MissingHelpersDeclared(html, helpers[..|helpers| - 1]);
      forall k | 0 <= k < |helpers| && IsMissing(html, helpers[k].reference, helpers[k].declaration)
        ensures Contains(init + code, helpers[k].declaration)
      {
        if k < |helpers| - 1 {
          assert helpers[..|helpers| - 1][k] == helpers[k];
          ContainsBefore(init, code, helpers[k].declaration);
        } else {
          PartDeclares(html, init, h);
        }
      }
    }
  }

  lemma ContainsBefore(a: string, b: string, pat: string)
    requires Contains(a, pat)
    ensures Contains(a + b, pat)
  {
    ContainsInfix([], a, b, pat);
    assert [] + a + b == a + b;
  }

  lemma PartDeclares(html: string, init: string, h: Helper)
    requires IsMissing(html, h.reference, h.declaration)
    ensures Contains(init + HelperPart(html, h), h.declaration)
  {
    ContainsInfix("\n", h.declaration, h.rest, h.declaration);
    ContainsInfix(init, HelperCode(h), [], h.declaration);
    assert init + HelperCode(h) + [] == init + HelperPart(html, h);
  }

  lemma MissingHelperCodeStep(html: string, helpers: seq<Helper>, k: nat)
    requires k < |helpers|
    ensures MissingHelperCode(html, helpers[..k + 1]) == MissingHelperCode(html, helpers[..k]) + HelperPart(html, helpers[k])
  {
    assert helpers[..k + 1][..k] == helpers[..k];
  }

  /** A six-entry table's fold written out: one part per check. */
  lemma SixHelperParts(html: string, t: seq<Helper>)
    requires |t| == 6
    ensures MissingHelperCode(html, t) == HelperPart(html, t[0]) + HelperPart(html, t[1])
      + HelperPart(html, t[2]) + HelperPart(html, t[3]) + HelperPart(html, t[4]) + HelperPart(html, t[5])
  {
    var m1, m2, m3 := MissingHelperCode(html, t[..1]), MissingHelperCode(html, t[..2]), MissingHelperCode(html, t[..3]);
    var m4, m5 := MissingHelperCode(html, t[..4]), MissingHelperCode(html, t[..5]);
    FirstHelperPart(html, t);
    MissingHelperCodeStep(html, t, 1);
    MissingHelperCodeStep(html, t, 2);
    MissingHelperCodeStep(html, t, 3);
    MissingHelperCodeStep(html, t, 4);
    MissingHelperCodeStep(html, t, 5);
    assert t[..6] == t;
  }

  lemma FirstHelperPart(html: string, t: seq<Helper>)
    requires |t| >= 1
    ensures MissingHelperCode(html, t[..1]) == HelperPart(html, t[0])
  {
    assert t[..1][..0] == [];
  }

  /**
   * The notification script of ai_service.py:832-1068, shortened to the
   * names it defines: the container factory, the two `window` hooks the
   * auto-run script calls, and the button enhancer.
   */
  const NotificationJs := NotifyFactory + NotifyMessage + NotifyAchievement + NotifyButtons
  const NotifyFactory := "function createNotificationSystem() {"
  const NotifyMessage := " window.showSuccessMessage = function(message) {};"
  const NotifyAchievement := " window.showAchievement = function(title, message) {}; }"
  const NotifyButtons := " function enhanceButtonClicks() {}"

  /**
   * The auto-run script of ai_service.py:1072-1186, shortened to its
   * statements: a new `window.onload` that starts the notifications, tries
   * the common entry points by name, and enhances the buttons.
   */
  const AutoRunJs := AutoRunOpen + AutoRunNames1 + AutoRunNames2 + AutoRunNames3 + AutoRunClose
  const AutoRunOpen := "window.onload = function() { createNotificationSystem();"
  const AutoRunNames1 := " const commonFunctions = ['calculateFactorial', 'startTimer', 'calculateAverage', 'processInput',"
  const AutoRunNames2 := " 'runSimulation', 'updateChart', 'updateDisplay', 'visualize', 'calculate', 'update',"
  const AutoRunNames3 := " 'showResult', 'generateOutput', 'runExample', 'displayFactorialResult', 'updateTimer', 'validateForm'];"
  const AutoRunClose := " enhanceButtonClicks(); };"

  /** The page after the auto-run repair; `rewriteOnload` stands for the `re.sub` on `window.onload`. */
  function AutoRunAdded(html: string, rewriteOnload: string -> string): string {
    var page := if Contains(html, "window.onload") then rewriteOnload(html) else html;
    InsertScript(page, MissingHelperCode(html, AutoHelpers) + NotificationJs + AutoRunJs, "\n<script>")
  }

  /** `add_auto_run_functionality`: six checks that append helper code, then one insertion. */
  method AddAutoRunFunctionality(html: string, rewriteOnload: string -> string) returns (r: string)
    ensures r == AutoRunAdded(html, rewriteOnload)
  {
    var implementations := AutoRunImplementations(html);
    var allJs := implementations + NotificationJs + AutoRunJs;
    r := html;
    if Contains(r, "window.onload") {
      r := rewriteOnload(r);
    }
    r := InsertScript(r, allJs, "\n<script>");
  }

  /** The six checks of `add_auto_run_functionality`, in their order. */
  method AutoRunImplementations(html: string) returns (implementations: string)
    ensures implementations == MissingHelperCode(html, AutoHelpers)
  {
    implementations := "";
    if IsMissing(html, AutoHelpers[0].reference, AutoHelpers[0].declaration) {
      implementations := implementations + HelperCode(AutoHelpers[0]);
    }
    assert implementations == HelperPart(html, AutoHelpers[0]);
    if IsMissing(html, AutoHelpers[1].reference, AutoHelpers[1].declaration) {
      implementations := implementations + HelperCode(AutoHelpers[1]);
    }
    assert implementations == HelperPart(html, AutoHelpers[0]) + HelperPart(html, AutoHelpers[1]);
    if IsMissing(html, AutoHelpers[2].reference, AutoHelpers[2].declaration) {
      implementations := implementations + HelperCode(AutoHelpers[2]);
    }
    assert implementations == HelperPart(html, AutoHelpers[0]) + HelperPart(html, AutoHelpers[1]) + HelperPart(html, AutoHelpers[2]);
    if IsMissing(html, AutoHelpers[3].reference, AutoHelpers[3].declaration) {
      implementations := implementations + HelperCode(AutoHelpers[3]);
    }
    assert implementations == HelperPart(html, AutoHelpers[0]) + HelperPart(html, AutoHelpers[1]) + HelperPart(html, AutoHelpers[2]) + HelperPart(html, AutoHelpers[3]);
    if IsMissing(html, AutoHelpers[4].reference, AutoHelpers[4].declaration) {
      implementations := implementations + HelperCode(AutoHelpers[4]);
    }
    assert implementations == HelperPart(html, AutoHelpers[0]) + HelperPart(html, AutoHelpers[1]) + HelperPart(html, AutoHelpers[2]) + HelperPart(html, AutoHelpers[3]) + HelperPart(html, AutoHelpers[4]);
    if IsMissing(html, AutoHelpers[5].reference, AutoHelpers[5].declaration) {
      implementations := implementations + HelperCode(AutoHelpers[5]);
    }
    assert implementations == HelperPart(html, AutoHelpers[0]) + HelperPart(html, AutoHelpers[1]) + HelperPart(html, AutoHelpers[2]) + HelperPart(html, AutoHelpers[3]) + HelperPart(html, AutoHelpers[4]) + HelperPart(html, AutoHelpers[5]);
    SixHelperParts(html, AutoHelpers);
  }

  /**
   * Every listed helper the page calls but does not declare is declared
   * afterwards, and a page without `window.onload` survives around the
   * inserted script. Since the notification script is always inserted, the
   * repair is never idempotent: the page always grows.
   */
  lemma AutoRunDeclaresHelpers(html: string, rewriteOnload: string -> string)
    ensures forall k | 0 <= k < |AutoHelpers| && IsMissing(html, AutoHelpers[k].reference, AutoHelpers[k].declaration) ::
      Contains(AutoRunAdded(html, rewriteOnload), AutoHelpers[k].declaration)
    ensures !Contains(html, "window.onload") ==> |AutoRunAdded(html, rewriteOnload)| > |html|
  {
    var page := if Contains(html, "window.onload") then rewriteOnload(html) else html;
    InsertedHelpersDeclared(page, html, AutoHelpers, NotificationJs, AutoRunJs, "\n<script>");
  }

  /** Whatever the page held, the repaired page carries the notification script and the new `window.onload`. */
  lemma AutoRunInstallsOnload(html: string, rewriteOnload: string -> string)
    ensures Contains(AutoRunAdded(html, rewriteOnload), NotificationJs)
    ensures Contains(AutoRunAdded(html, rewriteOnload), AutoRunJs)
  {
    var page := if Contains(html, "window.onload") then rewriteOnload(html) else html;
    InsertedScriptsKept(page, MissingHelperCode(html, AutoHelpers), NotificationJs, AutoRunJs, "\n<script>");
  }

  lemma InsertedScriptsKept(page: string, code: string, js1: string, js2: string, opener: string)
    ensures Contains(InsertScript(page, code + js1 + js2, opener), js1)
    ensures Contains(InsertScript(page, code + js1 + js2, opener), js2)
  {
    ContainsAt(js1, js1, 0);
    ContainsInfix(code, js1, js2, js1);
    InsertScriptAdds(page, code + js1 + js2, opener, js1);
    ContainsAt(js2, js2, 0);
    ContainsInfix(code + js1, js2, [], js2);
    assert code + js1 + js2 + [] == code + js1 + js2;
    InsertScriptAdds(page, code + js1 + js2, opener, js2);
  }

  lemma InsertedHelpersDeclared(page: string, html: string, helpers: seq<Helper>, js1: string, js2: string, opener: string)
    ensures forall k | 0 <= k < |helpers| && IsMissing(html, helpers[k].reference, helpers[k].declaration) ::
      Contains(InsertScript(page, MissingHelperCode(html, helpers) + js1 + js2, opener), helpers[k].declaration)
  {
    var code := MissingHelperCode(html, helpers);
    var js := code + js1 + js2;
    MissingHelpersDeclared(html, helpers);
    forall k | 0 <= k < |helpers| && IsMissing(html, helpers[k].reference, helpers[k].declaration)
      ensures Contains(InsertScript(page, js, opener), helpers[k].declaration)
    {
      ContainsInfix([], code, js1 + js2, helpers[k].declaration);
      assert [] + code + (js1 + js2) == js;
      InsertScriptAdds(page, js, opener, helpers[k].declaration);
    }
  }

  // ================================================================ fix_common_demo_issues

  function CommonFixes(html: string, rewriteOnload: string -> string): string {
    AutoRunAdded(TimerFixed(GradeFixed(html)), rewriteOnload)
  }

  /** `fix_common_demo_issues`: the grade repair, then the timer repair, then the auto-run repair. */
  method FixCommonDemoIssues(html: string, rewriteOnload: string -> string) returns (r: string)
    ensures r == CommonFixes(html, rewriteOnload)
  {
    r := FixGradeCalculatorDemo(html);
    r := FixTimerFunctions(r);
    r := AddAutoRunFunctionality(r, rewriteOnload);
  }

  // ================================================================ credentials for the fallback login demo

  predicate IsQuote(c: char) {
    c == '\'' || c == '"'
  }

  /**
   * One character of a lower-case ASCII keyword under `re.IGNORECASE`: the
   * letter, its capital, and for `s` also the long s (U+017F), which Python's
   * case-insensitive matching treats as an `s`.
   */
  predicate MatchesIgnoringCase(c: char, k: char) {
    c == k || c == UpperChar(k) || (k == 's' && c as int == 0x17F)
  }

  predicate KeywordAt(s: string, i: nat, word: string) {
    i + |word| <= |s| && forall k | 0 <= k < |word| :: MatchesIgnoringCase(s[i + k], word[k])
  }

  /** The first index from `i` on that is not whitespace: where `\s*` stops. */
  function SkipSpace(s: string, i: nat): (j: nat)
    requires i <= |s|
    ensures i <= j <= |s| && (j == |s| || !IsPySpace(s[j]))
    ensures forall k | i <= k < j :: IsPySpace(s[k])
    decreases |s| - i
  {
    if i < |s| && IsPySpace(s[i]) then SkipSpace(s, i + 1) else i
  }

  /** The first quote from `i` on: where `[^'"]+` stops. */
  function SkipValue(s: string, i: nat): (j: nat)
    requires i <= |s|
    ensures i <= j <= |s| && (j == |s| || IsQuote(s[j]))
    ensures forall k | i <= k < j :: !IsQuote(s[k])
    decreases |s| - i
  {
    if i < |s| && !IsQuote(s[i]) then SkipValue(s, i + 1) else i
  }

  /**
   * The alternative `word\s*=\s*['"]([^'"]+)['"]` tried at `i`, giving its
   * group. Greedy runs decide it without backtracking: each run is followed by
   * a character (`=` or a quote) the run itself never takes. The two quotes
   * need not be the same character.
   */
  function AssignmentAt(s: string, i: nat, word: string): (r: Option<string>)
    requires i <= |s|
    ensures r.Some? ==> r.value != [] && forall k | 0 <= k < |r.value| :: !IsQuote(r.value[k])
  {
    if !KeywordAt(s, i, word) then None
    else
      var eq := SkipSpace(s, i + |word|);
      if eq == |s| || s[eq] != '=' then None
      else
        var open := SkipSpace(s, eq + 1);
        if open == |s| || !IsQuote(s[open]) then None
        else
          var close := SkipValue(s, open + 1);
          if close == |s| || close == open + 1 then None
          else Some(s[open + 1..close])
  }

  /** `first|second` at one position: the first alternative is tried first. */
  function EitherAt(s: string, i: nat, first: string, second: string): Option<string>
    requires i <= |s|
  {
    var a := AssignmentAt(s, i, first);
    if a.Some? then a else AssignmentAt(s, i, second)
  }

  /** `pattern.search(s)` from `i`: the leftmost position where the pattern matches. */
  function SearchFrom(s: string, i: nat, first: string, second: string): (r: Option<nat>)
    requires i <= |s|
    ensures r.Some? ==> i <= r.value <= |s| && EitherAt(s, r.value, first, second).Some?
    ensures forall j | i <= j <= |s| && (r.None? || j < r.value) :: EitherAt(s, j, first, second).None?
    decreases |s| - i
  {
    if EitherAt(s, i, first, second).Some? then Some(i)
    else if i == |s| then None
    else
      var r := SearchFrom(s, i + 1, first, second);
      NoMatchBefore(s, i, first, second, r);
      r
  }

  /** A miss at `i` extends the misses the search from `i + 1` found to `i`. */
  lemma NoMatchBefore(s: string, i: nat, first: string, second: string, r: Option<nat>)
    requires i < |s| && EitherAt(s, i, first, second).None?
    requires forall j | i + 1 <= j <= |s| && (r.None? || j < r.value) :: EitherAt(s, j, first, second).None?
    ensures forall j | i <= j <= |s| && (r.None? || j < r.value) :: EitherAt(s, j, first, second).None?
  {
    forall j | i <= j <= |s| && (r.None? || j < r.value)
      ensures EitherAt(s, j, first, second).None?
    {
      if j > i {
        assert i + 1 <= j;
      }
    }
  }

  /** `group(1) or group(2)` of the leftmost match, or the default when there is none. */
  function Extracted(code: string, first: string, second: string, default: string): (r: string)
    requires default != [] && forall k | 0 <= k < |default| :: !IsQuote(default[k])
    ensures r != [] && forall k | 0 <= k < |r| :: !IsQuote(r[k])
    ensures r == default || exists j | 0 <= j <= |code| :: EitherAt(code, j, first, second) == Some(r)
  {
    match SearchFrom(code, 0, first, second)
    case None => default
    case Some(j) => EitherAt(code, j, first, second).value
  }

  /** The leftmost match decides, whatever matches later. */
  lemma LeftmostMatchWins(code: string, first: string, second: string, default: string, j: nat)
    requires default != [] && forall k | 0 <= k < |default| :: !IsQuote(default[k])
    requires j <= |code| && EitherAt(code, j, first, second).Some?
    requires forall k | 0 <= k < j :: EitherAt(code, k, first, second).None?
    ensures Extracted(code, first, second, default) == EitherAt(code, j, first, second).value
  {
    var r := SearchFrom(code, 0, first, second);
    assert r.Some?;
    assert r.value == j;
  }

  /** When nothing matches, the default is used. */
  lemma NoMatchDefault(code: string, first: string, second: string, default: string)
    requires default != [] && forall k | 0 <= k < |default| :: !IsQuote(default[k])
    requires forall j | 0 <= j <= |code| :: EitherAt(code, j, first, second).None?
    ensures Extracted(code, first, second, default) == default
  {
    assert SearchFrom(code, 0, first, second).None?;
  }

  datatype Credentials = Credentials(username: string, password: string)

  /** The username and password of the fallback login demo. */
  function ExtractCredentials(code: string): (c: Credentials)
    ensures c.username != [] && forall k | 0 <= k < |c.username| :: !IsQuote(c.username[k])
    ensures c.password != [] && forall k | 0 <= k < |c.password| :: !IsQuote(c.password[k])
  {
    Credentials(Extracted(code, "username", "user", "admin"), Extracted(code, "password", "pwd", "password123"))
  }

  /** `user = 'bob'` does not match `username` at 0, so the second alternative gives `bob`. */
  lemma ExtractsSecondAlternative()
    ensures ExtractCredentials("user = 'bob'").username == "bob"
  {
    var s := "user = 'bob'";
    assert !KeywordAt(s, 0, "username") by {
      assert !MatchesIgnoringCase(s[4], "username"[4]);
    }
    assert KeywordAt(s, 0, "user");
    assert SkipSpace(s, 4) == 5;
    assert SkipSpace(s, 6) == 7;
    assert SkipValue(s, 8) == 11;
    assert s[8..11] == "bob";
    LeftmostMatchWins(s, "username", "user", "admin", 0);
  }

  /** The words that make the fallback demo a login demo, tested on the lower-cased code. */
  predicate MentionsLogin(code: string) {
    var l := Lower(code);
    Contains(l, "login") || Contains(l, "password") || Contains(l, "authenticate") || Contains(l, "credentials")
  }

  /** The fallback login demo (shortened to the places where the extracted pair appears: the check and the hint). */
  function LoginDemoHtml(c: Credentials): string {
    "<h2>Authentication Demo</h2>" + "if (username === '" + c.username + "' && password === '" + c.password
    + "')" + "Hint: Use " + c.username + "/" + c.password
  }

  /** The four pattern demos, each shortened to its heading. */
  function PatternDemo(p: CodePattern): string {
    match p
    case ClassModel => "<h4>Object Creator</h4>"
    case Conditional => "<h4>Conditional Flow Simulator</h4>"
    case Loop => "<h4>Loop Visualizer</h4>"
    case Plain => "<h4>Code Execution Simulator</h4>"
  }

  /**
   * The pattern fallback of `get_interactive_demo`. The login template module
   * cannot be loaded, so login code always takes the built-in login demo with
   * the extracted credentials.
   */
  function FallbackDemo(code: string): string {
    if MentionsLogin(code) then LoginDemoHtml(ExtractCredentials(code))
    else if Contains(code, "class") then PatternDemo(ClassModel)
    else if Contains(code, "if") && Contains(code, "else") then PatternDemo(Conditional)
    else if Contains(code, "for") || Contains(code, "while") then PatternDemo(Loop)
    else PatternDemo(Plain)
  }

  /** Credentials are only looked for in login code; other code follows the shared priority order. */
  lemma FallbackDemoFollowsPattern(code: string)
    ensures MentionsLogin(code) ==> FallbackDemo(code) == LoginDemoHtml(ExtractCredentials(code))
    ensures !MentionsLogin(code) ==> FallbackDemo(code) == PatternDemo(PatternOf(code))
  {
  }

  const ShortCodeDemo := "<div style='padding:15px; text-align:center;'>Write some code to see an interactive demo based on real-world usage scenarios.</div>"
  const QuotaDemo := "<h2>API Quota Exceeded</h2>"

  /**
   * `get_interactive_demo`'s `demo_html`. An answered reply is the demo
   * already taken out of the model's text; it then goes through the common
   * repairs.
   */
  function InteractiveDemo(code: string, key: Option<string>, reply: ApiReply<string>,
                           rewriteOnload: string -> string): (r: string)
    ensures IsShortCode(code) ==> r == ShortCodeDemo
    ensures !IsShortCode(code) && (!KeyLooksValid(key) || (reply.Raised? && !IsQuotaError(reply.message)))
      ==> r == FallbackDemo(code)
    ensures !IsShortCode(code) && KeyLooksValid(key) && reply.Raised? && IsQuotaError(reply.message) ==> r == QuotaDemo
    ensures !IsShortCode(code) && KeyLooksValid(key) && reply.Answered? ==> r == CommonFixes(reply.value, rewriteOnload)
  {
    if IsShortCode(code) then ShortCodeDemo
    else if !KeyLooksValid(key) then FallbackDemo(code)
    else
      match reply
      case Answered(demo) => CommonFixes(demo, rewriteOnload)
      case Raised(message) => if IsQuotaError(message) then QuotaDemo else FallbackDemo(code)
  }

  // ================================================================ get_fallback_complexity_analysis

  predicate IsBlank(line: string) {
    Trim(Py, line) == []
  }

  /** `(len(line) - len(line.lstrip())) // 4`. */
  function IndentLevel(line: string): nat {
    (|line| - |TrimStart(Py, line)|) / 4
  }

  /** The deepest indentation level among the non-blank lines (0 when there is none). */
  function MaxIndent(lines: seq<string>): nat {
    if lines == [] then 0
    else
      var m := MaxIndent(lines[..|lines| - 1]);
      var last := lines[|lines| - 1];
      if !IsBlank(last) && IndentLevel(last) > m then IndentLevel(last) else m
  }

  /** No non-blank line is deeper than `MaxIndent`. */
  lemma {:induction false} MaxIndentBounds(lines: seq<string>)
    ensures forall k | 0 <= k < |lines| && !IsBlank(lines[k]) :: IndentLevel(lines[k]) <= MaxIndent(lines)
  {
    if lines != [] {
      var init := lines[..|lines| - 1];
      var last := lines[|lines| - 1];
      MaxIndentBounds(init);
      assert MaxIndent(lines) >= MaxIndent(init);
      assert !IsBlank(last) ==> IndentLevel(last) <= MaxIndent(lines);
      forall k | 0 <= k < |lines| && !IsBlank(lines[k]) ensures IndentLevel(lines[k]) <= MaxIndent(lines) {
        if k < |init| {
          assert init[k] == lines[k];
        }
      }
    }
  }

  /** `MaxIndent` is 0 or the level of some non-blank line. */
  lemma {:induction false} MaxIndentAttained(lines: seq<string>)
    ensures MaxIndent(lines) == 0 || exists k | 0 <= k < |lines| :: !IsBlank(lines[k]) && IndentLevel(lines[k]) == MaxIndent(lines)
  {
    if lines != [] {
      var init := lines[..|lines| - 1];
      var last := |lines| - 1;
      MaxIndentAttained(init);
      if MaxIndent(lines) != MaxIndent(init) {
        assert !IsBlank(lines[last]) && IndentLevel(lines[last]) == MaxIndent(lines);
      } else if MaxIndent(init) != 0 {
        var k :| 0 <= k < |init| && !IsBlank(init[k]) && IndentLevel(init[k]) == MaxIndent(init);
        assert lines[k] == init[k];
      }
    }
  }

  lemma MaxIndentStep(lines: seq<string>, i: nat)
    requires i < |lines|
    ensures MaxIndent(lines[..i + 1]) ==
      if !IsBlank(lines[i]) && IndentLevel(lines[i]) > MaxIndent(lines[..i]) then IndentLevel(lines[i]) else MaxIndent(lines[..i])
  {
    assert lines[..i + 1][..i] == lines[..i];
  }

  function FallbackLines(code: string): seq<string> {
    Split(Trim(Py, code), "\n")
  }

  datatype ComplexityReport = ComplexityReport(
    score: int, factors: seq<string>, suggestions: seq<string>, explanation: string,
    keyConcepts: seq<string>, comparison: string)

  /** The fixed texts of the fallback analysis around its score (the explanation and the comparison cut to their opening words). */
  function FallbackReport(score: int): (report: ComplexityReport)
    ensures report.score == score
  {
    ComplexityReport(
      score,
      ["Line count", "Indentation depth"],
      ["Consider breaking down long functions", "Use clear variable names"],
      "This is a basic analysis without AI.",
      ["Basic programming constructs"],
      "Like reading a recipe")
  }

  /** `get_fallback_complexity_analysis`: the score grows with the line count and the deepest indentation, capped at 10. */
  method FallbackComplexityAnalysis(code: string) returns (report: ComplexityReport)
    ensures 1 <= report.score <= 10
    ensures var lines := FallbackLines(code);
            var raw := 1 + |lines| / 10 + MaxIndent(lines);
            report.score == if raw < 10 then raw else 10
  {
    var lines := FallbackLines(code);
    var maxIndentation := DeepestIndent(lines);
    var raw := 1 + |lines| / 10 + maxIndentation;
    var score := if raw < 10 then raw else 10;
    report := FallbackReport(score);
  }

  /** The loop of `get_fallback_complexity_analysis` over the stripped lines. */
  method DeepestIndent(lines: seq<string>) returns (maxIndentation: nat)
    ensures maxIndentation == MaxIndent(lines)
  {
    maxIndentation := 0;
    for i := 0 to |lines|
      invariant maxIndentation == MaxIndent(lines[..i])
    {
      MaxIndentStep(lines, i);
      var line := lines[i];
      if Trim(Py, line) != [] {
        var indentation := |line| - |TrimStart(Py, line)|;
        assert indentation / 4 == IndentLevel(line);
        if indentation / 4 > maxIndentation {
          maxIndentation := indentation / 4;
        }
      }
    }
    assert lines[..|lines|] == lines;
  }

  // ================================================================ get_fallback_ai_response

  /** The canned replies (their texts are not modelled). */
  datatype AiReply =
    | Troubleshooting
    | HowConditionalsWork | HowFunctionsWork | HowLoopsWork
    | ConditionalExample | FunctionExample
    | GeneralHelp

  predicate AsksToFix(q: string) {
    Contains(q, "error") || Contains(q, "not working") || Contains(q, "fix")
  }

  predicate AsksHowItWorks(q: string) {
    Contains(q, "how") && Contains(q, "work")
  }

  /** `get_fallback_ai_response`, on the lower-cased question. */
  function FallbackAiResponse(question: string, concept: string): AiReply {
    var q := Lower(question);
    if AsksToFix(q) then Troubleshooting
    else if AsksHowItWorks(q) && concept == "if-else" then HowConditionalsWork
    else if AsksHowItWorks(q) && concept == "functions" then HowFunctionsWork
    else if AsksHowItWorks(q) && concept == "loops" then HowLoopsWork
    else if Contains(q, "example") && concept == "if-else" then ConditionalExample
    else if Contains(q, "example") && concept == "functions" then FunctionExample
    else GeneralHelp
  }

  /**
   * "not working" is a trouble phrase, so such a question never reaches the
   * how-it-works answers even though it contains "work".
   */
  lemma NotWorkingIsTrouble(question: string, concept: string)
    requires Contains(Lower(question), "not working")
    ensures FallbackAiResponse(question, concept) == Troubleshooting
  {
  }

  /** Each reply, exactly characterised by the question's words and the concept. */
  lemma FallbackReplyCases(question: string, concept: string)
    ensures var q, r := Lower(question), FallbackAiResponse(question, concept);
      && (r == Troubleshooting <==> AsksToFix(q))
      && (r == HowConditionalsWork <==> !AsksToFix(q) && AsksHowItWorks(q) && concept == "if-else")
      && (r == HowFunctionsWork <==> !AsksToFix(q) && AsksHowItWorks(q) && concept == "functions")
      && (r == HowLoopsWork <==> !AsksToFix(q) && AsksHowItWorks(q) && concept == "loops")
      && (r == ConditionalExample <==> !AsksToFix(q) && Contains(q, "example") && concept == "if-else" && !AsksHowItWorks(q))
      && (r == FunctionExample <==> !AsksToFix(q) && Contains(q, "example") && concept == "functions" && !AsksHowItWorks(q))
      && (r == GeneralHelp <==>
            !AsksToFix(q)
            && ((concept != "if-else" && concept != "functions" && concept != "loops")
                || (concept == "loops" && !AsksHowItWorks(q))
                || (concept != "loops" && !AsksHowItWorks(q) && !Contains(q, "example"))))
  {
  }
}
