/**
 * The HTTP routes of the root application that decide something themselves:
 * which runner executes the code, the temporary override of the API key in
 * the process environment, the fallback texts of the concept routes, the
 * `code_examples` alias and the shape of the assistant's answer. What the
 * runners and the language-model API return is a parameter.
 */
module App {
  import opened Wrappers
  import opened Strings
  import opened DemoPatterns
  import AiService

  // ================================================================ /api/execute

  datatype Runner = PythonRunner | JavaScriptRunner | JavaRunner

  /** An `HTTPException`: its status code and detail text. */
  datatype HttpError = HttpError(status: nat, detail: string)

  /** The runner for a language, chosen on its lower-cased name; any other language is a 400. */
  function ExecuteTarget(language: string): (r: Result<Runner, HttpError>)
    ensures r == Ok(PythonRunner) <==> Lower(language) == "python"
    ensures r == Ok(JavaScriptRunner) <==> Lower(language) == "javascript"
    ensures r == Ok(JavaRunner) <==> Lower(language) == "java"
    ensures r.Err? ==> r.error == HttpError(400, "Unsupported language: " + language)
  {
    var name := Lower(language);
    if name == "python" then Ok(PythonRunner)
    else if name == "javascript" then Ok(JavaScriptRunner)
    else if name == "java" then Ok(JavaRunner)
    else Err(HttpError(400, "Unsupported language: " + language))
  }

  /** The dispatch ignores case: two spellings of one name reach the same runner. */
  lemma ExecuteIgnoresCase(a: string, b: string)
    requires Lower(a) == Lower(b)
    ensures ExecuteTarget(a).Ok? == ExecuteTarget(b).Ok?
    ensures ExecuteTarget(a).Ok? ==> ExecuteTarget(a) == ExecuteTarget(b)
  {
  }

  /** `Python`, `PYTHON` and `python` all run the Python runner. */
  lemma UpperCaseNameAccepted()
    ensures ExecuteTarget("PYTHON") == Ok(PythonRunner)
    ensures ExecuteTarget("Java") == Ok(JavaRunner)
  {
    assert Lower("PYTHON") == "python";
    assert Lower("Java") == "java";
  }

  // ================================================================ /api/check-openai-status

  const ApiKeyName := "OPENAI_API_KEY"

  /** Python truthiness of an optional string: present and not empty. */
  predicate Truthy(s: Option<string>) {
    s.Some? && s.value != []
  }

  /** The status route's answer. */
  datatype StatusReply = StatusReply(status: string, message: string)

  /**
   * The environment after the route: untouched without a key in the request;
   * with one, the old key back when it was set and not empty, and no key at
   * all otherwise.
   */
  function EnvAfterCheck(vars: map<string, string>, apiKey: Option<string>): map<string, string> {
    if !Truthy(apiKey) then vars
    else if ApiKeyName in vars && vars[ApiKeyName] != [] then vars
    else vars - {ApiKeyName}
  }

  /**
   * The environment comes back as it was except in one case: an original
   * key that was set to the empty string is deleted, not restored. No other
   * variable is touched.
   */
  lemma EnvRestoredUnlessEmpty(vars: map<string, string>, apiKey: Option<string>)
    ensures EnvAfterCheck(vars, apiKey) == vars <==> !(Truthy(apiKey) && ApiKeyName in vars && vars[ApiKeyName] == [])
    ensures forall k | k != ApiKeyName :: (k in EnvAfterCheck(vars, apiKey) <==> k in vars)
    ensures forall k | k != ApiKeyName && k in vars :: EnvAfterCheck(vars, apiKey)[k] == vars[k]
  {
    if Truthy(apiKey) && ApiKeyName in vars && vars[ApiKeyName] == [] {
      assert ApiKeyName !in EnvAfterCheck(vars, apiKey);
    }
  }

  /** Setting a variable and then putting its old value back, or removing it, undoes the setting. */
  lemma SetThenUndo(m: map<string, string>, k: string, v: string)
    ensures k in m ==> m[k := v][k := m[k]] == m
    ensures m[k := v] - {k} == m - {k}
  {
  }

  /** The process environment, of which the routes read and write one variable. */
  class Environment {
    var vars: map<string, string>

    constructor (initial: map<string, string>)
      ensures vars == initial
    {
      vars := initial;
    }

    /** `os.environ.get("OPENAI_API_KEY")`. */
    function OpenAiKey(): Option<string>
      reads this
    {
      if ApiKeyName in vars then Some(vars[ApiKeyName]) else None
    }

    /**
     * `check_openai_status`: a non-empty key in the request is put in the
     * environment for the length of the check; the answer is `ok` exactly when
     * the check passed with the key it saw. `trial` is what the trial call to
     * the API would come to.
     */
    method CheckOpenAiStatus(apiKey: Option<string>, trial: AiService.KeyTrial) returns (reply: StatusReply)
      modifies this
      ensures reply.status == "ok" <==>
        AiService.CheckOpenAiApiKey(if Truthy(apiKey) then apiKey else old(OpenAiKey()), trial)
      ensures reply.status in {"ok", "error"}
      ensures vars == EnvAfterCheck(old(vars), apiKey)
    {
      var isValid: bool;
      if Truthy(apiKey) {
        var originalKey := OpenAiKey();
        SetThenUndo(vars, ApiKeyName, apiKey.value);
        vars := vars[ApiKeyName := apiKey.value];
        var key := OpenAiKey();
        assert key == apiKey;
        isValid := AiService.CheckOpenAiApiKey(key, trial);
        if Truthy(originalKey) {
          vars := vars[ApiKeyName := originalKey.value];
        } else {
          vars := vars - {ApiKeyName};
        }
      } else {
        isValid := AiService.CheckOpenAiApiKey(OpenAiKey(), trial);
      }
      if isValid {
        reply := StatusReply("ok", "OpenAI API key is valid");
      } else {
        reply := StatusReply("error", "OpenAI API key is invalid or missing");
      }
    }
  }

  // ================================================================ /api/concept

  /** Python `capitalize()` on ASCII: the first character upper-cased, every other one lower-cased. */
  function Capitalize(s: string): (r: string)
    ensures |r| == |s|
  {
    if s == [] then [] else [UpperChar(s[0])] + Lower(s[1..])
  }

  /** Each character of a text once every `-` is replaced by a space. */
  lemma {:induction false} HyphensToSpaces(s: string)
    ensures |Replace(s, "-", " ")| == |s|
    ensures forall i | 0 <= i < |s| :: Replace(s, "-", " ")[i] == if s[i] == '-' then ' ' else s[i]
    decreases |s|
  {
    if s != [] {
      HyphensToSpaces(s[1..]);
      var rest := Replace(s[1..], "-", " ");
      if StartsWith(s, "-") {
        assert s[0] == '-';
        assert Replace(s, "-", " ") == " " + rest;
      } else {
        assert s[0] != '-';
        assert Replace(s, "-", " ") == [s[0]] + rest;
      }
    }
  }

  /** The title of the static fallback: hyphens become spaces, then `capitalize()`. */
  function FallbackConceptTitle(concept: string): string {
    Capitalize(Replace(concept, "-", " "))
  }

  /**
   * The fallback title keeps the concept's length, holds no hyphen, and has
   * no upper-case letter after its first character.
   */
  lemma FallbackTitleShape(concept: string)
    ensures |FallbackConceptTitle(concept)| == |concept|
    ensures '-' !in FallbackConceptTitle(concept)
    ensures forall i | 0 < i < |concept| :: !('A' <= FallbackConceptTitle(concept)[i] <= 'Z')
    ensures forall i | 0 < i < |concept| && 'a' <= concept[i] <= 'z' :: FallbackConceptTitle(concept)[i] == concept[i]
    ensures concept != [] && 'a' <= concept[0] <= 'z' ==> FallbackConceptTitle(concept)[0] == UpperChar(concept[0])
  {
    HyphensToSpaces(concept);
    var t := FallbackConceptTitle(concept);
    var spaced := Replace(concept, "-", " ");
    forall i | 0 <= i < |concept| ensures t[i] != '-' {
      if i == 0 {
        assert t[0] == UpperChar(spaced[0]);
      } else {
        assert t[i] == LowerChar(spaced[i]);
      }
    }
    forall i | 0 < i < |concept| ensures !('A' <= t[i] <= 'Z') {
      assert t[i] == Lower(spaced[1..])[i - 1];
    }
  }

  /** What the concept route answers. */
  datatype ConceptInfo = ConceptInfo(title: string, description: string, example: string, realWorld: string)

  /** The topics with content of their own in `get_ai_content`, the long texts cut to their opening words. */
  function TopicInfo(topic: string): (info: ConceptInfo) {
    if topic == "if-else" then ConceptInfo("Conditional Logic with If-Else", "If-else statements allow ...", "temperature = 25", "Conditional logic is ...")
    else if topic == "loops" then ConceptInfo("Iterations with Loops", "Loops are used to ...", "numbers = [1, 2, 3, 4, 5]", "Loops are fundamental ...")
    else if topic == "functions" then ConceptInfo("Code Reusability with Functions", "Functions allow you ...", "def calculate_area(length, width):", "Functions form ...")
    else if topic == "classes" then ConceptInfo("Object-Oriented Programming with Classes", "Classes are blueprints ...", "class BankAccount:", "Classes are essential ...")
    else ConceptInfo("Coding Concepts", "Select a specific topic ...", "# Example code will appear here", "Programming concepts have ...")
  }

  const ContextTopics: seq<string> := ["general", "if-else", "functions", "loops", "classes", "variables",
    "arrays", "strings", "recursion", "data-structures", "algorithms"]

  /** `get_concept_context`: the topic's own text, or the `general` text for a topic it does not know. */
  function ConceptContext(concept: string): (text: string)
    ensures concept !in ContextTopics ==> text == GeneralContext
  {
    if concept in ContextTopics then "Context of " + concept else GeneralContext
  }

  const GeneralContext := "Context of general"

  /**
   * `/api/concept/{concept}`: with a working key, the topic table (whose every
   * entry has all four fields, so no `get` default applies); without one, the
   * static fallback built from the concept's own name.
   */
  function GetConcept(concept: string, keyWorks: bool): (info: ConceptInfo)
    ensures keyWorks ==> info == TopicInfo(concept)
    ensures !keyWorks ==> info.title == FallbackConceptTitle(concept) && info.description == ConceptContext(concept)
  {
    if keyWorks then TopicInfo(concept)
    else ConceptInfo(FallbackConceptTitle(concept), ConceptContext(concept),
      "# " + Capitalize(concept) + " example\ndef example():\n    pass",
      "The " + concept + " concept is widely used in software development.")
  }

  /**
   * A working key makes the route worse for every concept outside the four
   * topics: it answers with the generic "Coding Concepts" title, where the
   * fallback would have named the concept.
   */
  lemma KeyLosesConceptName(concept: string)
    requires concept !in {"if-else", "loops", "functions", "classes"}
    ensures GetConcept(concept, true).title == "Coding Concepts"
    ensures concept != [] && 'a' <= concept[0] <= 'z' ==> GetConcept(concept, false).title[0] == UpperChar(concept[0])
  {
    FallbackTitleShape(concept);
  }

  // ================================================================ /api/concept-examples/{concept}

  /**
   * The alias added for older clients: `code_examples` gets the value of
   * `code` when there is a `code` and no `code_examples`. Nothing already in
   * the result changes.
   */
  method AliasCodeExamples(result: map<string, string>) returns (r: map<string, string>)
    ensures r.Keys == result.Keys + (if "code" in result then {"code_examples"} else {})
    ensures forall k | k in result :: r[k] == result[k]
    ensures "code" in result ==> r["code_examples"] == (if "code_examples" in result then result["code_examples"] else result["code"])
  {
    r := result;
    if "code" in r && "code_examples" !in r {
      r := r["code_examples" := r["code"]];
    }
  }

  /** The answer when `get_concept_examples` raised: both spellings of the code field, with the same text. */
  function ConceptExamplesError(concept: string, language: string): (r: map<string, string>)
    ensures r.Keys == {"title", "description", "code", "code_examples", "explanation"}
    ensures r["code"] == r["code_examples"]
    ensures r["title"] == Capitalize(concept) + " in " + Capitalize(language)
  {
    map["title" := Capitalize(concept) + " in " + Capitalize(language),
        "description" := "Sorry, there was an error generating examples for this concept.",
        "code" := "# No examples available at this time",
        "code_examples" := "# No examples available at this time",
        "explanation" := "Please try again later or select a different concept."]
  }

  // ================================================================ /api/ask

  const AskApology := "I'm sorry, I'm having trouble processing your question right now."
    + " Please try again later or ask a different question."

  /** The assistant route's answer; `error` is present only on the error path. */
  datatype AskResult = AskResult(response: string, status: string, error: Option<string>)

  /** `ask_ai`: the answer with `success`, or the fixed apology with `error` and the exception's text. */
  function AskAi(reply: AiService.ApiReply<string>): (r: AskResult)
    ensures r.status == "success" <==> reply.Answered?
    ensures r.status == "error" <==> reply.Raised?
    ensures reply.Answered? ==> r.response == reply.value && r.error.None?
    ensures reply.Raised? ==> r.response == AskApology && r.error == Some(reply.message)
  {
    match reply
    case Answered(text) => AskResult(text, "success", None)
    case Raised(message) => AskResult(AskApology, "error", Some(message))
  }

  // ================================================================ /api/realworld

  /** The route's own copy of the four-way fallback, used when the service raised. */
  function RouteFallback(code: string): (e: AiService.Example)
    ensures e == AiService.PatternExample(PatternOf(code))
  {
    if Contains(code, "class") then AiService.PatternExample(ClassModel)
    else if Contains(code, "if") && Contains(code, "else") then AiService.PatternExample(Conditional)
    else if Contains(code, "for") || Contains(code, "while") then AiService.PatternExample(Loop)
    else AiService.PatternExample(Plain)
  }

  /** `/api/realworld`: the service's example, or the route's fallback when it raised. */
  function RealWorldRoute(code: string, service: AiService.ApiReply<AiService.Example>): (e: AiService.Example)
    ensures service.Answered? ==> e == service.value
    ensures service.Raised? ==> e == AiService.PatternExample(PatternOf(code))
  {
    match service
    case Answered(example) => example
    case Raised(_) => RouteFallback(code)
  }
}
