/**
 * The browser's fixed teaching tables: the example code for a concept in a
 * language, the concept descriptions, and the real-world example records.
 * The code samples are short stand-ins for the real snippets; the lookups
 * and their fallbacks are exact.
 */
module ConceptExamples {
  import opened Wrappers
  import opened Strings
  import App

  // ================================================================ getConceptExamples

  const Unavailable := "// Example code for this concept and language combination is not available."

  /** The (concept, language) pairs the example table holds. */
  predicate Available(concept: string, language: string) {
    (concept == "if-else" && language in {"python", "javascript", "java"})
    || (concept in {"loops", "functions", "oops"} && language in {"python", "javascript"})
    || (concept in {"recursion", "data-structures"} && language == "python")
  }

  /** `examples[concept]?.[language]`: the table's entry, if there is one. */
  function ExampleCode(concept: string, language: string): (r: Option<string>)
    ensures r.Some? <==> Available(concept, language)
    ensures r.Some? ==> r.value != []
  {
    if concept == "if-else" then
      if language == "python" then Some("# Example of if-else statements in Python")
      else if language == "javascript" then Some("// Example of if-else statements in JavaScript")
      else if language == "java" then Some("// Example of if-else statements in Java")
      else None
    else if concept == "loops" then
      if language == "python" then Some("# Examples of loops in Python")
      else if language == "javascript" then Some("// Examples of loops in JavaScript")
      else None
    else if concept == "functions" then
      if language == "python" then Some("# Examples of functions in Python")
      else if language == "javascript" then Some("// Examples of functions in JavaScript")
      else None
    else if concept == "oops" then
      if language == "python" then Some("# Example of OOP in Python")
      else if language == "javascript" then Some("// Example of OOP in JavaScript")
      else None
    else if concept == "recursion" then
      if language == "python" then Some("# Examples of recursion in Python") else None
    else if concept == "data-structures" then
      if language == "python" then Some("# Examples of data structures in Python") else None
    else None
  }

  /**
   * `getConceptExamples`: the table's code, else the fixed remark; there is
   * no fallback to the Python entry. Never empty.
   */
  function GetConceptExamples(concept: string, language: string): (code: string)
    ensures code != []
    ensures Available(concept, language) ==> code == ExampleCode(concept, language).value
    ensures !Available(concept, language) ==> code == Unavailable
  {
    match ExampleCode(concept, language)
    case Some(c) => c
    case None => Unavailable
  }

  /** A concept that has Python code but not the asked-for language gets the remark, not the Python code. */
  lemma NoPythonFallback(concept: string, language: string)
    requires concept in {"recursion", "data-structures"} && language != "python"
    ensures GetConceptExamples(concept, language) == Unavailable
    ensures GetConceptExamples(concept, "python") != Unavailable
  {
    assert ExampleCode(concept, "python").Some?;
    assert |ExampleCode(concept, "python").value| < |Unavailable|;
  }

  // ================================================================ getConceptDescription

  datatype Description = Description(title: string, description: string, realWorldUse: string)

  /** The six described concepts. */
  const Descriptions: map<string, Description> := map[
    "if-else" := Description("Conditional Logic with If-Else Statements", "If-else statements allow ...", "Used in user authentication ..."),
    "loops" := Description("Iterative Processing with Loops", "Loops allow you ...", "Used in data processing ..."),
    "functions" := Description("Modular Code with Functions", "Functions are reusable ...", "Used throughout programming ..."),
    "oops" := Description("Object-Oriented Programming", "OOP is a programming paradigm ...", "Used in large software systems ..."),
    "recursion" := Description("Self-Referential Solutions with Recursion", "Recursion is a technique ...", "Used in algorithms ..."),
    "data-structures" := Description("Organizing Data with Data Structures", "Data structures are ...", "Used throughout programming ...")
  ]

  /** `concept.charAt(0).toUpperCase() + concept.slice(1)`, on ASCII. */
  function UpperFirst(concept: string): (t: string)
    ensures |t| == |concept|
    ensures concept != [] ==> t[0] == UpperChar(concept[0]) && t[1..] == concept[1..]
  {
    if concept == [] then [] else [UpperChar(concept[0])] + concept[1..]
  }

  /** `getConceptDescription`: six fixed entries; any other concept gets its own name, first letter raised. */
  function GetConceptDescription(concept: string): (d: Description)
    ensures concept !in Descriptions ==> d == Description(UpperFirst(concept),
      "A fundamental programming concept.", "Used in various software development scenarios.")
  {
    if concept in Descriptions then Descriptions[concept]
    else Description(UpperFirst(concept), "A fundamental programming concept.", "Used in various software development scenarios.")
  }

  /**
   * The browser and the server title an unknown concept differently: the
   * browser keeps its hyphens and the case of the rest, the server's fallback
   * turns hyphens into spaces.
   */
  lemma TitlesDisagreeOnHyphens(concept: string, i: nat)
    requires concept !in Descriptions && 0 < i < |concept| && concept[i] == '-'
    ensures GetConceptDescription(concept).title[i] == '-'
    ensures GetConceptDescription(concept).title != App.FallbackConceptTitle(concept)
  {
    App.FallbackTitleShape(concept);
    assert GetConceptDescription(concept).title[1..][i - 1] == concept[1..][i - 1];
  }

  // ================================================================ getRealWorldExample

  /** A real-world record: its code by language. */
  datatype RealWorldRecord = RealWorldRecord(title: string, description: string, code: map<string, string>)

  /** The language asked for plays no part in the lookup. */
  lemma RealWorldIgnoresLanguage(concept: string, language: string)
    ensures GetRealWorldExample(concept, language) == GetRealWorldExample(concept, "python")
  {
  }

  /** `getRealWorldExample`: the record of one of four concepts, whatever the language asked for; otherwise `null`. */
  function GetRealWorldExample(concept: string, language: string): (r: Option<RealWorldRecord>)
    ensures r.Some? <==> concept in {"if-else", "loops", "functions", "oops"}
    ensures r.Some? ==> "python" in r.value.code
    ensures r.Some? && concept in {"functions", "oops"} ==> r.value.code.Keys == {"python"}
    ensures r.Some? && concept in {"if-else", "loops"} ==> r.value.code.Keys == {"python", "javascript"}
  {
    if concept == "if-else" then
      Some(RealWorldRecord("User Authentication System", "This login/signup system ...",
        map["python" := "# User Authentication System", "javascript" := "// User Authentication System"]))
    else if concept == "loops" then
      Some(RealWorldRecord("Data Processing Pipeline", "This data processing system ...",
        map["python" := "# Data Processing Pipeline", "javascript" := "// Data Processing Pipeline"]))
    else if concept == "functions" then
      Some(RealWorldRecord("Task Management System", "This task management system ...",
        map["python" := "# Task Management System"]))
    else if concept == "oops" then
      Some(RealWorldRecord("Vehicle Management System", "This object-oriented system ...",
        map["python" := "# Vehicle Management System"]))
    else None
  }
}
