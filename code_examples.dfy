/**
 * The example table of the page's concept view: for each of four concepts
 * and three languages, a code sample and the real-world panel shown beside
 * it. The texts are short stand-ins for the real ones; the lookup is exact.
 */
module CodeExamples {
  import opened Wrappers

  datatype RealWorld = RealWorld(title: string, subtitle: string, description: string, visualization: Option<string>)

  datatype ExampleEntry = ExampleEntry(code: string, realWorld: RealWorld)

  /** Reading a property of `undefined`. */
  datatype TypeError = TypeError

  const Concepts: set<string> := {"if-else", "oops", "decorators", "functions"}
  const Languages: set<string> := {"python", "javascript", "java"}

  function Entry(code: string, title: string, subtitle: string): ExampleEntry {
    ExampleEntry(code, RealWorld(title, subtitle, "<p>...</p>", Some("<div>...</div>")))
  }

  /** `exampleData[concept][language]`, where both keys exist. */
  function ExampleData(concept: string, language: string): (r: Option<ExampleEntry>)
    ensures r.Some? <==> concept in Concepts && language in Languages
    ensures r.Some? ==> r.value.code != [] && r.value.realWorld.visualization.Some?
  {
    if concept == "if-else" then Row(language,
      Entry("# Login validation example", "User Authentication System", "How if-else ..."),
      Entry("// Login validation example", "User Authentication System", "... in JavaScript"),
      Entry("// Login validation example", "Enterprise Authentication System", "... in Java applications"))
    else if concept == "oops" then Row(language,
      Entry("# Vehicle classes", "Vehicle Management System", "How OOP ..."),
      Entry("// Vehicle classes", "Interactive Car Configurator", "How OOP ..."),
      Entry("// Vehicle classes", "Enterprise Fleet Management System", "How Java OOP powers ..."))
    else if concept == "decorators" then Row(language,
      Entry("# Decorator example", "Enhancing Code with Decorators", "How decorators ..."),
      Entry("// Decorator example", "Enhancing Methods with Decorators", "How JavaScript decorators ..."),
      Entry("// Annotation example", "Enhancing Methods with Java Annotations", "How annotations power ..."))
    else if concept == "functions" then Row(language,
      Entry("# Temperature conversion", "Building a Temperature Conversion Tool", "How functions ..."),
      Entry("// Temperature conversion", "Building a Temperature Conversion Tool", "How JavaScript functions ..."),
      Entry("// Temperature conversion", "Building a Temperature Conversion Library", "How Java methods ..."))
    else None
  }

  /** One concept's row of the table: its Python, JavaScript and Java entries. */
  function Row(language: string, python: ExampleEntry, javascript: ExampleEntry, java: ExampleEntry): (r: Option<ExampleEntry>)
    ensures r.Some? <==> language in Languages
    ensures r.Some? ==> r.value in {python, javascript, java}
  {
    if language == "python" then Some(python)
    else if language == "javascript" then Some(javascript)
    else if language == "java" then Some(java)
    else None
  }

  /**
   * `getExampleData`: a missing concept or language switches the language to
   * Python; for a concept the table lacks, the second lookup then reads a
   * property of `undefined` and throws.
   */
  function GetExampleData(concept: string, language: string): (r: Result<ExampleEntry, TypeError>)
    ensures r.Err? <==> concept !in Concepts
    ensures concept in Concepts && language in Languages ==> r == Ok(ExampleData(concept, language).value)
    ensures concept in Concepts && language !in Languages ==> r == Ok(ExampleData(concept, "python").value)
  {
    var lang := if ExampleData(concept, language).None? then "python" else language;
    match ExampleData(concept, lang)
    case Some(e) => Ok(e)
    case None => Err(TypeError)
  }

  /** Every known concept answers for every language, falling back to its Python entry. */
  lemma KnownConceptAlwaysAnswers(concept: string, language: string)
    requires concept in Concepts
    ensures GetExampleData(concept, language).Ok?
    ensures GetExampleData(concept, language).value.code != []
  {
    assert ExampleData(concept, "python").Some?;
  }

  /** The panel's visualization, or nothing when the entry has none. */
  function RenderedVisualization(rw: RealWorld): (html: string)
    ensures rw.visualization.None? ==> html == []
    ensures rw.visualization.Some? ==> html == rw.visualization.value
  {
    match rw.visualization
    case Some(v) => v
    case None => []
  }
}
