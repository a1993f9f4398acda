/**
 * The second copy of the AI service, under `services/`: fixed topic content,
 * the real-world example with the keys it back-fills into the API's JSON
 * answer, and the interactive demo with the order in which it lifts HTML out
 * of the API's answer. The API is a parameter: the text it answered with (and
 * what `json.loads` made of it), or the fact that it raised.
 */
module ServicesAi {
  import opened Wrappers
  import opened Strings
  import opened DemoPatterns
  import AiService

  // ================================================================ get_ai_content

  /** The five fields of a topic, the long texts cut to their opening words. */
  datatype TopicContent = TopicContent(title: string, description: string, example: string, realWorld: string, dryRun: string)

  const IfElseContent := TopicContent("If-Else Conditional Statements", "Conditional statements allow you ...",
    "if condition:", "<p>Used in authentication systems ...</p>", "1. Evaluate the condition")
  const OopsContent := TopicContent("Object-Oriented Programming", "OOP is a programming paradigm ...",
    "class Animal:", "<p>Used in GUI frameworks ...</p>", "1. Create a Dog instance")
  const PlaceholderContent := TopicContent("Coding Concept", "This is a placeholder ...",
    "# Example code here", "<p>Real-world applications go here.</p>", "Step by step execution would go here.")

  /** `get_ai_content`: two fixed topics, the placeholder for every other one. */
  function AiContent(topic: string): TopicContent {
    if topic == "if-else" then IfElseContent
    else if topic == "oops" then OopsContent
    else PlaceholderContent
  }

  /** Exactly `if-else` and `oops` have content of their own; every other topic, `if` and `OOPS` included, gets the placeholder. */
  lemma AiContentCases(topic: string)
    ensures AiContent(topic) == IfElseContent <==> topic == "if-else"
    ensures AiContent(topic) == OopsContent <==> topic == "oops"
    ensures AiContent(topic) == PlaceholderContent <==> topic != "if-else" && topic != "oops"
  {
    assert IfElseContent.title != OopsContent.title;
    assert IfElseContent.title != PlaceholderContent.title;
    assert OopsContent.title != PlaceholderContent.title;
  }

  // ================================================================ fenced code blocks

  const Fence := "```"

  /**
   * After a fence ending at `i`: the end of the first listed tag that a
   * newline follows, or of a bare newline (the optional group
   * `(?:tag1|tag2|...)?` and then `\n`).
   */
  function TagEnd(text: string, i: nat, tags: seq<string>): (c: Option<nat>)
    requires i <= |text|
    ensures c.Some? ==> i < c.value <= |text| && text[c.value - 1] == '\n'
    ensures c.None? ==> !OccursAt(text, "\n", i)
    decreases |tags|
  {
    if tags == [] then
      if OccursAt(text, "\n", i) then Some(i + 1) else None
    else if OccursAt(text, tags[0] + "\n", i) then
      assert text[i..][|tags[0]|] == (tags[0] + "\n")[|tags[0]|];
      Some(i + |tags[0]| + 1)
    else TagEnd(text, i, tags[1..])
  }

  /**
   * The pattern ```` ```(?:tags)?\n(.+?)``` ```` tried at `p`: the lazy group
   * takes at least one character and stops at the first fence after that.
   */
  function FenceAt(text: string, p: nat, tags: seq<string>): (r: Option<(nat, nat)>)
    requires p <= |text|
    ensures r.Some? ==> (OccursAt(text, Fence, p) && p + 3 < r.value.0 < r.value.1 <= |text|
      && text[r.value.0 - 1] == '\n' && OccursAt(text, Fence, r.value.1)
      && forall j | r.value.0 < j < r.value.1 :: !OccursAt(text, Fence, j))
  {
    if !OccursAt(text, Fence, p) then None
    else
      match TagEnd(text, p + 3, tags)
      case None => None
      case Some(c) =>
        if c == |text| then None
        else
          match FindFrom(text, Fence, c + 1)
          case None => None
          case Some(e) => Some((c, e))
  }

  /** `re.search`: the leftmost position from `p` on where the pattern matches. */
  function FirstFenceFrom(text: string, p: nat, tags: seq<string>): (r: Option<(nat, nat)>)
    requires p <= |text|
    ensures r.Some? ==> exists q | p <= q <= |text| :: FenceAt(text, q, tags) == r
    ensures r.Some? ==> r.value.0 < r.value.1 && OccursAt(text, Fence, r.value.1)
    ensures r.None? ==> forall q | p <= q <= |text| :: FenceAt(text, q, tags).None?
    decreases |text| - p
  {
    var here := FenceAt(text, p, tags);
    if here.Some? then here
    else if p == |text| then None
    else FirstFenceFrom(text, p + 1, tags)
  }

  /** Group 1 of the first fenced block with one of the tags (or none), if any. */
  function FencedBlock(text: string, tags: seq<string>): (b: Option<string>)
    ensures b.Some? ==> b.value != [] && Contains(text, b.value + Fence)
    ensures b.None? ==> forall q | 0 <= q <= |text| :: FenceAt(text, q, tags).None?
  {
    match FirstFenceFrom(text, 0, tags)
    case None => None
    case Some((c, e)) =>
      BodyThenFence(text, c, e);
      Some(text[c..e])
  }

  lemma BodyThenFence(text: string, c: nat, e: nat)
    requires c <= e && OccursAt(text, Fence, e)
    ensures Contains(text, text[c..e] + Fence)
  {
    assert text[c..][..e - c + 3] == text[c..e] + Fence;
    ContainsAt(text, text[c..e] + Fence, c);
  }

  /** A block that opens at the very start of the answer is found, and it ends at the first fence after its first character. */
  lemma FencedBlockAtStart(tag: string, body: string, rest: string)
    requires tag != [] && '\n' !in tag && body != [] && !Contains(body + "``", Fence)
    ensures FencedBlock(Fence + tag + "\n" + body + Fence + rest, [tag]) == Some(body)
  {
    var head := Fence + tag + "\n";
    var text := head + body + Fence + rest;
    NoFenceInside(head, body, rest);
    FenceAtStart(head, tag, body, rest);
    FencedBlockFromStart(text, [tag], |head|, |head| + |body|);
    assert text[|head|..|head| + |body|] == body;
  }

  lemma FencedBlockFromStart(text: string, tags: seq<string>, c: nat, e: nat)
    requires FenceAt(text, 0, tags) == Some((c, e))
    ensures c <= e <= |text| && FencedBlock(text, tags) == Some(text[c..e])
  {
  }

  /** The pattern tried at the start of such an answer matches the whole body. */
  lemma FenceAtStart(head: string, tag: string, body: string, rest: string)
    requires head == Fence + tag + "\n" && body != []
    requires forall j | |head| <= j < |head| + |body| :: !OccursAt(head + body + Fence + rest, Fence, j)
    ensures FenceAt(head + body + Fence + rest, 0, [tag]) == Some((|head|, |head| + |body|))
  {
    var text := head + body + Fence + rest;
    var c: nat := |head|;
    var e: nat := c + |body|;
    OpeningLine(text, tag, body + Fence + rest);
    assert text[e..][..3] == Fence;
    FindFromFirst(text, Fence, c + 1, e);
  }

  /** An answer that starts with a fence and a tag line: the pattern's opening part matches it. */
  lemma OpeningLine(text: string, tag: string, tail: string)
    requires text == Fence + (tag + "\n") + tail
    ensures OccursAt(text, Fence, 0) && TagEnd(text, 3, [tag]) == Some(|tag| + 4)
  {
    assert text[..3] == Fence;
    assert text[3..] == (tag + "\n") + tail;
    assert text[3..][..|tag| + 1] == tag + "\n";
  }

  /** No fence starts inside a body that holds none, not even one running into the fence after it. */
  lemma NoFenceInside(head: string, body: string, rest: string)
    requires !Contains(body + "``", Fence)
    ensures forall j | |head| <= j < |head| + |body| :: !OccursAt(head + body + Fence + rest, Fence, j)
  {
    var text := head + body + Fence + rest;
    var c := |head|;
    forall j | c <= j < c + |body| ensures !OccursAt(text, Fence, j) {
      if OccursAt(text, Fence, j) {
        var u, d := body + "``", j - c;
        forall x | 0 <= x < 3 ensures u[d..][x] == Fence[x] {
          assert text[j..][x] == Fence[x];
          if d + x < |body| {
            assert text[j + x] == body[d + x];
          } else {
            assert text[j + x] == Fence[d + x - |body|];
          }
        }
        assert u[d..][..3] == Fence;
        ContainsAt(u, Fence, d);
      }
    }
  }

  // ================================================================ get_real_world_mapping

  /** What `json.loads` made of the answer; when it failed, what `Title:\s*(.+)` and `Description:\s*(.+)` captured. */
  datatype JsonOutcome = Parsed(fields: map<string, string>) | NotJson(title: Option<string>, description: Option<string>)

  const CodeTags := ["python", "javascript", "java"]

  const DefaultTitle := "Real-World Code Example"
  const DefaultDescription := "A professional implementation of a similar concept."
  const NoCodeGenerated := "# No specific code example was generated"

  /** The code of the answer: the first fenced block, or the fixed remark. */
  function CodeOf(responseText: string): string {
    match FencedBlock(responseText, CodeTags)
    case Some(b) => b
    case None => NoCodeGenerated
  }

  /**
   * The three checks after a successful `json.loads`: each missing key is
   * filled, in the order title, description, real-world code.
   */
  method BackFill(parsed: map<string, string>, responseText: string) returns (r: map<string, string>)
    ensures r.Keys == parsed.Keys + {"title", "description", "real_world_code"}
    ensures forall k | k in parsed :: r[k] == parsed[k]
    ensures "title" !in parsed ==> r["title"] == DefaultTitle
    ensures "description" !in parsed ==> r["description"] == DefaultDescription
    ensures "real_world_code" !in parsed ==> r["real_world_code"] == CodeOf(responseText)
  {
    r := FillDefaults(parsed, CodeOf(responseText));
  }

  /** The three fills, given the code the answer's fence yields. */
  method FillDefaults(parsed: map<string, string>, code: string) returns (r: map<string, string>)
    ensures r.Keys == parsed.Keys + {"title", "description", "real_world_code"}
    ensures forall k | k in parsed :: r[k] == parsed[k]
    ensures "title" !in parsed ==> r["title"] == DefaultTitle
    ensures "description" !in parsed ==> r["description"] == DefaultDescription
    ensures "real_world_code" !in parsed ==> r["real_world_code"] == code
  {
    r := SetDefault(parsed, "title", DefaultTitle);
    ghost var r1 := r;
    r := SetDefault(r, "description", DefaultDescription);
    ghost var r2 := r;
    assert "title" in r1 && r2["title"] == r1["title"];
    assert "description" !in parsed ==> "description" !in r1;
    r := SetDefault(r, "real_world_code", code);
    assert "real_world_code" !in parsed ==> "real_world_code" !in r2;
    assert r["title"] == r1["title"] && r["description"] == r2["description"];
  }

  /** One `if key not in result` step: the key is added with its default, and every present key keeps its value. */
  method SetDefault(m: map<string, string>, key: string, default: string) returns (r: map<string, string>)
    ensures r.Keys == m.Keys + {key}
    ensures forall k | k in m :: r[k] == m[k]
    ensures key !in m ==> r[key] == default
  {
    r := m;
    if key !in r {
      r := r[key := default];
    }
  }

  /** The result without JSON: each capture, or its default. */
  function Recovered(title: Option<string>, description: Option<string>, responseText: string): (r: map<string, string>)
    ensures r.Keys == {"title", "description", "real_world_code"}
    ensures r["title"] == (if title.Some? then title.value else DefaultTitle)
    ensures r["description"] == (if description.Some? then description.value else DefaultDescription)
    ensures r["real_world_code"] == CodeOf(responseText)
  {
    map["title" := if title.Some? then title.value else DefaultTitle,
        "description" := if description.Some? then description.value else DefaultDescription,
        "real_world_code" := CodeOf(responseText)]
  }

  function ExampleFields(e: AiService.Example): map<string, string> {
    map["title" := e.title, "description" := e.description, "real_world_code" := e.realWorldCode]
  }

  /** The four examples of this copy; the code samples are shortened to their first line. */
  function ServicePatternExample(p: CodePattern): AiService.Example {
    AiService.Example(ServiceTitle(p), ServiceDescription(p), ServiceCode(p))
  }

  function ServiceTitle(p: CodePattern): string {
    match p
    case ClassModel => "E-commerce Product System"
    case Conditional => "Data Processing Pipeline"
    case Loop => "ETL Data Processing Pipeline"
    case Plain => "Weather Forecasting Service"
  }

  function ServiceDescription(p: CodePattern): string {
    match p
    case ClassModel => "The object-oriented approach is commonly used in e-commerce systems for product management."
    case Conditional => "Conditional logic in real-world systems is often used for data validation and processing."
    case Loop => "Loops are fundamental in data engineering for batch processing operations."
    case Plain => "Professional applications use structured organization for data processing and API integrations."
  }

  function ServiceCode(p: CodePattern): string {
    match p
    case ClassModel => "class Product:\n    ..."
    case Conditional => "def validate_customer_data(customer):\n    ..."
    case Loop => "def process_transaction_batch(transactions):\n    ..."
    case Plain => "def get_weather_forecast(location, days=5):\n    ..."
  }

  /** The exception fallback of this copy, an if-chain of its own. */
  function ServiceFallback(code: string): AiService.Example {
    if Contains(code, "class") then ServicePatternExample(ClassModel)
    else if Contains(code, "if") && Contains(code, "else") then ServicePatternExample(Conditional)
    else if Contains(code, "for") || Contains(code, "while") then ServicePatternExample(Loop)
    else ServicePatternExample(Plain)
  }

  /** This copy keeps the shared priority order. */
  lemma ServiceFallbackFollowsPattern(code: string)
    ensures ServiceFallback(code) == ServicePatternExample(PatternOf(code))
  {
  }

  lemma ServicePipelineTitle(p: CodePattern)
    ensures ServiceTitle(p) == "Data Processing Pipeline" <==> p == Conditional
  {
    var t := ServiceTitle(p);
    match p
    case ClassModel => assert t[0] == 'E';
    case Conditional =>
    case Loop => assert t[0] == 'E';
    case Plain => assert t[0] == 'W';
  }

  lemma RootPipelineTitle(p: CodePattern)
    ensures AiService.PatternTitle(p) == "Data Processing Pipeline" <==> p == Loop
  {
    var t := AiService.PatternTitle(p);
    match p
    case ClassModel => assert t[0] == 'B';
    case Conditional => assert t[5] == 'V';
    case Loop =>
    case Plain => assert t[0] == 'A';
  }

  /**
   * The two copies use one title for different patterns: "Data Processing
   * Pipeline" answers a conditional here and a loop in the root service.
   */
  lemma PipelineTitleDiffers(code: string)
    ensures ServiceFallback(code).title == "Data Processing Pipeline" <==> PatternOf(code) == Conditional
    ensures AiService.FallbackExample(code).title == "Data Processing Pipeline" <==> PatternOf(code) == Loop
  {
    var p := PatternOf(code);
    ServiceFallbackFollowsPattern(code);
    AiService.FallbackExampleFollowsPattern(code);
    assert ServiceFallback(code).title == ServiceTitle(p);
    assert AiService.FallbackExample(code).title == AiService.PatternTitle(p);
    ServicePipelineTitle(p);
    RootPipelineTitle(p);
  }

  const WriteSomeCodeFields := map["title" := "Real-World Code Example",
    "description" := "Write some code to see a real-world example.",
    "real_world_code" := "# Write code in the editor to see a real-world example"]

  /**
   * `get_real_world_mapping` of this copy: no key check before the call (a
   * missing key makes the call raise), JSON back-filling, capture recovery
   * when the answer is not JSON, the pattern fallback when the call raised.
   */
  method RealWorldMapping(code: string, reply: AiService.ApiReply<string>, json: JsonOutcome) returns (r: map<string, string>)
    ensures "title" in r && "description" in r && "real_world_code" in r
    ensures AiService.IsShortCode(code) ==> r == WriteSomeCodeFields
    ensures !AiService.IsShortCode(code) && reply.Raised? ==> r == ExampleFields(ServicePatternExample(PatternOf(code)))
    ensures !AiService.IsShortCode(code) && reply.Answered? && json.Parsed? ==>
      r.Keys == json.fields.Keys + {"title", "description", "real_world_code"} &&
      (forall k | k in json.fields :: r[k] == json.fields[k])
    ensures !AiService.IsShortCode(code) && reply.Answered? && json.Parsed? && "title" !in json.fields ==>
      r["title"] == DefaultTitle
    ensures !AiService.IsShortCode(code) && reply.Answered? && json.Parsed? && "description" !in json.fields ==>
      r["description"] == DefaultDescription
    ensures !AiService.IsShortCode(code) && reply.Answered? && json.Parsed? && "real_world_code" !in json.fields ==>
      r["real_world_code"] == CodeOf(reply.value)
    ensures !AiService.IsShortCode(code) && reply.Answered? && json.NotJson? ==>
      r == Recovered(json.title, json.description, reply.value)
  {
    if code == [] || |Trim(Py, code)| < 10 {
      return WriteSomeCodeFields;
    }
    match reply
    case Raised(_) =>
      ServiceFallbackFollowsPattern(code);
      r := ExampleFields(ServiceFallback(code));
    case Answered(responseText) =>
      match json
      case Parsed(fields) =>
        r := BackFill(fields, responseText);
      case NotJson(title, description) =>
        r := Recovered(title, description, responseText);
  }

  // ================================================================ get_interactive_demo

  const ShortDemo := "<div style='padding:15px; text-align:center;'>Write some code to see an interactive demo based on real-world usage scenarios.</div>"

  /** The demo inside the answer: its first fenced block, else the answer when it has a `div`, else the answer wrapped in one. */
  function DemoFromAnswer(text: string): (html: string)
    ensures FencedBlock(text, ["html"]).Some? ==> html == FencedBlock(text, ["html"]).value
    ensures FencedBlock(text, ["html"]).None? ==> Contains(html, text)
    ensures FencedBlock(text, ["html"]).None? && Contains(text, "<div") && Contains(text, "</div>") ==> html == text
    ensures FencedBlock(text, ["html"]).None? && !(Contains(text, "<div") && Contains(text, "</div>")) ==>
      html == "<div style='padding:15px;'>" + text + "</div>"
  {
    match FencedBlock(text, ["html"])
    case Some(b) => b
    case None =>
      if Contains(text, "<div") && Contains(text, "</div>") then
        ContainsAt(text, text, 0);
        text
      else
        ContainsInfix("<div style='padding:15px;'>", text, "</div>", text);
        "<div style='padding:15px;'>" + text + "</div>"
  }

  /** An answer without a fence that already holds a `div` element is used as it is. */
  lemma RawAnswerKept(text: string)
    requires !Contains(text, Fence) && Contains(text, "<div") && Contains(text, "</div>")
    ensures DemoFromAnswer(text) == text
  {
    if FencedBlock(text, ["html"]).Some? {
      var q :| 0 <= q <= |text| && FenceAt(text, q, ["html"]).Some?;
      ContainsAt(text, Fence, q);
    }
  }

  /** An answer without a fence and without a `div` element is wrapped in a padded one. */
  lemma WrappedAnswer(text: string)
    requires !Contains(text, Fence) && !(Contains(text, "<div") && Contains(text, "</div>"))
    ensures DemoFromAnswer(text) == "<div style='padding:15px;'>" + text + "</div>"
  {
    if FencedBlock(text, ["html"]).Some? {
      var q :| 0 <= q <= |text| && FenceAt(text, q, ["html"]).Some?;
      ContainsAt(text, Fence, q);
    }
  }

  /** The four demos of this copy, shortened to their headings. */
  function ServicePatternDemo(p: CodePattern): string {
    match p
    case ClassModel => "<h4>Object Creator</h4>"
    case Conditional => "<h4>Conditional Flow Simulator</h4>"
    case Loop => "<h4>Loop Visualizer</h4>"
    case Plain => "<h4>Code Execution Simulator</h4>"
  }

  function ServiceFallbackDemo(code: string): string {
    if Contains(code, "class") then ServicePatternDemo(ClassModel)
    else if Contains(code, "if") && Contains(code, "else") then ServicePatternDemo(Conditional)
    else if Contains(code, "for") || Contains(code, "while") then ServicePatternDemo(Loop)
    else ServicePatternDemo(Plain)
  }

  /** `get_interactive_demo` of this copy, returning the `demo_html` value. */
  function InteractiveDemo(code: string, reply: AiService.ApiReply<string>): (html: string)
    ensures AiService.IsShortCode(code) ==> html == ShortDemo
    ensures !AiService.IsShortCode(code) && reply.Raised? ==> html == ServicePatternDemo(PatternOf(code))
    ensures !AiService.IsShortCode(code) && reply.Answered? ==> html == DemoFromAnswer(reply.value)
  {
    ServiceDemoFollowsPattern(code);
    if code == [] || |Trim(Py, code)| < 10 then ShortDemo
    else
      match reply
      case Answered(text) => DemoFromAnswer(text)
      case Raised(_) => ServiceFallbackDemo(code)
  }

  /** The demo's keyword chain picks the demo of the code's pattern. */
  lemma ServiceDemoFollowsPattern(code: string)
    ensures ServiceFallbackDemo(code) == ServicePatternDemo(PatternOf(code))
  {
  }
}
