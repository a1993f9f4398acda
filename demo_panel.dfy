/**
 * The interactive demo panel: the length guard on the code it is given,
 * which of the reply's fields is shown, the browser's own fallback demo when
 * the request fails, and the evaluation of the scripts the shown markup
 * carries. The two requests are parameters given by how they settled; the
 * `<script>` elements of the shown markup are a parameter too, as the
 * markup is not parsed here.
 */
module DemoPanel {
  import opened Wrappers
  import opened Strings
  import opened DemoPatterns

  /** What the panel shows. */
  datatype DemoView =
    | Intro
    | Loading
    | Rendered(title: string, description: string, demo: string)
    | Legacy(demo: string)
    | NoDemo
    | Fallback(demo: string)

  /** The body of `/api/realworld/demo`; a missing field is `None`. */
  datatype DemoReply = DemoReply(demoHtml: Option<string>, html: Option<string>)

  /** The second request, for the header: unavailable (thrown, failing status, bad body), or its title and description. */
  datatype HeaderReply = HeaderUnavailable | HeaderAnswered(title: Option<string>, description: Option<string>)

  /** How the demo request settled: failed (thrown, failing status, bad body), or answered, with the header request's outcome. */
  datatype DemoFetch = DemoFailed | DemoAnswered(reply: DemoReply, header: HeaderReply)

  const DefaultTitle := "Interactive Demo"
  const DefaultDescription := "This demo shows how your code works in a real-world scenario."

  /** A field given and not empty: JavaScript truthiness of an optional string. */
  predicate Given(s: Option<string>) {
    s.Some? && s.value != []
  }

  /** `value || fallback`. */
  function Or(value: Option<string>, fallback: string): (r: string)
    ensures Given(value) ==> r == value.value
    ensures !Given(value) ==> r == fallback
  {
    if Given(value) then value.value else fallback
  }

  /** The code is long enough to be sent: present and at least 30 characters. */
  predicate LongEnough(code: string) {
    |code| >= 30
  }

  /**
   * The catch block's own demos, one per kind of code, each a stand-in that
   * keeps its heading. They are written in the browser and differ from the
   * server's demos for the same kinds of code.
   */
  function BrowserDemo(p: CodePattern): string {
    match p
    case ClassModel => "<h4>Object Creator</h4>"
    case Conditional => "<h4>Conditional Flow Simulator</h4>"
    case Loop => "<h4>Loop Visualizer</h4>"
    case Plain => "<h4>Code Execution Simulator</h4>"
  }

  /** The catch block's keyword chain, each branch with its demo. */
  function FallbackDemo(code: string): string {
    if Contains(code, "class") then BrowserDemo(ClassModel)
    else if Contains(code, "if") && Contains(code, "else") then BrowserDemo(Conditional)
    else if Contains(code, "for") || Contains(code, "while") then BrowserDemo(Loop)
    else BrowserDemo(Plain)
  }

  /** The browser's fallback tests the keywords in the same priority as the server's pattern detection. */
  lemma FallbackFollowsPattern(code: string)
    ensures FallbackDemo(code) == BrowserDemo(PatternOf(code))
  {
  }

  /** Each kind of code has its own browser demo. */
  lemma BrowserDemosDistinct(p: CodePattern, q: CodePattern)
    requires p != q
    ensures BrowserDemo(p) != BrowserDemo(q)
  {
    var dp, dq := BrowserDemo(p), BrowserDemo(q);
    assert dp[4] != dq[4] || |dp| != |dq|;
  }

  /** The view once the request settled. */
  function Settled(code: string, f: DemoFetch): (v: DemoView)
    ensures f.DemoFailed? <==> v.Fallback?
    ensures v.Fallback? ==> v.demo == FallbackDemo(code)
    ensures v.Rendered? <==> f.DemoAnswered? && Given(f.reply.demoHtml)
    ensures v.Legacy? <==> f.DemoAnswered? && !Given(f.reply.demoHtml) && Given(f.reply.html)
    ensures v.NoDemo? <==> f.DemoAnswered? && !Given(f.reply.demoHtml) && !Given(f.reply.html)
    ensures v.Rendered? ==> v.demo == f.reply.demoHtml.value
    ensures v.Rendered? && f.header.HeaderUnavailable? ==> v.title == DefaultTitle && v.description == DefaultDescription
    ensures v.Rendered? && f.header.HeaderAnswered? ==>
      v.title == Or(f.header.title, DefaultTitle) && v.description == Or(f.header.description, DefaultDescription)
    ensures v.Legacy? ==> v.demo == f.reply.html.value
  {
    match f
    case DemoFailed => Fallback(FallbackDemo(code))
    case DemoAnswered(reply, header) =>
      if Given(reply.demoHtml) then
        match header
        case HeaderUnavailable => Rendered(DefaultTitle, DefaultDescription, reply.demoHtml.value)
        case HeaderAnswered(title, description) =>
          Rendered(Or(title, DefaultTitle), Or(description, DefaultDescription), reply.demoHtml.value)
      else if Given(reply.html) then Legacy(reply.html.value)
      else NoDemo
  }

  /** The header's title and description are never empty, whatever the second request did. */
  lemma HeaderNeverEmpty(code: string, f: DemoFetch)
    requires Settled(code, f).Rendered?
    ensures Settled(code, f).title != [] && Settled(code, f).description != []
  {
    var v := Settled(code, f);
    if f.header.HeaderAnswered? {
      assert v.title == Or(f.header.title, DefaultTitle);
    }
  }

  // ================================================================ scripts

  /** A `<script>` element of the shown markup: its text, and whether evaluating it throws. */
  datatype Script = Script(text: string, throws: bool)

  /** The texts evaluated, in document order: every script with text, whether or not an earlier one threw. */
  function Evaluated(scripts: seq<Script>): seq<string> {
    if scripts == [] then []
    else (if scripts[0].text != [] then [scripts[0].text] else []) + Evaluated(scripts[1..])
  }

  /** The number of scripts with text whose evaluation throws. */
  function Failures(scripts: seq<Script>): nat {
    if scripts == [] then 0
    else (if scripts[0].text != [] && scripts[0].throws then 1 else 0) + Failures(scripts[1..])
  }

  /** Evaluation of a list of scripts is the evaluation of its parts, one after the other. */
  lemma {:induction false} EvaluatedAppend(a: seq<Script>, b: seq<Script>)
    ensures Evaluated(a + b) == Evaluated(a) + Evaluated(b)
  {
    if a != [] {
      assert (a + b)[1..] == a[1..] + b;
      EvaluatedAppend(a[1..], b);
    } else {
      assert a + b == b;
    }
  }

  /** A script that throws stops nothing: the scripts after it are evaluated as if it had not thrown. */
  lemma ThrowingScriptStopsNothing(a: seq<Script>, s: Script, b: seq<Script>)
    ensures Evaluated(a + [s] + b) == Evaluated(a + [s.(throws := false)] + b)
  {
    EvaluatedAppend(a + [s], b);
    EvaluatedAppend(a, [s]);
    EvaluatedAppend(a + [s.(throws := false)], b);
    EvaluatedAppend(a, [s.(throws := false)]);
  }

  /** The `forEach` over the scripts: those with text are evaluated in order, each in its own `try`. */
  method RunScripts(scripts: seq<Script>) returns (ran: seq<string>, errors: nat)
    ensures ran == Evaluated(scripts)
    ensures errors == Failures(scripts)
  {
    ran := [];
    errors := 0;
    var i := 0;
    while i < |scripts|
      invariant 0 <= i <= |scripts|
      invariant ran + Evaluated(scripts[i..]) == Evaluated(scripts)
      invariant errors + Failures(scripts[i..]) == Failures(scripts)
    {
      var script := scripts[i];
      assert scripts[i..] == [script] + scripts[i + 1..];
      if script.text != [] {
        ran := ran + [script.text];
        if script.throws {
          errors := errors + 1;
        }
      }
      i := i + 1;
    }
  }

  // ================================================================ the panel

  class Panel {
    var view: DemoView
    /** The texts of the scripts evaluated so far, in order. */
    var evaluated: seq<string>
    /** The script errors logged so far. */
    var errors: nat

    /** The panel as first rendered: the introduction. */
    constructor ()
      ensures view == Intro && evaluated == [] && errors == 0
    {
      view := Intro;
      evaluated := [];
      errors := 0;
    }

    /** `updateInteractiveDemo` up to its request: short or missing code leaves the panel as it is. */
    method Start(code: string) returns (sent: bool)
      modifies this
      ensures sent <==> LongEnough(code)
      ensures view == if sent then Loading else old(view)
      ensures evaluated == old(evaluated) && errors == old(errors)
    {
      if code == [] || |code| < 30 {
        return false;
      }
      view := Loading;
      sent := true;
    }

    /**
     * `updateInteractiveDemo` after its request: the view the reply calls for;
     * every view but the empty state then has its scripts evaluated.
     */
    method Finish(code: string, f: DemoFetch, scripts: seq<Script>)
      modifies this
      ensures view == Settled(code, f)
      ensures view.NoDemo? ==> evaluated == old(evaluated) && errors == old(errors)
      ensures !view.NoDemo? ==> evaluated == old(evaluated) + Evaluated(scripts)
      ensures !view.NoDemo? ==> errors == old(errors) + Failures(scripts)
    {
      view := Settled(code, f);
      if !view.NoDemo? {
        var ran, failed := RunScripts(scripts);
        evaluated := evaluated + ran;
        errors := errors + failed;
      }
    }
  }
}
