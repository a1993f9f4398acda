/**
 * The authentication examples the editor can be loaded with: a table of
 * named snippets per language, and the insertion of a language's simple
 * login snippet into whichever editor the page has. Each snippet is a
 * short stand-in for the real text.
 */
module AuthExamples {
  import opened Wrappers

  /** One snippet: its key in the language's table, and its code. */
  datatype Snippet = Snippet(name: string, code: string)

  /** `getAuthenticationExamples`: the snippets of each language, in the table's order. */
  function AuthenticationExamples(language: string): (r: Option<seq<Snippet>>)
    ensures r.Some? <==> language in {"python", "javascript", "java"}
    ensures r.Some? ==> |r.value| >= 1 && r.value[0].name == "simple_login"
    ensures r.Some? ==> forall i | 0 <= i < |r.value| :: r.value[i].code != []
  {
    if language == "python" then
      Some([Snippet("simple_login", "# Simple Login Example"),
            Snippet("token_auth", "# Token-based Authentication Example")])
    else if language == "javascript" then
      Some([Snippet("simple_login", "// Simple Login Example"),
            Snippet("jwt_auth", "// JWT Authentication Example")])
    else if language == "java" then
      Some([Snippet("simple_login", "// Simple Login Example in Java")])
    else None
  }

  /** The code stored under `name`, the first such entry. */
  function Lookup(snippets: seq<Snippet>, name: string): (r: Option<string>)
    ensures r.Some? <==> exists i | 0 <= i < |snippets| :: snippets[i].name == name
    ensures r.Some? ==> exists i | 0 <= i < |snippets| :: snippets[i] == Snippet(name, r.value)
  {
    if snippets == [] then None
    else if snippets[0].name == name then Some(snippets[0].code)
    else
      var r := Lookup(snippets[1..], name);
      if r.Some? then
        var i :| 0 <= i < |snippets[1..]| && snippets[1..][i] == Snippet(name, r.value);
        assert snippets[i + 1] == Snippet(name, r.value);
        r
      else r
  }

  /** The snippet inserted for a language: its `simple_login`, present in every language of the table. */
  function SimpleLogin(language: string): (r: Option<string>)
    ensures r.Some? <==> AuthenticationExamples(language).Some?
    ensures r.Some? ==> r.value != []
  {
    var table := AuthenticationExamples(language);
    if table.None? then None else Lookup(table.value, "simple_login")
  }

  /** Which of the three ways of setting text the editor object offers. */
  datatype EditorApi = SetValue | ModelSetValue | NoSetter

  /** The page's editor: its text and the interface it offers. */
  class CodeEditor {
    var text: string
    const api: EditorApi

    constructor (text0: string, api0: EditorApi)
      ensures text == text0 && api == api0
    {
      text := text0;
      api := api0;
    }
  }

  /** What the insertion reports on the console. */
  datatype InsertLog = NoExamples | UnknownEditor | Quiet

  /**
   * `insertAuthenticationExample`: a language without examples logs an
   * error and changes nothing; with an editor, its own `setValue` is used,
   * then its model's, and without either only a warning is logged; with no
   * editor nothing happens.
   */
  method InsertAuthenticationExample(editor: CodeEditor?, language: string) returns (log: InsertLog)
    modifies editor
    ensures log == NoExamples <==> AuthenticationExamples(language).None?
    ensures log == UnknownEditor <==> AuthenticationExamples(language).Some? && editor != null && editor.api == NoSetter
    ensures editor != null && SimpleLogin(language).Some? && editor.api != NoSetter ==> editor.text == SimpleLogin(language).value
    ensures editor != null && (SimpleLogin(language).None? || editor.api == NoSetter) ==> editor.text == old(editor.text)
  {
    var examples := AuthenticationExamples(language);
    if examples.None? {
      return NoExamples;
    }
    var exampleCode := Lookup(examples.value, "simple_login");
    log := Quiet;
    if editor != null && exampleCode.Some? {
      if editor.api == SetValue {
        editor.text := exampleCode.value;
      } else if editor.api == ModelSetValue {
        editor.text := exampleCode.value;
      } else {
        log := UnknownEditor;
      }
    }
  }

  /** The snippet inserted is the first of the language's table. */
  lemma InsertsFirstSnippet(language: string)
    requires AuthenticationExamples(language).Some?
    ensures SimpleLogin(language) == Some(AuthenticationExamples(language).value[0].code)
  {
  }
}
