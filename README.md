# Code Meets Reality — a verified model of its core

Code Meets Reality is a teaching site. A learner writes Python, JavaScript or
Java code in a browser editor, runs it, and sees the same pattern as
"real-world" code and as an interactive demo. The server is a FastAPI
application:

- It runs the code and lays out Python errors with the surrounding lines.
- It asks a language model for examples, demos and answers.
- When the model is not used or fails, it falls back to fixed, pattern-based
  content.
- It repairs the demo pages the model writes, adding missing script
  functions.
- It keeps login sessions for an OAuth flow.

The browser side is a set of scripts: the textarea editor with its Tab and
Enter handlers, the tab strips, the console and practice panels, the two chat
panels, the demo panel, the complexity panel, the visual output window, and
fixed teaching tables.

This project models the deterministic logic of those parts in Dafny, one
module per core file or group of files:

| module | models |
|---|---|
| `Strings` | Python `str` and JavaScript `String` operations with their own semantics: leftmost non-overlapping `replace`, `split`, `strip`/`trim`, `find`/`rfind`, `lower`, `int()`, `substring`, `lastIndexOf` |
| `CodeExecutor` | `code_executor.py`: HTML escaping, output formatting, Python error parsing and layout, the Java class name |
| `AiService` | `ai_service.py`: the key check, pattern fallbacks, the demo-page repairs, credential extraction, the complexity fallback, canned replies |
| `ServicesAi` | `services/ai_service.py`: topic content, key back-filling of the model's JSON answer, demo extraction from the model's answer |
| `App` | `app.py`: language dispatch, the key-status route with its environment override, the concept routes, `/api/ask` |
| `Auth` | `routers/auth.py`: the session store behind login, callback, logout and `me` |
| `Editor` | the textarea editor of `app.js` and `CodeEditor.js` (a class holding the text and the selection) and the debounce timer slot |
| `Tabs` | one-active-tab switching, as a class over arrays of `active` flags |
| `PageScript` | `app.js` decisions around its requests: real-world code, execution results, the practice list |
| `ConceptExamples`, `CodeExamples`, `AuthExamples` | the fixed teaching tables and their lookups |
| `AuthDemo` | the login/signup demo of `if_else_demo.js` and `if_else_handler.js` |
| `ComplexityView` | the score classifiers and the error gate of `complexity-analyzer.js` |
| `VisualOutput` | `visual-output.js`: console highlighting, output readings, the output window |
| `PracticeArea` | `PracticeArea.js`: numbered output and the run, reset and clear buttons |
| `Assistant`, `Helpline`, `Transcript` | the two chat panels and the removal of their thinking indicator |
| `DemoPanel` | `InteractiveDemo.js`: the guard, the field it shows, its fallback and script evaluation |
| `DemoPatterns` | the four-way keyword classifier that every fallback repeats |

How the model is built:

- The language model, the interpreters, fetches and the DOM are parameters.
  A request is given by how it settled: the answer, the status, or the
  exception's message.
- Code that changes state step by step is modelled as classes whose methods
  carry `modifies` clauses. This covers the editor, tab strips, panels and the
  session store.
- Loops are modelled as methods with invariants, each proved against a
  specification function.
- Pure branching code is modelled as functions with lemmas.

## Model

| member | source | states |
|---|---|---|
| CodeExecutor.HtmlEscape | code_executor.py:310-326 | the result is the five replacements `&`, `<`, `>`, `"`, `'` applied in that order |
| CodeExecutor.EscapeStep | code_executor.py:320-326 | each `replace` call of the chain turns the first n escapes into the first n+1 |
| CodeExecutor.UnescapeStep | code_executor.py:320-326 | undoing the n-th replacement of the chain gives back the first n-1 escapes |
| CodeExecutor.HtmlRoundTrip | code_executor.py:320-326 | unescaping the five entities in reverse order gives back the original text |
| CodeExecutor.HtmlEscapeSafe | code_executor.py:320-326 | the escaped text holds none of `<>"'`, and every `&` in it starts one of the five entities |
| CodeExecutor.EscapedSafe | code_executor.py:320-326 | the same safety property, proved by induction over the text |
| CodeExecutor.FormatOutput | code_executor.py:166-188 | a blank output gives the "No output" div; otherwise the output is one `output-line` div per line of the stripped output, in order, inside `output-stdout` |
| CodeExecutor.FormatLines | code_executor.py:179-183 | the loop emits one div per line and skips a blank last line |
| CodeExecutor.FormatOutputCases | code_executor.py:176-182 | the last line of the stripped output is blank exactly when the whole output is blank, and then there is only one line |
| CodeExecutor.LastLineNotBlank | code_executor.py:177-182 | the last piece of the stripped output is blank if and only if the output is blank |
| CodeExecutor.AdjustLine | code_executor.py:226-228 | the adjusted line is never negative; it is positive exactly when the raw line lies past the offset, and then it is the raw line minus the offset |
| CodeExecutor.FirstSomeSpec | code_executor.py:219-231 | the scan's result is empty exactly when no frame line parses; otherwise it is the number of the first frame line that parses |
| CodeExecutor.ScanFrames | code_executor.py:219-231 | the loop returns the adjusted number of the first parseable `File …, line N` frame, or 0 when there is none |
| CodeExecutor.TracebackLine | code_executor.py:208-231 | the line found is that of the first traceback line that is a frame line with a number |
| CodeExecutor.ParsePythonError | code_executor.py:190-260 | the column is always 0 and the line never negative; with a traceback, the type, message and line come from its section; without one, they come from the direct `line N` form or the defaults |
| CodeExecutor.RowsAt | code_executor.py:288-299 | each code line gives one numbered row, marked as the error line exactly at the error line; a caret row follows it only for a syntax error with a positive column, at `min(col-1, len(line))` |
| CodeExecutor.RowsUpToCounts | code_executor.py:288-299 | a window of lines gives one code row per line, one error row if the error line is inside it, and one caret only for a syntax error with a positive column |
| CodeExecutor.RowsUpToNumbered | code_executor.py:288-294 | the code rows of a window carry the numbers and texts of those lines, in order |
| CodeExecutor.RowsUpToCarets | code_executor.py:295-299 | every caret row follows the error line, at the column the source computes |
| CodeExecutor.ContextRowsShape | code_executor.py:283-299 | the context shows 1 to 5 lines around the error line, clipped to the code; exactly one is the error line; there is a caret only for a syntax error with a positive column |
| CodeExecutor.RenderStep | code_executor.py:288-299 | rendering a window one line further appends exactly that line's rows |
| CodeExecutor.RenderContext | code_executor.py:285-301 | the loop renders exactly the rows of the window |
| CodeExecutor.FormatPythonError | code_executor.py:262-308 | the error block is the header, then the code context when the line number names a line of the code, then the category's explanation |
| CodeExecutor.DebugCodeLines | code_executor.py:43-52 | the instrumented file's lines are the nine header lines followed by the user's lines |
| CodeExecutor.SplitAfterLines | code_executor.py:43-52 | splitting header lines written ahead of the code gives those lines followed by the code's own lines |
| CodeExecutor.AsWrittenRuntimeLine | code_executor.py:72-75 | with the offset passed at line 74, an error on line k of an n-line program is reported as line 0, or as line 1 when k = n |
| CodeExecutor.AsWrittenFirstOfTwo | code_executor.py:72-75 | the `NameError` on line 1 of `y\nx = 1` is reported as line 0 |
| CodeExecutor.CorrectedRuntimeLine | code_executor.py:43-75 | with the header's own offset, line k of the instrumented file is the user's line k, and an error there is reported as line k |
| CodeExecutor.RuntimeErrorReportAsWritten | code_executor.py:72-75 | the report is parsed with the instrumented file's line count minus one as offset: its type, message and frame line are those of the traceback section, or its line is the first "line " number; the column is 0 and the HTML is the laid-out runtime error at that line |
| CodeExecutor.RuntimeErrorReport | code_executor.py:43-75 | the same report with the header's own nine lines as offset (corrected, see Findings), so a frame on file line 9 + k is reported as line k |
| CodeExecutor.ClassNameOf | code_executor.py:339-345 | the name taken after `class` is a word, or the index error of an empty token |
| CodeExecutor.ClassLine | code_executor.py:339-345 | the scan stops at the first line that declares a class |
| CodeExecutor.ScanClassName | code_executor.py:339-345 | the loop returns the name of the first declaring line, or the default `Main` |
| CodeExecutor.JavaClassName | code_executor.py:339-345 | the class name of the whole program is that of the first declaring line of its `\n`-split lines |
| CodeExecutor.ClassWithoutName | code_executor.py:339-347 | `class {` declares a class, yet taking its name raises the index error |
| AiService.CheckOpenAiApiKey | ai_service.py:9-57 | a key is accepted exactly when it has at least 30 non-blank characters and the trial lists at least one model, or raises an error whose message mentions the quota; a missing package or an empty list rejects it |
| AiService.InsufficientQuotaMentionsQuota | ai_service.py:45-51 | an `insufficient_quota` message already contains "quota" once lower-cased, so the second test never decides |
| AiService.QuotaErrorKeepsKeyValid | ai_service.py:45-51 | a well-formed key whose trial fails with `insufficient_quota` is reported valid |
| AiService.FallbackExampleFollowsPattern | ai_service.py:1586-1620 | the fallback example is the one for the code's pattern (class, then if and else, then for or while, then the rest), with one of four titles |
| AiService.RealWorldMapping | ai_service.py:328-440 | short code gives the fixed placeholder; a key that fails the check or an error gives the pattern example; a quota error gives the pattern example with the quota note; an answer gives its `title`, `description` and `real_world_code`, each replaced by its default when missing |
| AiService.ShortCodeNeedsNoApi | ai_service.py:342-347 | for short code the answer does not depend on the key or on the model |
| AiService.InsertScript | ai_service.py:1200-1206 | with a `</script>`, the script text is spliced just before its last occurrence; without one, a new script element is appended |
| AiService.InsertScriptKeeps | ai_service.py:1200-1206 | every text the page held that holds no `<` survives the insertion |
| AiService.InsertScriptAdds | ai_service.py:1200-1206 | every text the inserted script holds is in the result |
| AiService.FixTimerFunctions | ai_service.py:1211-1356 | a page not mentioning `startTimer` is unchanged; a page that mentions it declares `function startTimer` afterwards |
| AiService.TimerDeclared | ai_service.py:1224-1336 | after the fix the declaration is present, so a second insertion adds nothing |
| AiService.TimerFixGrows | ai_service.py:1332-1356 | a second run still lengthens a page holding `id="start-timer"`, so the fix is not idempotent |
| AiService.GradeTermsRedundant | ai_service.py:1368-1370 | the grading gate fires exactly when the lowercased page mentions grade, average, calculator or grading |
| AiService.FixGradeCalculatorDemo | ai_service.py:1358-1583 | a page without grading terms, or with both helpers already declared, is unchanged |
| AiService.MissingHelpersDeclared | ai_service.py:497-760 | every helper referenced but not declared gets its declaration in the added code |
| AiService.SixHelperParts | ai_service.py:497-760 | the added code is the six helper parts in source order |
| AiService.AddAutoRunFunctionality | ai_service.py:467-1208 | the method computes the page with the auto-run script inserted |
| AiService.AutoRunImplementations | ai_service.py:494-829 | the six checks gather, in order, the code of every listed helper the page calls without declaring |
| AiService.AutoRunInstallsOnload | ai_service.py:1188-1206 | whatever the page held, the repaired page carries the notification script and the new `window.onload` that starts it |
| AiService.AutoRunDeclaresHelpers | ai_service.py:467-1208 | after the auto-run repair, every referenced but undeclared helper is declared; a page without `window.onload` grows |
| AiService.InsertedHelpersDeclared | ai_service.py:1188-1206 | the helpers' declarations survive their insertion into the page |
| AiService.FixCommonDemoIssues | ai_service.py:443-465 | the repairs are applied in the source's order: the grade calculator, then timers, then auto-run |
| AiService.SearchFrom | ai_service.py:1933-1953 | the search finds the leftmost position where either assignment form matches |
| AiService.Extracted | ai_service.py:1933-1953 | the extracted value is non-empty and free of quotes; it is the default or a match of one of the forms |
| AiService.LeftmostMatchWins | ai_service.py:1933-1953 | the leftmost match of either form is the value taken |
| AiService.NoMatchDefault | ai_service.py:1933-1953 | with no match the default credential is used |
| AiService.ExtractCredentials | ai_service.py:1933-1953 | the username and password are non-empty and free of quotes |
| AiService.ExtractsSecondAlternative | ai_service.py:1933-1953 | `user = 'bob'` yields the username `bob` through the second alternative |
| AiService.FallbackDemoFollowsPattern | ai_service.py:1918-2097 | code mentioning login gives the login demo with the extracted credentials; other code gives the demo for its pattern |
| AiService.InteractiveDemo | ai_service.py:1622-1916 | short code gives the placeholder; a failing key or a non-quota error gives the fallback demo; a quota error gives the quota demo; an answer gets the common repairs |
| AiService.MaxIndentBounds | ai_service.py:2175-2186 | no non-blank line is indented deeper than the maximum |
| AiService.MaxIndentAttained | ai_service.py:2175-2186 | the maximum is 0 or the indent level of some non-blank line |
| AiService.DeepestIndent | ai_service.py:2179-2183 | the loop computes the maximum indent level over the non-blank lines |
| AiService.FallbackComplexityAnalysis | ai_service.py:2163-2195 | the score is one plus a tenth of the line count plus the deepest indent, capped at 10, and lies in 1..10 |
| AiService.NotWorkingIsTrouble | ai_service.py:2210-2228 | a question containing "not working" always gets the troubleshooting answer |
| AiService.FallbackReplyCases | ai_service.py:2197-2228 | the canned answer follows the source's order, with both directions for each of the seven answers |
| ServicesAi.AiContentCases | services/ai_service.py:8-59 | the content is fixed for exactly `if-else` and `oops`, and is the placeholder for every other topic |
| ServicesAi.FenceAt | services/ai_service.py:121-125 | a fence match at a position spans an opening fence, an optional tag line, and a body up to the first closing fence |
| ServicesAi.FirstFenceFrom | services/ai_service.py:121-125 | the search finds the first position where a fenced block starts, or none |
| ServicesAi.FencedBlock | services/ai_service.py:121-125 | the first fenced block is non-empty and followed by a fence in the text |
| ServicesAi.FencedBlockAtStart | services/ai_service.py:346-351 | a text opening with a tagged fence yields exactly that fence's body |
| ServicesAi.BackFill | services/ai_service.py:114-128 | the result holds the parsed keys plus title, description and real_world_code; parsed keys are never overwritten; missing ones get their defaults or the first fenced block |
| ServicesAi.FillDefaults | services/ai_service.py:116-127 | the three conditional fills, each of which sets a missing key only |
| ServicesAi.SetDefault | services/ai_service.py:116-127 | one fill adds the key with its default when missing and leaves every other entry alone |
| ServicesAi.Recovered | services/ai_service.py:129-138 | the non-JSON answer gives the three keys, taking the title, description and code found or the defaults |
| ServicesAi.ServiceFallbackFollowsPattern | services/ai_service.py:139-297 | this copy's fallback follows the same four-way order |
| ServicesAi.PipelineTitleDiffers | services/ai_service.py:139-297 | "Data Processing Pipeline" names conditional code in this copy but loop code in the root copy |
| ServicesAi.RealWorldMapping | services/ai_service.py:73-297 | short code gives the placeholder; an error gives the pattern example; a JSON answer keeps all of its keys and values and gains exactly `title`, `description` and `real_world_code`, each missing one set to its default, the code one to the answer's first code fence; other answers are recovered from the text |
| ServicesAi.DemoFromAnswer | services/ai_service.py:344-356 | the demo is the first fenced block when there is one; otherwise the reply's text is kept whole, as it is when it holds `<div` and `</div>`, else inside `<div style='padding:15px;'>` |
| ServicesAi.RawAnswerKept | services/ai_service.py:352-356 | an answer without fences that holds `<div` and `</div>` is used as it is |
| ServicesAi.WrappedAnswer | services/ai_service.py:352-356 | an answer without fences and without a `<div`/`</div>` pair is wrapped in a padded `div` |
| ServicesAi.InteractiveDemo | services/ai_service.py:299-512 | short code gives the placeholder, an error gives the pattern demo, and an answer gives the extracted demo |
| App.ExecuteTarget | app.py:60-70 | python, javascript and java, in any case, choose their runners; any other language gives HTTP 400 |
| App.ExecuteIgnoresCase | app.py:61-70 | two names that lowercase alike are dispatched alike |
| App.EnvRestoredUnlessEmpty | app.py:437-450 | after the check the environment is back as it was, except an originally empty key, which is deleted; no other variable changes |
| App.Environment.CheckOpenAiStatus | app.py:434-464 | the status is "ok" exactly when the key check accepts the given key, or the environment's key when none is given, with the trial's outcome; the environment is left as the override rule says |
| App.HyphensToSpaces | app.py:384-389 | every hyphen becomes a space and every other character is kept |
| App.FallbackTitleShape | app.py:384-389 | the fallback title has no hyphen, an uppercase first letter and no other uppercase letter |
| App.ConceptContext | ai_service.py:137-160 | an unknown concept gets the general context |
| App.GetConcept | app.py:353-389 | a working key gives the topic content; otherwise the title is the capitalised concept and the description its context |
| App.KeyLosesConceptName | app.py:367-376 | with a working key, an unknown concept is titled "Coding Concepts" and not with its own name |
| App.AliasCodeExamples | app.py:397-400 | `code_examples` is added as a copy of `code` only when `code` is present and `code_examples` absent; nothing else changes |
| App.ConceptExamplesError | app.py:401-413 | the error answer has the five keys, the same text under `code` and `code_examples`, and the capitalised concept and language in its title |
| App.AskAi | app.py:319-350 | an answer gives status "success" with the text; an exception gives status "error", the fixed apology and the message |
| App.RealWorldRoute | app.py:73-111 | the service's example is passed through; on an exception the route's own pattern example is used |
| Auth.UserIn | routers/auth.py:17-22 | a user is found exactly when the session cookie is present, non-empty and known, and it is the stored user |
| Auth.SessionStore.Login | routers/auth.py:25-50 | the redirect goes to the issuer's auth endpoint with the state, and sets the state cookie |
| Auth.SessionStore.Callback | routers/auth.py:53-84 | a state that does not match, or a missing code, gives 400 with the state checked first; success adds exactly one session under the fresh id and redirects home |
| Auth.SessionStore.Logout | routers/auth.py:87-95 | the cookie's session is removed and the session cookie is deleted |
| Auth.SessionStore.Me | routers/auth.py:98-103 | 401 exactly when there is no current user; otherwise that user |
| Auth.LogoutForgetsUser | routers/auth.py:87-95 | after logout the cookie finds no user, and every other session is kept |
| Auth.LogoutIdempotent | routers/auth.py:87-95 | logging out twice is logging out once |
| Auth.CallbackThenMe | routers/auth.py:68-103 | after a callback, `me` with the new cookie gives the new user |
| Auth.CallbackThenLogout | routers/auth.py:68-95 | logging out right after a callback restores the sessions as before |
| Editor.Splice | static/js/app.js:276-305 | a splice keeps the text before the start, puts the insertion there, and keeps the text from the end on |
| Editor.CurrentLineShape | static/js/app.js:287-289 | the current line is the text from after the last newline before the caret up to the caret, and holds no newline |
| Editor.Indent | static/js/app.js:290 | the indent is a leading run of whitespace of the current line |
| Editor.EnterInsertion | static/js/app.js:284-309 | Enter inserts a newline, the indent, and four more spaces when the trimmed line ends with `:` |
| Editor.EnterAtStartBeforeNewline | static/js/app.js:287-300 | with the caret at 0 before a newline, the current line is "\n" and two newlines are inserted |
| Editor.EnterHandlersAgree | static/js/components/CodeEditor.js:78-99 | the component handles Enter exactly when the page script would insert more than a newline, and then inserts the same text |
| Editor.TextArea.Tab | static/js/app.js:269-281 | the selection is replaced by four spaces and the caret goes to start+4 |
| Editor.TextArea.InsertAtCaret | static/js/app.js:295-306 | the insertion goes at the caret without deleting the selection, and the caret follows it |
| Editor.TextArea.Enter | static/js/app.js:284-309 | the text gets the Enter insertion at the caret and the caret moves past it |
| Editor.TextArea.ComponentEnter | static/js/components/CodeEditor.js:78-99 | the component handles Enter only for a colon line or an indented line; otherwise nothing changes |
| Editor.TextArea.LineCount | static/js/components/CodeEditor.js:44-46 | the line count is one more than the number of newlines |
| Editor.TextArea.GetLine | static/js/components/CodeEditor.js:47-49 | a line in range is that piece of the split; out of range it is empty |
| Editor.TextArea.SetCursor | static/js/components/CodeEditor.js:50-54 | the caret goes to the end and the text is unchanged |
| Editor.DebounceSlot.Input | static/js/app.js:312-327 | an input leaves exactly one pending timer and fires nothing |
| Editor.DebounceSlot.Fire | static/js/app.js:316-325 | the pending timer sends the code on only when it is longer than the threshold |
| Editor.ThresholdsDiffer | static/js/components/CodeEditor.js:102-119 | code of 31 to 50 characters triggers the page script's update but not the component's |
| Tabs.FirstIndex | static/js/if_else_handler.js:277-281 | the first pane answering to a name, or none |
| Tabs.TabStrip.SelectTab | static/js/app.js:486-490 | exactly the clicked tab is active |
| Tabs.TabStrip.ShowPane | static/js/app.js:492-501 | exactly the first matching pane is active, and none when no pane matches |
| Tabs.TabStrip.ClickPanelTab | static/js/app.js:482-501 | after a panel-tab click only the clicked tab and only `${tabId}-content` are active |
| Tabs.TabStrip.ClickAuthTab | static/js/if_else_handler.js:268-282 | after an auth-tab click the clicked tab and the first matching form are active; a missing form raises the type error |
| Tabs.OneActive | static/js/components/if_else_demo.js:369-384 | exactly one tab and at most one pane are active |
| Tabs.FirstCopyWins | static/js/if_else_handler.js:277-281 | when the document holds the forms twice, the first copy is the one activated |
| PageScript.PanelCode | static/js/app.js:792-806 | short code under a concept other than `general` is replaced by that concept's example code |
| PageScript.UpdateRealWorldCode | static/js/app.js:778-806 | an installed handler gets the code; otherwise the request carries the concept and language or their defaults, and the panel code |
| PageScript.DebouncedCodeKept | static/js/app.js:312-327 | code long enough for the debounce is sent as it is |
| PageScript.ShortCodeGetsRemark | static/js/app.js:792-806 | short code under a concept with no example in that language is sent as the "not available" text |
| PageScript.ExecuteCode | static/js/app.js:703-758 | success shows the output or "No output"; failure shows the error or the unknown-error text; the panels update only after an answer |
| PageScript.Summary | static/js/app.js:1276-1279 | a description longer than 150 characters is cut to 150 plus "..."; shorter ones are kept |
| PageScript.Difficulty | static/js/app.js:1280-1285 | the difficulty label is never empty; it defaults to medium |
| PageScript.LoadPracticeProblems | static/js/app.js:1248-1300 | an error gives the error div, no problems the empty state, and otherwise one item per problem |
| ConceptExamples.ExampleCode | static/js/components/ConceptExamples.js:780-1746 | an example exists exactly for the table's concept and language pairs, and is never empty |
| ConceptExamples.GetConceptExamples | static/js/components/ConceptExamples.js:780-1749 | the table's code when present, otherwise the "not available" text; never empty |
| ConceptExamples.NoPythonFallback | static/js/components/ConceptExamples.js:1749 | recursion and data structures have Python code, yet any other language gets the "not available" text |
| ConceptExamples.GetConceptDescription | static/js/components/ConceptExamples.js:733-771 | an unknown concept is titled with its first letter uppercased, with the fixed description and use |
| ConceptExamples.TitlesDisagreeOnHyphens | static/js/components/ConceptExamples.js:767-771 | the browser keeps a concept's hyphens in the title, while the server's fallback title does not |
| ConceptExamples.GetRealWorldExample | static/js/components/ConceptExamples.js:17-725 | a record exists exactly for if-else, loops, functions and oops; functions and oops carry Python code only |
| ConceptExamples.RealWorldIgnoresLanguage | static/js/components/ConceptExamples.js:17-20 | the record does not depend on the language asked for |
| CodeExamples.ExampleData | static/js/code-examples.js:34-1407 | an entry exists exactly for the four concepts and three languages, with code and a visualization |
| CodeExamples.GetExampleData | static/js/code-examples.js:4-11 | a known concept gives its entry for the language, or its Python entry; an unknown concept raises the type error |
| CodeExamples.KnownConceptAlwaysAnswers | static/js/code-examples.js:4-11 | every known concept answers with non-empty code |
| CodeExamples.RenderedVisualization | static/js/code-examples.js:27 | a missing visualization renders as the empty string |
| AuthExamples.AuthenticationExamples | static/js/components/AuthenticationExample.js:6-316 | snippets exist exactly for python, javascript and java, the first being `simple_login`, all non-empty |
| AuthExamples.InsertAuthenticationExample | static/js/components/AuthenticationExample.js:321-346 | an unknown language or a null editor leaves the editor unchanged; otherwise the preferred setter receives the simple login snippet |
| AuthExamples.InsertsFirstSnippet | static/js/components/AuthenticationExample.js:331-336 | the inserted snippet is the first of the language's table |
| AuthDemo.LoginCheck | static/js/components/if_else_demo.js:393-411 | the login chain, with both directions for each of its five messages |
| AuthDemo.SignupCheck | static/js/components/if_else_demo.js:450-476 | "already registered" comes only after every field check passes; the password length is checked after the `@` |
| AuthDemo.MessageLine.Login | static/js/if_else_handler.js:292-311 | the message line becomes the login chain's outcome |
| AuthDemo.MessageLine.Signup | static/js/if_else_handler.js:350-378 | the message line becomes the signup chain's outcome |
| AuthDemo.ClickTwiceSameLine | static/js/if_else_handler.js:292-311 | running a chain twice leaves the same line as running it once |
| AuthDemo.GreenSticks | static/js/components/if_else_demo.js:394-411 | after one successful login every later message stays green |
| AuthDemo.GreenStays | static/js/components/if_else_demo.js:394-411 | once green, any sequence of logins keeps the colour green |
| AuthDemo.PasswordStrength | static/js/components/if_else_demo.js:426-435 | the strength is 25 per criterion met, one of 0, 25, 50, 75 and 100 |
| AuthDemo.StrengthNeverDrops | static/js/components/if_else_demo.js:427-435 | typing more characters never lowers the strength |
| AuthDemo.Band | static/js/components/if_else_demo.js:437-445 | the colour bucket is the first for below 25 and the last for 75 and above |
| AuthDemo.BandMonotone | static/js/components/if_else_demo.js:437-445 | a higher strength never gets a lower bucket |
| AuthDemo.BandOfPassword | static/js/components/if_else_demo.js:426-445 | a password is green exactly when it meets three criteria or more |
| ComplexityView.ScoreColorClass | static/js/complexity-analyzer.js:544-553 | the colour class is the one of the score's band |
| ComplexityView.ComplexityLabel | static/js/complexity-analyzer.js:555-561 | the label is the one of the score's band |
| ComplexityView.ComplexityDescription | static/js/complexity-analyzer.js:517-526 | the description is the one of the score's band |
| ComplexityView.BandsMonotone | static/js/complexity-analyzer.js:517-561 | a higher score never gets a lower label band or colour band |
| ComplexityView.LabelFixesDescription | static/js/complexity-analyzer.js:517-561 | scores with the same label have the same description |
| ComplexityView.EveryBandReached | static/js/complexity-analyzer.js:555-561 | every label band is reached by some score from 1 to 10 |
| ComplexityView.ShowComplexityAnalysis | static/js/complexity-analyzer.js:166-175 | a missing analysis or an error status shows the error view with its message; otherwise the score, its class and its label are shown |
| VisualOutput.BrLeavesNoNewline | static/js/visual-output.js:55-56 | after the `<br>` pass no newline is left |
| VisualOutput.OnePassOneSpan | static/js/visual-output.js:58-61 | on text without line terminators a `.*$` pass wraps at most one span, from the first keyword to the end |
| VisualOutput.FormatWrapsOnce | static/js/visual-output.js:53-65 | each highlight pass of a console text whose only line terminators are newlines wraps at most one span |
| VisualOutput.LoginPictureByWords | static/js/visual-output.js:91-157 | "successful" shows success; else "password" a wrong password; else "not found" an unknown user |
| VisualOutput.FirstMatch | static/js/visual-output.js:218 | the first match of four digits, spaces and two words, or none |
| VisualOutput.VehicleCaption | static/js/visual-output.js:217-221 | the caption is "Vehicle" exactly when nothing matches, and otherwise starts with the four digits |
| VisualOutput.VehiclePictureByWords | static/js/visual-output.js:212-248 | the engine runs exactly when the output contains "started", and drives exactly when it contains "driving" |
| VisualOutput.DefaultChild | static/js/visual-output.js:67-89 | four concepts have a picture; every other concept gets the placeholder |
| VisualOutput.OutputPanel.Update | static/js/visual-output.js:33-51 | a non-empty console text is formatted into the console; a visual output replaces the window; otherwise the concept's default picture does |
| VisualOutput.OutputPanel.GenerateDefault | static/js/visual-output.js:67-89 | the window is cleared and holds just the concept's picture |
| VisualOutput.OutputPanel.Reset | static/js/visual-output.js:728-741 | the window holds exactly one placeholder and the console its greeting |
| PracticeArea.FormatPracticeOutput | static/js/components/PracticeArea.js:4-18 | empty output gives "No output"; otherwise every `\n`-separated line is numbered, in order |
| PracticeArea.TrailingNewlineNumbersEmptyLine | static/js/components/PracticeArea.js:4-18 | a trailing newline yields an extra, empty numbered line |
| PracticeArea.ConsoleAfter | static/js/components/PracticeArea.js:139-224 | the console shows the output with the "Correct!" banner, the output or "No output", the error or its default, or the fetch error |
| PracticeArea.NoOutputNotCorrect | static/js/components/PracticeArea.js:158 | empty output never earns the banner |
| PracticeArea.Practice.StartRun | static/js/components/PracticeArea.js:116-128 | the button is disabled and shows the loading indicator with "Running...", and the box the running note |
| PracticeArea.Practice.FinishRun | static/js/components/PracticeArea.js:139-224 | on both paths the button is back to "Run Code"; the console and box show the outcome |
| PracticeArea.Practice.Reset | static/js/components/PracticeArea.js:229-234 | the editor holds the starter comment and nothing else changes |
| PracticeArea.Practice.ClearOutput | static/js/components/PracticeArea.js:239-252 | the box and the console are emptied and nothing else changes |
| Assistant.Closing | static/js/ai-assistant.js:119-123 | a lazy match closes at the first closing delimiter, never crossing a line terminator unless the pattern spans lines |
| Assistant.PairAtStart | static/js/ai-assistant.js:119-123 | a delimited span at the start is wrapped in the tags and the rest is processed on |
| Assistant.PairsAbsent | static/js/ai-assistant.js:119-123 | a text without the delimiter is unchanged |
| Assistant.MarkdownHasNoNewline | static/js/ai-assistant.js:115-126 | after the markdown pass no newline is left, inside fences as well |
| Assistant.PlainTextUnchanged | static/js/ai-assistant.js:115-126 | plain text without backticks, stars or newlines is unchanged |
| Assistant.BoldBeforeItalic | static/js/ai-assistant.js:121-123 | `**x**` becomes bold and is not taken for italics |
| Assistant.AnswerEmptyIff | static/js/ai-assistant.js:81-99 | the answer shown is empty exactly when a successful reply had an empty response |
| Assistant.QuotaKeepsAnswer | static/js/ai-assistant.js:83-88 | a quota error shows the high-demand prefix followed by the reply's answer |
| Assistant.OneQuestionSettles | static/js/ai-assistant.js:26-103 | one question leaves the question and no indicator |
| Assistant.CaughtReplyTakesBothIndicators | static/js/ai-assistant.js:79-103 | with two questions pending, a reply that throws after the first removal takes both indicators |
| Assistant.AnswerAfterClear | static/js/ai-assistant.js:169-175 | a reply after clearing follows the one greeting |
| Assistant.AssistantChat.AddMessage | static/js/ai-assistant.js:111-133 | an AI message is appended after the markdown pass; a user message as it is |
| Assistant.AssistantChat.AddThinkingIndicator | static/js/ai-assistant.js:135-158 | the indicator is appended and one more style element is added |
| Assistant.AssistantChat.RemoveThinkingIndicator | static/js/ai-assistant.js:161-166 | the first indicator is removed; nothing happens when there is none |
| Assistant.AssistantChat.Send | static/js/ai-assistant.js:19-33 | a blank question does nothing; otherwise the trimmed question and an indicator are appended and the input is cleared |
| Assistant.AssistantChat.Receive | static/js/ai-assistant.js:77-106 | the transcript settles as the reply's kind prescribes |
| Assistant.AssistantChat.ClearChat | static/js/ai-assistant.js:169-175 | the transcript is exactly one greeting |
| Helpline.Reply | static/js/components/Helpline.js:100-138 | the AI bubble holds the response or the apology, stamped "Just now" |
| Helpline.ReplyReplacesPending | static/js/components/Helpline.js:100-115 | the answer replaces the pending indicator after the question |
| Helpline.SettleCounts | static/js/components/Helpline.js:100-115 | settling removes one indicator and adds one message |
| Helpline.Panel.constructor | static/js/components/Helpline.js:11-20 | the transcript opens with one greeting |
| Helpline.Panel.Send | static/js/components/Helpline.js:69-85 | a blank question is ignored; otherwise the input is cleared, and the question and one indicator are appended |
| Helpline.Panel.Receive | static/js/components/Helpline.js:100-117 | the transcript settles with the reply |
| Helpline.Panel.RemoveThinkingIndicator | static/js/components/Helpline.js:159-164 | the first indicator is removed |
| Transcript.IndexOf | static/js/components/Helpline.js:159-164 | the position of the first occurrence, or the length |
| Transcript.RemoveFirst | static/js/ai-assistant.js:161-166 | removal leaves the sequence unchanged when the entry is absent, and one shorter otherwise |
| Transcript.RemoveFirstMultiset | static/js/ai-assistant.js:161-166 | removal takes away exactly one copy of the entry |
| Transcript.RemoveFirstCutsFirst | static/js/ai-assistant.js:161-166 | removal cuts out the first occurrence |
| Transcript.RemoveFirstAppend | static/js/ai-assistant.js:161-166 | entries appended after the first occurrence are kept |
| Transcript.RemoveTwiceTakesBoth | static/js/ai-assistant.js:161-166 | two removals take both indicators |
| DemoPanel.Settled | static/js/components/InteractiveDemo.js:100-235 | a failure shows the fallback demo; otherwise `demo_html` with its header, else `html`, else the empty state |
| DemoPanel.HeaderNeverEmpty | static/js/components/InteractiveDemo.js:115-150 | the demo header's title and description are never empty |
| DemoPanel.FallbackFollowsPattern | static/js/components/InteractiveDemo.js:200-209 | the browser's fallback tests the keywords in the same priority as the server's pattern detection, and shows its own demo for that kind of code |
| DemoPanel.BrowserDemosDistinct | static/js/components/InteractiveDemo.js:200-209 | each kind of code has its own fallback demo |
| DemoPanel.RunScripts | static/js/components/InteractiveDemo.js:153-162 | every script is evaluated in order and each failure is counted |
| DemoPanel.ThrowingScriptStopsNothing | static/js/components/InteractiveDemo.js:153-162 | a script that throws does not stop the ones after it |
| DemoPanel.Panel.Start | static/js/components/InteractiveDemo.js:78-98 | code missing or shorter than 30 characters sends nothing and leaves the panel; otherwise the loading view shows |
| DemoPanel.Panel.Finish | static/js/components/InteractiveDemo.js:100-235 | the panel shows the settled view and evaluates its scripts unless nothing is shown |
| Strings.Find | ai_service.py:1200-1206 | `find` gives the first occurrence exactly when the pattern occurs |
| Strings.RFind | ai_service.py:1200-1206 | `rfind` gives the last occurrence exactly when the pattern occurs |
| Strings.JoinSplit | code_executor.py:176-183 | joining the pieces of a split with the separator gives back the text |
| Strings.SplitCount | static/js/components/CodeEditor.js:44-46 | splitting at a character gives one more piece than its occurrences |
| Strings.TrimEmptyIff | code_executor.py:177 | a stripped text is empty exactly when the text is all whitespace |
| Strings.DecimalRoundTrip | code_executor.py:226-228 | parsing the decimal form of a number gives it back |
| Strings.JsSubstring | static/js/app.js:289 | `substring` with bounds in order and in range is the slice between them; otherwise its length is the distance between the clamped bounds |
| Strings.JsSubstringSymmetric | static/js/app.js:289 | swapping the two bounds of `substring` gives the same text |
| Strings.JsSubstringClamps | static/js/app.js:289 | bounds outside the string act as its nearest end |
| Strings.JsLastIndexOf | static/js/app.js:288 | `lastIndexOf` gives the last occurrence at or before the clamped start, or -1 |

## Left out

- The interpreters, the language model and the OAuth provider are not modelled. Subprocesses, temporary files, OpenAI calls, `exec`, fetches, timers and the DOM are also left out. Each appears as a parameter that stands for its outcome.
- The `uuid4` values of the auth callback are parameters, and the session id is assumed fresh.
- The `window.onload` rewrite in `add_auto_run_functionality` (ai_service.py:1190-1196) is an uninterpreted function parameter, `rewriteOnload`. Its effect on the page is not modelled.
- AiService.FixTimerFunctions: the `re.finditer` loop over button patterns at ai_service.py:1338-1353 is not modelled. On a page that mentions `startTimer`, it adds `onclick="startTimer()"` to every button without an `onclick` whose label is Start Timer, Start, Begin Countdown or Start Countdown, in any case. So `TimerFixed` differs from the source on such a page, for example one that mentions `startTimer` and holds `<button>Start</button>`. Because `FixCommonDemoIssues` applies this repair, it inherits the same gap.
- The large string constants are short stand-ins that keep the text the modelled logic inspects. Short messages and markup keep the source's text, but the indentation inside template literals is dropped. These are the demo pages, teaching snippets, helper functions and canned answers. The notification and auto-run scripts of `add_auto_run_functionality` keep the names they define and call, and the start of the new `window.onload`, but not the statement bodies.
- Python's `lower` and `capitalize` and JavaScript's `toLowerCase` and `toUpperCase` are modelled on ASCII letters only. Unicode case mapping is not modelled.
- Lengths are counted in characters, not UTF-16 code units.
- Floating point is not modelled. This covers the complexity chart multipliers and bar widths, the timings in the output, and fractional complexity scores taken unchecked from the language model's answer.
- `random.choice` in the practice problem and the random achievements are not modelled.
- The content-section parsing of the root `get_interactive_demo` answer is not modelled. `AiService.InteractiveDemo` takes the extracted demo as the answer.
- `auth_demo_template.py` is not part of this model. Its f-string cannot compile, so callers fall back to the inline login demo, which is modelled.
- The unused `stopped` flag of the vehicle picture is not modelled.
- The `loadIfElseAuthDemo` wiring is not modelled. Its effect, running a chain twice, is covered by `AuthDemo.ClickTwiceSameLine`.
- The browser's own newline when the component editor leaves Enter unhandled is not modelled.
- Property reads on a null element (other than the auth tab's missing form) are not modelled. This includes Monaco's `getModel()` returning null and a JSON `null` body in the helpline.
- Markup parsing is not modelled. The `<script>` elements of a shown demo are given as a parameter.
- Scroll positions are not modelled.
- JavaScript prototype keys in table lookups are not modelled.
- AiService.FixGradeCalculatorDemo: the two `re.finditer` loops over button patterns at ai_service.py:1544-1560 and 1567-1581 are not modelled. The first adds `onclick="calculateGrades()"` to every button without an `onclick` labelled Calculate Grades, Grade, Compute Grades or Assign Grades. The second adds `onclick="calculateAverage()"` to those labelled Calculate Average, Calculate or Compute Average. So `GradeFixed` differs from the source on a page that needs a helper and holds such a button. Its contract states when the page is left unchanged, and that the result is `GradeFixed`, which keeps the script insertion and the three attribute rewrites per helper.
- AiService.FixCommonDemoIssues: its contract ties the result to the composed repairs; the properties of each repair are stated on the repair itself.
- ServicesAi.InteractiveDemo: the call to `get_real_world_mapping` made before asking for the demo only feeds the prompt, so it is not modelled.
- PageScript.UpdateRealWorldCode: the substituted example is still POSTed to `/api/realworld` (static/js/app.js:792-806).
- Assistant.AssistantChat.RemoveThinkingIndicator: the indicator's id can occur twice when questions overlap. Like `getElementById`, only the first copy is removed.

## Findings

| source | as written | input that shows it | evidently intended | confidence | as-written member | corrected member |
|---|---|---|---|---|---|---|
| code_executor.py:74 | a runtime error's line is adjusted by the instrumented file's line count minus one, instead of the nine header lines written ahead of the code (43-52) | a `NameError` on line 1 of `y\nx = 1` is reported as line 0, so no code context is shown | the error's own line in the user's code | not executed | CodeExecutor.AsWrittenFirstOfTwo | CodeExecutor.CorrectedRuntimeLine |
