/**
 * The AI assistant's chat panel: the markdown-lite rules an AI message goes
 * through, the question handler with its thinking indicator, the way each
 * kind of reply settles a question, and the clear button. The transcript is
 * the sequence of the panel's entries; the request to `/api/ask` is a
 * parameter given by how it settled.
 */
module Assistant {
  import opened Wrappers
  import opened Strings
  import opened Transcript
  import VisualOutput

  // ================================================================ markdown-lite

  /**
   * Where the lazy body of a delimiter pair ends: the first index at or
   * after `from` where the closing delimiter `d` starts, provided no line
   * terminator comes first (the body `(.*?)`); with `dotAll` the body may
   * span lines (the body `([\s\S]*?)`).
   */
  function Closing(s: string, d: string, from: nat, dotAll: bool): (r: Option<nat>)
    ensures r.Some? ==> from <= r.value && OccursAt(s, d, r.value)
    ensures r.Some? ==> forall j | from <= j < r.value :: !OccursAt(s, d, j)
    ensures r.Some? && !dotAll ==> forall j | from <= j < r.value :: !IsLineTerminator(s[j])
    decreases |s| - from
  {
    if from > |s| then None
    else if OccursAt(s, d, from) then Some(from)
    else if from == |s| || (!dotAll && IsLineTerminator(s[from])) then None
    else Closing(s, d, from + 1, dotAll)
  }

  /** Where the body of a pair opening at the start of `s` ends, if a pair opens there. */
  function PairAt(s: string, d: string, dotAll: bool): (q: Option<nat>)
    ensures q.Some? ==> |d| <= q.value && q.value + |d| <= |s|
  {
    if StartsWith(s, d) then Closing(s, d, |d|, dotAll) else None
  }

  /**
   * `s.replace(/d(.*?)d/g, open + '$1' + close)`: scanning from the left, a
   * delimiter that has a closing one has its body wrapped, and the scan
   * resumes after the closing delimiter; any other character is copied.
   */
  function Pairs(s: string, d: string, dotAll: bool, open: string, close: string): string
    requires d != []
    decreases |s|
  {
    if s == [] then []
    else
      var q := PairAt(s, d, dotAll);
      if q.Some? then open + s[|d|..q.value] + close + Pairs(s[q.value + |d|..], d, dotAll, open, close)
      else [s[0]] + Pairs(s[1..], d, dotAll, open, close)
  }

  const Fence := "```"

  /** The rules of `addMessage` for an AI message, in their order: code fences, bold, italics, line breaks. */
  function Markdown(content: string): string {
    var fenced := Pairs(content, Fence, true, "<pre><code>", "</code></pre>");
    var bold := Pairs(fenced, "**", false, "<strong>", "</strong>");
    var italic := Pairs(bold, "*", false, "<em>", "</em>");
    VisualOutput.Br(italic)
  }

  /** Text without the delimiter passes a rule unchanged. */
  lemma {:induction false} PairsAbsent(s: string, d: string, dotAll: bool, open: string, close: string)
    requires d != [] && !Contains(s, d)
    ensures Pairs(s, d, dotAll, open, close) == s
    decreases |s|
  {
    if s != [] {
      PairsAbsent(s[1..], d, dotAll, open, close);
    }
  }

  /**
   * The converse of `Closing`'s contract: a closing delimiter reached with
   * no earlier one and no line terminator before it (any, with `dotAll`)
   * is where the body ends.
   */
  lemma {:induction false} ClosingFirst(s: string, d: string, from: nat, k: nat, dotAll: bool)
    requires from <= k && OccursAt(s, d, k)
    requires forall j | from <= j < k :: !OccursAt(s, d, j) && (dotAll || !IsLineTerminator(s[j]))
    ensures Closing(s, d, from, dotAll) == Some(k)
    decreases k - from
  {
    if from < k {
      ClosingFirst(s, d, from + 1, k, dotAll);
    }
  }

  /**
   * A delimiter, a body and the next delimiter become the wrapped body: the
   * body is lazy, so it ends at the first closing delimiter, and (except
   * for fences) it does not span a line break.
   */
  lemma PairAtStart(d: string, body: string, rest: string, dotAll: bool, open: string, close: string)
    requires d != [] && forall j | 0 <= j < |body| :: !OccursAt(body + d, d, j)
    requires dotAll || forall k | 0 <= k < |body| :: !IsLineTerminator(body[k])
    ensures Pairs(d + body + d + rest, d, dotAll, open, close) == open + body + close + Pairs(rest, d, dotAll, open, close)
  {
    var s := d + body + d + rest;
    var e := |d| + |body|;
    PairAtBody(d, body, rest, dotAll);
    PairsAt(s, d, dotAll, open, close, e);
    assert s[|d|..e] == body;
    assert s[e + |d|..] == rest;
  }

  /** Where a pair opens, the rule wraps its body and goes on after the closing delimiter. */
  lemma PairsAt(s: string, d: string, dotAll: bool, open: string, close: string, e: nat)
    requires d != [] && s != [] && PairAt(s, d, dotAll) == Some(e)
    ensures Pairs(s, d, dotAll, open, close) == open + s[|d|..e] + close + Pairs(s[e + |d|..], d, dotAll, open, close)
  {
  }

  /** A pair opens at the start of `d + body + d + rest`, and its body is `body`. */
  lemma PairAtBody(d: string, body: string, rest: string, dotAll: bool)
    requires d != [] && forall j | 0 <= j < |body| :: !OccursAt(body + d, d, j)
    requires dotAll || forall k | 0 <= k < |body| :: !IsLineTerminator(body[k])
    ensures PairAt(d + body + d + rest, d, dotAll) == Some(|d| + |body|)
  {
    ClosingAfterBody(d, body, rest, dotAll);
    assert (d + body + d + rest)[..|d|] == d;
  }

  /** The lazy body of `d + body + d + rest` ends after `body`. */
  lemma ClosingAfterBody(d: string, body: string, rest: string, dotAll: bool)
    requires d != [] && forall j | 0 <= j < |body| :: !OccursAt(body + d, d, j)
    requires dotAll || forall k | 0 <= k < |body| :: !IsLineTerminator(body[k])
    ensures Closing(d + body + d + rest, d, |d|, dotAll) == Some(|d| + |body|)
  {
    var s := d + body + d + rest;
    var e := |d| + |body|;
    assert s[e..][..|d|] == d;
    forall j | |d| <= j < e ensures !OccursAt(s, d, j) && (dotAll || !IsLineTerminator(s[j])) {
      assert s[j] == body[j - |d|];
      assert s[j..][..|d|] == (body + d)[j - |d|..][..|d|];
      assert !OccursAt(body + d, d, j - |d|);
    }
    ClosingFirst(s, d, |d|, e, dotAll);
  }

  /** An AI message never keeps a newline: every one becomes `<br>`, those inside code fences too. */
  lemma MarkdownHasNoNewline(content: string)
    ensures forall k | 0 <= k < |Markdown(content)| :: Markdown(content)[k] != '\n'
  {
    var fenced := Pairs(content, Fence, true, "<pre><code>", "</code></pre>");
    var bold := Pairs(fenced, "**", false, "<strong>", "</strong>");
    VisualOutput.BrLeavesNoNewline(Pairs(bold, "*", false, "<em>", "</em>"));
  }

  /** A message without backticks, asterisks or newlines is shown as written. */
  lemma PlainTextUnchanged(content: string)
    requires '`' !in content && '*' !in content && '\n' !in content
    ensures Markdown(content) == content
  {
    MissingChar(content, Fence, '`');
    PairsAbsent(content, Fence, true, "<pre><code>", "</code></pre>");
    MissingChar(content, "**", '*');
    PairsAbsent(content, "**", false, "<strong>", "</strong>");
    MissingChar(content, "*", '*');
    PairsAbsent(content, "*", false, "<em>", "</em>");
    MissingChar(content, "\n", '\n');
    ReplaceAbsent(content, "\n", "<br>");
  }

  /** Without asterisks in the body, the first asterisk pair of `body + "**"` is its end. */
  lemma ClosingPairAtEnd(body: string)
    requires '*' !in body
    ensures forall j | 0 <= j < |body| :: !OccursAt(body + "**", "**", j)
  {
    var t := body + "**";
    forall j | 0 <= j < |body| ensures !OccursAt(t, "**", j) {
      assert t[j] == body[j];
    }
  }

  /** Text without asterisks or newlines passes the italic and line-break rules unchanged. */
  lemma LastPassesKeep(t: string)
    requires '*' !in t && '\n' !in t
    ensures VisualOutput.Br(Pairs(t, "*", false, "<em>", "</em>")) == t
  {
    MissingChar(t, "*", '*');
    PairsAbsent(t, "*", false, "<em>", "</em>");
    MissingChar(t, "\n", '\n');
    ReplaceAbsent(t, "\n", "<br>");
  }

  /** A double-asterisk pair around text without asterisks or line breaks becomes bold. */
  lemma BoldPass(body: string)
    requires '*' !in body && forall k | 0 <= k < |body| :: !IsLineTerminator(body[k])
    ensures Pairs("**" + body + "**", "**", false, "<strong>", "</strong>") == "<strong>" + body + "</strong>"
  {
    ClosingPairAtEnd(body);
    PairAtStart("**", body, [], false, "<strong>", "</strong>");
    assert "**" + body + "**" == "**" + body + "**" + [];
  }

  /** Bold runs before italics: a double-asterisk pair becomes bold, not two empty italics around the text. */
  lemma BoldBeforeItalic(body: string)
    requires '`' !in body && '*' !in body && forall k | 0 <= k < |body| :: !IsLineTerminator(body[k])
    ensures Markdown("**" + body + "**") == "<strong>" + body + "</strong>"
  {
    var s := "**" + body + "**";
    assert '`' !in s;
    MissingChar(s, Fence, '`');
    PairsAbsent(s, Fence, true, "<pre><code>", "</code></pre>");
    BoldPass(body);
    assert '\n' !in body by {
      assert forall k | 0 <= k < |body| :: body[k] != '\n';
    }
    StrongKeepsPlain(body);
    LastPassesKeep("<strong>" + body + "</strong>");
  }

  lemma StrongKeepsPlain(body: string)
    requires '*' !in body && '\n' !in body
    ensures '*' !in "<strong>" + body + "</strong>" && '\n' !in "<strong>" + body + "</strong>"
  {
    var t := "<strong>" + body + "</strong>";
    forall k | 0 <= k < |t| ensures t[k] != '*' && t[k] != '\n' {
      if 8 <= k < 8 + |body| {
        assert t[k] == body[k - 8];
      }
    }
  }

  // ================================================================ the transcript

  /** One entry of the panel: a message (its paragraph's markup) or the pending indicator. */
  datatype Entry = Message(role: Role, html: string) | ThinkingIndicator

  const Greeting := "Hello! I'm your coding assistant. Ask me anything about the code you're learning!"
  const TechnicalIssue := "Sorry, I encountered a technical issue while processing your request. Our system is still working, but with limited AI capabilities at the moment. Please try asking another question or try again later."
  const HighDemand := "The AI assistant is currently experiencing high demand. I'm using my built-in knowledge to answer instead.\n\n"
  const TryLater := "Please try a different question or check back later."
  const GenericError := "Sorry, I encountered an error while processing your request. Please try again later."

  /** The body of an `/api/ask` reply, with the HTTP status; a field the body lacks is `None`. */
  datatype AskReply = AskReply(ok: bool, status: string, error: Option<string>, response: Option<string>)

  /** How the request settled: the fetch threw, the body was not JSON, or a body arrived. */
  datatype AskOutcome = FetchFailed | BodyNotJson | Replied(reply: AskReply)

  /** A failing HTTP status or a body whose status is `error`. */
  predicate ErrorReply(r: AskReply) {
    !r.ok || r.status == "error"
  }

  /** The reply's error mentions a quota. */
  predicate QuotaError(r: AskReply) {
    r.error.Some? && Contains(r.error.value, "quota")
  }

  /** `value || fallback`: a missing or empty value gives the fallback. */
  function OrElse(value: Option<string>, fallback: string): (r: string)
    ensures value.Some? && value.value != [] ==> r == value.value
    ensures value.None? || value.value == [] ==> r == fallback
  {
    if value.Some? && value.value != [] then value.value else fallback
  }

  /**
   * The question ends in the handler's `catch`: the fetch threw, the body
   * could not be parsed, or a success body has no `response` and formatting
   * it throws.
   */
  predicate Caught(o: AskOutcome) {
    o.FetchFailed? || o.BodyNotJson? || (!ErrorReply(o.reply) && o.reply.response.None?)
  }

  /** The indicator is removed twice: once after the fetch and again in the `catch`. */
  predicate RemovedTwice(o: AskOutcome) {
    Caught(o) && !o.FetchFailed?
  }

  /** The text of the AI message that settles a question, before the markdown rules. */
  function AnswerText(o: AskOutcome): string {
    if Caught(o) then TechnicalIssue
    else if ErrorReply(o.reply) then
      if QuotaError(o.reply) then HighDemand + OrElse(o.reply.response, TryLater)
      else OrElse(o.reply.response, GenericError)
    else o.reply.response.value
  }

  /** The AI message that settles a question. */
  function Answer(o: AskOutcome): Entry {
    Message(Ai, Markdown(AnswerText(o)))
  }

  /** The transcript once the indicator is taken down: the first one, and on a caught reply the next one too. */
  function Unpended(messages: seq<Entry>, twice: bool): seq<Entry> {
    var once := RemoveFirst(messages, ThinkingIndicator);
    if twice then RemoveFirst(once, ThinkingIndicator) else once
  }

  /** The transcript after a question settles: the indicator goes and the answer is appended. */
  function Settled(messages: seq<Entry>, o: AskOutcome): seq<Entry> {
    Unpended(messages, RemovedTwice(o)) + [Answer(o)]
  }

  /** The answer is empty only when a successful reply carries an empty `response`; every error path shows some text. */
  lemma AnswerEmptyIff(o: AskOutcome)
    ensures AnswerText(o) == [] <==> o.Replied? && !ErrorReply(o.reply) && o.reply.response == Some([])
  {
    if o.Replied? && !Caught(o) && ErrorReply(o.reply) && QuotaError(o.reply) {
      assert |HighDemand + OrElse(o.reply.response, TryLater)| >= |HighDemand|;
    }
  }

  /** A quota error keeps the server's own answer after the high-demand notice. */
  lemma QuotaKeepsAnswer(r: AskReply, answer: string)
    requires ErrorReply(r) && QuotaError(r) && r.response == Some(answer) && answer != []
    ensures AnswerText(Replied(r)) == HighDemand + answer
    ensures EndsWith(AnswerText(Replied(r)), answer)
  {
    var t := HighDemand + answer;
    assert t[|t| - |answer|..] == answer;
  }

  /**
   * With one question pending, the answer takes the indicator's place:
   * the user's message is followed by exactly one AI message, whatever the
   * reply was.
   */
  lemma OneQuestionSettles(m: seq<Entry>, question: string, twice: bool)
    requires ThinkingIndicator !in m
    ensures Unpended(m + [Message(User, question), ThinkingIndicator], twice) == m + [Message(User, question)]
  {
    var a := m + [Message(User, question)];
    RemoveFirstAfterAbsent(a, [], ThinkingIndicator);
    assert a + [ThinkingIndicator] + [] == m + [Message(User, question), ThinkingIndicator];
  }

  /**
   * With two questions pending, a reply caught after the fetch removes both
   * indicators: the other question shows no indicator though it is still
   * waiting.
   */
  lemma CaughtReplyTakesBothIndicators(m: seq<Entry>, q1: string, q2: string)
    requires ThinkingIndicator !in m
    ensures ThinkingIndicator !in Unpended(m + [Message(User, q1), ThinkingIndicator, Message(User, q2), ThinkingIndicator], true)
  {
    RemoveTwiceTakesBoth(m, Message(User, q1), Message(User, q2), ThinkingIndicator);
  }

  /** A question asked before the chat was cleared is answered below the greeting. */
  lemma AnswerAfterClear(o: AskOutcome)
    ensures Settled([Message(Ai, Greeting)], o) == [Message(Ai, Greeting), Answer(o)]
  {
  }

  class AssistantChat {
    /** The entries of `#chat-messages`, in document order. */
    var messages: seq<Entry>
    /** The question box. */
    var input: string
    /** How many `<style>` elements the panel has appended to the document head. */
    var styles: nat

    constructor (messages0: seq<Entry>)
      ensures messages == messages0 && input == [] && styles == 0
    {
      messages := messages0;
      input := [];
      styles := 0;
    }

    /** `addMessage`: an AI message goes through the markdown rules; a user's is inserted as typed. */
    method AddMessage(role: Role, content: string)
      modifies this
      ensures messages == old(messages) + [Message(role, if role == Ai then Markdown(content) else content)]
      ensures input == old(input) && styles == old(styles)
    {
      var html := content;
      if role == Ai {
        html := Pairs(html, Fence, true, "<pre><code>", "</code></pre>");
        html := Pairs(html, "**", false, "<strong>", "</strong>");
        html := Pairs(html, "*", false, "<em>", "</em>");
        html := Replace(html, "\n", "<br>");
      }
      messages := messages + [Message(role, html)];
    }

    /** `addThinkingIndicator`: one more indicator at the end, and one more style element in the head. */
    method AddThinkingIndicator()
      modifies this
      ensures messages == old(messages) + [ThinkingIndicator]
      ensures styles == old(styles) + 1 && input == old(input)
    {
      messages := messages + [ThinkingIndicator];
      styles := styles + 1;
    }

    /** `removeThinkingIndicator`: the first indicator in document order goes; none, nothing happens. */
    method RemoveThinkingIndicator()
      modifies this
      ensures messages == RemoveFirst(old(messages), ThinkingIndicator)
      ensures input == old(input) && styles == old(styles)
    {
      var i := 0;
      while i < |messages| && messages[i] != ThinkingIndicator
        invariant i <= |messages|
        invariant forall j | 0 <= j < i :: messages[j] != ThinkingIndicator
      {
        i := i + 1;
      }
      if i < |messages| {
        assert IndexOf(messages, ThinkingIndicator) == i;
        RemoveFirstCutsFirst(messages, ThinkingIndicator);
        messages := messages[..i] + messages[i + 1..];
      }
    }

    /**
     * `sendQuestion` up to its request: a blank question changes nothing and
     * sends nothing; otherwise the trimmed question is shown, the box is
     * cleared and the indicator added. The result is the question sent.
     */
    method Send() returns (question: Option<string>)
      modifies this
      ensures Trim(Js, old(input)) == [] ==>
        question.None? && messages == old(messages) && input == old(input) && styles == old(styles)
      ensures Trim(Js, old(input)) != [] ==> question == Some(Trim(Js, old(input)))
      ensures question.Some? ==> messages == old(messages) + [Message(User, question.value), ThinkingIndicator]
      ensures question.Some? ==> input == [] && styles == old(styles) + 1
    {
      var q := Trim(Js, input);
      if q == [] {
        return None;
      }
      AddMessage(User, q);
      input := [];
      AddThinkingIndicator();
      question := Some(q);
    }

    /** `sendQuestion` after its request, on each way the request can settle. */
    method Receive(o: AskOutcome)
      modifies this
      ensures messages == Settled(old(messages), o)
      ensures input == old(input) && styles == old(styles)
    {
      if o.FetchFailed? {
        RemoveThinkingIndicator();
        AddMessage(Ai, TechnicalIssue);
        return;
      }
      RemoveThinkingIndicator();
      if o.BodyNotJson? {
        RemoveThinkingIndicator();
        AddMessage(Ai, TechnicalIssue);
        return;
      }
      var r := o.reply;
      if !r.ok || r.status == "error" {
        if r.error.Some? && r.error.value != [] && Contains(r.error.value, "quota") {
          AddMessage(Ai, HighDemand + OrElse(r.response, TryLater));
        } else {
          AddMessage(Ai, OrElse(r.response, GenericError));
        }
        return;
      }
      if r.response.None? {
        RemoveThinkingIndicator();
        AddMessage(Ai, TechnicalIssue);
        return;
      }
      AddMessage(Ai, r.response.value);
    }

    /** `clearChat`: exactly the greeting is left. */
    method ClearChat()
      modifies this
      ensures messages == [Message(Ai, Greeting)]
      ensures input == old(input) && styles == old(styles)
    {
      messages := [Message(Ai, Greeting)];
    }
  }
}
