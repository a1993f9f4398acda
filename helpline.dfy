/**
 * The helpline panel: a transcript that opens with one greeting, a send
 * handler that clears the box before showing the question, and the answer
 * or the fixed apology that replaces the pending indicator. A message's
 * text is set as text, never as markup, and every message is stamped
 * "Just now".
 */
module Helpline {
  import opened Wrappers
  import opened Strings
  import opened Transcript

  /** One entry of `#helpline-messages`: a bubble with its text and time, or the pending indicator. */
  datatype Bubble = Said(role: Role, text: string, time: string) | Pending

  const JustNow := "Just now"
  const Greeting := "Hello! I'm your AI coding assistant. How can I help you today?"
  const Apology := "Sorry, there was an error processing your request. Please try again."

  /** How the request settled: it failed (network or unparseable body), or a body arrived, with or without `response`. */
  datatype HelpOutcome = HelpFailed | HelpAnswered(response: Option<string>)

  /**
   * The bubble that settles a question: the reply's `response` verbatim (a
   * missing one sets empty text), or the apology.
   */
  function Reply(o: HelpOutcome): (b: Bubble)
    ensures b.Said? && b.role == Ai && b.time == JustNow
    ensures o.HelpFailed? ==> b.text == Apology
    ensures o.HelpAnswered? && o.response.Some? ==> b.text == o.response.value
    ensures o.HelpAnswered? && o.response.None? ==> b.text == []
  {
    match o
    case HelpFailed => Said(Ai, Apology, JustNow)
    case HelpAnswered(response) => Said(Ai, if response.Some? then response.value else [], JustNow)
  }

  /** The transcript after a question settles: the first pending indicator goes and the reply is appended. */
  function Settled(bubbles: seq<Bubble>, o: HelpOutcome): seq<Bubble> {
    RemoveFirst(bubbles, Pending) + [Reply(o)]
  }

  /** With one question pending, its reply takes the indicator's place, right after the question. */
  lemma ReplyReplacesPending(m: seq<Bubble>, question: string, o: HelpOutcome)
    requires Pending !in m
    ensures Settled(m + [Said(User, question, JustNow), Pending], o) == m + [Said(User, question, JustNow), Reply(o)]
  {
    var a := m + [Said(User, question, JustNow)];
    RemoveFirstSkips(a, [Pending], Pending);
    assert m + [Said(User, question, JustNow), Pending] == a + [Pending];
  }

  /** Every settled question takes down one indicator, when one is showing, and adds one AI bubble. */
  lemma SettleCounts(m: seq<Bubble>, o: HelpOutcome)
    ensures multiset(Settled(m, o))[Pending] == if Pending in m then multiset(m)[Pending] - 1 else 0
    ensures |Settled(m, o)| == if Pending in m then |m| else |m| + 1
  {
    RemoveFirstMultiset(m, Pending);
    assert Pending !in Settled(m, o) <== Pending !in m;
  }

  class Panel {
    /** The bubbles of `#helpline-messages`, in document order. */
    var bubbles: seq<Bubble>
    /** The question box. */
    var input: string

    /** The panel as first rendered: the greeting alone and an empty box. */
    constructor ()
      ensures bubbles == [Said(Ai, Greeting, JustNow)] && input == []
    {
      bubbles := [Said(Ai, Greeting, JustNow)];
      input := [];
    }

    /** `addMessage`: the content becomes the bubble's text as it is, stamped "Just now". */
    method AddMessage(role: Role, content: string)
      modifies this
      ensures bubbles == old(bubbles) + [Said(role, content, JustNow)]
      ensures input == old(input)
    {
      bubbles := bubbles + [Said(role, content, JustNow)];
    }

    /** `removeThinkingIndicator`: the first pending indicator goes; none, nothing happens. */
    method RemoveThinkingIndicator()
      modifies this
      ensures bubbles == RemoveFirst(old(bubbles), Pending)
      ensures input == old(input)
    {
      var i := 0;
      while i < |bubbles| && bubbles[i] != Pending
        invariant i <= |bubbles|
        invariant forall j | 0 <= j < i :: bubbles[j] != Pending
      {
        i := i + 1;
      }
      if i < |bubbles| {
        assert IndexOf(bubbles, Pending) == i;
        RemoveFirstCutsFirst(bubbles, Pending);
        bubbles := bubbles[..i] + bubbles[i + 1..];
      }
    }

    /**
     * `sendMessage` up to its request: a blank question changes nothing;
     * otherwise the box is cleared, the trimmed question shown and the
     * indicator added. The result is the question sent.
     */
    method Send() returns (question: Option<string>)
      modifies this
      ensures Trim(Js, old(input)) == [] ==> question.None? && bubbles == old(bubbles) && input == old(input)
      ensures Trim(Js, old(input)) != [] ==> question == Some(Trim(Js, old(input)))
      ensures question.Some? ==> bubbles == old(bubbles) + [Said(User, question.value, JustNow), Pending]
      ensures question.Some? ==> input == []
    {
      var q := Trim(Js, input);
      if q == [] {
        return None;
      }
      input := [];
      AddMessage(User, q);
      bubbles := bubbles + [Pending];
      question := Some(q);
    }

    /** `sendMessage` after its request: the indicator goes and exactly one AI bubble is added. */
    method Receive(o: HelpOutcome)
      modifies this
      ensures bubbles == Settled(old(bubbles), o)
      ensures input == old(input)
    {
      RemoveThinkingIndicator();
      match o {
        case HelpAnswered(response) =>
          AddMessage(Ai, if response.Some? then response.value else []);
        case HelpFailed =>
          AddMessage(Ai, Apology);
      }
    }
  }
}
