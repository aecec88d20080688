/**
 * The chat page: a message list, the text being typed and a loading flag.
 * Sending trims the input; an empty message or a send while a reply is
 * pending does nothing. Otherwise the user's message is appended, the input
 * cleared and loading set; when the request settles, one reply is appended
 * (the response's `text`, or a fixed error message when the request threw)
 * and loading is cleared. The request itself is a parameter: its outcome.
 */
module ChatUi {
  import opened Wrappers
  import opened Text

  /** A message bubble; `text` is `None` when the response had no `text` field. */
  datatype UiMessage = UiMessage(text: Option<string>, isUser: bool)

  /** How the request ended: a parsed response with its `text` field, or an exception. */
  datatype Outcome = Replied(text: Option<string>) | Threw

  /** The body the page posts: the trimmed input and the messages before it. */
  datatype SendRequest = SendRequest(query: string, history: seq<UiMessage>)

  datatype ChatState = ChatState(messages: seq<UiMessage>, input: string, isLoading: bool)

  const Greeting := "どんなイベントを探しですか？お気軽にご質問ください！"
  const ErrorReply := "エラーが発生しました。もう一度お試しください。"

  const InitialState := ChatState([UiMessage(Some(Greeting), false)], "", false)

  /** The guard of `handleSend`: a non-blank input and no reply pending. */
  predicate Accepts(s: ChatState)
  {
    Trim(s.input) != [] && !s.isLoading
  }

  /** `disabled={isLoading || !input.trim()}` */
  predicate SendDisabled(s: ChatState)
  {
    s.isLoading || Trim(s.input) == []
  }

  /** The send button is disabled exactly when a send would be refused. */
  lemma {:induction false} DisabledIffRefused(s: ChatState)
    ensures SendDisabled(s) <==> !Accepts(s)
  {
  }

  /** The message appended when the request settles. */
  function Reply(o: Outcome): (m: UiMessage)
    ensures !m.isUser
    ensures o.Replied? ==> m.text == o.text
    ensures o.Threw? ==> m.text == Some(ErrorReply)
  {
    match o
    case Replied(text) => UiMessage(text, false)
    case Threw => UiMessage(Some(ErrorReply), false)
  }

  /** The state after the synchronous part of `handleSend`. */
  function Sent(s: ChatState): ChatState
  {
    if Accepts(s) then ChatState(s.messages + [UiMessage(Some(Trim(s.input)), true)], "", true) else s
  }

  /** The request `handleSend` makes, if any. */
  function RequestFor(s: ChatState): Option<SendRequest>
  {
    if Accepts(s) then Some(SendRequest(Trim(s.input), s.messages)) else None
  }

  /** The state after the request settles. */
  function Settled(s: ChatState, o: Outcome): ChatState
  {
    ChatState(s.messages + [Reply(o)], s.input, false)
  }

  /** A whole `handleSend`. */
  function AfterSend(s: ChatState, o: Outcome): ChatState
  {
    if Accepts(s) then Settled(Sent(s), o) else s
  }

  /**
   * A send either changes nothing (blank input or a reply pending) or
   * appends exactly the trimmed user message and then one reply, clears the
   * input and ends not loading; the request carries the messages from
   * before the user message.
   */
  lemma {:induction false} SendOutcome(s: ChatState, o: Outcome)
    ensures !Accepts(s) ==> AfterSend(s, o) == s && RequestFor(s) == None
    ensures Accepts(s) ==>
      var r := AfterSend(s, o);
      |r.messages| == |s.messages| + 2 && r.messages[..|s.messages|] == s.messages &&
      r.messages[|s.messages|] == UiMessage(Some(Trim(s.input)), true) &&
      r.messages[|s.messages| + 1] == Reply(o) &&
      r.input == [] && !r.isLoading &&
      RequestFor(s) == Some(SendRequest(Trim(s.input), s.messages))
  {
    if Accepts(s) {
      var u := UiMessage(Some(Trim(s.input)), true);
      assert AfterSend(s, o).messages == s.messages + [u] + [Reply(o)];
    }
  }

  /** Messages are only ever appended: the old list is a prefix of the new one. */
  lemma {:induction false} AppendOnly(s: ChatState, o: Outcome)
    ensures |AfterSend(s, o).messages| >= |s.messages|
    ensures AfterSend(s, o).messages[..|s.messages|] == s.messages
  {
    SendOutcome(s, o);
  }

  /** A send started when no reply was pending leaves none pending. */
  lemma {:induction false} EndsNotLoading(s: ChatState, o: Outcome)
    requires !s.isLoading
    ensures !AfterSend(s, o).isLoading
  {
  }

  /** Any run of sends keeps the greeting first and a user message's text non-blank. */
  ghost predicate WellFormed(s: ChatState)
  {
    |s.messages| >= 1 && s.messages[0] == UiMessage(Some(Greeting), false) &&
    forall i :: 0 <= i < |s.messages| && s.messages[i].isUser ==>
      s.messages[i].text.Some? && Trim(s.messages[i].text.value) == s.messages[i].text.value && s.messages[i].text.value != []
  }

  lemma {:induction false} WellFormedKept(s: ChatState, o: Outcome)
    requires WellFormed(s)
    ensures WellFormed(AfterSend(s, o))
  {
    SendOutcome(s, o);
    if Accepts(s) {
      TrimIdempotent(s.input);
      var r := AfterSend(s, o);
      forall i | 0 <= i < |r.messages| && r.messages[i].isUser
        ensures r.messages[i].text.Some? && Trim(r.messages[i].text.value) == r.messages[i].text.value && r.messages[i].text.value != []
      {
        if i < |s.messages| {
          assert r.messages[i] == s.messages[i];
        }
      }
    }
  }

  lemma {:induction false} InitialWellFormed()
    ensures WellFormed(InitialState) && !InitialState.isLoading && !Accepts(InitialState)
  {
    TrimEmptyIff(InitialState.input);
  }

  /** The page component's state. */
  class ChatPage {
    var messages: seq<UiMessage>
    var input: string
    var isLoading: bool

    function State(): ChatState
      reads this
    {
      ChatState(messages, input, isLoading)
    }

    /** The initial state: the greeting, an empty input, not loading. */
    constructor ()
      ensures State() == InitialState
    {
      messages := [UiMessage(Some(Greeting), false)];
      input := "";
      isLoading := false;
    }

    /** The input's `onChange`. */
    method SetInput(value: string)
      modifies this
      ensures State() == old(State()).(input := value)
    {
      input := value;
    }

    /** `handleSend` up to the request: check the guard, append the user message, clear the input, set loading. */
    method BeginSend() returns (request: Option<SendRequest>)
      modifies this
      ensures request == RequestFor(old(State()))
      ensures State() == Sent(old(State()))
    {
      var messageToSend := Trim(input);
      if messageToSend == [] || isLoading {
        return None;
      }
      request := Some(SendRequest(messageToSend, messages));
      messages := messages + [UiMessage(Some(messageToSend), true)];
      input := "";
      isLoading := true;
    }

    /** `handleSend` after the request: append the reply or the error message, then clear loading. */
    method FinishSend(outcome: Outcome)
      modifies this
      ensures State() == Settled(old(State()), outcome)
    {
      match outcome {
        case Replied(text) =>
          messages := messages + [UiMessage(text, false)];
        case Threw =>
          messages := messages + [UiMessage(Some(ErrorReply), false)];
      }
      isLoading := false;
    }

    /** A whole `handleSend`, with the request answered by `outcome`. */
    method HandleSend(outcome: Outcome) returns (request: Option<SendRequest>)
      modifies this
      ensures request == RequestFor(old(State()))
      ensures State() == AfterSend(old(State()), outcome)
    {
      request := BeginSend();
      if request.Some? {
        FinishSend(outcome);
      }
    }
  }
}
