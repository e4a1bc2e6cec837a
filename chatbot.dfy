/** The AI assistant widget of src/components/ChatBot.tsx: its conversation
    log, the send gate, the request history sent to Gemini and the single reply
    appended per accepted send. `sendMessage` is split at its `await`: `Send`
    runs up to the request, `Receive` is the continuation with the outcome of
    `fetch` and `response.json()`. The API key is a parameter. */
module ChatBot {
  import opened Common

  datatype Role = UserRole | AssistantRole

  datatype Message = Message(role: Role, content: string)

  /** One entry of the request's `contents`: `{ role, parts: [{ text }] }`. */
  datatype Turn = Turn(role: string, text: string)

  const GREETING := "Hi! I'm Taskly AI Assistant. How can I help you today?"
  const KEY_PLACEHOLDER := "YOUR_GEMINI_API_KEY_HERE"
  const KEY_WARNING := "\U{26A0}\U{FE0F} Gemini API key not configured. Please add your API key in the .env file (VITE_GEMINI_API_KEY)."
  const NO_REPLY := "Sorry, I could not generate a response."
  const FAILURE_REPLY := "Sorry, something went wrong. Please try again."

  /** The role names of the Gemini API: the assistant speaks as "model". */
  function RoleName(r: Role): (name: string)
    ensures name == "model" <==> r == AssistantRole
    ensures name == "user" <==> r == UserRole
  {
    match r
    case AssistantRole => "model"
    case UserRole => "user"
  }

  /** `messages.map(m => ({ role: ..., parts: [{ text: m.content }] }))`. */
  function History(log: seq<Message>): (h: seq<Turn>)
    ensures |h| == |log|
    ensures forall i :: 0 <= i < |h| ==> h[i] == Turn(RoleName(log[i].role), log[i].content)
  {
    if log == [] then [] else [Turn(RoleName(log[0].role), log[0].content)] + History(log[1..])
  }

  /** The request's `contents`: the history of the log, then the new user turn. */
  function RequestContents(log: seq<Message>, userMessage: string): (c: seq<Turn>)
    ensures |c| == |log| + 1 && c[|log|] == Turn("user", userMessage)
  {
    History(log) + [Turn("user", userMessage)]
  }

  /** The history of two logs joined is the two histories joined. */
  lemma {:induction false} HistoryConcat(a: seq<Message>, b: seq<Message>)
    ensures History(a + b) == History(a) + History(b)
  {
    if a != [] {
      assert (a + b)[0] == a[0];
      assert (a + b)[1..] == a[1..] + b;
      HistoryConcat(a[1..], b);
    }
  }

  /** Although the history is taken from the log before the user's message was
      appended, the request carries exactly the log as it is displayed. */
  lemma RequestMatchesLog(log: seq<Message>, userMessage: string)
    ensures RequestContents(log, userMessage) == History(log + [Message(UserRole, userMessage)])
  {
    HistoryConcat(log, [Message(UserRole, userMessage)]);
  }

  // The parts of a `generateContent` reply that the widget reads; every level may be absent.
  datatype Part = Part(text: Option<string>)
  datatype Content = Content(parts: Option<seq<Part>>)
  datatype Candidate = Candidate(content: Option<Content>)
  datatype GenerateResponse = GenerateResponse(candidates: Option<seq<Candidate>>)

  /** How the awaited request ended: the parsed body (possibly `null`), or an
      exception from `fetch` or `response.json()`. */
  datatype GeminiCall = Answered(data: Option<GenerateResponse>) | Failed

  /** `data?.candidates?.[0]?.content?.parts?.[0]?.text`. */
  function FirstText(data: Option<GenerateResponse>): Option<string>
  {
    if data.None? || data.value.candidates.None? || |data.value.candidates.value| == 0 then None
    else
      var content := data.value.candidates.value[0].content;
      if content.None? || content.value.parts.None? || |content.value.parts.value| == 0 then None
      else content.value.parts.value[0].text
  }

  /** The reply text: the first candidate's first part, unless it is missing or empty. */
  function ReplyText(data: Option<GenerateResponse>): (r: string)
    ensures r != ""
    ensures FirstText(data).Some? && FirstText(data).value != "" ==> r == FirstText(data).value
    ensures FirstText(data).None? || FirstText(data).value == "" ==> r == NO_REPLY
  {
    OptOrElse(FirstText(data), NO_REPLY)
  }

  /** The assistant message a finished request appends. */
  function ReplyFor(c: GeminiCall): (r: string)
    ensures c.Failed? ==> r == FAILURE_REPLY
    ensures c.Answered? ==> r == ReplyText(c.data)
    ensures r != ""
  {
    if c.Answered? then ReplyText(c.data) else FAILURE_REPLY
  }

  /** `!apiKey || apiKey === 'YOUR_GEMINI_API_KEY_HERE'`. */
  predicate KeyMissing(apiKey: Option<string>)
  {
    apiKey.None? || apiKey.value == "" || apiKey.value == KEY_PLACEHOLDER
  }

  /** The log alternates, starting with the assistant: greeting, then user and
      assistant messages in turn. */
  predicate Alternating(log: seq<Message>)
  {
    forall i :: 0 <= i < |log| ==> log[i].role == if i % 2 == 0 then AssistantRole else UserRole
  }

  /** Appending the message whose turn it is keeps the log alternating. */
  lemma AlternatingAppend(log: seq<Message>, m: Message)
    requires Alternating(log)
    requires m.role == if |log| % 2 == 0 then AssistantRole else UserRole
    ensures Alternating(log + [m])
  {
    var l := log + [m];
    forall i | 0 <= i < |l|
      ensures l[i].role == if i % 2 == 0 then AssistantRole else UserRole
    {
      if i < |log| {
        assert l[i] == log[i];
      }
    }
  }

  /** The log alternates, and it ends with an unanswered user message exactly
      while a request is in flight. */
  predicate Shaped(log: seq<Message>, isLoading: bool)
  {
    |log| >= 1 && Alternating(log) && (isLoading <==> |log| % 2 == 0)
  }

  /** The widget's state after `sendMessage` has run up to its request. */
  datatype SendResult = SendResult(messages: seq<Message>, input: string, isLoading: bool, request: Option<seq<Turn>>)

  /** `sendMessage` up to the request. A blank input or a request in flight
      makes it do nothing. Otherwise the input is cleared and the trimmed text
      appended as the user's message; then either a missing key is answered at
      once by the warning, or the request is sent with the history of the log
      as it stood before plus the new user turn, which is the history of the
      log now displayed. */
  function SendStep(log: seq<Message>, input: string, isLoading: bool, apiKey: Option<string>): (r: SendResult)
    ensures Trim(input) == "" || isLoading ==> r == SendResult(log, input, isLoading, None)
    ensures Trim(input) != "" && !isLoading && KeyMissing(apiKey) ==>
              r.request.None? && r.input == "" && !r.isLoading
              && r.messages == log + [Message(UserRole, Trim(input)), Message(AssistantRole, KEY_WARNING)]
    ensures Trim(input) != "" && !isLoading && !KeyMissing(apiKey) ==>
              r.input == "" && r.isLoading && r.messages == log + [Message(UserRole, Trim(input))]
              && r.request == Some(RequestContents(log, Trim(input)))
  {
    var userMessage := Trim(input);
    if userMessage == "" || isLoading then SendResult(log, input, isLoading, None)
    else if KeyMissing(apiKey) then
      SendResult(log + [Message(UserRole, userMessage), Message(AssistantRole, KEY_WARNING)], "", false, None)
    else SendResult(log + [Message(UserRole, userMessage)], "", true, Some(RequestContents(log, userMessage)))
  }

  /** A request that goes out carries the history of the log as it is displayed after the send. */
  lemma SendRequestsDisplayedLog(log: seq<Message>, input: string, isLoading: bool, apiKey: Option<string>)
    ensures var r := SendStep(log, input, isLoading, apiKey);
            r.request.Some? ==> r.request.value == History(r.messages)
  {
    if Trim(input) != "" && !isLoading && !KeyMissing(apiKey) {
      RequestMatchesLog(log, Trim(input));
    }
  }

  /** A user message on an answered log leaves it waiting for a reply. */
  lemma AskKeepsShape(log: seq<Message>, m: Message)
    requires Shaped(log, false) && m.role == UserRole
    ensures Shaped(log + [m], true)
  {
    AlternatingAppend(log, m);
  }

  /** An assistant message on a waiting log answers it. */
  lemma AnswerKeepsShape(log: seq<Message>, m: Message)
    requires Shaped(log, true) && m.role == AssistantRole
    ensures Shaped(log + [m], false)
  {
    AlternatingAppend(log, m);
  }

  /** A user message answered at once leaves the log answered. */
  lemma AskAnsweredKeepsShape(log: seq<Message>, u: Message, w: Message)
    requires Shaped(log, false) && u.role == UserRole && w.role == AssistantRole
    ensures Shaped(log + [u, w], false)
  {
    AskKeepsShape(log, u);
    AnswerKeepsShape(log + [u], w);
    assert log + [u] + [w] == log + [u, w];
  }

  /** A send keeps the log alternating, and loading stays tied to an
      unanswered user message. */
  lemma SendKeepsShape(log: seq<Message>, input: string, isLoading: bool, apiKey: Option<string>)
    requires Shaped(log, isLoading)
    ensures Shaped(SendStep(log, input, isLoading, apiKey).messages, SendStep(log, input, isLoading, apiKey).isLoading)
  {
    if Trim(input) != "" && !isLoading {
      if KeyMissing(apiKey) {
        AskAnsweredKeepsShape(log, Message(UserRole, Trim(input)), Message(AssistantRole, KEY_WARNING));
      } else {
        AskKeepsShape(log, Message(UserRole, Trim(input)));
      }
    }
  }

  class Widget {
    var messages: seq<Message>
    var input: string
    var isLoading: bool

    /** Every accepted send is answered before the next one: the log alternates,
        and it ends with an unanswered user message exactly while loading. */
    predicate Valid()
      reads this
    {
      Shaped(messages, isLoading)
    }

    /** The log opens with exactly one assistant greeting. */
    constructor ()
      ensures Valid()
      ensures messages == [Message(AssistantRole, GREETING)] && input == "" && !isLoading
    {
      messages := [Message(AssistantRole, GREETING)];
      input := "";
      isLoading := false;
    }

    /** Typing in the box. */
    method SetInput(s: string)
      modifies this`input
      ensures input == s
    {
      input := s;
    }

    /** `sendMessage` up to the request, as `SendStep` describes it. */
    method Send(apiKey: Option<string>) returns (request: Option<seq<Turn>>)
      requires Valid()
      modifies this
      ensures Valid()
      ensures SendResult(messages, input, isLoading, request) == SendStep(old(messages), old(input), old(isLoading), apiKey)
    {
      var r := SendStep(messages, input, isLoading, apiKey);
      SendKeepsShape(messages, input, isLoading, apiKey);
      messages, input, isLoading, request := r.messages, r.input, r.isLoading, r.request;
    }

    /** The continuation once the request settled: exactly one assistant reply
        is appended and loading ends. */
    method Receive(c: GeminiCall)
      requires Valid() && isLoading
      modifies this
      ensures Valid()
      ensures messages == old(messages) + [Message(AssistantRole, ReplyFor(c))]
      ensures !isLoading && input == old(input)
    {
      AnswerKeepsShape(messages, Message(AssistantRole, ReplyFor(c)));
      messages := messages + [Message(AssistantRole, ReplyFor(c))];
      isLoading := false;
    }
  }
}
