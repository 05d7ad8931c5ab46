/** The per-session state of the OCR-and-chat page as values: the optional
    OCR text, the chat transcript, the events that change them, and what
    holds in every state the page can reach. */
module SessionSpec {
  import opened Wrappers
  import opened Prompts

  datatype Role = User | Assistant

  /** One entry of `chat_messages`: a `{role, content}` pair. */
  datatype Turn = Turn(role: Role, content: string)

  /** The two session-state entries: `ocr_result` and `chat_messages`. */
  datatype State = State(ocrResult: Option<string>, chatMessages: seq<Turn>)

  /** No OCR text and an empty transcript: the state after initialisation
      and after every reset. */
  const Cleared: State := State(None, [])

  /** Python truthiness of `ocr_result`: present and not the empty string. */
  predicate Truthy(text: Option<string>) {
    text.Some? && text.value != ""
  }

  /** A transcript is only ever shown and grown beside OCR text. */
  predicate Grounded(s: State) {
    s.chatMessages != [] ==> Truthy(s.ocrResult)
  }

  /** The transcript is a run of exchanges: a user turn holding a non-empty
      question, then one assistant turn. */
  predicate Exchanges(turns: seq<Turn>) {
    |turns| % 2 == 0 &&
    forall i :: 0 <= i < |turns| ==>
      if i % 2 == 0 then turns[i].role == User && turns[i].content != ""
      else turns[i].role == Assistant
  }

  /** What holds in every reachable state. */
  predicate Inv(s: State) {
    Grounded(s) && Exchanges(s.chatMessages)
  }

  /** A user action, with the outcome of any external call it makes. */
  datatype Event =
      /** The "Clear All" button (app.py:44-50). */
    | ClearAll
      /** The "Extract Text" button for the uploaded file; `decodes` says
          whether the file opens as an image and displays, `reply` is what the vision
          model returned (app.py:59-95). */
    | ExtractText(decodes: bool, reply: Result<string, string>)
      /** A run of the page with no file uploaded; `extractPressed` is the
          extract button's recorded state (app.py:96-102). */
    | FileRemoved(extractPressed: bool)
      /** A question typed into the chat box, and the chat model as a
          function of the system instruction and the prompt it is sent
          (app.py:120-161). */
    | ChatInput(question: string, chatModel: (string, string) -> Result<string, string>)

  /** The content of the assistant turn for a chat reply: the answer itself,
      or an error turn that keeps the exception's text (app.py:153-161). */
  function AssistantContent(reply: Result<string, string>): (c: string)
    ensures reply.Success? ==> c == reply.value
    ensures reply.Failure? ==> IsErrorTurn(c) && OccursAt(reply.error, c, |ChatErrorPrefix|)
  {
    match reply
    case Success(answer) => answer
    case Failure(detail) => ChatErrorReply(detail)
  }

  /** The session state after one event. Each event keeps the invariant. */
  function Step(s: State, e: Event): (t: State)
    ensures Inv(s) ==> Inv(t)
  {
    match e
    case ClearAll => Cleared
    case ExtractText(decodes, reply) =>
      if !decodes then s
      else if reply.Success? then State(Some(reply.value), [])
      else Cleared
    case FileRemoved(extractPressed) =>
      if s.ocrResult.Some? && !extractPressed then Cleared else s
    case ChatInput(question, chatModel) =>
      if Truthy(s.ocrResult) && question != "" then
        var reply := chatModel(SystemInstruction, ChatPrompt(s.ocrResult.value, question));
        State(s.ocrResult, s.chatMessages + [Turn(User, question), Turn(Assistant, AssistantContent(reply))])
      else s
  }

  /** The session state after a sequence of events. */
  function Run(s: State, events: seq<Event>): (t: State)
    decreases |events|
  {
    if events == [] then s else Run(Step(s, events[0]), events[1..])
  }

  /** Every sequence of events keeps the invariant. */
  lemma {:induction false} RunKeepsInv(s: State, events: seq<Event>)
    requires Inv(s)
    ensures Inv(Run(s, events))
    decreases |events|
  {
    if events != [] {
      RunKeepsInv(Step(s, events[0]), events[1..]);
    }
  }

  /** In every state reachable from a fresh session, a non-empty transcript
      comes with OCR text, and the transcript alternates user and assistant
      turns. */
  lemma ReachableStatesAreGrounded(events: seq<Event>)
    ensures Grounded(Run(Cleared, events))
    ensures Exchanges(Run(Cleared, events).chatMessages)
  {
    RunKeepsInv(Cleared, events);
  }

  /** Extracting twice, the second time successfully, leaves the second
      result and an empty transcript, whatever came before. */
  lemma SecondExtractionWins(s: State, first: Result<string, string>, text: string)
    ensures Run(s, [ExtractText(true, first), ExtractText(true, Success(text))]) == State(Some(text), [])
  {
    var events := [ExtractText(true, first), ExtractText(true, Success(text))];
    assert events[1..][1..] == [];
    assert Run(s, events) == Run(Step(Step(s, events[0]), events[1]), []);
  }

  /** A chat question submitted beside OCR text adds exactly two turns,
      the question and then the assistant's turn, keeps every earlier turn
      and the OCR text, and on a failed call records an error turn. */
  lemma ChatAddsOneExchange(s: State, question: string, chatModel: (string, string) -> Result<string, string>)
    requires Truthy(s.ocrResult) && question != ""
    ensures var t := Step(s, ChatInput(question, chatModel));
      var reply := chatModel(SystemInstruction, ChatPrompt(s.ocrResult.value, question));
      && t.ocrResult == s.ocrResult
      && |t.chatMessages| == |s.chatMessages| + 2
      && t.chatMessages[..|s.chatMessages|] == s.chatMessages
      && t.chatMessages[|s.chatMessages|] == Turn(User, question)
      && t.chatMessages[|s.chatMessages| + 1].role == Assistant
      && (reply.Success? ==> t.chatMessages[|s.chatMessages| + 1].content == reply.value)
      && (reply.Failure? ==> IsErrorTurn(t.chatMessages[|s.chatMessages| + 1].content))
  {
  }

  /** Without OCR text to ground it, or without a question, a chat input
      changes nothing. */
  lemma ChatNeedsText(s: State, question: string, chatModel: (string, string) -> Result<string, string>)
    requires !Truthy(s.ocrResult) || question == ""
    ensures Step(s, ChatInput(question, chatModel)) == s
  {
  }

  /** The events that never reset the session: chat inputs, files that do
      not open as images, and page runs without a file while the extract
      button is recorded as pressed. */
  predicate Keeps(e: Event) {
    e.ChatInput? || (e.ExtractText? && !e.decodes) || (e.FileRemoved? && e.extractPressed)
  }

  /** Between resets the OCR text stays as it is and the transcript only
      grows at its end: earlier turns are never altered or reordered. */
  lemma {:induction false} TranscriptOnlyGrows(s: State, events: seq<Event>)
    requires forall i :: 0 <= i < |events| ==> Keeps(events[i])
    ensures Run(s, events).ocrResult == s.ocrResult
    ensures s.chatMessages <= Run(s, events).chatMessages
    decreases |events|
  {
    if events != [] {
      var t := Step(s, events[0]);
      assert t.ocrResult == s.ocrResult && s.chatMessages <= t.chatMessages;
      TranscriptOnlyGrows(t, events[1..]);
    }
  }
}
