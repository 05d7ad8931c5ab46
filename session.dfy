/** The session-state store of the page, updated in place by the five
    user-driven transitions of app.py. */
module Session {
  import opened Wrappers
  import opened Prompts
  import opened SessionSpec

  /** What the "Extract Text" button reports to the user. */
  datatype ExtractStatus =
      /** The vision model's text is now the OCR result. */
    | Extracted
      /** The file did not open or display as an image; the button was never shown. */
    | ImageUnreadable
      /** The vision model call raised; `detail` is its message. */
    | OcrFailed(detail: string)

  /** `st.session_state` restricted to its two entries. A key that has not
      yet been written is absent from the dictionary, which the flags
      `hasOcrResult` and `hasChatMessages` record. */
  class SessionState {
    var hasOcrResult: bool
    var hasChatMessages: bool
    var ocrResult: Option<string>
    var chatMessages: seq<Turn>

    /** The two entries as a value. */
    function Snapshot(): (s: State)
      reads this
    {
      State(ocrResult, chatMessages)
    }

    /** Both keys are present, as they are after the first lines of every run. */
    predicate Initialized()
      reads this
    {
      hasOcrResult && hasChatMessages
    }

    /** The keys are created together, and once created hold a state that
        satisfies the session invariant. */
    ghost predicate Valid()
      reads this
    {
      hasOcrResult == hasChatMessages && (Initialized() ==> Inv(Snapshot()))
    }

    /** A new browser session: the dictionary has neither key. */
    constructor ()
      ensures Valid() && !hasOcrResult && !hasChatMessages
    {
      hasOcrResult, hasChatMessages := false, false;
      ocrResult, chatMessages := None, [];
    }

    /** Initialisation at the top of every run (app.py:27-31): a missing
        key is created empty, a present one is left as it is. */
    method Init()
      modifies this
      ensures Initialized()
      ensures ocrResult == if old(hasOcrResult) then old(ocrResult) else None
      ensures chatMessages == if old(hasChatMessages) then old(chatMessages) else []
      ensures old(Valid()) ==> Valid()
    {
      if !hasOcrResult {
        ocrResult := None;
        hasOcrResult := true;
      }
      if !hasChatMessages {
        chatMessages := [];
        hasChatMessages := true;
      }
    }

    /** "Clear All" (app.py:44-50): both entries are reset together,
        whatever they held. */
    method Clear()
      requires Valid() && Initialized()
      modifies this
      ensures Valid() && Initialized()
      ensures ocrResult == None && chatMessages == []
      ensures Snapshot() == Step(old(Snapshot()), ClearAll)
    {
      ocrResult := None;
      chatMessages := [];
    }

    /** "Extract Text" on the uploaded file (app.py:59-95). A file that does
        not open and display as an image leaves the state alone. Otherwise both entries
        are reset before the vision model is called; its text becomes the
        OCR result, and on failure the state stays reset. */
    method Extract(decodes: bool, reply: Result<string, string>) returns (status: ExtractStatus)
      requires Valid() && Initialized()
      modifies this
      ensures Valid() && Initialized()
      ensures status == if !decodes then ImageUnreadable
                        else if reply.Success? then Extracted
                        else OcrFailed(reply.error)
      ensures !decodes ==> Snapshot() == old(Snapshot())
      ensures decodes ==> chatMessages == []
      ensures decodes ==> ocrResult == if reply.Success? then Some(reply.value) else None
      ensures Snapshot() == Step(old(Snapshot()), ExtractText(decodes, reply))
    {
      if !decodes {
        return ImageUnreadable;
      }
      ocrResult := None;
      chatMessages := [];
      match reply
      case Success(text) =>
        ocrResult := Some(text);
        status := Extracted;
      case Failure(detail) =>
        status := OcrFailed(detail);
    }

    /** A run with no file uploaded (app.py:96-102): if there is an OCR
        result and the extract button is not recorded as pressed, both
        entries are reset; otherwise nothing changes. */
    method RemoveFile(extractPressed: bool) returns (cleared: bool)
      requires Valid() && Initialized()
      modifies this
      ensures Valid() && Initialized()
      ensures cleared == (old(ocrResult).Some? && !extractPressed)
      ensures Snapshot() == if cleared then Cleared else old(Snapshot())
      ensures Snapshot() == Step(old(Snapshot()), FileRemoved(extractPressed))
    {
      cleared := ocrResult.Some? && !extractPressed;
      if cleared {
        ocrResult := None;
        chatMessages := [];
      }
    }

    /** A chat question (app.py:107, 120-161). Only with OCR text present
        and a non-empty question: the question is appended as a user turn,
        the chat model is sent the system instruction and the grounded prompt, and exactly one
        assistant turn follows, holding the answer or an error turn. */
    method ChatSubmit(question: string, chatModel: (string, string) -> Result<string, string>) returns (answered: bool)
      requires Valid() && Initialized()
      modifies this
      ensures Valid() && Initialized()
      ensures answered == (Truthy(old(ocrResult)) && question != "")
      ensures ocrResult == old(ocrResult)
      ensures !answered ==> chatMessages == old(chatMessages)
      ensures answered ==>
        chatMessages == old(chatMessages) + [Turn(User, question),
          Turn(Assistant, AssistantContent(chatModel(SystemInstruction, ChatPrompt(old(ocrResult).value, question))))]
      ensures Snapshot() == Step(old(Snapshot()), ChatInput(question, chatModel))
    {
      if !Truthy(ocrResult) || question == "" {
        return false;
      }
      chatMessages := chatMessages + [Turn(User, question)];
      var context := ocrResult.value;
      var prompt := ChatPrompt(context, question);
      answered := true;
      match chatModel(SystemInstruction, prompt)
      case Success(answer) =>
        chatMessages := chatMessages + [Turn(Assistant, answer)];
      case Failure(detail) =>
        chatMessages := chatMessages + [Turn(Assistant, ChatErrorReply(detail))];
    }
  }

  /** An example session: extract "Hello", ask about it, then clear. */
  method ExampleSession(chatModel: (string, string) -> Result<string, string>)
    requires chatModel(SystemInstruction, ChatPrompt("Hello", "What does it say?")) == Success("It says Hello")
  {
    var session := new SessionState();
    session.Init();
    var status := session.Extract(true, Success("Hello"));
    assert status == Extracted && session.ocrResult == Some("Hello") && session.chatMessages == [];
    var answered := session.ChatSubmit("What does it say?", chatModel);
    assert answered;
    assert session.chatMessages == [Turn(User, "What does it say?"), Turn(Assistant, "It says Hello")];
    session.Clear();
    assert session.Snapshot() == Cleared;
  }
}
