# Session state of the Gemma-3 OCR & Chat page

The page (`app.py`, a Streamlit script) lets a user upload an image, ask a
vision model to extract its text ("OCR"), and then chat with a model about
that text. Everything it remembers between interactions lives in two
entries of the per-browser-session dictionary `st.session_state`:

- `ocr_result`: the extracted text, or `None`;
- `chat_messages`: the transcript, a list of `{role, content}` turns.

Five user-driven events change them: initialisation at the top of each
run, the "Clear All" button, the "Extract Text" button, a run with no file
uploaded (the user removed the file), and a submitted chat question. This
project models that state machine and proves what holds in every state it
can reach.

Layout:

- `wrappers.dfy` — `Option` and `Result`.
- `prompts.dfy` — module `Prompts`: the chat prompt built from the extracted
  text and the question, and the text of the error turn recorded when the
  chat call fails.
- `session_spec.dfy` — module `SessionSpec`: the state as a value
  (`State`), the events (`Event`), one transition (`Step`), many
  transitions (`Run`), the invariant (`Inv`: a non-empty transcript
  comes with non-empty OCR text, and the transcript is a run of user/assistant
  exchanges), and the lemmas about them.
- `session.dfy` — module `Session`: the class `SessionState`, whose fields
  are the two dictionary entries (and whether each key exists yet), with
  one method per event. Each method except `Init` states the new state
  outright and also as `Step` of the old state, so every lemma about `Step`
  and `Run` applies to the object. `Init` has no counterpart in `Step`: it
  states per key what it fills in, and is tied to the invariant through
  `Valid()`, which it keeps. `ExampleSession` replays an extract, ask and clear sequence
  against those contracts alone.

The vision model and the chat model are not called: an extraction takes the
vision model's outcome as a `Result` parameter, and a chat question takes
the chat model as a function from the system instruction and the prompt it
is sent to its outcome. Opening and previewing the upload (`Image.open` and
`st.image`, app.py:62-63, which share one `try`) is a boolean parameter
saying whether the file opens as an image and displays.

The model follows the code as written, including these behaviours:

- A run with no uploaded file resets both entries when there is an OCR
  result and the extract button is not recorded as pressed (app.py:100-102).
- Chat is gated on the Python truthiness of `ocr_result`, so an extraction
  that returned the empty string leaves chat unavailable (app.py:107). A
  chat question is only taken when it is non-empty (the walrus test at
  app.py:120).
- The error turn reads `"Error: Could not process the request. "` followed
  by the exception's text (app.py:161).
- The chat model is sent only the system instruction and the grounded
  prompt, not the earlier turns of the transcript (app.py:145-152).

## Model

| member | source | states |
|---|---|---|
| `Prompts.ChatPrompt` | app.py:129-138 | the prompt starts with the grounding instruction, holds the extracted text right after it, the question right after the "User Question:" line, and ends with the fixed tail; its length is the sum of the parts |
| `Prompts.PromptMentionsContextAndQuestion` | app.py:129-138 | every chat prompt contains both the extracted text and the user's question |
| `Prompts.ChatErrorReply` | app.py:158-161 | the degraded assistant turn is non-empty, starts with "Error: ", and carries the exception's text after the fixed prefix |
| `SessionSpec.AssistantContent` | app.py:153-161 | the assistant turn holds the model's answer on success, and an error turn carrying the exception's text on failure |
| `SessionSpec.Step` | app.py:44-161 | each of clear, extract, file removal and chat submit keeps the invariant: a non-empty transcript only beside non-empty OCR text, and the transcript made of user-question / assistant-reply pairs |
| `SessionSpec.RunKeepsInv` | app.py:44-161 | any sequence of events from a state satisfying the invariant ends in a state satisfying it |
| `SessionSpec.ReachableStatesAreGrounded` | app.py:107-122 | in every state reachable from a fresh session, a non-empty transcript implies the OCR text is present and non-empty, and turns alternate user then assistant |
| `SessionSpec.SecondExtractionWins` | app.py:66-89 | two extractions in a row, the second successful, leave the second result and an empty transcript, whatever the first did |
| `SessionSpec.ChatAddsOneExchange` | app.py:120-161 | a chat question beside OCR text adds exactly two turns (the user's question, then one assistant turn: the answer, or an error turn on failure), keeps every earlier turn in order and keeps the OCR text |
| `SessionSpec.ChatNeedsText` | app.py:107-120 | without truthy OCR text, or with an empty question, a chat input changes nothing |
| `SessionSpec.TranscriptOnlyGrows` | app.py:120-161 | over any sequence of events that are not resets, the OCR text is unchanged and the old transcript stays a prefix of the new one |
| `Session.SessionState.constructor` | app.py:27-31 | a new session's dictionary holds neither key |
| `Session.SessionState.Init` | app.py:27-31 | a missing `ocr_result` becomes None and a missing `chat_messages` becomes empty; a present key keeps its value; the invariant is kept |
| `Session.SessionState.Clear` | app.py:44-50 | both entries are reset together, from any state |
| `Session.SessionState.Extract` | app.py:59-95 | a file that does not open leaves the state unchanged; otherwise the transcript ends empty and the OCR result is the model's text on success and None on failure (no retry); the reported status says which |
| `Session.SessionState.RemoveFile` | app.py:96-102 | both entries are reset exactly when an OCR result is present and the extract button is not pressed; otherwise nothing changes |
| `Session.SessionState.ChatSubmit` | app.py:107-161 | a question is answered exactly when the OCR text is truthy and the question non-empty; then the transcript gains the user turn and one assistant turn computed by the chat model from the system instruction and the grounded prompt, earlier turns and the OCR text unchanged; otherwise nothing changes |

## Left out

- Page rendering: headers, columns, markdown, the image preview, spinners, the chat-message display loop (app.py:115-117) and the info, success and error banners. They read the state and do not change it.
- The calls to the model server (`ollama.chat`, app.py:81-88 and 145-152): a network call into code that is not part of this model; their outcomes are parameters.
- Image decoding and preview (`Image.open` and `st.image`, app.py:62-63): a foreign library and rendering, caught by the same handler (app.py:94); modelled as one flag saying whether the file opens and displays.
- The image bytes and the fixed OCR instruction text sent with them (app.py:73-79): the vision model's outcome is a parameter, so its inputs play no part.
- Loading and Base64-encoding the logo (app.py:16-25): file I/O with no effect on the session state.
- `st.rerun()` after "Clear All" and the rerun of the whole script on every widget interaction: each run is modelled as the one event it performs.
- Session.SessionState.ChatSubmit: assumes every chat run completes. In the source, an exception raised between the two appends leaves a user turn with no reply, and the next question then follows it. Such an exception can come from the rendering calls outside the `try` (app.py:124-125 and 141-143) or from the error banner shown before the error turn is appended (app.py:160). The model always appends both turns. So `SessionSpec.ChatAddsOneExchange` and the alternation part of the invariant (`Exchanges`) hold only for runs that reach app.py:156 or 161.
- SessionSpec.ChatAddsOneExchange: same assumption as `Session.SessionState.ChatSubmit` above; a chat run cut short after app.py:122 is not modelled.
- `response.message.content` being `None`: the model's reply text is always a string here.
