/** The fixed texts the app sends to, or records from, the chat model. */
module Prompts {

  /** The indentation that the triple-quoted chat prompt carries on each of
      its continuation lines (app.py:130-138). */
  const Indent: string := "                        "

  /** Everything in the chat prompt before the extracted text. */
  const PromptHead: string :=
    "Based *only* on the following text extracted from an image, please answer the user's question.\n"
    + Indent + "Do not use any external knowledge. If the answer cannot be found in the text, say so.\n"
    + "\n"
    + Indent + "Extracted Text Context:\n"
    + Indent + "---\n"
    + Indent

  /** Everything between the extracted text and the user's question. */
  const PromptMiddle: string :=
    "\n" + Indent + "---\n" + "\n" + Indent + "User Question: "

  /** Everything after the user's question. */
  const PromptTail: string := "\n" + Indent

  /** The system message sent with every chat request (app.py:148). */
  const SystemInstruction: string :=
    "You are a helpful assistant answering questions based *only* on the provided text context."

  /** The marker every degraded assistant turn starts with. */
  const ErrorMarker: string := "Error: "

  /** What precedes the exception text in a degraded assistant turn (app.py:161). */
  const ChatErrorPrefix: string := ErrorMarker + "Could not process the request. "

  /** `needle` occurs in `text` starting at index `at`. */
  predicate OccursAt(needle: string, text: string, at: nat) {
    at + |needle| <= |text| && text[at..at + |needle|] == needle
  }

  /** `needle` occurs somewhere in `text`. */
  ghost predicate Contains(text: string, needle: string) {
    exists at: nat :: OccursAt(needle, text, at)
  }

  /** `text` is the content of a degraded assistant turn. */
  predicate IsErrorTurn(text: string) {
    OccursAt(ErrorMarker, text, 0)
  }

  /** The user message of a chat request: the question, grounded in the
      extracted text (app.py:129-138). The extracted text sits right after
      the fixed head, the question right after the fixed middle, and the
      prompt begins with the grounding instruction. */
  function ChatPrompt(context: string, question: string): (p: string)
    ensures |p| == |PromptHead| + |context| + |PromptMiddle| + |question| + |PromptTail|
    ensures OccursAt(PromptHead, p, 0)
    ensures OccursAt(context, p, |PromptHead|)
    ensures OccursAt(PromptMiddle, p, |PromptHead| + |context|)
    ensures OccursAt(question, p, |PromptHead| + |context| + |PromptMiddle|)
    ensures OccursAt(PromptTail, p, |p| - |PromptTail|)
  {
    PromptHead + context + PromptMiddle + question + PromptTail
  }

  /** Every chat prompt mentions both the extracted text and the question. */
  lemma PromptMentionsContextAndQuestion(context: string, question: string)
    ensures Contains(ChatPrompt(context, question), context)
    ensures Contains(ChatPrompt(context, question), question)
  {
  }

  /** The assistant turn recorded when the chat request raised (app.py:161):
      non-empty, marked as an error, and still carrying the exception's text
      after the fixed prefix. */
  function ChatErrorReply(detail: string): (r: string)
    ensures IsErrorTurn(r) && |r| > 0
    ensures OccursAt(detail, r, |ChatErrorPrefix|) && |r| == |ChatErrorPrefix| + |detail|
  {
    ChatErrorPrefix + detail
  }
}
