/**
 * The request and record types of the chat backend. An instant is a number
 * of microseconds since 1970-01-01 00:00:00, the resolution of `datetime`.
 */
module Models {
  import opened Wrappers

  type Instant = nat

  /** The body of a `/generate` request. */
  datatype GenerateRequest = GenerateRequest(
    prompt: string,
    provider: string,
    model: Option<string>,
    temperature: real,
    topP: real,
    topK: int,
    sessionId: Option<string> := None)

  /** One stored chat turn; `role` is free text, the backend writes only "user" and "assistant". */
  datatype ChatMessage = ChatMessage(role: string, content: string, timestamp: Instant)

  datatype ChatSession = ChatSession(
    id: string,
    createdAt: Instant,
    name: Option<string> := None,
    messages: seq<ChatMessage> := [])

  /** The body of a `/sessions` request. */
  datatype ChatSessionRequest = ChatSessionRequest(name: Option<string> := None)
}
