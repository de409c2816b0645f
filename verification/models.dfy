/** The request and reply shapes the chat endpoint exchanges, and the two
    kinds of exception that can reach the route handler. */
module Models {
  import opened Wrappers

  /** The author of a chat message. */
  datatype Role = User | Assistant | System

  /** One chat message: who said it and what was said. */
  datatype ChatMessage = ChatMessage(role: Role, content: string)

  /** The body of a chat request; `message` may be absent (`None`). */
  datatype ChatRequest = ChatRequest(message: Option<string>)

  /** A raised exception: an HTTP exception carrying its status code and
      detail, or any other error carrying its text. */
  datatype Exception =
    | HttpException(status: int, detail: string)
    | RuntimeError(text: string)
}
