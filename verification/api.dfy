/** The `/chat/semantic` route: validates the request, hands the message to
    the agent session and maps the outcome to an HTTP answer. */
module Api {
  import opened Wrappers
  import opened Models
  import opened Contents
  import opened SkAgent

  /** What the route answers: the agent's reply, or an HTTP error status
      with its detail text. */
  datatype RouteResult = Respond(message: ChatMessage) | Raise(status: int, detail: string)

  /** The route's answer together with the agent session afterwards. */
  datatype Handled = Handled(session: Session, result: RouteResult)

  const MessageRequiredDetail: string := "Message is required"
  const ProcessingFailedDetail: string := "Failed to process message"

  /** A request whose message is absent or empty. */
  predicate MessageMissing(request: ChatRequest) {
    request.message.None? || request.message.value == ""
  }

  /** The chat handler. A missing message is rejected with 400 before the
      agent is involved. Otherwise the agent's reply is returned as is; an
      HTTP exception escaping the agent is re-raised unchanged, and any
      other exception becomes a 500 whose detail is fixed, so the error's
      own text never reaches the client. */
  function ChatSemantic(sess: Session, request: ChatRequest, service: ModelService): (h: Handled)
    ensures MessageMissing(request) ==>
      h == Handled(sess, Raise(400, MessageRequiredDetail))
    ensures !MessageMissing(request) ==>
      var turn := ProcessMessage(sess, request.message.value, service);
      && h.session == turn.session
      && (turn.reply.Success? ==> h.result == Respond(turn.reply.value))
      && (turn.reply.Failure? && turn.reply.error.HttpException? ==>
            h.result == Raise(turn.reply.error.status, turn.reply.error.detail))
      && (turn.reply.Failure? && turn.reply.error.RuntimeError? ==>
            h.result == Raise(500, ProcessingFailedDetail))
    ensures h.result.Respond? ==>
      h.result.message.role == Assistant && h.result.message.content != ""
  {
    if MessageMissing(request) then
      Handled(sess, Raise(400, MessageRequiredDetail))
    else
      var turn := ProcessMessage(sess, request.message.value, service);
      match turn.reply
      case Success(reply) => Handled(turn.session, Respond(reply))
      case Failure(HttpException(status, detail)) => Handled(turn.session, Raise(status, detail))
      case Failure(RuntimeError(_)) => Handled(turn.session, Raise(500, ProcessingFailedDetail))
  }

  /** A rejected request does not depend on the model service: the agent is
      never called. */
  lemma MissingMessageNeverReachesAgent(sess: Session, request: ChatRequest, s1: ModelService, s2: ModelService)
    requires MessageMissing(request)
    ensures ChatSemantic(sess, request, s1) == ChatSemantic(sess, request, s2)
    ensures ChatSemantic(sess, request, s1).session == sess
  {
  }

  /** Two failures that differ only in their error text produce the same
      answer: no part of a non-HTTP error's text is returned. */
  lemma ErrorTextNotLeaked(sess: Session, message: string, s1: ModelService, s2: ModelService)
    requires message != "" && sess.agent.Some?
    requires s1(message, sess.thread).responses == s2(message, sess.thread).responses
    requires s1(message, sess.thread).failure.Some? && s1(message, sess.thread).failure.value.RuntimeError?
    requires s2(message, sess.thread).failure.Some? && s2(message, sess.thread).failure.value.RuntimeError?
    ensures ChatSemantic(sess, ChatRequest(Some(message)), s1) == ChatSemantic(sess, ChatRequest(Some(message)), s2)
  {
  }

  /** Without a configured agent every valid request is answered with the
      not-configured message, not with an error status. */
  lemma UnconfiguredAgentAnswersSoftly(sess: Session, request: ChatRequest, service: ModelService)
    requires sess.agent.None? && !MessageMissing(request)
    ensures ChatSemantic(sess, request, service) ==
      Handled(sess, Respond(ChatMessage(Assistant, NotConfiguredText)))
  {
  }
}
