# Semantic Kernel chat agent: per-turn reply assembly

This project models, in Dafny, the core of a customer-service chat host built
on Semantic Kernel: the agent session (`SemanticKernelAgent`) that turns one
user message into one assistant reply, and the `/chat/semantic` route that
calls it.

- **Reply assembly** (`SkAgent.ProcessMessage`). The model service's streamed
  output is an abstract, finite `Stream`: a sequence of `Response`s, each with
  a thread handle and a list of content items (text piece, function call,
  function result, anything else), optionally ending in a raised exception.
  The turn overwrites the session's thread with every response's thread,
  accumulates the text of every non-empty text item in arrival order, and
  returns an assistant message, with a fixed fallback sentence when no text
  arrived. A session without an agent returns a fixed "not properly
  configured" message and never touches the service.
- **Observer** (`SkAgent.HandleIntermediateSteps`): one log event per item of
  an intermediate message: call, result, or a line with the message's role
  and content.
- **Cleanup** (`SkAgent.Cleanup`): closes the owned plugins in list order.
- **Route** (`Api.ChatSemantic`): 400 for an absent or empty message, the
  agent's reply unchanged on success, an HTTP exception passed through, and
  500 with a fixed detail for any other exception.

The model service, the plugins' `close` and the message role/content types
become inputs: `ModelService` is a function from (message, thread at call
start) to the stream it yields, and `Cleanup` takes a function telling
whether each plugin's close returns normally. Modules follow the source:
`Contents` (streamed content and the reference text definitions), `SkAgent`
(src/agents/sk_agent.py), `Api` (src/routes/api.py), `Models` (request,
reply and exception shapes), `Wrappers` (Option / Result).

Behaviour of the code worth noting:
- The observer logs every item, not only tool calls and results; a text item
  logs the whole message's role and content (`SkAgent.MixedMessageScenario`).
- The thread is overwritten by every response, even one that reports no
  thread; there is no "keep the old thread if none is reported" rule.
- There is no closed session state, and `cleanup` has no idempotence guard:
  a plugin already closed is closed again, and a close that raises stops the
  loop and propagates.
- The source file src/models.py is not part of this model; `ChatMessage`,
  `Role` and `ChatRequest` are shaped from their use in the two core files.

## Model

| member | source | states |
|---|---|---|
| SkAgent.ProcessMessage | src/agents/sk_agent.py:104-136 | Without an agent, the turn is the fixed not-configured assistant reply with the session unchanged. Otherwise the stream requested with the thread held at call start decides everything: the thread ends as the last delivered response's thread (unchanged if none were delivered), a raised exception is returned in place of a reply, and a normal end yields an assistant reply whose content is the ordered visible text, or the fallback sentence when that is empty. Any reply has role ASSISTANT and non-empty content. |
| SkAgent.Consume | src/agents/sk_agent.py:120-130 | The loop over delivered responses leaves the thread of the last response and adds exactly the stream's visible text (responses in order, items in order within each) to what was accumulated; every accumulated piece is non-empty. |
| SkAgent.CollectTexts | src/agents/sk_agent.py:127-130 | The loop over one response's items appends exactly the items' visible text, in item order, and only non-empty pieces. |
| SkAgent.FallbackExactlyWhenNoText | src/agents/sk_agent.py:132-135 | For a stream that ends normally, the reply is the fallback sentence when no delivered item is a non-empty text piece, and is the ordered visible text otherwise. |
| SkAgent.TurnDependsOnlyOnRequestedStream | src/agents/sk_agent.py:115-126 | Two services that yield the same stream for this message and the current thread give the same turn; without an agent any two services give the same turn, so the stream is never consumed. |
| SkAgent.NewSession | src/agents/sk_agent.py:96-100 | A new session keeps the given agent and plugins and holds no thread. |
| SkAgent.FirstTurnStartsWithoutThread | src/agents/sk_agent.py:96-126 | The first turn of a new session asks the service with no thread and ends holding the last delivered response's thread. |
| SkAgent.Cleanup | src/agents/sk_agent.py:138-141 | Plugins are closed in list order, each attempted once; the agent and the thread are untouched. If every close returns, all plugins are attempted and closed; if one raises, it is the last attempted, every earlier close returned, and later plugins are left as they were. |
| SkAgent.StepEvents | src/agents/sk_agent.py:84-90 | The observer loop emits one event per item at the same position: a call event (name, arguments) for a function call, a result event (result, name) for a function result, and the message's role/content line for any other item. |
| SkAgent.HandleIntermediateSteps | src/agents/sk_agent.py:83-90 | Exactly one event per item of the message (no items when they are `None`), at the same position: a call event with the call's name and arguments, a result event with the result and the function's name, and for any other item a line with the message's own role and content. |
| SkAgent.StepEventsAppend | src/agents/sk_agent.py:84-90 | Observing the items `a + b` emits the events for `a` followed by those for `b`. |
| SkAgent.MixedMessageScenario | src/agents/sk_agent.py:83-90 | For text "a", a call, its result and text "b", the visible text is "ab", while observing the same items as an intermediate message emits four events: the message's line, call, result, the message's line. |
| Contents.VisibleText | src/agents/sk_agent.py:129 | An item contributes text exactly when it is a text piece with present, non-empty text. |
| Contents.ItemsTextAppend | src/agents/sk_agent.py:128-130 | The visible text of `a + b` is the visible text of `a` followed by that of `b`. |
| Contents.FlattenAppend | src/agents/sk_agent.py:121-128 | The items of two runs of responses are the items of the first run followed by those of the second. |
| Contents.StreamTextAppend | src/agents/sk_agent.py:121-132 | The text of a stream is the text of its first part followed by the text of the rest: responses are read in arrival order. |
| Contents.ItemsTextEmptyIff | src/agents/sk_agent.py:129-135 | Items have no visible text if and only if none of them is a non-empty text piece. |
| Contents.InvisibleItemContributesNothing | src/agents/sk_agent.py:128-130 | Inserting a function call, function result, other item or empty text piece anywhere leaves the text unchanged. |
| Contents.LastThreadAppend | src/agents/sk_agent.py:121-126 | Consuming two runs of responses in turn leaves the same thread as consuming their concatenation (last wins). |
| Api.ChatSemantic | src/routes/api.py:19-32 | An absent or empty message gives 400 "Message is required" with the session unchanged. Otherwise the session is the one the turn leaves, a reply is returned unmodified, an HTTP exception from the agent is re-raised with its own status and detail, and any other exception becomes 500 "Failed to process message". Any reply returned is an assistant message with non-empty content. |
| Api.MissingMessageNeverReachesAgent | src/routes/api.py:22-24 | A rejected request gives the same answer whatever the model service is, and leaves the session unchanged: the agent is not called. |
| Api.ErrorTextNotLeaked | src/routes/api.py:30-32 | Two non-HTTP failures that differ only in their error text give the same answer. |
| Api.UnconfiguredAgentAnswersSoftly | src/routes/api.py:22-27 | Without a configured agent a valid request is answered with the not-configured assistant message, not an error status. |

## Left out

- `init_agent` (environment reads, plugin connection, agent construction) and `SemanticKernelAgent.create`: SDK object construction with no logic of its own; the agent is an input (`Option<Agent>`).
- src/app.py: web-server wiring, static files and startup/shutdown hooks.
- The SDK's `invoke_stream` internals (tool auto-invocation, when it calls the observer during a turn): the stream is an input, and the observer is modelled on its own.
- Logging: `print` calls other than the observer's events are not modelled.
- Concurrency: overlapping turns on one session, the unsynchronised read-then-overwrite of the thread, and cancellation (`asyncio.CancelledError` is not an `Exception` and would escape the route's handler) are not modelled; turns are sequential.
- SkAgent.Cleanup: a plugin whose close raised is left as it was, since what a failed close does to the connection is up to the SDK.
- Function-call arguments and results are modelled as strings (their printed form).
