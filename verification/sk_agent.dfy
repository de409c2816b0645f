/** The agent session: one configured agent (possibly missing), the tool
    plugins it owns, and the conversation thread it carries from turn to
    turn; the per-turn reply assembly over the streamed responses; the
    diagnostic observer of intermediate steps; and plugin cleanup. */
module SkAgent {
  import opened Wrappers
  import opened Models
  import opened Contents

  /** Handle of the configured chat-completion agent. */
  datatype Agent = Agent(name: string)

  /** One tool-plugin connection owned by the session. */
  datatype Plugin = Plugin(name: string, connected: bool)

  /** The session state: `agent` is `None` when the agent is not configured. */
  datatype Session = Session(agent: Option<Agent>, plugins: seq<Plugin>, thread: Option<Thread>)

  /** The model service's streaming entry point: given the user's message
      and the thread held when the call starts, the stream it yields. */
  type ModelService = (string, Option<Thread>) -> Stream

  /** The outcome of one turn: the session afterwards and either the reply
      or the exception that escaped the stream. */
  datatype Turn = Turn(session: Session, reply: Result<ChatMessage, Exception>)

  const NotConfiguredText: string :=
    "Semantic Kernel Agent is not properly configured. Please check your settings."

  const FallbackText: string :=
    "I received your message but couldn't generate a response."

  /** A fresh session: the given agent and plugins, and no thread yet. */
  function NewSession(agent: Option<Agent>, plugins: seq<Plugin>): (s: Session)
    ensures s.thread == None
    ensures s.agent == agent && s.plugins == plugins
  {
    Session(agent, plugins, None)
  }

  /** The concatenation of a list of strings, in order (Python's `"".join`). */
  function Join(parts: seq<string>): string
  {
    if |parts| == 0 then "" else Join(parts[..|parts| - 1]) + parts[|parts| - 1]
  }

  /** Every accumulated text piece is non-empty. */
  predicate NoEmptyPiece(parts: seq<string>) {
    forall i :: 0 <= i < |parts| ==> parts[i] != ""
  }

  /** The inner loop over one response's items: appends the text of every
      non-empty text item to `parts`, in item order. */
  function CollectTexts(items: seq<ContentItem>, parts: seq<string>): (r: seq<string>)
    ensures Join(r) == Join(parts) + ItemsText(items)
    ensures NoEmptyPiece(parts) ==> NoEmptyPiece(r)
    decreases |items|
  {
    if |items| == 0 then parts
    else
      var parts' := if IsVisibleText(items[0]) then parts + [items[0].text.value] else parts;
      assert Join(parts') == Join(parts) + VisibleText(items[0]) by {
        assert IsVisibleText(items[0]) ==> parts'[..|parts|] == parts;
      }
      ConcatAssoc(Join(parts), VisibleText(items[0]), ItemsText(items[1..]));
      CollectTexts(items[1..], parts')
  }

  /** The progress of the outer loop: the thread held and the text pieces
      accumulated so far. */
  datatype Progress = Progress(thread: Option<Thread>, parts: seq<string>)

  /** The outer loop over the delivered responses: each response overwrites
      the thread, and its items feed `CollectTexts`. */
  function Consume(responses: seq<Response>, thread: Option<Thread>, parts: seq<string>): (p: Progress)
    ensures p.thread == LastThread(responses, thread)
    ensures Join(p.parts) == Join(parts) + StreamText(responses)
    ensures NoEmptyPiece(parts) ==> NoEmptyPiece(p.parts)
    decreases |responses|
  {
    if |responses| == 0 then
      assert Join(parts) + StreamText(responses) == Join(parts);
      Progress(thread, parts)
    else
      var parts' := CollectTexts(responses[0].items, parts);
      var p := Consume(responses[1..], responses[0].thread, parts');
      assert LastThread(responses[1..], responses[0].thread) == LastThread(responses, thread);
      assert Join(p.parts) == Join(parts) + StreamText(responses) by {
        StreamTextCons(responses);
        ConcatAssoc(Join(parts), ItemsText(responses[0].items), StreamText(responses[1..]));
      }
      p
  }

  /** One conversational turn. Without an agent the fixed not-configured
      reply is returned and nothing else happens. Otherwise the service is
      called with the message and the thread held at call start, and the
      delivered responses are consumed: the thread is overwritten by each,
      and the visible text is accumulated. A stream that ends normally
      yields an assistant reply with that text, or a fixed fallback
      sentence when there is none; a stream that raises yields the
      exception, with the thread already updated and the text discarded. */
  function ProcessMessage(sess: Session, message: string, service: ModelService): (t: Turn)
    ensures t.session.agent == sess.agent && t.session.plugins == sess.plugins
    ensures sess.agent.None? ==>
      t == Turn(sess, Success(ChatMessage(Assistant, NotConfiguredText)))
    ensures sess.agent.Some? ==>
      var stream := service(message, sess.thread);
      var text := StreamText(stream.responses);
      && t.session.thread == LastThread(stream.responses, sess.thread)
      && (stream.failure.Some? ==> t.reply == Failure(stream.failure.value))
      && (stream.failure.None? ==>
            t.reply == Success(ChatMessage(Assistant, if text == "" then FallbackText else text)))
    ensures t.reply.Success? ==> t.reply.value.role == Assistant && t.reply.value.content != ""
  {
    if sess.agent.None? then
      Turn(sess, Success(ChatMessage(Assistant, NotConfiguredText)))
    else
      var stream := service(message, sess.thread);
      var p := Consume(stream.responses, sess.thread, []);
      assert Join(p.parts) == StreamText(stream.responses) by {
        assert Join([]) + StreamText(stream.responses) == StreamText(stream.responses);
      }
      var sess' := sess.(thread := p.thread);
      match stream.failure
      case Some(e) => Turn(sess', Failure(e))
      case None =>
        var content := Join(p.parts);
        Turn(sess', Success(ChatMessage(Assistant, if content != "" then content else FallbackText)))
  }

  /** The fallback sentence replaces the reply exactly when no delivered
      item is a non-empty text piece; otherwise the reply is the text. */
  lemma FallbackExactlyWhenNoText(sess: Session, message: string, service: ModelService)
    ensures var stream := service(message, sess.thread);
      var items := Flatten(stream.responses);
      sess.agent.Some? && stream.failure.None? ==>
        && (!HasVisibleText(items) ==>
              ProcessMessage(sess, message, service).reply.value.content == FallbackText)
        && (HasVisibleText(items) ==>
              ProcessMessage(sess, message, service).reply.value.content == ItemsText(items))
  {
    ItemsTextEmptyIff(Flatten(service(message, sess.thread).responses));
  }

  /** A turn reads the service only through the stream it yields for this
      message and the thread held at call start; without an agent it does
      not read the service at all. */
  lemma TurnDependsOnlyOnRequestedStream(sess: Session, message: string, s1: ModelService, s2: ModelService)
    requires sess.agent.None? || s1(message, sess.thread) == s2(message, sess.thread)
    ensures ProcessMessage(sess, message, s1) == ProcessMessage(sess, message, s2)
  {
  }

  /** The first turn of a fresh session asks the service without a thread. */
  lemma FirstTurnStartsWithoutThread(agent: Agent, plugins: seq<Plugin>, message: string, service: ModelService)
    ensures var t := ProcessMessage(NewSession(Some(agent), plugins), message, service);
      t.session.thread == LastThread(service(message, None).responses, None)
  {
  }

  /** The outcome of `Cleanup`: the session afterwards, the positions of the
      plugins whose close was attempted, in order, and whether a close
      raised (which ends the loop and propagates). */
  datatype CleanupOutcome = CleanupOutcome(session: Session, attempts: seq<nat>, raised: bool)

  /** Closes the owned plugins one by one in list order. `closes` tells
      whether closing a plugin returns normally; a close that raises stops
      the loop. A plugin already closed is closed again: there is no guard. */
  method Cleanup(sess: Session, closes: Plugin -> bool) returns (r: CleanupOutcome)
    ensures r.session.agent == sess.agent && r.session.thread == sess.thread
    ensures |r.attempts| <= |sess.plugins|
    ensures forall i :: 0 <= i < |r.attempts| ==> r.attempts[i] == i
    ensures r.raised <==> exists i :: 0 <= i < |sess.plugins| && !closes(sess.plugins[i])
    ensures !r.raised ==> |r.attempts| == |sess.plugins|
    ensures r.raised ==> 0 < |r.attempts| && !closes(sess.plugins[|r.attempts| - 1])
    ensures forall i :: 0 <= i < |r.attempts| - 1 ==> closes(sess.plugins[i])
    ensures |r.session.plugins| == |sess.plugins|
    ensures forall i :: 0 <= i < |sess.plugins| ==>
      r.session.plugins[i] ==
        if i < |r.attempts| && closes(sess.plugins[i]) then sess.plugins[i].(connected := false)
        else sess.plugins[i]
  {
    var plugins := sess.plugins;
    var attempts: seq<nat> := [];
    var i := 0;
    while i < |sess.plugins|
      invariant 0 <= i <= |sess.plugins|
      invariant |attempts| == i
      invariant forall j :: 0 <= j < i ==> attempts[j] == j
      invariant forall j :: 0 <= j < i ==> closes(sess.plugins[j])
      invariant |plugins| == |sess.plugins|
      invariant forall j :: 0 <= j < |sess.plugins| ==>
        plugins[j] == if j < i then sess.plugins[j].(connected := false) else sess.plugins[j]
    {
      attempts := attempts + [i];
      if !closes(sess.plugins[i]) {
        return CleanupOutcome(sess.(plugins := plugins), attempts, true);
      }
      plugins := plugins[i := plugins[i].(connected := false)];
      i := i + 1;
    }
    return CleanupOutcome(sess.(plugins := plugins), attempts, false);
  }

  /** The author role of a message produced during generation; unlike a
      chat reply, it may also be a tool or a developer message. */
  datatype AuthorRole = UserAuthor | AssistantAuthor | SystemAuthor | ToolAuthor | DeveloperAuthor

  /** A message handed to the intermediate-step observer; `items` may be
      `None`. */
  datatype IntermediateMessage =
    IntermediateMessage(role: AuthorRole, content: string, items: Option<seq<ContentItem>>)

  /** One diagnostic line the observer emits. An item that is neither a
      function call nor a function result logs the whole message's role and
      content. */
  datatype StepEvent =
    | CallEvent(name: string, arguments: string)
    | ResultEvent(result: string, name: string)
    | MessageLine(role: AuthorRole, content: string)

  /** The items an observed message carries, with `None` read as none. */
  function ObservedItems(message: IntermediateMessage): seq<ContentItem>
  {
    match message.items
    case None => []
    case Some(items) => items
  }

  /** The observer's loop over `items`, logging against `message`. */
  function StepEvents(message: IntermediateMessage, items: seq<ContentItem>): (events: seq<StepEvent>)
    ensures |events| == |items|
    ensures forall i :: 0 <= i < |items| ==>
      match items[i]
      case FunctionCall(name, arguments) => events[i] == CallEvent(name, arguments)
      case FunctionResult(name, result) => events[i] == ResultEvent(result, name)
      case _ => events[i] == MessageLine(message.role, message.content)
    decreases |items|
  {
    if |items| == 0 then []
    else
      var head :=
        match items[0]
        case FunctionCall(name, arguments) => CallEvent(name, arguments)
        case FunctionResult(name, result) => ResultEvent(result, name)
        case _ => MessageLine(message.role, message.content);
      var rest := StepEvents(message, items[1..]);
      assert forall i :: 1 <= i < |items| ==> items[i] == items[1..][i - 1];
      [head] + rest
  }

  /** The intermediate-step observer: exactly one event per item, in item
      order; a message without items emits nothing. */
  function HandleIntermediateSteps(message: IntermediateMessage): (events: seq<StepEvent>)
    ensures |events| == |ObservedItems(message)|
    ensures message.items.None? ==> events == []
    ensures forall i :: 0 <= i < |events| ==>
      match ObservedItems(message)[i]
      case FunctionCall(name, arguments) => events[i] == CallEvent(name, arguments)
      case FunctionResult(name, result) => events[i] == ResultEvent(result, name)
      case _ => events[i] == MessageLine(message.role, message.content)
  {
    StepEvents(message, ObservedItems(message))
  }

  /** Observing a message whose items are `a + b` emits the events for `a`
      followed by the events for `b`. */
  lemma StepEventsAppend(message: IntermediateMessage, a: seq<ContentItem>, b: seq<ContentItem>)
    ensures StepEvents(message, a + b) == StepEvents(message, a) + StepEvents(message, b)
  {
  }

  /** One item list read on both channels. As streamed content, its visible
      text (`ItemsText`, the text a turn would accumulate) is "ab". As an
      intermediate message with its own role and content, the observer logs
      every item: the text items as that message's role/content line. */
  lemma MixedMessageScenario()
    ensures var items := [StreamingText(Some("a")), FunctionCall("X", "{}"),
                          FunctionResult("X", "7"), StreamingText(Some("b"))];
      && ItemsText(items) == "ab"
      && HandleIntermediateSteps(IntermediateMessage(ToolAuthor, "checking", Some(items))) ==
           [MessageLine(ToolAuthor, "checking"), CallEvent("X", "{}"),
            ResultEvent("7", "X"), MessageLine(ToolAuthor, "checking")]
  {
  }
}
