/** The content a model service streams back during one generation: content
    items grouped into responses, each response also carrying the
    conversation thread the service wants the caller to keep. */
module Contents {
  import opened Wrappers
  import opened Models

  /** Opaque conversation-thread handle assigned by the model service. */
  datatype Thread = Thread(id: nat)

  /** One content item of a response. A streamed text piece may carry no
      text at all (`None`). */
  datatype ContentItem =
    | StreamingText(text: Option<string>)
    | FunctionCall(name: string, arguments: string)
    | FunctionResult(name: string, result: string)
    | OtherContent

  /** One streamed response: the thread it reports and its content items. */
  datatype Response = Response(thread: Option<Thread>, items: seq<ContentItem>)

  /** A finite stream as the caller observes it: the responses delivered, in
      order, and then either a normal end (`None`) or the exception raised
      when the next response was requested. */
  datatype Stream = Stream(responses: seq<Response>, failure: Option<Exception>)

  /** A text item whose text is present and non-empty; only these are shown
      to the user. */
  predicate IsVisibleText(item: ContentItem) {
    item.StreamingText? && item.text.Some? && item.text.value != ""
  }

  /** Some item of the run is a non-empty text piece. */
  predicate HasVisibleText(items: seq<ContentItem>) {
    exists i :: 0 <= i < |items| && IsVisibleText(items[i])
  }

  /** The visible text one item contributes to a reply. */
  function VisibleText(item: ContentItem): (t: string)
    ensures t != "" <==> IsVisibleText(item)
  {
    if IsVisibleText(item) then item.text.value else ""
  }

  /** Reference definition: the visible text of a run of items, in order. */
  function ItemsText(items: seq<ContentItem>): string
  {
    if |items| == 0 then "" else VisibleText(items[0]) + ItemsText(items[1..])
  }

  /** All items of a stream's responses, response by response and item by
      item within each response. */
  function Flatten(responses: seq<Response>): seq<ContentItem>
  {
    if |responses| == 0 then [] else responses[0].items + Flatten(responses[1..])
  }

  /** Reference definition: the visible text of a sequence of responses. */
  function StreamText(responses: seq<Response>): string
  {
    ItemsText(Flatten(responses))
  }

  /** The thread held after consuming `responses` starting from `initial`:
      every response overwrites it, so the last response wins, even when it
      reports no thread. */
  function LastThread(responses: seq<Response>, initial: Option<Thread>): Option<Thread>
  {
    if |responses| == 0 then initial else responses[|responses| - 1].thread
  }

  /** Regrouping a concatenation of three strings. */
  lemma ConcatAssoc(a: string, b: string, c: string)
    ensures (a + b) + c == a + (b + c)
  {
  }

  /** Visible text distributes over concatenation of item runs. */
  lemma {:induction false} ItemsTextAppend(a: seq<ContentItem>, b: seq<ContentItem>)
    ensures ItemsText(a + b) == ItemsText(a) + ItemsText(b)
    decreases |a|
  {
    if |a| == 0 {
      assert a + b == b;
    } else {
      assert (a + b)[1..] == a[1..] + b;
      ItemsTextAppend(a[1..], b);
    }
  }

  /** Flattening distributes over concatenation of response runs. */
  lemma {:induction false} FlattenAppend(a: seq<Response>, b: seq<Response>)
    ensures Flatten(a + b) == Flatten(a) + Flatten(b)
    decreases |a|
  {
    if |a| == 0 {
      assert a + b == b;
    } else {
      assert (a + b)[1..] == a[1..] + b;
      FlattenAppend(a[1..], b);
    }
  }

  /** The text of a stream is the text of its first part followed by the
      text of the rest: responses are read strictly in arrival order. */
  lemma StreamTextAppend(a: seq<Response>, b: seq<Response>)
    ensures StreamText(a + b) == StreamText(a) + StreamText(b)
  {
    FlattenAppend(a, b);
    ItemsTextAppend(Flatten(a), Flatten(b));
  }

  /** The text of a non-empty stream is its first response's text followed
      by the text of the remaining responses. */
  lemma StreamTextCons(responses: seq<Response>)
    requires |responses| > 0
    ensures StreamText(responses) == ItemsText(responses[0].items) + StreamText(responses[1..])
  {
    ItemsTextAppend(responses[0].items, Flatten(responses[1..]));
  }

  /** A run of items has no visible text exactly when none of its items is
      a non-empty text piece. */
  lemma {:induction false} ItemsTextEmptyIff(items: seq<ContentItem>)
    ensures ItemsText(items) == "" <==> !HasVisibleText(items)
    decreases |items|
  {
    if |items| > 0 {
      ItemsTextEmptyIff(items[1..]);
      if HasVisibleText(items[1..]) {
        var i :| 0 <= i < |items[1..]| && IsVisibleText(items[1..][i]);
        assert IsVisibleText(items[i + 1]);
      }
      if HasVisibleText(items) && !IsVisibleText(items[0]) {
        var i :| 0 <= i < |items| && IsVisibleText(items[i]);
        assert IsVisibleText(items[1..][i - 1]);
      }
    }
  }

  /** Inserting a function call, a function result, an unrecognised item or
      an empty text piece anywhere in a stream leaves its text unchanged. */
  lemma InvisibleItemContributesNothing(a: seq<ContentItem>, x: ContentItem, b: seq<ContentItem>)
    requires !IsVisibleText(x)
    ensures ItemsText(a + [x] + b) == ItemsText(a + b)
  {
    assert ItemsText([x]) == "" by {
      assert [x][1..] == [];
    }
    calc {
      ItemsText(a + [x] + b);
      { ItemsTextAppend(a + [x], b); }
      ItemsText(a + [x]) + ItemsText(b);
      { ItemsTextAppend(a, [x]); }
      (ItemsText(a) + "") + ItemsText(b);
      { assert ItemsText(a) + "" == ItemsText(a); }
      ItemsText(a) + ItemsText(b);
      { ItemsTextAppend(a, b); }
      ItemsText(a + b);
    }
  }

  /** Consuming two runs of responses one after the other leaves the same
      thread as consuming their concatenation. */
  lemma LastThreadAppend(a: seq<Response>, b: seq<Response>, initial: Option<Thread>)
    ensures LastThread(a + b, initial) == LastThread(b, LastThread(a, initial))
  {
  }
}
