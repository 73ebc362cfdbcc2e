/**
 * The Anthropic-style provider of src/providers/anthropic.ts: the message
 * history is flattened into one prompt string of role markers and contents,
 * ended by the assistant marker, and each streamed completion event yields its
 * text. The marker values are those of the Anthropic SDK.
 */
module AnthropicProvider {
  import opened Messages

  const HUMAN_PROMPT: string := "\n\nHuman:"
  const AI_PROMPT: string := "\n\nAssistant:"

  /** `roleToAnthropicRole`: users and the system speak as the human; the assistant as the AI. */
  function RoleMarker(r: Role): (marker: string)
    ensures marker == AI_PROMPT <==> r == Assistant
    ensures marker == HUMAN_PROMPT <==> r != Assistant
  {
    match r
    case User => HUMAN_PROMPT
    case System => HUMAN_PROMPT
    case Assistant => AI_PROMPT
  }

  /** One message: its marker, a single space, its content. */
  function Render(m: Message): string {
    RoleMarker(m.role) + " " + m.content
  }

  /** `messages.map(render)`. */
  function RenderEach(ms: seq<Message>): (parts: seq<string>)
    ensures |parts| == |ms|
    ensures forall i :: 0 <= i < |ms| ==> parts[i] == Render(ms[i])
  {
    if ms == [] then [] else [Render(ms[0])] + RenderEach(ms[1..])
  }

  /** `parts.join('')`. */
  function Join(parts: seq<string>): string {
    if parts == [] then "" else parts[0] + Join(parts[1..])
  }

  /** `messagesToAnthropicPrompt`: the rendered messages, then the assistant marker, joined with no separator. */
  function Prompt(ms: seq<Message>): string {
    Join(RenderEach(ms) + [AI_PROMPT])
  }

  lemma {:induction false} JoinAppend(xs: seq<string>, ys: seq<string>)
    ensures Join(xs + ys) == Join(xs) + Join(ys)
  {
    if xs == [] {
      assert xs + ys == ys;
    } else {
      assert (xs + ys)[1..] == xs[1..] + ys;
      JoinAppend(xs[1..], ys);
    }
  }

  lemma {:induction false} RenderEachAppend(xs: seq<Message>, ys: seq<Message>)
    ensures RenderEach(xs + ys) == RenderEach(xs) + RenderEach(ys)
  {
    if xs == [] {
      assert xs + ys == ys;
    } else {
      assert (xs + ys)[1..] == xs[1..] + ys;
      RenderEachAppend(xs[1..], ys);
    }
  }

  /** The concatenation of the renderings of the messages, in order. */
  function Rendered(ms: seq<Message>): string {
    Join(RenderEach(ms))
  }

  /** The prompt is the rendered history followed by the assistant marker. */
  lemma PromptShape(ms: seq<Message>)
    ensures Prompt(ms) == Rendered(ms) + AI_PROMPT
  {
    JoinAppend(RenderEach(ms), [AI_PROMPT]);
    assert Join([AI_PROMPT]) == AI_PROMPT + Join([]);
  }

  /** Every prompt ends with the assistant marker; an empty history gives exactly that marker. */
  lemma PromptEndsWithAssistantMarker(ms: seq<Message>)
    ensures |Prompt(ms)| >= |AI_PROMPT|
    ensures Prompt(ms)[|Prompt(ms)| - |AI_PROMPT|..] == AI_PROMPT
    ensures ms == [] ==> Prompt(ms) == AI_PROMPT
  {
    PromptShape(ms);
    if ms == [] {
      assert Rendered(ms) == "";
    }
  }

  /** Flattening distributes over concatenation of histories. */
  lemma PromptAppend(xs: seq<Message>, ys: seq<Message>)
    ensures Prompt(xs + ys) == Rendered(xs) + Rendered(ys) + AI_PROMPT
  {
    PromptShape(xs + ys);
    RenderEachAppend(xs, ys);
    JoinAppend(RenderEach(xs), RenderEach(ys));
  }

  /** Extending the history by one message inserts exactly its rendering before the final marker. */
  lemma PromptExtend(ms: seq<Message>, m: Message)
    ensures Prompt(ms + [m]) == Rendered(ms) + Render(m) + AI_PROMPT
  {
    PromptAppend(ms, [m]);
    assert RenderEach([m]) == [Render(m)];
    assert Join([Render(m)]) == Render(m) + Join([]);
    assert Rendered([m]) == Render(m);
  }

  /** The options `chat` is called with. */
  datatype ChatOptions = ChatOptions(temperature: real, messages: seq<Message>, model: string)

  /** The body of the streamed completion request. */
  datatype CompletionRequest = CompletionRequest(prompt: string, model: string, stream: bool, maxTokensToSample: int)

  /** One event of the completion stream. */
  datatype CompletionEvent = CompletionEvent(completion: string)

  /** The request `chat` issues for `options`. */
  function RequestFor(options: ChatOptions): (r: CompletionRequest)
    ensures r.prompt == Prompt(options.messages) && r.model == options.model
    ensures r.stream && r.maxTokensToSample == 300
  {
    CompletionRequest(Prompt(options.messages), options.model, true, 300)
  }

  /** The temperature is not forwarded: the request does not depend on it. */
  lemma TemperatureIgnored(options: ChatOptions, t: real)
    ensures RequestFor(options.(temperature := t)) == RequestFor(options)
  {
  }

  /**
   * `chat`: issues the request, then yields one fragment per completion event,
   * in arrival order. The events are the stream the provider delivered.
   */
  method Chat(options: ChatOptions, events: seq<CompletionEvent>) returns (request: CompletionRequest, fragments: seq<string>)
    ensures request == RequestFor(options)
    ensures |fragments| == |events|
    ensures forall i :: 0 <= i < |events| ==> fragments[i] == events[i].completion
  {
    request := RequestFor(options);
    fragments := [];
    var i := 0;
    while i < |events|
      invariant 0 <= i <= |events|
      invariant |fragments| == i
      invariant forall k :: 0 <= k < i ==> fragments[k] == events[k].completion
    {
      fragments := fragments + [events[i].completion];
      i := i + 1;
    }
  }
}
