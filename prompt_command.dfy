/**
 * The one-shot `prompt` command of src/commands/prompt.ts: the prompt words
 * are joined with single spaces, the user message is recorded, the `--temp`
 * option is validated, the request is made with that single message, and the
 * streamed reply is accumulated and recorded. `pushMessage` comes from a
 * conversation module (src/convo) that is not part of this model; it is
 * modelled as an append-only log.
 */
module PromptCommand {
  import opened Wrappers
  import opened Messages
  import opened Completions
  import ChatSession

  const NotANumberMessage: string := "Temp must be a number"
  const OutOfRangeMessage: string := "Temp must be a value between 0 and 1."

  /**
   * `parseTemp(value)`: an absent or empty value means 0; otherwise
   * `Number(value)` (the oracle `toNumber`) must be a number in [0, 1], which
   * is returned unchanged. Errors are `InvalidArgumentError`s.
   */
  function ParseTemp(value: Option<string>, toNumber: string -> NumberValue): (r: Result<real, string>)
    ensures (value.None? || value.value == "") ==> r == Ok(0.0)
    ensures value.Some? && value.value != "" ==>
      && (r.Ok? <==> toNumber(value.value).Finite? && 0.0 <= toNumber(value.value).x <= 1.0)
      && (r.Ok? ==> r.value == toNumber(value.value).x)
      && (r == Err(NotANumberMessage) <==> toNumber(value.value).NaN?)
      && (r.Err? && !toNumber(value.value).NaN? ==> r.error == OutOfRangeMessage)
  {
    if value.None? || value.value == "" then Ok(0.0)
    else
      match toNumber(value.value)
      case NaN => Err(NotANumberMessage)
      case PositiveInfinity => Err(OutOfRangeMessage)
      case NegativeInfinity => Err(OutOfRangeMessage)
      case Finite(x) => if x < 0.0 || x > 1.0 then Err(OutOfRangeMessage) else Ok(x)
  }

  /**
   * On a non-empty value the prompt command and the chat command's
   * `parseTemperature` accept exactly the same temperatures and return the
   * same value; only the messages differ.
   */
  lemma ParseTempAgreesWithParseTemperature(v: string, toNumber: string -> NumberValue)
    requires v != ""
    ensures ParseTemp(Some(v), toNumber).Ok? <==> ChatSession.ParseTemperature(toNumber(v)).Ok?
    ensures ParseTemp(Some(v), toNumber).Ok? ==>
      ParseTemp(Some(v), toNumber).value == ChatSession.ParseTemperature(toNumber(v)).value
  {
  }

  /** `input.join(' ')`. */
  function JoinWords(words: seq<string>): string {
    if words == [] then ""
    else if |words| == 1 then words[0]
    else words[0] + " " + JoinWords(words[1..])
  }

  /** Joining two non-empty runs of words puts exactly one space between them. */
  lemma {:induction false} JoinWordsAppend(xs: seq<string>, ys: seq<string>)
    requires xs != [] && ys != []
    ensures JoinWords(xs + ys) == JoinWords(xs) + " " + JoinWords(ys)
  {
    if |xs| == 1 {
      assert (xs + ys)[1..] == ys;
    } else {
      assert (xs + ys)[1..] == xs[1..] + ys;
      JoinWordsAppend(xs[1..], ys);
    }
  }

  /** The joined prompt is as long as the words plus one space between each pair. */
  lemma {:induction false} JoinWordsLength(words: seq<string>)
    requires words != []
    ensures |JoinWords(words)| == SumLengths(words) + |words| - 1
  {
    if |words| > 1 {
      JoinWordsLength(words[1..]);
    }
  }

  function SumLengths(words: seq<string>): nat {
    if words == [] then 0 else |words[0]| + SumLengths(words[1..])
  }

  /** The conversation log `pushMessage` appends to. */
  class ConvoLog {
    var messages: seq<Message>

    constructor (messages: seq<Message>)
      ensures this.messages == messages
    {
      this.messages := messages;
    }

    method Push(m: Message)
      modifies this
      ensures messages == old(messages) + [m]
    {
      messages := messages + [m];
    }
  }

  /** How the action ends; `RequestFailed` covers a rejected request and a stream that throws. */
  datatype PromptOutcome = InvalidTemperature(message: string) | RequestFailed | Completed(content: string)

  /**
   * The `prompt` action: the user message is recorded before the temperature
   * is checked, so an invalid temperature still leaves it recorded; a failed
   * request propagates, and so does a stream that throws, after its chunks
   * have been written out but before anything more is recorded; otherwise
   * the accumulated reply, empty or not, is recorded after the stream ends.
   */
  method Prompt(words: seq<string>, temp: Option<string>, model: Option<string>,
                toNumber: string -> NumberValue, log: ConvoLog, reply: Reply)
    returns (o: PromptOutcome, sent: Option<ChatRequest>)
    modifies log
    ensures var prompt := JoinWords(words);
      match ParseTemp(temp, toNumber)
      case Err(msg) =>
        o == InvalidTemperature(msg) && sent == None && log.messages == old(log.messages) + [Message(User, prompt)]
      case Ok(t) =>
        && sent == Some(ChatRequest(model.GetOr("gpt-4"), t, [Message(User, prompt)], true))
        && match reply
           case Streamed(chunks) =>
             o == Completed(Accumulate(chunks))
             && log.messages == old(log.messages) + [Message(User, prompt), Message(Assistant, Accumulate(chunks))]
           case _ =>
             o == RequestFailed && log.messages == old(log.messages) + [Message(User, prompt)]
  {
    var prompt := JoinWords(words);
    log.Push(Message(User, prompt));
    var parsed := ParseTemp(temp, toNumber);
    if parsed.Err? {
      return InvalidTemperature(parsed.error), None;
    }
    sent := Some(ChatRequest(model.GetOr("gpt-4"), parsed.value, [Message(User, prompt)], true));
    if reply.AuthenticationError? || reply.ProviderError? {
      return RequestFailed, sent;
    }
    var chunks := reply.chunks;
    var content := "";
    var i := 0;
    while i < |chunks|
      invariant 0 <= i <= |chunks|
      invariant content == Accumulate(chunks[..i])
    {
      assert chunks[..i + 1][..i] == chunks[..i];
      content := content + DeltaText(chunks[i]);
      i := i + 1;
    }
    assert chunks[..i] == chunks;
    if reply.StreamFailed? {
      return RequestFailed, sent;
    }
    log.Push(Message(Assistant, content));
    o := Completed(content);
  }
}
