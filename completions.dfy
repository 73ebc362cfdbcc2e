/**
 * What the chat session and the one-shot prompt command share about an
 * OpenAI-style completion stream: the shape of a streamed chunk, the text a
 * chunk contributes (`part.choices[0]?.delta?.content || ''`), the
 * accumulation of those texts, the request record, and the two oracles the
 * model takes as parameters (the provider's reply and `Number()`).
 */
module Completions {
  import opened Wrappers
  import opened Messages

  datatype Delta = Delta(content: Option<string>)
  datatype Choice = Choice(delta: Option<Delta>)
  /** One streamed chunk of a chat completion. */
  datatype ChatChunk = ChatChunk(choices: seq<Choice>)

  /** The request body sent to the chat-completions endpoint. */
  datatype ChatRequest = ChatRequest(model: string, temperature: real, messages: seq<Message>, stream: bool)

  /**
   * How the provider answers a request: the request is rejected for its
   * credentials or for any other reason, or it opens a stream that delivers
   * `chunks` and then ends (`Streamed`) or throws (`StreamFailed`).
   */
  datatype Reply =
    | AuthenticationError
    | ProviderError
    | Streamed(chunks: seq<ChatChunk>)
    | StreamFailed(chunks: seq<ChatChunk>)

  /** What `Number(x)` yields: NaN, an infinity or a finite value. */
  datatype NumberValue = NaN | PositiveInfinity | NegativeInfinity | Finite(x: real)

  /**
   * The text a chunk contributes: the first choice's delta content, with a
   * missing choice, delta or content, and an empty string, all read as ''.
   */
  function DeltaText(c: ChatChunk): (t: string)
    ensures t != "" <==>
      |c.choices| > 0 && c.choices[0].delta.Some? && c.choices[0].delta.value.content.Some?
      && c.choices[0].delta.value.content.value != ""
    ensures t != "" ==> t == c.choices[0].delta.value.content.value
  {
    if |c.choices| == 0 then ""
    else match c.choices[0].delta
      case None => ""
      case Some(d) => d.content.GetOr("")
  }

  /** The in-order concatenation of the texts of a sequence of chunks. */
  function Accumulate(cs: seq<ChatChunk>): string {
    if cs == [] then "" else Accumulate(cs[..|cs| - 1]) + DeltaText(cs[|cs| - 1])
  }

  /** Accumulating a stream in two parts gives the whole, in order. */
  lemma {:induction false} AccumulateAppend(xs: seq<ChatChunk>, ys: seq<ChatChunk>)
    ensures Accumulate(xs + ys) == Accumulate(xs) + Accumulate(ys)
  {
    if ys != [] {
      var zs := xs + ys;
      assert zs[..|zs| - 1] == xs + ys[..|ys| - 1];
      AccumulateAppend(xs, ys[..|ys| - 1]);
    } else {
      assert xs + ys == xs;
    }
  }

  /** A chunk without text contributes nothing: only content-bearing chunks shape the reply. */
  lemma {:induction false} AccumulateSkipsEmpty(xs: seq<ChatChunk>, c: ChatChunk, ys: seq<ChatChunk>)
    requires DeltaText(c) == ""
    ensures Accumulate(xs + [c] + ys) == Accumulate(xs + ys)
  {
    var xc := xs + [c];
    assert xc[..|xc| - 1] == xs && xc[|xc| - 1] == c;
    assert Accumulate(xc) == Accumulate(xs) + "";
    assert Accumulate(xs) + "" == Accumulate(xs);
    AccumulateAppend(xc, ys);
    AccumulateAppend(xs, ys);
  }

  /** A chunk whose first choice carries `content`. */
  function TextChunk(s: string): ChatChunk {
    ChatChunk([Choice(Some(Delta(Some(s))))])
  }

  /** The two fragments "Hi" and " there" accumulate to "Hi there" with no gap. */
  lemma AccumulateHiThere()
    ensures Accumulate([TextChunk("Hi"), TextChunk(" there")]) == "Hi there"
  {
    var cs := [TextChunk("Hi"), TextChunk(" there")];
    assert cs[..1] == [TextChunk("Hi")];
    assert [TextChunk("Hi")][..0] == [];
  }
}
