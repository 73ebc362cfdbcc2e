/**
 * The interactive chat session of src/cli.ts: how a line of input is
 * classified, the `:copy` rule, the escape-key handler over `isStreaming` and
 * the current abort controller, the chat turn (user turn, request, streamed
 * accumulation, assistant turn), the merged configuration with its API-key
 * check, and `parseTemperature`.
 *
 * The provider is an oracle: each chat turn is given the provider's `Reply`
 * and, optionally, the number of chunks already consumed when the escape key
 * arrives. Keypresses are discrete events applied to the session state.
 */
module ChatSession {
  import opened Wrappers
  import opened Messages
  import opened Completions
  import opened FsStore

  // ---- String.prototype.trim ----

  /** JavaScript's WhiteSpace and LineTerminator code points, which `trim` removes. */
  predicate IsSpace(c: char) {
    || c == ' ' || c == '\t' || c == '\n' || c == '\r' || c == '\U{0B}' || c == '\U{0C}'
    || c == '\U{A0}' || c == '\U{1680}' || ('\U{2000}' <= c <= '\U{200A}')
    || c == '\U{2028}' || c == '\U{2029}' || c == '\U{202F}' || c == '\U{205F}'
    || c == '\U{3000}' || c == '\U{FEFF}'
  }

  predicate AllSpace(s: string) {
    forall i :: 0 <= i < |s| ==> IsSpace(s[i])
  }

  function TrimStart(s: string): string {
    if s != "" && IsSpace(s[0]) then TrimStart(s[1..]) else s
  }

  function TrimEnd(s: string): string {
    if s != "" && IsSpace(s[|s| - 1]) then TrimEnd(s[..|s| - 1]) else s
  }

  /** `TrimStart` drops a white-space prefix and stops at the first other character. */
  lemma {:induction false} TrimStartShape(s: string)
    ensures var r := TrimStart(s);
      |r| <= |s| && r == s[|s| - |r|..] && (r != "" ==> !IsSpace(r[0])) && AllSpace(s[..|s| - |r|])
  {
    if s != "" && IsSpace(s[0]) {
      TrimStartShape(s[1..]);
      var r := TrimStart(s[1..]);
      assert s[..|s| - |r|] == [s[0]] + s[1..][..|s| - 1 - |r|];
    }
  }

  /** `TrimEnd` drops a white-space suffix and stops at the last other character. */
  lemma {:induction false} TrimEndShape(s: string)
    ensures var r := TrimEnd(s);
      |r| <= |s| && r == s[..|r|] && (r != "" ==> !IsSpace(r[|r| - 1])) && AllSpace(s[|r|..])
  {
    if s != "" && IsSpace(s[|s| - 1]) {
      TrimEndShape(s[..|s| - 1]);
      var r := TrimEnd(s[..|s| - 1]);
      assert s[|r|..] == s[..|s| - 1][|r|..] + [s[|s| - 1]];
    }
  }

  /** `s.trim()`: the input without its leading and trailing white space. */
  function Trim(s: string): string {
    TrimEnd(TrimStart(s))
  }

  /**
   * `trim` keeps a contiguous part of the input, drops only white space
   * around it, and what it keeps neither starts nor ends with white space.
   */
  lemma TrimKeepsCore(s: string)
    ensures var a := |s| - |TrimStart(s)|;
      0 <= a && a + |Trim(s)| <= |s| && Trim(s) == s[a..a + |Trim(s)|]
      && AllSpace(s[..a]) && AllSpace(s[a + |Trim(s)|..])
      && (Trim(s) != "" ==> !IsSpace(Trim(s)[0]) && !IsSpace(Trim(s)[|Trim(s)| - 1]))
  {
    TrimStartShape(s);
    var u := TrimStart(s);
    TrimEndShape(u);
    var a := |s| - |u|;
    var t := Trim(s);
    assert s[a..a + |t|] == u[..|t|];
    assert s[a + |t|..] == u[|t|..];
  }

  /** Trimming twice is trimming once. */
  lemma TrimIdempotent(s: string)
    ensures Trim(Trim(s)) == Trim(s)
  {
    TrimKeepsCore(s);
    var t := Trim(s);
    if t != "" {
      TrimPadded("", t, "");
      assert "" + t + "" == t;
    }
  }

  lemma {:induction false} TrimStartPadded(pre: string, x: string)
    requires AllSpace(pre)
    ensures TrimStart(pre + x) == TrimStart(x)
  {
    if pre != "" {
      assert (pre + x)[1..] == pre[1..] + x;
      TrimStartPadded(pre[1..], x);
    } else {
      assert pre + x == x;
    }
  }

  lemma {:induction false} TrimEndPadded(x: string, post: string)
    requires AllSpace(post)
    ensures TrimEnd(x + post) == TrimEnd(x)
  {
    if post != "" {
      var xp := x + post;
      assert xp[..|xp| - 1] == x + post[..|post| - 1];
      TrimEndPadded(x, post[..|post| - 1]);
    } else {
      assert x + post == x;
    }
  }

  /** White space around a word that neither starts nor ends with white space is trimmed away exactly. */
  lemma TrimPadded(pre: string, w: string, post: string)
    requires AllSpace(pre) && AllSpace(post)
    requires w != "" && !IsSpace(w[0]) && !IsSpace(w[|w| - 1])
    ensures Trim(pre + w + post) == w
  {
    assert pre + w + post == pre + (w + post);
    TrimStartPadded(pre, w + post);
    assert TrimStart(w + post) == w + post;
    TrimEndPadded(w, post);
  }

  // ---- Input classification ----

  datatype Command = Quit | New | Help | Copy | Unknown | Chat

  predicate IsQuitWord(t: string) { t == ":quit" || t == ":q" }
  predicate IsNewWord(t: string) { t == ":new" || t == ":n" }
  predicate IsHelpWord(t: string) { t == ":help" || t == ":h" }
  predicate IsCopyWord(t: string) { t == ":copy" || t == ":c" }

  /** The control words of the in-session command language. */
  predicate IsControlWord(t: string) {
    IsQuitWord(t) || IsNewWord(t) || IsHelpWord(t) || IsCopyWord(t)
  }

  predicate StartsWithColon(s: string) {
    |s| > 0 && s[0] == ':'
  }

  /**
   * The dispatcher of `chat()`: the trimmed line is compared exactly with the
   * quit, new, help and copy words, in that order; otherwise the untrimmed
   * line is an unknown command when it starts with ':', and a chat message
   * when it does not.
   */
  function Classify(input: string): (c: Command)
    ensures c == Quit <==> IsQuitWord(Trim(input))
    ensures c == New <==> IsNewWord(Trim(input))
    ensures c == Help <==> IsHelpWord(Trim(input))
    ensures c == Copy <==> IsCopyWord(Trim(input))
    ensures c == Unknown <==> !IsControlWord(Trim(input)) && StartsWithColon(input)
    ensures c == Chat <==> !IsControlWord(Trim(input)) && !StartsWithColon(input)
  {
    var t := Trim(input);
    if IsQuitWord(t) then Quit
    else if IsNewWord(t) then New
    else if IsHelpWord(t) then Help
    else if IsCopyWord(t) then Copy
    else if StartsWithColon(input) then Unknown
    else Chat
  }

  /** A control word surrounded by any white space is the same command as the bare word. */
  lemma ClassifyIgnoresPadding(pre: string, w: string, post: string)
    requires AllSpace(pre) && AllSpace(post) && IsControlWord(w)
    ensures Classify(pre + w + post) == Classify(w)
  {
    TrimPadded(pre, w, post);
    TrimPadded("", w, "");
    assert "" + w + "" == w;
  }

  /**
   * A line that starts with white space is never an unknown command: unless
   * its trimmed text is a control word it goes to the provider, even when the
   * trimmed text starts with ':'.
   */
  lemma LeadingSpaceIsChat(input: string)
    requires |input| > 0 && IsSpace(input[0]) && !IsControlWord(Trim(input))
    ensures Classify(input) == Chat
  {
  }

  /** `" :foo"` goes to the provider: only the untrimmed line is checked for a leading ':'. */
  lemma SpaceColonFooIsChat()
    ensures Classify(" :foo") == Chat
  {
    TrimPadded(" ", ":foo", "");
    assert " " + ":foo" + "" == " :foo";
    assert !IsControlWord(":foo");
  }

  /** `" :q "` quits: control words are matched on the trimmed line. */
  lemma PaddedQuit()
    ensures Classify(" :q ") == Quit
  {
    TrimPadded(" ", ":q", " ");
    assert " " + ":q" + " " == " :q ";
  }

  /** `":Q"` is an unknown command: matching is case-sensitive. */
  lemma UpperCaseIsUnknown()
    ensures Classify(":Q") == Unknown
  {
    TrimPadded("", ":Q", "");
    assert "" + ":Q" + "" == ":Q";
    assert !IsControlWord(":Q");
  }

  // ---- The :copy rule ----

  /**
   * What `:copy` writes to the clipboard: the content of the last message
   * when it exists, is the assistant's and is non-empty; otherwise nothing
   * ("No previous assistant message").
   */
  function CopyText(last: Option<Message>): (r: Option<string>)
    ensures r.Some? <==> last.Some? && last.value.role == Assistant && last.value.content != ""
    ensures r.Some? ==> r.value == last.value.content
  {
    match last
    case Some(m) => if m.role == Assistant && m.content != "" then Some(m.content) else None
    case None => None
  }

  // ---- parseTemperature ----

  const NotANumberMessage: string := "Temperature must be a number"
  const OutOfRangeMessage: string := "Temperature must be a number betweent 0 and 1"

  /**
   * `parseTemperature(temp)`, given `Number(temp)`: NaN is "not a number",
   * anything outside [0, 1] (the infinities included) is out of range, and an
   * accepted value is returned unchanged.
   */
  function ParseTemperature(n: NumberValue): (r: Result<real, string>)
    ensures r.Ok? <==> n.Finite? && 0.0 <= n.x <= 1.0
    ensures r.Ok? ==> r.value == n.x
    ensures r == Err(NotANumberMessage) <==> n.NaN?
    ensures r.Err? && !n.NaN? ==> r.error == OutOfRangeMessage
  {
    match n
    case NaN => Err(NotANumberMessage)
    case Finite(x) => if 0.0 <= x <= 1.0 then Ok(x) else Err(OutOfRangeMessage)
    case _ => Err(OutOfRangeMessage)
  }

  // ---- Merged configuration ----

  /** The configuration record as read from the config file (keys may be missing). */
  datatype Settings = Settings(model: Option<string>, temperature: Option<real>, apiKey: Option<string>)

  /** The command-line options of `chat`, `--temperature` taken as already converted to a number. */
  datatype Overrides = Overrides(temperature: Option<real>, apiKey: Option<string>)

  /**
   * `{...config.data, ...options}` as intended: an option given on the
   * command line wins over the configuration, which supplies everything else.
   */
  function Merge(config: Settings, options: Overrides): (s: Settings)
    ensures s.model == config.model
    ensures options.temperature.Some? ==> s.temperature == options.temperature
    ensures options.temperature.None? ==> s.temperature == config.temperature
    ensures options.apiKey.Some? ==> s.apiKey == options.apiKey
    ensures options.apiKey.None? ==> s.apiKey == config.apiKey
  {
    Settings(config.model,
             if options.temperature.Some? then options.temperature else config.temperature,
             if options.apiKey.Some? then options.apiKey else config.apiKey)
  }

  /**
   * `{...config.data, ...options}` as the action is written. `chat` declares
   * no arguments, so the library passes the parsed options as the action's
   * first parameter, which is ignored, and the command object as `options`.
   * That object has no `model`, `temperature` or `apiKey` property, so the
   * merged record is the configuration alone.
   */
  function MergeAsWritten(config: Settings, parsed: Overrides): Settings {
    config
  }

  /** `!mergedConfig.apiKey`: a missing, null or empty key. */
  predicate ApiKeyMissing(s: Settings) {
    s.apiKey.None? || s.apiKey.value == ""
  }

  /** A session can start iff a non-empty key comes from the command line, or, when none is given there, from the configuration. */
  lemma ApiKeyFromEitherSource(config: Settings, options: Overrides)
    ensures !ApiKeyMissing(Merge(config, options)) <==>
      if options.apiKey.Some? then options.apiKey.value != "" else config.apiKey.Some? && config.apiKey.value != ""
  {
  }

  /**
   * With no key in the configuration, `--apiKey sk-1` is lost by the merge as
   * written, so no session starts, while the intended merge starts one.
   */
  lemma ApiKeyOptionIgnored()
    ensures var config := Settings(None, None, None);
            var options := Overrides(None, Some("sk-1"));
            ApiKeyMissing(MergeAsWritten(config, options)) && !ApiKeyMissing(Merge(config, options))
  {
  }

  /** The request of a chat turn: model defaults to 'gpt-4', temperature to 0, the whole history is sent. */
  function RequestFor(s: Settings, history: seq<Message>): (r: ChatRequest)
    ensures r.messages == history && r.stream
    ensures r.model == (if s.model.Some? then s.model.value else "gpt-4")
    ensures r.temperature == (if s.temperature.Some? then s.temperature.value else 0.0)
  {
    ChatRequest(s.model.GetOr("gpt-4"), s.temperature.GetOr(0.0), history, true)
  }

  // ---- A chat turn, as a function of the provider's behaviour ----

  /** What a line leads to. */
  datatype Outcome =
    | Exited(status: int)
    | StartNew
    | ShowedHelp(model: Option<string>, temperature: Option<real>)
    | Copied(text: string)
    | NoPreviousAssistant
    | UnknownCommand
    | Answered(content: string)
    | Crashed

  /** The chunks drained before the stream ended: all of them, or those before the escape key. */
  function Consumed(chunks: seq<ChatChunk>, escapeAfter: Option<nat>): (cs: seq<ChatChunk>)
    ensures cs <= chunks
  {
    if escapeAfter.Some? && escapeAfter.value <= |chunks| then chunks[..escapeAfter.value] else chunks
  }

  /** Whether the escape key arrives while a stream is being drained, before it ends or throws. */
  predicate EscapeDuringStream(reply: Reply, escapeAfter: Option<nat>) {
    (reply.Streamed? || reply.StreamFailed?) && escapeAfter.Some? && escapeAfter.value <= |reply.chunks|
  }

  /**
   * Whether the `for await` loop over the stream ends without an error: the
   * stream runs to its end, or the escape key aborts it before it throws.
   */
  predicate Drains(reply: Reply, escapeAfter: Option<nat>) {
    reply.Streamed? || EscapeDuringStream(reply, escapeAfter)
  }

  /**
   * The messages a chat turn appends: the user turn, then an assistant turn
   * only when the stream was drained; a rejected request or a stream that
   * throws leaves the user turn alone.
   */
  function TurnMessages(input: string, reply: Reply, escapeAfter: Option<nat>): seq<Message> {
    if Drains(reply, escapeAfter) then
      [Message(User, input), Message(Assistant, Accumulate(Consumed(reply.chunks, escapeAfter)))]
    else
      [Message(User, input)]
  }

  function TurnOutcome(reply: Reply, escapeAfter: Option<nat>): Outcome {
    if reply.AuthenticationError? then Exited(0)
    else if Drains(reply, escapeAfter) then Answered(Accumulate(Consumed(reply.chunks, escapeAfter)))
    else Crashed
  }

  /** Transcripts of completed turns: user and assistant messages alternate, starting with the user. */
  ghost predicate Alternating(ms: seq<Message>) {
    |ms| % 2 == 0
    && (forall i :: 0 <= i < |ms| && i % 2 == 0 ==> ms[i].role == User)
    && (forall i :: 0 <= i < |ms| && i % 2 == 1 ==> ms[i].role == Assistant)
  }

  /**
   * A turn that returns to the prompt keeps the transcript alternating; one
   * that ends the process leaves the user turn last, with no assistant turn.
   */
  lemma TurnKeepsAlternating(ms: seq<Message>, input: string, reply: Reply, escapeAfter: Option<nat>)
    requires Alternating(ms)
    ensures TurnOutcome(reply, escapeAfter).Answered? ==> Alternating(ms + TurnMessages(input, reply, escapeAfter))
    ensures !TurnOutcome(reply, escapeAfter).Answered? ==>
      !Alternating(ms + TurnMessages(input, reply, escapeAfter))
      && ms + TurnMessages(input, reply, escapeAfter) == ms + [Message(User, input)]
  {
    var r := ms + TurnMessages(input, reply, escapeAfter);
    if Drains(reply, escapeAfter) {
      forall i | 0 <= i < |r| && i % 2 == 0 ensures r[i].role == User {
        if i < |ms| { assert r[i] == ms[i]; }
      }
      forall i | 0 <= i < |r| && i % 2 == 1 ensures r[i].role == Assistant {
        if i < |ms| { assert r[i] == ms[i]; }
      }
    }
  }

  /**
   * `:copy` right after an answered turn copies exactly that turn's content,
   * or reports that there is no previous assistant message when it is empty.
   */
  lemma CopyAfterAnswer(ms: seq<Message>, input: string, chunks: seq<ChatChunk>, escapeAfter: Option<nat>)
    ensures var r := ms + TurnMessages(input, Streamed(chunks), escapeAfter);
            var content := Accumulate(Consumed(chunks, escapeAfter));
            CopyText(Some(r[|r| - 1])) == if content == "" then None else Some(content)
  {
  }

  /** Empty conversation, "hello", fragments "Hi" and " there": the transcript holds both turns. */
  lemma HelloScenario()
    ensures Classify("hello") == Chat
    ensures [] + TurnMessages("hello", Streamed([TextChunk("Hi"), TextChunk(" there")]), None)
         == [Message(User, "hello"), Message(Assistant, "Hi there")]
  {
    AccumulateHiThere();
    TrimPadded("", "hello", "");
    assert "" + "hello" + "" == "hello";
  }

  // ---- Session state ----

  /** The cancellation handle: once aborted it stays aborted. */
  class AbortController {
    var aborted: bool

    constructor ()
      ensures !aborted
    {
      aborted := false;
    }

    method Abort()
      modifies this
      ensures aborted
    {
      aborted := true;
    }
  }

  /** The key sequence of the escape key. */
  const Escape: string := "\U{1B}"

  /** One conversation: its transcript store, the streaming flag and the current abort controller. */
  class Session {
    const settings: Settings
    var conversation: ArrayStore<Message>
    var isStreaming: bool
    var controller: AbortController

    /** Between turns: nothing is streaming and the current controller has not been aborted. */
    ghost predicate Idle()
      reads this, conversation, controller
    {
      conversation.Valid() && !isStreaming && !controller.aborted
    }

    constructor (settings: Settings)
      ensures this.settings == settings && Idle()
      ensures fresh(conversation) && fresh(controller)
      ensures conversation.items == [] && conversation.file == None
    {
      this.settings := settings;
      conversation := new ArrayStore(None);
      isStreaming := false;
      controller := new AbortController();
    }

    /**
     * `startConversation()`: merge the configuration and stop when the API key
     * is missing; otherwise start with a new, empty transcript whose file does
     * not exist yet.
     */
    static method Start(config: Settings, options: Overrides) returns (s: Session?)
      ensures s == null <==> ApiKeyMissing(Merge(config, options))
      ensures s != null ==>
        fresh(s) && fresh(s.conversation) && fresh(s.controller) && s.Idle()
        && s.settings == Merge(config, options) && s.conversation.items == [] && s.conversation.file == None
    {
      var merged := Merge(config, options);
      if ApiKeyMissing(merged) {
        return null;
      }
      s := new Session(merged);
    }

    /**
     * The keypress listener: the escape key while streaming aborts the current
     * controller, installs a fresh one and clears `isStreaming`; every other
     * key, and escape while not streaming, changes nothing.
     */
    method Keypress(sequence: string)
      modifies this, controller
      ensures conversation == old(conversation)
      ensures sequence == Escape && old(isStreaming) ==>
        old(controller).aborted && fresh(controller) && !controller.aborted && !isStreaming
      ensures !(sequence == Escape && old(isStreaming)) ==>
        controller == old(controller) && isStreaming == old(isStreaming) && controller.aborted == old(controller.aborted)
    {
      if sequence == Escape && isStreaming {
        controller.Abort();
        controller := new AbortController();
        isStreaming := false;
      }
    }

    /**
     * The `for await` loop over an open stream, with the keypress listener
     * running beside it: the chunks' texts are accumulated in arrival order
     * until the stream has no more chunks or the escape key (arriving after
     * `escapeAfter` chunks) aborts it. Whether the stream then ends or throws
     * is the caller's concern.
     */
    method DrainStream(chunks: seq<ChatChunk>, escapeAfter: Option<nat>) returns (content: string, escaped: bool)
      requires isStreaming && !controller.aborted
      modifies this, controller
      ensures conversation == old(conversation)
      ensures escaped <==> escapeAfter.Some? && escapeAfter.value <= |chunks|
      ensures content == Accumulate(Consumed(chunks, escapeAfter))
      ensures escaped ==> old(controller).aborted && fresh(controller) && !controller.aborted && !isStreaming
      ensures !escaped ==> controller == old(controller) && !controller.aborted && isStreaming
    {
      var signal := controller;
      content := "";
      var i := 0;
      escaped := false;
      while true
        invariant 0 <= i <= |chunks|
        invariant escapeAfter.Some? ==> i <= escapeAfter.value
        invariant content == Accumulate(chunks[..i])
        invariant conversation == old(conversation)
        invariant controller == signal && !signal.aborted && isStreaming && !escaped
        decreases |chunks| - i
      {
        if escapeAfter == Some(i) {
          Keypress(Escape);
          escaped := true;
        }
        if i == |chunks| || signal.aborted {
          break;
        }
        assert chunks[..i + 1][..i] == chunks[..i];
        content := content + DeltaText(chunks[i]);
        i := i + 1;
      }
      assert chunks[..|chunks|] == chunks;
    }

    /**
     * A chat turn: push the user turn, issue the request with the whole
     * history, and on a stream set `isStreaming`, drain the stream, clear
     * `isStreaming` and push the assistant turn, even when empty. An
     * authentication error ends the process with status 0 after the user
     * turn only; any other error propagates. A stream that throws leaves its
     * loop early: the assistant turn is not pushed and `isStreaming` is not
     * cleared.
     */
    method ChatTurn(input: string, reply: Reply, escapeAfter: Option<nat>) returns (o: Outcome, sent: ChatRequest)
      requires Idle()
      modifies this, conversation, controller
      ensures conversation == old(conversation) && conversation.Valid()
      ensures isStreaming <==> reply.StreamFailed? && !Drains(reply, escapeAfter)
      ensures sent == RequestFor(settings, old(conversation.items) + [Message(User, input)])
      ensures conversation.items == old(conversation.items) + TurnMessages(input, reply, escapeAfter)
      ensures o == TurnOutcome(reply, escapeAfter)
      ensures EscapeDuringStream(reply, escapeAfter) ==>
        old(controller).aborted && fresh(controller) && !controller.aborted
      ensures !EscapeDuringStream(reply, escapeAfter) ==> controller == old(controller) && !controller.aborted
    {
      conversation.Push(Message(User, input));
      sent := RequestFor(settings, conversation.items);
      match reply
      case AuthenticationError =>
        o := Exited(0);
      case ProviderError =>
        o := Crashed;
      case _ =>
        isStreaming := true;
        var content, escaped := DrainStream(reply.chunks, escapeAfter);
        if !escaped && reply.StreamFailed? {
          o := Crashed;
          return;
        }
        isStreaming := false;
        conversation.Push(Message(Assistant, content));
        o := Answered(content);
    }

    /**
     * One line of input (one call of `chat()`'s question callback). Control
     * commands neither push a message nor call the provider; a chat message
     * runs a chat turn.
     */
    method HandleLine(input: string, reply: Reply, escapeAfter: Option<nat>) returns (o: Outcome, sent: Option<ChatRequest>)
      requires Idle()
      modifies this, conversation, controller
      ensures conversation == old(conversation) && conversation.Valid()
      ensures isStreaming <==> Classify(input) == Chat && reply.StreamFailed? && !Drains(reply, escapeAfter)
      ensures Classify(input) != Chat ==>
        sent == None && unchanged(this) && unchanged(conversation) && unchanged(controller)
      ensures Classify(input) == Quit ==> o == Exited(0)
      ensures Classify(input) == New ==> o == StartNew
      ensures Classify(input) == Help ==> o == ShowedHelp(settings.model, settings.temperature)
      ensures Classify(input) == Copy ==>
        o == match CopyText(conversation.At(-1)) case Some(t) => Copied(t) case None => NoPreviousAssistant
      ensures Classify(input) == Unknown ==> o == UnknownCommand
      ensures Classify(input) == Chat ==>
        && sent == Some(RequestFor(settings, old(conversation.items) + [Message(User, input)]))
        && conversation.items == old(conversation.items) + TurnMessages(input, reply, escapeAfter)
        && o == TurnOutcome(reply, escapeAfter)
      ensures Classify(input) == Chat && EscapeDuringStream(reply, escapeAfter) ==>
        old(controller).aborted && fresh(controller) && !controller.aborted
      ensures !(Classify(input) == Chat && EscapeDuringStream(reply, escapeAfter)) ==>
        controller == old(controller) && !controller.aborted
    {
      var command := Classify(input);
      sent := None;
      match command
      case Quit =>
        o := Exited(0);
      case New =>
        o := StartNew;
      case Help =>
        o := ShowedHelp(settings.model, settings.temperature);
      case Copy =>
        var last := conversation.At(-1);
        match CopyText(last) {
          case Some(t) => o := Copied(t);
          case None => o := NoPreviousAssistant;
        }
      case Unknown =>
        o := UnknownCommand;
      case Chat =>
        var req;
        o, req := ChatTurn(input, reply, escapeAfter);
        sent := Some(req);
    }
  }

  /**
   * `:new` starts a conversation with an empty transcript and leaves the
   * previous transcript, in memory and on disk, as it was.
   */
  method NewConversation(current: Session, config: Settings, options: Overrides) returns (next: Session?)
    requires current.Idle()
    ensures unchanged(current.conversation)
    ensures next == null <==> ApiKeyMissing(Merge(config, options))
    ensures next != null ==> next.Idle() && next.conversation != current.conversation && next.conversation.items == []
  {
    next := Session.Start(config, options);
  }
}
