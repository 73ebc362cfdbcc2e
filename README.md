# llm-cli core, modelled in Dafny

A model of the terminal chat client `llm-cli` (package `gpt`): the interactive
chat session, its transcript and configuration stores, the Anthropic prompt
flattening, the one-shot `prompt` command, and the two history commands.

| file | module | what it models |
|---|---|---|
| `wrappers.dfy` | `Wrappers` | `Option` (`undefined`/`null`) and `Result` (a thrown error) |
| `messages.dfy` | `Messages` | roles, messages, parsed JSON values and the `messageSchema` check |
| `completions.dfy` | `Completions` | OpenAI-style stream chunks, the text of a chunk, accumulation, the request record, the provider's reply and `Number()` as oracles |
| `fs_store.dfy` | `FsStore` | `ArrayStore` and `Store` as classes with a ghost file; plain objects with property order and `Object.freeze` |
| `anthropic.dfy` | `AnthropicProvider` | `roleToAnthropicRole`, `messagesToAnthropicPrompt`, the request and the fragment loop of `chat` |
| `chat_session.dfy` | `ChatSession` | `trim`, the line dispatcher, `:copy`, `parseTemperature`, the merged configuration and API-key check, the session state (`isStreaming`, the abort controller, the transcript) with the keypress handler and the chat turn |
| `history.dfy` | `History` | `getAllMessages` and the loop of `history clear` |
| `prompt_command.dfy` | `PromptCommand` | `parseTemp`, the word join and the `prompt` action |

The provider is an oracle. A chat turn receives the provider's `Reply`:
an authentication error, another error, or a stream that delivers a finite
sequence of chunks and then ends or throws. It may
also receive `escapeAfter`, the number of chunks already drained when the
escape key arrives. The keypress listener is a method applied to the session
state as a discrete event. An aborted stream ends its `for await` loop without
an error; the OpenAI SDK stream behaves that way on abort. Files are ghost
fields holding what the last write put there. `JSON.stringify` and
`JSON.parse` are taken to be inverses on these values.

## Model

| member | source | states |
|---|---|---|
| `Messages.ParseRole` | src/cli.ts:25-29 | a role is accepted exactly when it is one of the three literal strings, and the accepted role is written as that literal |
| `Messages.ValidateMessage` | src/cli.ts:24-31 | a message passes the schema iff it is an object with a valid `role` and a string `content`; other keys are ignored; the result carries exactly those two values |
| `Messages.ValidateAllExactly` | src/cli.ts:291 | the array schema accepts iff every element passes, and then returns the elements' messages in order |
| `Messages.ValidateArray` | src/cli.ts:291 | `messageSchema.array().safeParse`: anything but an array fails; an array is checked element by element (`ValidateAllExactly`) |
| `Messages.MessageRoundTrip` | src/cli.ts:24-31 | a message written as JSON passes the schema and reads back unchanged |
| `Messages.TranscriptRoundTrip` | src/cli.ts:290-291 | a transcript written by the store validates back to the identical sequence |
| `Completions.DeltaText` | src/cli.ts:257 | a chunk contributes its first choice's delta content; a missing choice, delta or content gives '' |
| `Completions.Accumulate` | src/cli.ts:256-258 | the reply text: the chunks' texts concatenated in arrival order; `AccumulateAppend` and `AccumulateSkipsEmpty` state its properties |
| `Completions.AccumulateAppend` | src/cli.ts:256-260 | accumulating a stream in two parts gives the concatenation of the parts, in order |
| `Completions.AccumulateSkipsEmpty` | src/cli.ts:257-258 | a chunk without text does not change the accumulated content |
| `Completions.AccumulateHiThere` | src/cli.ts:256-260 | fragments "Hi" and " there" accumulate to "Hi there" |
| `FsStore.ArrayStore.constructor` | src/fs-store.ts:64-71 | an absent file gives an empty store and no file; an existing file's contents are loaded as they are |
| `FsStore.ArrayStore.Data` | src/fs-store.ts:60-62 | returns the sequence as a value: later pushes do not change it |
| `FsStore.ArrayStore.Push` | src/fs-store.ts:73-76 | the sequence becomes old + [v] and the file holds the whole new sequence |
| `FsStore.ArrayStore.At` | src/fs-store.ts:78-80 | `Array.prototype.at`: index i for 0 <= i < len, len + i for -len <= i < 0, undefined otherwise |
| `FsStore.Reopen` | src/fs-store.ts:64-76 | reopening a store from its file yields the same sequence |
| `FsStore.PushThenLast` | src/fs-store.ts:73-80 | after a push, `at(-1)` and `at(old length)` are the pushed value |
| `FsStore.Store.constructor` | src/fs-store.ts:17-27 | without a file the data IS the defaults object and nothing is written; with a file a new object holds its contents |
| `FsStore.Store.Get` | src/fs-store.ts:29-31 | a key has a value iff it is among the record's keys |
| `FsStore.Store.Keys` | src/fs-store.ts:47-49 | one key per property, in insertion order |
| `FsStore.Store.Values` | src/fs-store.ts:43-45 | the values, in the order of the keys, each the value `get` gives for its key |
| `FsStore.Store.Set` | src/fs-store.ts:33-36 | on an unfrozen record the property is written and the file holds the whole record; on a frozen one the write throws and nothing changes |
| `FsStore.Store.Reset` | src/fs-store.ts:38-41 | the data becomes the defaults object itself and the file holds it; the store stays valid, property names distinct |
| `FsStore.Store.Data` | src/fs-store.ts:13-15 | freezes the live record and returns it, not a copy |
| `FsStore.Lookup` | src/fs-store.ts:29-31 | a property read: the value of the first entry with that name, none when no entry has it (`LookupIn`, `LookupDistinct`) |
| `FsStore.Put` | src/fs-store.ts:33-34 | a property write: the entry with that name gets the value in place, or a new entry is appended; the record grows by at most one entry (`LookupPutSame`, `LookupPutOther`, `KeysOfPut`) |
| `FsStore.LookupPutSame` | src/fs-store.ts:29-36 | `get(k)` after `set(k, v)` is v |
| `FsStore.LookupPutOther` | src/fs-store.ts:33-34 | `set(k, v)` leaves every other key's value unchanged |
| `FsStore.LookupIn` | src/fs-store.ts:29-31 | a lookup finds a value exactly for the keys of the record |
| `FsStore.KeysOfPut` | src/fs-store.ts:33-34 | `set` keeps the key order and appends the key only when it is new |
| `FsStore.PutKeepsDistinct` | src/fs-store.ts:33-34 | `set` keeps property names distinct |
| `FsStore.LookupDistinct` | src/fs-store.ts:43-45 | every property's value is what a lookup of its name gives |
| `FsStore.ResetKeepsLatestSet` | src/fs-store.ts:19-41 | on a store opened without a file, `set` then `reset` keeps the value just set, because the write went into the defaults |
| `FsStore.SetAfterData` | src/fs-store.ts:13-36 | once `data` has been read, `set` throws and the record is unchanged |
| `AnthropicProvider.RoleMarker` | src/providers/anthropic.ts:38-46 | user and system map to the human marker, assistant to the AI marker |
| `AnthropicProvider.RenderEach` | src/providers/anthropic.ts:33 | one rendering per message, in order, each marker + " " + content |
| `AnthropicProvider.JoinAppend` | src/providers/anthropic.ts:35 | joining with '' distributes over concatenation |
| `AnthropicProvider.Prompt` | src/providers/anthropic.ts:31-36 | `messagesToAnthropicPrompt`: each message rendered as its marker, a space and its content, followed by the AI marker, joined with ''; its properties are the lemmas below |
| `AnthropicProvider.PromptShape` | src/providers/anthropic.ts:31-36 | the prompt is the rendered messages followed by the AI marker |
| `AnthropicProvider.PromptEndsWithAssistantMarker` | src/providers/anthropic.ts:34-35 | every prompt ends with the AI marker; an empty history gives exactly that marker |
| `AnthropicProvider.PromptAppend` | src/providers/anthropic.ts:31-36 | the prompt of xs + ys is render(xs) + render(ys) + the AI marker |
| `AnthropicProvider.PromptExtend` | src/providers/anthropic.ts:31-35 | appending one message inserts exactly its rendering before the final marker |
| `AnthropicProvider.RequestFor` | src/providers/anthropic.ts:17-24 | the request carries the flattened prompt of the messages, the given model, stream true and max_tokens_to_sample 300 |
| `AnthropicProvider.TemperatureIgnored` | src/providers/anthropic.ts:17-24 | the temperature is not forwarded: the request does not depend on it |
| `AnthropicProvider.Chat` | src/providers/anthropic.ts:14-29 | issues the request with the flattened prompt, the model, stream true and max_tokens_to_sample 300, then yields one fragment per completion event, its `completion`, in arrival order |
| `ChatSession.Trim` | src/cli.ts:177 | `String.prototype.trim`: leading then trailing JavaScript white space removed; `TrimKeepsCore`, `TrimIdempotent` and `TrimPadded` state its properties |
| `ChatSession.TrimKeepsCore` | src/cli.ts:177 | `trim` keeps a contiguous part, removes only white space around it, and the kept part has no white space at its ends |
| `ChatSession.TrimIdempotent` | src/cli.ts:177 | trimming twice is trimming once |
| `ChatSession.TrimPadded` | src/cli.ts:177 | white space around a word without white space at its ends is trimmed away exactly |
| `ChatSession.Classify` | src/cli.ts:177-226 | quit, new, help, copy are exact matches of the trimmed line; unknown iff no match and the untrimmed line starts with ':'; chat otherwise |
| `ChatSession.ClassifyIgnoresPadding` | src/cli.ts:177-203 | a control word surrounded by white space is the same command as the bare word |
| `ChatSession.LeadingSpaceIsChat` | src/cli.ts:220-228 | a line starting with white space whose trimmed text is no control word goes to the provider |
| `ChatSession.SpaceColonFooIsChat` | src/cli.ts:220-226 | " :foo" is a chat message, not an unknown command |
| `ChatSession.PaddedQuit` | src/cli.ts:177-180 | " :q " quits |
| `ChatSession.UpperCaseIsUnknown` | src/cli.ts:177-226 | ":Q" is an unknown command: matching is case-sensitive |
| `ChatSession.CopyText` | src/cli.ts:203-217 | something is copied iff the last message exists, is the assistant's and is non-empty, and then it is that content |
| `ChatSession.ParseTemperature` | src/cli.ts:308-322 | accepted iff a finite number in [0, 1], returned unchanged; NaN gives "must be a number", everything else the range error |
| `ChatSession.Merge` | src/cli.ts:122-125 | the merge as intended: `model` from the configuration; `temperature` and `apiKey` from the command line when given there, otherwise from the configuration |
| `ChatSession.MergeAsWritten` | src/cli.ts:114-125 | the merge as written: the action's `options` parameter receives the command object, so the merged record is the configuration alone |
| `ChatSession.ApiKeyMissing` | src/cli.ts:127 | `!mergedConfig.apiKey`: a missing, null or empty key |
| `ChatSession.ApiKeyFromEitherSource` | src/cli.ts:122-127 | with the intended merge a session starts iff a non-empty key is given on the command line, or none is given there and the configuration holds a non-empty one |
| `ChatSession.ApiKeyOptionIgnored` | src/cli.ts:114-127 | with no key in the configuration, `--apiKey sk-1` starts no session as written, but does with the intended merge |
| `ChatSession.RequestFor` | src/cli.ts:233-238 | the chat request sends the whole history, stream true, the model or 'gpt-4', the temperature or 0 |
| `ChatSession.TurnKeepsAlternating` | src/cli.ts:228-266 | an answered turn keeps user/assistant turns alternating; a failed one leaves the user turn last with no assistant turn |
| `ChatSession.CopyAfterAnswer` | src/cli.ts:203-266 | `:copy` right after an answered turn copies exactly that turn's content, or reports nothing to copy when it is empty |
| `ChatSession.HelloScenario` | src/cli.ts:228-266 | empty conversation, "hello", fragments "Hi" and " there": the transcript is [user "hello", assistant "Hi there"] |
| `ChatSession.AbortController.constructor` | src/cli.ts:145 | a new controller is not aborted |
| `ChatSession.AbortController.Abort` | src/cli.ts:150-151 | an aborted controller stays aborted |
| `ChatSession.Session.constructor` | src/cli.ts:118-145 | a new session has an empty transcript without a file, is not streaming, and its controller is not aborted |
| `ChatSession.Session.Start` | src/cli.ts:115-135 | the configuration is merged with the command-line options winning; no session starts iff the merged API key is missing, null or empty |
| `ChatSession.Session.Keypress` | src/cli.ts:147-154 | escape while streaming aborts the controller, installs a fresh unaborted one and clears isStreaming; anything else changes nothing |
| `ChatSession.Session.DrainStream` | src/cli.ts:256-260 | the `for await` loop with the keypress listener beside it: the text of the chunks before the escape key, or of all of them, in order; an escape during the loop aborts the controller, installs a fresh one and clears isStreaming |
| `ChatSession.Session.ChatTurn` | src/cli.ts:228-270 | pushes the user turn before the request, which sends the whole history with model defaulting to 'gpt-4' and temperature to 0; an authentication error exits with 0 after the user turn only; on a stream isStreaming is set, the chunks drained until the end or the escape key are accumulated in order, isStreaming is cleared, and exactly one assistant turn is pushed, even when empty; a stream that throws before the escape key leaves the user turn alone, isStreaming still set, and propagates |
| `ChatSession.Session.HandleLine` | src/cli.ts:176-271 | control commands push nothing, send nothing and change no state; each command's outcome; a chat line runs a chat turn, which leaves isStreaming set only when its stream throws |
| `ChatSession.NewConversation` | src/cli.ts:182-184 | `:new` starts a different, empty transcript and leaves the previous one untouched |
| `History.Visit` | src/cli.ts:289-301 | one directory entry: ignored unless its name ends in ".json" and is not "config.json"; a syntax error stops the listing; a failed schema check reports the file; a valid transcript is appended |
| `History.Listed` | src/cli.ts:288-303 | the listing: the entries visited in directory order, stopping at the first syntax error |
| `History.GetAllMessages` | src/cli.ts:283-306 | the loop computes the listing: valid transcripts kept in directory order, corrupted ones reported and skipped, a syntax error thrown |
| `History.ListedFailsIff` | src/cli.ts:288-290 | the modelled listing throws iff some ".json" file other than "config.json" holds a JSON syntax error (the date formatting, which can also throw, is left out) |
| `History.ListedNames` | src/cli.ts:288-300 | everything listed or reported comes from a ".json" name other than "config.json" |
| `History.ListedAppend` | src/cli.ts:288-303 | a directory split in two lists as its two parts, in order |
| `History.ListedOne` | src/cli.ts:289-301 | a single entry is listed, reported or ignored as its name and contents say |
| `History.Cleared` | src/cli.ts:104-107 | the clear loop as written, as a value: the names unlinked in order, and the entry whose unlinking threw, if any |
| `History.ClearHistory` | src/cli.ts:102-107 | the loop as written: skips the entry whose trimmed name is "config.json", unlinks the others in order, and stops when unlinking a directory throws |
| `History.ClearedKeepsConfig` | src/cli.ts:105 | "config.json" is never unlinked |
| `History.ClearedFailsIff` | src/cli.ts:104-107 | the loop throws iff the directory holds a directory other than "config.json" |
| `History.ClearedRemovesAll` | src/cli.ts:104-107 | when the loop does not throw it removed every entry but "config.json" |
| `History.ClearFailsOnBootstrappedDirectory` | src/cli.ts:102-107 | a directory holding the "history" directory always makes the loop throw |
| `History.Removable` | src/cli.ts:104-105 | no name to remove trims to "config.json" |
| `History.ClearConfigDirectory` | src/cli.ts:100-108 | the intended clear removes every entry other than "config.json" |
| `History.RemovableExactly` | src/cli.ts:104-107 | the intended clear removes every entry other than "config.json" and only entries of the directory |
| `PromptCommand.ParseTemp` | src/commands/prompt.ts:50-64 | absent or empty gives 0; otherwise accepted iff a finite number in [0, 1], returned unchanged; NaN and out-of-range give their messages |
| `PromptCommand.ParseTempAgreesWithParseTemperature` | src/commands/prompt.ts:50-64 | on a non-empty value the prompt command and the chat command accept the same temperatures with the same value |
| `PromptCommand.JoinWords` | src/commands/prompt.ts:17 | `input.join(' ')`: the words with one space between consecutive ones (`JoinWordsAppend`, `JoinWordsLength`) |
| `PromptCommand.ConvoLog.Push` | src/commands/prompt.ts:19-22 | `pushMessage`, assumed to append the message to the conversation log and change nothing else |
| `PromptCommand.JoinWordsAppend` | src/commands/prompt.ts:17 | the prompt puts exactly one space between consecutive words |
| `PromptCommand.JoinWordsLength` | src/commands/prompt.ts:17 | the prompt's length is the words' lengths plus one per gap |
| `PromptCommand.Prompt` | src/commands/prompt.ts:16-47 | the user message is recorded before the temperature check; the request sends only that message with model defaulting to 'gpt-4'; the accumulated reply is recorded after the stream, even when empty; a rejected request or a stream that throws records nothing more |

## Left out

- Terminal output: the panels, colours, help text and `console.log`/`stdout` writes, readline and raw mode. Outcomes name what is shown.
- The network: the OpenAI and Anthropic SDK calls are oracles (`Reply`, a chunk sequence, a sequence of completion events). src/providers/openai.ts and src/providers/index.ts are not part of this model.
- Concurrency between the keypress listener and the prompt: a keypress is a discrete event. Escape pressed while the request is still pending is covered by `Keypress` being a no-op when not streaming.
- `process.exit`, clipboard writes, `fs` calls and file bytes: exits and clipboard writes are outcomes, and files are ghost values.
- Reading `config.json` into the session: `Settings` is given as a value.
- ChatSession.Session.Start: uses the intended merge, `Merge`. As written, `chat` declares no arguments, so the command-line library passes the parsed options as the action's first parameter `_` and the command object as `options`. The command object has no `apiKey`, `model` or `temperature` property, so `--apiKey` and `--temperature` never reach the merged configuration (`MergeAsWritten`; see Findings).
- ChatSession.Merge: `--temperature` is taken as a number. The option has no parser, so an override that did reach the merge would be the unparsed string, and `parseTemperature` would never see it.
- `PromptCommand.ConvoLog`: `pushMessage` comes from src/convo, which is not part of this model. It is assumed to append the message to a log and do nothing else.
- The `config set`, `config reset` and `config view` commands are not modelled beyond the `Store` operations they call.
- Dates: conversation identifiers from `new Date().toISOString()` and the date text shown by `history view` are left out. A new conversation's file is taken not to exist yet.
- `Number()` and float arithmetic: temperatures are `real`, and `Number(x)` is an oracle returning NaN, an infinity or a finite value. `-0` is not distinguished from `0`.
- `FsStore.ArrayStore.At`: the index is an integer; the truncation `Array.prototype.at` applies to fractional indices is not modelled.
- `FsStore.Store.Keys`: keys that look like array indices, which JavaScript enumerates first, are not given that order.
- `FsStore.ArrayStore.constructor` and `FsStore.Store.constructor`: a file whose JSON does not have the store's type cannot be expressed in the typed model.
- History.GetAllMessages: the date of each listed file comes from `dateFns.format(dateFns.parseISO(name without ".json"), ...)`, and `format` throws a RangeError on an invalid date. So a schema-valid file whose name is not an ISO date, such as `notes.json`, makes the listing throw, while `Listed` lists it. The model, and `ListedFailsIff` with it, assumes every transcript name is the ISO date the chat command gives it.
- History.GetAllMessages: a ".json" entry that is a directory (reading it throws) is not modelled.
- The abort of a stream is taken to end it at once: a chunk the SDK had already buffered is not yielded after the escape key.
- The Anthropic marker values are the SDK's constants, `"\n\nHuman:"` and `"\n\nAssistant:"`.

## Behaviour worth noting

- The assistant turn is pushed even when its content is empty, including after an escape before the first chunk.
- `:copy` copies only when the last message is the assistant's and its content is non-empty.
- Opening a transcript does not validate its entries. Only `history view` validates them, and it skips corrupted files.
- The abort controller is not replaced before each request. Only the escape key replaces it, and only while streaming.
- `isStreaming` becomes true only after the request has been answered, so an escape pressed while the request is pending does nothing.
- An authentication error exits with status 0.
- A stream that throws part-way leaves the `for await` loop early. No assistant turn is pushed and `isStreaming` stays true; the error escapes the line callback. The `prompt` command likewise records no assistant message.

## Findings

| source | as written | input that shows it | evidently intended | confidence | as-written member | corrected member |
|---|---|---|---|---|---|---|
| src/cli.ts:102-107 | `history clear` lists the configuration directory and calls `unlinkSync` on every entry except "config.json". That directory holds the `history` directory that src/config.ts creates, and unlinking a directory throws, so the loop stops and no conversation file is deleted. | a directory holding "config.json" and the "history" directory | every entry other than "config.json" is removed, the history directory with its transcripts included | not executed; high | `History.ClearFailsOnBootstrappedDirectory` | `History.ClearConfigDirectory` |
| src/cli.ts:110-125 | the `chat` action is declared `(_, options)` and merges `options` over the configuration. `chat` takes no arguments, so the command-line library passes the parsed options as `_` and the command object as `options`. The `--apiKey` and `--temperature` flags never reach the merge. | no key in the configuration and `gpt chat --apiKey sk-1`: the session refuses to start for a missing key | an option given on the command line wins over the configuration | not executed; high (follows from the library's handler signature `(options, command)`, which is not in the source) | `ChatSession.ApiKeyOptionIgnored` | `ChatSession.Merge` |
