# bot-army relay pipeline in Dafny

This project models the message-relay core of a Telegram chat bot, in the two variants its
repository holds.

- **main.go, the chat relay.** It keeps a rolling context of five entries. For each incoming
  message it builds a system/user chat message pair and streams the model's answer. The
  handler then either drops the message (completion error), records a `non_query` (reply
  exactly `++++`), or records a `query`, sends the reply and pushes the incoming message into
  the context.
- **telegram/main.go, the older completion relay.** One loop over updates keeps a history
  trimmed to 100 entries before each append. It builds one prompt string and makes up to three
  completion attempts with it (at most two retries). Each failure drops the first two history entries, and running
  out of retries empties the history. Replies containing `++++`, and empty replies, are
  dropped. Any other reply is appended to the history and sent.

The collaborators are values:

- A completion call is a `Reply`: either the stream could not be created, or it is a list of
  chunks followed by end-of-stream or an error.
- What the relays do is a trace of `Effect`s: `Ask(request)` for each call to the model,
  `Record(tag, msg, resp)` for each row written to the message store, and `Send(text)` for
  each chat message.
- Go's `%q` rendering of the sender name is not modelled. A `Message` carries the name
  already quoted.

Files:

- `text.dfy`: joining, substring search, keeping the newest entries.
- `collaborators.dfy`: replies, requests, effects, the log line.
- `chat_relay.dfy`: main.go.
- `legacy_relay.dfy`: telegram/main.go.

The model follows the code, not the intended design, in these places:

- main.go records nothing when the completion fails.
- main.go pushes only the incoming message into the context, never the reply.
- In telegram/main.go the chunks streamed by a failed attempt stay in the reply.
- Shrinking a history with fewer than two entries is a panic (`Crashed`), not a no-op. The
  first update after start-up with an empty history, or after a reset, crashes on its first
  failed call (`FirstFailureOnFreshHistoryCrashes`).
- The retry does not rebuild the prompt. Every attempt sends the prompt built from the
  history as it was before any shrinking.
- main.go tests the sentinel with equality; telegram/main.go tests it with containment.

## Model

| member | source | states |
|---|---|---|
| ChatRelay.Relay.UpdateContext | main.go:78-85 | the window becomes the old window plus the entry, minus its head when that exceeds 5 entries; a window of at most 5 entries stays within 5 |
| ChatRelay.SlideBounded | main.go:81-84 | a window of at most 5 entries holds at most 5 after an update |
| ChatRelay.SlideEvictsOldest | main.go:81-84 | an update ends the window with the new entry and keeps order. It is exactly old + [c] while there is room; otherwise only the oldest entry is lost |
| ChatRelay.SlideAllKeepsNewest | main.go:78-85 | after any run of updates from a window within bounds, the window is exactly the 5 most recent entries ever added (strict FIFO eviction) |
| ChatRelay.ContextBlockAppend | main.go:32-35 | the context paragraph of a list is the paragraph of its first part followed by that of the rest, each entry followed by a blank line |
| ChatRelay.ChatRequestOfWindow | main.go:37-51 | for the handler's query (window + [logMsg]), the system content is the static context, "\nmensagens de contexto:", the window's entries each followed by a blank line, and a space; the user content is logMsg |
| ChatRelay.BuildMessages | main.go:32-51 | the loop builds exactly that system/user pair for any non-empty query |
| ChatRelay.Receive | main.go:59-75 | end-of-stream after chunks c1..cn returns c1+…+cn and no error; a stream-creation error or any receive error returns "" with an error, never partial text |
| ChatRelay.GetOpenAI | main.go:28-76 | the request sent is the system/user pair of the query, and the result is that of draining the stream |
| ChatRelay.HandleAsksFirst | main.go:91-94 | each handler run calls the model exactly once, first, with the current window plus the new message, and no other call follows |
| ChatRelay.HandleOnError | main.go:94-98 | on a completion error nothing is recorded, nothing is sent, and the window is unchanged |
| ChatRelay.HandleOnSentinel | main.go:102-109 | a reply equal to "++++" gives exactly one record, tag non_query with an empty response; nothing is sent and the window is unchanged |
| ChatRelay.HandleOnAnswer | main.go:111-125 | any other reply, "" included, gives exactly one query record with that response, then a send of it, then the incoming message (not the reply) pushed into the window |
| ChatRelay.HandleKeepsBound | main.go:87-126 | no handler run takes the window beyond 5 entries |
| ChatRelay.Relay.Handler | main.go:87-126 | the handler leaves the window and appends the effects that the handler specification gives for the old window, the log line and the reply |
| Text.ContainsAt | telegram/main.go:145 | an occurrence at any position is found by the containment test |
| Text.ContainsFound | telegram/main.go:145 | the containment test finds only real occurrences |
| LegacyRelay.Trim | telegram/main.go:80-82 | the trim loop leaves the newest 100 entries (all of them when there are fewer) |
| LegacyRelay.TrimThenAppend | telegram/main.go:80-83 | after the trim at most 100 entries remain, forming a suffix of the old history; after the append at most 101, ending with logMsg |
| LegacyRelay.JoinHistory | telegram/main.go:100-103 | the loop joins the history entries in order with no separator |
| LegacyRelay.PromptHoldsHistory | telegram/main.go:100-118 | every history entry appears whole, in order, inside preContext + joined history + "\n---\n" + posContext + logMsg |
| LegacyRelay.RetryCalls | telegram/main.go:122-143 | the goto loop makes at least one call and at most as many as its retry budget (3) |
| LegacyRelay.RetryAttempts | telegram/main.go:122-143 | between 1 and 3 calls; all but the last failed; answered iff the last call succeeded |
| LegacyRelay.RetryAnswerHistory | telegram/main.go:133-137 | when the loop answers, each earlier failure removed exactly the first two history entries, and nothing else |
| LegacyRelay.RetryStopHistory | telegram/main.go:133-141 | a panic means a failure found fewer than two entries after two were dropped per earlier failure; giving up means 3 failures on a history of at least six entries and leaves it empty |
| LegacyRelay.RetryGivesUp | telegram/main.go:133-141 | the loop gives up iff all 3 calls fail and the history holds at least six entries |
| LegacyRelay.RetryShrinks | telegram/main.go:136-140 | the retries never add to the history |
| LegacyRelay.Collect | telegram/main.go:130-132 | the streaming callback appends every chunk of a call to the response, in order |
| LegacyRelay.RetryResponse | telegram/main.go:122-132 | the accumulated response is the in-order join of every chunk of every call made, failed calls included |
| LegacyRelay.RetryLoop | telegram/main.go:122-143 | the goto loop computes the retry specification and makes that many calls, all with the same prompt |
| LegacyRelay.FinishAsks | telegram/main.go:122-157 | after the retries the effects are exactly the calls made, optionally followed by one more effect |
| LegacyRelay.FinishFilter | telegram/main.go:145-157 | after the retries, a reply is sent iff it was answered, does not contain "++++" and is not empty; then it is the last history entry and the last effect; otherwise nothing is sent |
| LegacyRelay.ProcessUpdate | telegram/main.go:73-157 | one pass of the update loop computes the update specification: skip a non-message, trim, append, join, read the context files, retry, filter, append and send |
| LegacyRelay.OnUpdateAsksSamePrompt | telegram/main.go:118-128 | the prompt is built once; all 1 to 3 calls of an update send that same prompt, and at most one effect follows them |
| LegacyRelay.OnUpdateExhausted | telegram/main.go:133-141 | retries run out iff three calls fail while the history holds at least six entries; the history is then empty, nothing is sent, and exactly three calls were made |
| LegacyRelay.FirstFailureOnFreshHistoryCrashes | telegram/main.go:136 | with an empty history, a failed first call panics on `magacc[2:]` |
| LegacyRelay.OnUpdateFilter | telegram/main.go:145-157 | the filtered reply is the join of all chunks of all calls; it is sent and appended after the retries' history iff it is answered, lacks "++++" and is non-empty |
| LegacyRelay.PartialChunksLeakIntoReply | telegram/main.go:130-132 | a call that streams "Hel" and then breaks, followed by one that streams "lo", sends "Hello" |
| LegacyRelay.OnUpdateBounded | telegram/main.go:80-155 | one pass leaves at most 102 history entries, or leaves the history untouched |
| LegacyRelay.RunKeepsHistoryBounded | telegram/main.go:72-158 | a history starting within 102 entries stays within 102 over any run of updates |
| LegacyRelay.Serve | telegram/main.go:72-158 | the update loop computes the run specification, stopping at the first panic |

## Left out

- The message store (database/database.go) is not part of this model. A record is the
  effect `Record(tag, msg, resp)`. In the source, `AddMessage` takes four arguments but
  main.go calls it with three. The `Message` struct also has no response field although the
  table has one.
- Record and send failures in main.go only produce log lines. The model has no path on
  which they change anything, so they are not represented.
- The OpenAI and gpt3 clients, the Telegram clients and the update channel are replaced by
  `Reply` values and the effect trace. In the telegram loop an attempt beyond the supplied
  list of replies counts as a call that could not be created.
- Request fields other than the prompt text are not modelled: model name, engine,
  `MaxTokens`, the float `Temperature`, `Stream`, the chat ID, the reply-to ID, the parse
  mode and the web-preview flag.
- File and environment I/O is not modelled: reading ctx.txt at start-up (its contents are
  the `systemContext` parameter), restoring and writing ctx.json, and the checks of
  `OPENAI_API_KEY` and `TELEGRAM_BOT_TOKEN`. The per-update reads of pre_ctx.txt and
  pos_ctx.txt are parameters, with `None` for a failed read.
- Log output and `fmt.Printf` are not modelled.
- Two panics of the source are not modelled. main.go reads `update.Message.From` without a
  nil check, so a non-message update reaching its default handler dereferences nil; the
  handler here takes a `Message` and cannot express that case (telegram/main.go guards
  it, and that guard is modelled as `NoMessage`). Both relays also index `Choices[0]` of
  every streamed chunk, which panics on a chunk without choices; a chunk here is its text.
- Concurrency is not modelled: the mutex in `updateContext`, the unlocked read of
  `contextQuery` in `handler`, and Go slice aliasing between `q` and `contextQuery`. The
  model runs one handler invocation at a time on values.
- Signal handling and `context.Context` cancellation are not modelled.
- Go's `%q` escaping is not modelled: the quoted sender name is an input.
