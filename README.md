# Christian-bot message handler, in Dafny

A model of the bot's single message handler, `on_message` in `bot.py`, and of the
strings it builds. A message is reduced to four facts: whether the bot wrote it, the
kind of channel (guild text channel, DM channel, or anything else), the channel name,
and the content. The handler checks these in a fixed order and stops at the first
match:

1. a message the bot wrote itself is ignored;
2. in the guild text channel `christian-ai-image-generation🎨` every message is an
   image prompt — the bot sends `Generating an image for: "<content>"...` and then the
   image link `https://image.pollinations.ai/prompt/A high-quality, inspiring, respectful, cinematic image of: <content>`;
3. in the guild text channel `chat-with-christian-bot`, or in any DM, a message
   starting with `!` is dropped and any other is put to the chat model, whose reply
   (or a fixed apology when the call raises) is sent back;
4. anywhere else `!ping...` gets `Pong!`, and `!dailyverse...` fetches a random verse
   and sends `**<reference>**\n> <text>`, with the text's newlines turned into spaces and
   the result stripped, or a fixed apology when the request fails;
5. everything else gets nothing.

The files:

- `text.dfy` (module `Text`): the Python string operations used — `startswith`,
  one-character `replace`, `strip` with Python's `str.isspace` characters, and
  `split('\n')` to talk about lines.
- `messages.dfy` (module `Messages`): the outgoing texts, with what the chat model and
  the verse service return given as values (`Outcome`, `VerseFetch`).
- `router.dfy` (module `Router`): the route a message takes (`Classify`), the messages
  it sends (`Replies`) and the calls it makes (`ChatRequests`, `VerseRequests`) as
  functions, the lemmas about them, and the class `Bot` whose method `OnMessage`
  follows the handler statement by statement, appending to an outbox `sent` and
  recording the calls it makes to the chat model and the verse service.

The chat model call and the verse HTTP request are parameters of `OnMessage`: the chat
call ends in `Ok(text)` or `Err`; the verse lookup ends in a record, in a failure of the
request itself (caught: `requests` raises a `RequestException` for connection and HTTP
status errors and, in current versions, for a body that is not JSON), or in a body
without the `reference`/`text` fields (`Malformed`: the `KeyError` is not caught, so the
handler ends without sending anything).

Details of `bot.py` that the model keeps as written:

- the self check at bot.py:42 compares the author with the bot's own user only;
  messages from other bots are handled like anyone's;
- the prompt goes into the image link unescaped and unencoded (bot.py:53-56);
- the only apology in the image branch (bot.py:60-66) covers a failing send of the
  link, which is transport behaviour and left out; nothing checks the image service;
- `!ping` and `!dailyverse` are two separate `if`s (bot.py:80-83), not a first-match
  chain; `OnMessage` keeps the two `if`s and `Router.CommandsExclusive` proves that no
  content starts with both.

## Model

| member | source | states |
|---|---|---|
| `Text.DivergentPrefixes` | bot.py:80-83 | two prefixes that differ at a shared index never both start a string (`StartsWith`, Python's `startswith`) |
| `Text.ReplaceChar` | bot.py:90 | `replace('\n', ' ')`: same length, every occurrence replaced, every other character kept in place |
| `Text.ReplaceCharRemoves` | bot.py:90 | after replacing a character by a different one, none is left |
| `Text.TrimStart` | bot.py:90 | left part of `strip()`: a suffix of the input, all dropped characters whitespace, result not starting with whitespace |
| `Text.TrimEnd` | bot.py:90 | right part of `strip()`: a prefix of the input, all dropped characters whitespace, result not ending with whitespace |
| `Text.StripIsTrimmedSlice` | bot.py:90 | `Strip`, Python's `strip()`, returns a slice of the input with only whitespace (`IsSpace`, the `str.isspace` characters) cut from each end and no whitespace at either end |
| `Text.StripKeepsCharacters` | bot.py:90 | `strip()` introduces no character |
| `Text.StripIdempotent` | bot.py:90 | stripping twice is stripping once |
| `Text.LinesOfJoin` | bot.py:91 | a newline-free line, a newline and a rest split into that line followed by the rest's lines |
| `Messages.ImageUrlCarriesPrompt` | bot.py:51-56 | the image link `ImageUrl`, built on `FullPrompt`, is the fixed service address and preamble followed by the prompt verbatim |
| `Messages.ImageUrlInjective` | bot.py:51-56 | different prompts give different image links |
| `Messages.GeneratingNoticeQuotesPrompt` | bot.py:58 | the acknowledgement `GeneratingNotice` starts with `Generating an image for: "`, ends with `"...`, and carries the prompt verbatim between the two |
| `Messages.VerseQuoteIsOneTrimmedLine` | bot.py:90 | the quoted verse text `VerseQuote` has no newline, no whitespace at either end, only characters of the text or spaces, and normalising it again changes nothing |
| `Messages.FormatVerseIsTwoLines` | bot.py:89-91 | with a newline-free reference the verse message `FormatVerse` is exactly the lines `**reference**` and `> quote` |
| `Messages.FormatVerseExample` | bot.py:89-91 | `John 3:16` with text `For God so loved...\nthe world...` gives `**John 3:16**\n> For God so loved... the world...` |
| `Router.CommandsExclusive` | bot.py:80-83 | no content starts with both `!ping` and `!dailyverse`, so at most one command runs |
| `Router.ChannelsExclusive` | bot.py:45-70 | the image channel and the chat channel or DM never overlap |
| `Router.ClassifyCharacterised` | bot.py:41-95 | each route of `Classify` is taken if and only if its own check holds after the earlier checks failed; the routes are mutually exclusive and cover every message |
| `Router.SelfAuthoredIgnored` | bot.py:42-43 | a message by the bot itself sends nothing and calls neither service, whatever its channel and content |
| `Router.ImageChannelGeneratesImage` | bot.py:49-67 | every message in the image channel, `!`-prefixed too, sends the acknowledgement then the link, and calls neither service |
| `Router.ChatCommandSwallowed` | bot.py:70-72 | a `!`-prefixed message in the chat channel or a DM sends nothing and never reaches the chat model |
| `Router.ChatRepliesOnce` | bot.py:70-77 | any other message there is put to the chat model once (`ChatRequests`) and gets exactly one reply (`Replies`, through `ChatReply`): the model's text, or the apology on failure |
| `Router.PingPongs` | bot.py:80-81 | outside the image and chat routes `!ping...` sends exactly `Pong!` |
| `Router.DailyVerseReplies` | bot.py:83-95 | outside the image and chat routes `!dailyverse...` looks up one verse (`VerseRequests`) and sends (`VerseReplies`) the formatted verse, or the apology on a request failure, or nothing on an uncaught parse error |
| `Router.UnmatchedSilent` | bot.py:79-95 | outside the image and chat routes, content matching neither command sends nothing and calls nothing |
| `Router.ReplyCount` | bot.py:49-95 | at most two messages per event, two exactly on the image route, exactly one on the chat route |
| `Router.OneServicePerMessage` | bot.py:70-95 | the chat model and the verse service are never both called; the chat model never sees `!`-prefixed text |
| `Router.Bot.GetChatResponse` | bot.py:18-32 | records the text put to the chat model and returns the reply text on success, the apology on failure |
| `Router.Bot.Send` | bot.py:58-95 | a send appends exactly its text to the outbox and changes nothing else |
| `Router.Bot.OnMessage` | bot.py:41-95 | appends exactly `Replies(m, ...)` to the outbox, and records exactly the calls `ChatRequests(m)` and `VerseRequests(m)` the route makes |

## Left out

- The Discord client, intents, gateway connection, `on_ready` and the `typing()`
  indicators: platform plumbing. A send is an append to `Bot.sent`; a refused send is
  not modelled.
- The try/except around sending the image link (bot.py:60-66): it only fires when the
  platform's send raises, which is transport behaviour.
- The chat model itself, its persona history and the printed error cause (bot.py:31):
  a foreign library and a log line; the call is an `Outcome` value.
- The printed verse error (bot.py:94) and image error (bot.py:65): log lines.
- Router.ChatRepliesOnce, Router.DailyVerseReplies, Router.Bot.OnMessage: the chat call
  (bot.py:27) and the verse request (bot.py:86, no timeout) block the handler; one that
  never returns sends nothing. The model's `Outcome` and `VerseFetch` stand for calls
  that finished, so the replies are promised only for those.
- The HTTP request to the verse service and JSON decoding: network I/O; the lookup is a
  `VerseFetch` value. A `data['text']` that is not a string (an `AttributeError`) is
  folded into `Malformed`.
- `keep_alive` and the `DISCORD_TOKEN` check at start-up: process bootstrapping and
  environment access.
- Concurrency between handler runs: each run touches only its own message; the model
  handles one message at a time.
- `Text.Lines` splits on `'\n'` only, as `str.split('\n')` does; other line breaks are
  not treated as line ends.
