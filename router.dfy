/** The message handler: which route an incoming message takes, what it
    sends back, and which external services it calls. */
module Router {
  import opened Text
  import opened Messages

  /** How the platform's channel object is classified: a guild text channel,
      a direct-message channel, or anything else (threads, voice text, group
      DMs), which is neither. */
  datatype ChannelKind = TextChannel | DMChannel | OtherChannel

  /** The parts of an incoming message the handler looks at. */
  datatype Message = Message(authorIsSelf: bool, channelKind: ChannelKind, channelName: string, content: string)

  const ImageChannelName := "christian-ai-image-generation\U{1F3A8}"
  const ChatChannelName := "chat-with-christian-bot"
  const CommandPrefix := "!"
  const PingCommand := "!ping"
  const DailyVerseCommand := "!dailyverse"

  /** The branch of the handler a message ends up in, first match first. */
  datatype Route =
    | Ignored          // written by the bot itself
    | ImageGeneration  // the image channel, whatever the content
    | ChatSwallowed    // a `!`-prefixed message in the chat channel or a DM
    | Chat             // any other message in the chat channel or a DM
    | Ping             // `!ping...` elsewhere
    | DailyVerse       // `!dailyverse...` elsewhere
    | NoAction         // anything else

  predicate InImageChannel(m: Message) {
    m.channelKind == TextChannel && m.channelName == ImageChannelName
  }

  predicate InChatContext(m: Message) {
    (m.channelKind == TextChannel && m.channelName == ChatChannelName) || m.channelKind == DMChannel
  }

  function Classify(m: Message): Route {
    if m.authorIsSelf then Ignored
    else if InImageChannel(m) then ImageGeneration
    else if InChatContext(m) then
      if StartsWith(m.content, CommandPrefix) then ChatSwallowed else Chat
    else if StartsWith(m.content, PingCommand) then Ping
    else if StartsWith(m.content, DailyVerseCommand) then DailyVerse
    else NoAction
  }

  /** The messages sent back, in order, given what the chat model and the
      verse service return for this message. */
  function Replies(m: Message, backend: Outcome<string>, fetch: VerseFetch): seq<string> {
    match Classify(m)
    case Ignored => []
    case ImageGeneration => [GeneratingNotice(m.content), ImageUrl(m.content)]
    case ChatSwallowed => []
    case Chat => [ChatReply(backend)]
    case Ping => [Pong]
    case DailyVerse => VerseReplies(fetch)
    case NoAction => []
  }

  /** What the message forwards to the chat model, if anything. */
  function ChatRequests(m: Message): seq<string> {
    if Classify(m) == Chat then [m.content] else []
  }

  /** How many verse lookups the message makes. */
  function VerseRequests(m: Message): nat {
    if Classify(m) == DailyVerse then 1 else 0
  }

  /** `!ping` and `!dailyverse` differ at their second character, so no
      message starts with both, and at most one command runs. */
  lemma CommandsExclusive(content: string)
    ensures !(StartsWith(content, PingCommand) && StartsWith(content, DailyVerseCommand))
  {
    DivergentPrefixes(content, PingCommand, DailyVerseCommand, 1);
  }

  /** The image channel and the chat context never overlap. */
  lemma ChannelsExclusive(m: Message)
    ensures !(InImageChannel(m) && InChatContext(m))
  {
    assert ImageChannelName[0] == 'c' && ChatChannelName[0] == 'c';
    assert ImageChannelName[5] != ChatChannelName[5];
  }

  /** Each route is taken exactly when its own condition holds; the
      conditions are the handler's checks, each after the ones before it
      failed. */
  lemma ClassifyCharacterised(m: Message)
    ensures Classify(m) == Ignored <==> m.authorIsSelf
    ensures Classify(m) == ImageGeneration <==> !m.authorIsSelf && InImageChannel(m)
    ensures Classify(m) == ChatSwallowed <==>
      !m.authorIsSelf && InChatContext(m) && StartsWith(m.content, CommandPrefix)
    ensures Classify(m) == Chat <==>
      !m.authorIsSelf && InChatContext(m) && !StartsWith(m.content, CommandPrefix)
    ensures Classify(m) == Ping <==>
      !m.authorIsSelf && !InImageChannel(m) && !InChatContext(m) && StartsWith(m.content, PingCommand)
    ensures Classify(m) == DailyVerse <==>
      !m.authorIsSelf && !InImageChannel(m) && !InChatContext(m) && StartsWith(m.content, DailyVerseCommand)
    ensures Classify(m) == NoAction <==>
      !m.authorIsSelf && !InImageChannel(m) && !InChatContext(m)
      && !StartsWith(m.content, PingCommand) && !StartsWith(m.content, DailyVerseCommand)
  {
    ChannelsExclusive(m);
    CommandsExclusive(m.content);
  }

  /** A message the bot wrote itself gets no reply and calls nothing,
      whatever its channel and content. */
  lemma SelfAuthoredIgnored(m: Message, backend: Outcome<string>, fetch: VerseFetch)
    requires m.authorIsSelf
    ensures Replies(m, backend, fetch) == []
    ensures ChatRequests(m) == [] && VerseRequests(m) == 0
  {
  }

  /** Every message in the image channel, `!`-prefixed or not, gets the
      acknowledgement quoting it and then the image link built from it, and
      calls neither the chat model nor the verse service. */
  lemma ImageChannelGeneratesImage(m: Message, backend: Outcome<string>, fetch: VerseFetch)
    requires !m.authorIsSelf && InImageChannel(m)
    ensures Replies(m, backend, fetch) == [GeneratingNotice(m.content), ImageUrl(m.content)]
    ensures ChatRequests(m) == [] && VerseRequests(m) == 0
  {
  }

  /** In the chat channel or a DM, a `!`-prefixed message (including
      `!ping` and `!dailyverse`) gets no reply and never reaches the chat
      model. */
  lemma ChatCommandSwallowed(m: Message, backend: Outcome<string>, fetch: VerseFetch)
    requires !m.authorIsSelf && InChatContext(m) && StartsWith(m.content, CommandPrefix)
    ensures Replies(m, backend, fetch) == []
    ensures ChatRequests(m) == [] && VerseRequests(m) == 0
  {
    ChannelsExclusive(m);
  }

  /** In the chat channel or a DM, any other message goes to the chat model
      once and gets exactly one reply: the model's text, or the apology when
      the call fails. */
  lemma ChatRepliesOnce(m: Message, backend: Outcome<string>, fetch: VerseFetch)
    requires !m.authorIsSelf && InChatContext(m) && !StartsWith(m.content, CommandPrefix)
    ensures ChatRequests(m) == [m.content] && VerseRequests(m) == 0
    ensures backend.Ok? ==> Replies(m, backend, fetch) == [backend.value]
    ensures backend.Err? ==> Replies(m, backend, fetch) == [ChatApology]
  {
    ChannelsExclusive(m);
  }

  /** Outside the image and chat routes, `!ping...` gets exactly `Pong!`. */
  lemma PingPongs(m: Message, backend: Outcome<string>, fetch: VerseFetch)
    requires !m.authorIsSelf && !InImageChannel(m) && !InChatContext(m)
    requires StartsWith(m.content, PingCommand)
    ensures Replies(m, backend, fetch) == [Pong]
    ensures ChatRequests(m) == [] && VerseRequests(m) == 0
  {
  }

  /** Outside the image and chat routes, `!dailyverse...` looks up one verse
      and sends the formatted verse, or the apology when the request fails,
      or nothing when the exception is one the handler does not catch. */
  lemma DailyVerseReplies(m: Message, backend: Outcome<string>, fetch: VerseFetch)
    requires !m.authorIsSelf && !InImageChannel(m) && !InChatContext(m)
    requires StartsWith(m.content, DailyVerseCommand)
    ensures VerseRequests(m) == 1 && ChatRequests(m) == []
    ensures fetch.Fetched? ==> Replies(m, backend, fetch) == [FormatVerse(fetch.verse)]
    ensures fetch.RequestFailed? ==> Replies(m, backend, fetch) == [VerseApology]
    ensures fetch.Malformed? ==> Replies(m, backend, fetch) == []
  {
    CommandsExclusive(m.content);
    assert Classify(m) == DailyVerse;
    assert Replies(m, backend, fetch) == VerseReplies(fetch);
  }

  /** Outside the image and chat routes, content matching neither command
      gets no reply and calls nothing. */
  lemma UnmatchedSilent(m: Message, backend: Outcome<string>, fetch: VerseFetch)
    requires !m.authorIsSelf && !InImageChannel(m) && !InChatContext(m)
    requires !StartsWith(m.content, PingCommand) && !StartsWith(m.content, DailyVerseCommand)
    ensures Replies(m, backend, fetch) == []
    ensures ChatRequests(m) == [] && VerseRequests(m) == 0
  {
  }

  /** A message gets at most two replies, and two only in the image channel;
      every other route sends at most one, and the chat route exactly one. */
  lemma ReplyCount(m: Message, backend: Outcome<string>, fetch: VerseFetch)
    ensures |Replies(m, backend, fetch)| <= 2
    ensures |Replies(m, backend, fetch)| == 2 <==> Classify(m) == ImageGeneration
    ensures Classify(m) == Chat ==> |Replies(m, backend, fetch)| == 1
  {
  }

  /** The chat model and the verse service are never both called; the chat
      model never sees `!`-prefixed content, and the verse service is called
      only for content starting with `!dailyverse`. */
  lemma OneServicePerMessage(m: Message)
    ensures !(ChatRequests(m) != [] && VerseRequests(m) != 0)
    ensures ChatRequests(m) != [] ==> !StartsWith(m.content, CommandPrefix)
    ensures VerseRequests(m) != 0 ==> StartsWith(m.content, DailyVerseCommand)
  {
  }

  /** The bot as seen from outside: what it has sent, in order, and what it
      has put to the chat model and the verse service. */
  class Bot {
    var sent: seq<string>
    var chatRequests: seq<string>
    var verseRequests: nat

    constructor ()
      ensures sent == [] && chatRequests == [] && verseRequests == 0
    {
      sent := [];
      chatRequests := [];
      verseRequests := 0;
    }

    /** `message.channel.send(text)` */
    method Send(text: string)
      modifies this`sent
      ensures sent == old(sent) + [text]
    {
      sent := sent + [text];
    }

    /** `get_gemini_chat_response`: puts the text to the chat model, whose
        answer is `backend`, and returns the reply text or the apology. */
    method GetChatResponse(userMessage: string, backend: Outcome<string>) returns (reply: string)
      modifies this`chatRequests
      ensures chatRequests == old(chatRequests) + [userMessage]
      ensures backend.Ok? ==> reply == backend.value
      ensures backend.Err? ==> reply == ChatApology
    {
      chatRequests := chatRequests + [userMessage];
      match backend
      case Ok(text) => reply := text;
      case Err => reply := ChatApology;
    }

    /** `on_message`, one message at a time. `backend` is what the chat model
        would answer and `fetch` how the verse lookup would end, should the
        handler make those calls. */
    method OnMessage(m: Message, backend: Outcome<string>, fetch: VerseFetch)
      modifies this
      ensures sent == old(sent) + Replies(m, backend, fetch)
      ensures chatRequests == old(chatRequests) + ChatRequests(m)
      ensures verseRequests == old(verseRequests) + VerseRequests(m)
    {
      if m.authorIsSelf {
        SelfAuthoredIgnored(m, backend, fetch);
        return;
      }
      var isServerChannel := m.channelKind == TextChannel;
      var isDmChannel := m.channelKind == DMChannel;

      if isServerChannel && m.channelName == ImageChannelName {
        ImageChannelGeneratesImage(m, backend, fetch);
        var prompt := m.content;
        var fullPrompt := FullPrompt(prompt);
        var imageUrl := ImageService + fullPrompt;
        Send(GeneratingNotice(prompt));
        Send(imageUrl);
        return;
      }

      if (isServerChannel && m.channelName == ChatChannelName) || isDmChannel {
        if StartsWith(m.content, CommandPrefix) {
          ChatCommandSwallowed(m, backend, fetch);
          return;
        }
        ChatRepliesOnce(m, backend, fetch);
        var responseText := GetChatResponse(m.content, backend);
        Send(responseText);
        return;
      }

      CommandsExclusive(m.content);
      if StartsWith(m.content, PingCommand) {
        PingPongs(m, backend, fetch);
        Send(Pong);
      }

      if StartsWith(m.content, DailyVerseCommand) {
        DailyVerseReplies(m, backend, fetch);
        verseRequests := verseRequests + 1;
        match fetch
        case Fetched(v) =>
          Send(FormatVerse(v));
        case RequestFailed =>
          Send(VerseApology);
        case Malformed =>
          // the KeyError or TypeError leaves the handler before any send
          return;
      }
    }
  }
}
