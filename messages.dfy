/** The texts the bot sends: the image acknowledgement and URL, the chat
    reply or its apology, the pong, and the formatted verse or its apology.
    The chat model and the verse service are outside the model; what they
    return is given as a value. */
module Messages {
  import opened Text

  /** What an external call came back with: a value, or an exception that
      the handler catches. */
  datatype Outcome<T> = Ok(value: T) | Err

  /** A verse record as the scripture service returns it. */
  datatype Verse = Verse(reference: string, text: string)

  /** The three ways the verse lookup can end: a record; a failure of the
      request itself (connection, HTTP status, undecodable body), which the
      handler catches; or a body without the expected fields, whose exception
      the handler does not catch. */
  datatype VerseFetch = Fetched(verse: Verse) | RequestFailed | Malformed

  const ImagePreamble := "A high-quality, inspiring, respectful, cinematic image of: "
  const ImageService := "https://image.pollinations.ai/prompt/"
  const ChatApology := "I'm sorry, I'm having a little trouble connecting to my thoughts right now. Please try again in a moment."
  const Pong := "Pong!"
  const VerseApology := "Sorry, I couldn't fetch a verse right now. Please try again later."

  /** The acknowledgement sent before the image link. */
  function GeneratingNotice(prompt: string): string {
    "Generating an image for: \"" + prompt + "\"..."
  }

  /** The prompt handed to the image service: the user's text behind a fixed
      stylistic preamble. */
  function FullPrompt(prompt: string): string {
    ImagePreamble + prompt
  }

  /** The image link: the service address followed by the full prompt, with
      no escaping of any kind. */
  function ImageUrl(prompt: string): string {
    ImageService + FullPrompt(prompt)
  }

  /** The link is the fixed address and preamble followed by the user's
      prompt verbatim, so the prompt can be read back from it. */
  lemma ImageUrlCarriesPrompt(prompt: string)
    ensures StartsWith(ImageUrl(prompt), ImageService + ImagePreamble)
    ensures ImageUrl(prompt)[|ImageService + ImagePreamble|..] == prompt
  {
    var head := ImageService + ImagePreamble;
    assert ImageUrl(prompt) == head + prompt;
    assert (head + prompt)[..|head|] == head;
  }

  /** Different prompts give different links. */
  lemma ImageUrlInjective(p: string, q: string)
    requires ImageUrl(p) == ImageUrl(q)
    ensures p == q
  {
    ImageUrlCarriesPrompt(p);
    ImageUrlCarriesPrompt(q);
  }

  /** The acknowledgement quotes the prompt verbatim between the fixed
      opening and the closing. */
  lemma GeneratingNoticeQuotesPrompt(prompt: string)
    ensures StartsWith(GeneratingNotice(prompt), "Generating an image for: \"")
    ensures GeneratingNotice(prompt)[|GeneratingNotice(prompt)| - |"\"..."|..] == "\"..."
    ensures GeneratingNotice(prompt)[|"Generating an image for: \""|..|GeneratingNotice(prompt)| - |"\"..."|] == prompt
  {
    var pre := "Generating an image for: \"";
    var post := "\"...";
    assert GeneratingNotice(prompt) == pre + prompt + post;
    assert (pre + prompt + post)[..|pre|] == pre;
    assert (pre + prompt + post)[|pre + prompt|..] == post;
  }

  /** The chat helper: the model's reply text when the call succeeds, the
      fixed apology when it raises. */
  function ChatReply(backend: Outcome<string>): string {
    match backend
    case Ok(text) => text
    case Err => ChatApology
  }

  /** The quoted part of a verse: the text with every newline turned into a
      space, then stripped. */
  function VerseQuote(text: string): string {
    Strip(ReplaceChar(text, '\n', ' '))
  }

  /** The verse message: the reference in bold, a newline, and the quote as a
      block quote. */
  function FormatVerse(v: Verse): string {
    Bold(v.reference) + "\n" + BlockQuote(VerseQuote(v.text))
  }

  /** Markdown bold. */
  function Bold(s: string): string {
    "**" + s + "**"
  }

  /** A Markdown block-quote line. */
  function BlockQuote(s: string): string {
    "> " + s
  }

  /** What the verse command sends for each way the lookup can end. */
  function VerseReplies(fetch: VerseFetch): seq<string> {
    match fetch
    case Fetched(v) => [FormatVerse(v)]
    case RequestFailed => [VerseApology]
    case Malformed => []
  }

  /** The quote is one line with no whitespace at either end, made only of
      characters of the text or the spaces that replaced its newlines, and
      normalising it again changes nothing. */
  lemma VerseQuoteIsOneTrimmedLine(text: string)
    ensures '\n' !in VerseQuote(text)
    ensures var q := VerseQuote(text); q != [] ==> !IsSpace(q[0]) && !IsSpace(q[|q| - 1])
    ensures forall c :: c in VerseQuote(text) ==> c in text || c == ' '
    ensures VerseQuote(VerseQuote(text)) == VerseQuote(text)
  {
    var flat := ReplaceChar(text, '\n', ' ');
    var _, _ := StripIsTrimmedSlice(flat);
    VerseQuoteCharacters(text);
    ReplaceCharAbsent(VerseQuote(text), '\n', ' ');
    StripIdempotent(flat);
  }

  /** Every character of the quote is a character of the text other than a
      newline, or a space. */
  lemma VerseQuoteCharacters(text: string)
    ensures forall c :: c in VerseQuote(text) ==> (c in text || c == ' ') && c != '\n'
  {
    var flat := ReplaceChar(text, '\n', ' ');
    ReplaceCharRemoves(text, '\n', ' ');
    forall c | c in VerseQuote(text) ensures (c in text || c == ' ') && c != '\n' {
      StripKeepsCharacters(flat, c);
      var k :| 0 <= k < |flat| && flat[k] == c;
      assert text[k] in text;
    }
  }

  /** When the reference has no newline the verse message is exactly two
      lines: the bold reference, and `> ` followed by the one-line quote. */
  lemma FormatVerseIsTwoLines(v: Verse)
    requires '\n' !in v.reference
    ensures Lines(FormatVerse(v)) == ["**" + v.reference + "**", "> " + VerseQuote(v.text)]
  {
    VerseQuoteIsOneTrimmedLine(v.text);
    BoldOverQuote(v.reference, VerseQuote(v.text));
  }

  /** A one-line bold line over a one-line block quote is two lines. */
  lemma BoldOverQuote(r: string, q: string)
    requires '\n' !in r && '\n' !in q
    ensures Lines(Bold(r) + "\n" + BlockQuote(q)) == [Bold(r), BlockQuote(q)]
  {
    BoldIsOneLine(r);
    BlockQuoteIsOneLine(q);
    LinesOfJoin(Bold(r), BlockQuote(q));
    LinesOfOneLine(BlockQuote(q));
  }

  /** Bold text has a newline only if the text has one. */
  lemma BoldIsOneLine(s: string)
    requires '\n' !in s
    ensures '\n' !in Bold(s)
  {
    NewlineFreeJoin(s, "**");
    NewlineFreeJoin("**", s + "**");
    assert Bold(s) == "**" + (s + "**");
  }

  /** A block-quote line has a newline only if the quoted text has one. */
  lemma BlockQuoteIsOneLine(s: string)
    requires '\n' !in s
    ensures '\n' !in BlockQuote(s)
  {
    NewlineFreeJoin("> ", s);
  }

  /** The worked example: a two-line verse text comes out on one line. */
  lemma FormatVerseExample(reference: string, text: string, expected: string)
    requires reference == "John 3:16" && text == "For God so loved...\nthe world..."
    requires expected == "**John 3:16**\n> For God so loved... the world..."
    ensures FormatVerse(Verse(reference, text)) == expected
  {
    var oneLine := "For God so loved... the world...";
    ExampleQuote(text, oneLine);
    ExampleLayout(reference, oneLine, expected);
  }

  /** The layout of the worked example around its quote. The example's
      strings come in through `requires` and the equation is cut at the
      quote marker because, stated at once on the literals, the verifier
      unfolds every string function on them and runs out of resources. */
  lemma ExampleLayout(reference: string, quote: string, expected: string)
    requires reference == "John 3:16" && quote == "For God so loved... the world..."
    requires expected == "**John 3:16**\n> For God so loved... the world..."
    ensures Bold(reference) + "\n" + BlockQuote(quote) == expected
  {
    var head := Bold(reference) + "\n" + "> ";
    ExampleHead(reference, head);
    ExampleSplit(head, quote, expected);
    assert Bold(reference) + "\n" + BlockQuote(quote) == head + quote;
  }

  /** The worked example's first line and the quote marker. */
  lemma ExampleHead(reference: string, head: string)
    requires reference == "John 3:16" && head == Bold(reference) + "\n" + "> "
    ensures head == "**John 3:16**\n> "
  {
  }

  /** The worked example's expected message, cut after the quote marker. */
  lemma ExampleSplit(head: string, quote: string, expected: string)
    requires head == "**John 3:16**\n> " && quote == "For God so loved... the world..."
    requires expected == "**John 3:16**\n> For God so loved... the world..."
    ensures expected == head + quote
  {
    assert expected[..|head|] == head && expected[|head|..] == quote;
    assert expected == expected[..|head|] + expected[|head|..];
  }

  /** The quote of the worked example's text. */
  lemma ExampleQuote(text: string, oneLine: string)
    requires text == "For God so loved...\nthe world..."
    requires oneLine == "For God so loved... the world..."
    ensures VerseQuote(text) == oneLine
  {
    var flat := ReplaceChar(text, '\n', ' ');
    assert |flat| == |oneLine|;
    forall k | 0 <= k < |oneLine| ensures flat[k] == oneLine[k] {}
    assert flat == oneLine;
    StripTrimmed(flat);
  }
}
