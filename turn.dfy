/**
 One chat turn: the session transcript, the history handed to the language
 model, the streamed answer, the optional product search, and the row given
 to the interaction logger. The model, the search provider and the logger's
 store are outside; their answers are inputs and the rows handed to the
 logger are recorded.
 */
module ChatTurn {
  import opened Wrappers
  import opened PyStr
  import opened ResponseParser
  import opened ProductFinder

  /** A transcript entry; the session only ever writes the roles `user` and `assistant`. */
  datatype ChatMessage = ChatMessage(role: string, content: string)

  /** A history entry in the language model's format: a role and the message parts. */
  datatype Content = Content(role: string, parts: seq<string>)

  /** A chat call: the history the chat session starts from, and the message then sent. */
  datatype ChatRequest = ChatRequest(history: seq<Content>, message: string)

  /** One row handed to the interaction logger (the two timestamps are left out). */
  datatype LogRow = LogRow(
    userId: string,
    inputType: string,
    query: string,
    analysis: string,
    severity: int,
    productName: Option<string>,
    productLink: Option<string>)

  /** What the language model delivered: the streamed text chunks in order, or a failure. */
  datatype Generation = Streamed(chunks: seq<string>) | GenerationFailed

  /** The fixed user the application serves. */
  const UserId: string := "12345678-1234-1234-1234-1234567890ab"

  /** The answer substituted when the model call fails. */
  const ErrorReply: string := "Sorry, I encountered an error."

  /** Severity logged for a turn whose answer asked for a product search. */
  const SearchSeverity: int := 5

  /** Severity logged for any other text turn. */
  const PlainSeverity: int := 3

  /** The transcript's role names. */
  predicate IsTranscriptRole(role: string) {
    role == "user" || role == "assistant"
  }

  /** Every message of the transcript has one of the transcript's roles. */
  predicate AllTranscriptRoles(messages: seq<ChatMessage>) {
    forall k :: 0 <= k < |messages| ==> IsTranscriptRole(messages[k].role)
  }

  /** Appending a user or assistant message keeps a transcript of user and assistant messages. */
  lemma RolesAppend(messages: seq<ChatMessage>, m: ChatMessage)
    requires AllTranscriptRoles(messages) && IsTranscriptRole(m.role)
    ensures AllTranscriptRoles(messages + [m])
  {
    forall k | 0 <= k < |messages + [m]|
      ensures IsTranscriptRole((messages + [m])[k].role)
    {
      if k < |messages| {
        assert (messages + [m])[k] == messages[k];
      }
    }
  }

  /** Two appends to a transcript are one append of both parts. */
  lemma AppendRegroup(a: seq<ChatMessage>, b: seq<ChatMessage>, c: seq<ChatMessage>)
    ensures a + b + c == a + (b + c)
  {
  }

  /** The model's role for a transcript role: `user` stays `user`, every other role becomes `model`. */
  function ModelRole(role: string): string {
    if role == "user" then "user" else "model"
  }

  /** The history handed to the model: one entry per message, in order, its content as the only part. */
  function ToModelHistory(messages: seq<ChatMessage>): (history: seq<Content>)
    ensures |history| == |messages|
    ensures forall k :: 0 <= k < |messages| ==>
      history[k].role == ModelRole(messages[k].role) && history[k].parts == [messages[k].content]
  {
    if messages == [] then []
    else [Content(ModelRole(messages[0].role), [messages[0].content])] + ToModelHistory(messages[1..])
  }

  /** Reads a model history back as a transcript: `user` stays `user`, anything else was the assistant. */
  function FromModelHistory(history: seq<Content>): (messages: seq<ChatMessage>)
    requires forall k :: 0 <= k < |history| ==> |history[k].parts| == 1
  {
    if history == [] then []
    else [ChatMessage(if history[0].role == "user" then "user" else "assistant", history[0].parts[0])]
         + FromModelHistory(history[1..])
  }

  /** On a transcript of user and assistant messages the history loses nothing: reading it back gives the transcript. */
  lemma {:induction false} HistoryRoundTrip(messages: seq<ChatMessage>)
    requires AllTranscriptRoles(messages)
    ensures FromModelHistory(ToModelHistory(messages)) == messages
  {
    if messages != [] {
      HistoryRoundTrip(messages[1..]);
      assert ToModelHistory(messages)[1..] == ToModelHistory(messages[1..]);
    }
  }

  /** The history is a prefix-respecting map: appending a message appends its entry. */
  lemma {:induction false} HistoryAppend(messages: seq<ChatMessage>, m: ChatMessage)
    ensures ToModelHistory(messages + [m]) == ToModelHistory(messages) + [Content(ModelRole(m.role), [m.content])]
  {
    var h := ToModelHistory(messages + [m]);
    var h' := ToModelHistory(messages) + [Content(ModelRole(m.role), [m.content])];
    assert |h| == |h'|;
    forall k | 0 <= k < |h|
      ensures h[k] == h'[k]
    {
      if k < |messages| {
        assert (messages + [m])[k] == messages[k];
      }
    }
  }

  /**
   The chat call of a text turn. The history is built after the new prompt
   has been appended to the transcript, so the prompt is both the last
   history entry and the message sent.
   */
  function ChatRequestFor(messages: seq<ChatMessage>, prompt: string): (r: ChatRequest)
    ensures |r.history| == |messages| + 1
    ensures r.history[..|messages|] == ToModelHistory(messages)
    ensures r.history[|messages|] == Content("user", [prompt]) && r.message == prompt
  {
    HistoryAppend(messages, ChatMessage("user", prompt));
    ChatRequest(ToModelHistory(messages + [ChatMessage("user", prompt)]), prompt)
  }

  /** The full answer: the streamed chunks concatenated in order. */
  function Concat(chunks: seq<string>): string {
    if chunks == [] then "" else Concat(chunks[..|chunks| - 1]) + chunks[|chunks| - 1]
  }

  /** Concatenation of the chunks splits at any point. */
  lemma {:induction false} ConcatSplit(a: seq<string>, b: seq<string>)
    ensures Concat(a + b) == Concat(a) + Concat(b)
    decreases |b|
  {
    if b == [] {
      assert a + b == a;
    } else {
      assert (a + b)[..|a + b| - 1] == a + b[..|b| - 1];
      ConcatSplit(a, b[..|b| - 1]);
    }
  }

  /** Every chunk appears in the answer, at the offset of the chunks before it. */
  lemma ConcatHoldsChunk(chunks: seq<string>, k: nat)
    requires k < |chunks|
    ensures Concat(chunks) == Concat(chunks[..k]) + chunks[k] + Concat(chunks[k + 1..])
  {
    var front := chunks[..k + 1];
    assert chunks == front + chunks[k + 1..];
    ConcatSplit(front, chunks[k + 1..]);
    assert front[..|front| - 1] == chunks[..k];
    assert Concat(front) == Concat(chunks[..k]) + chunks[k];
  }

  /** The streaming loop of a text turn: appends each chunk's text to the answer, in order. */
  method AccumulateResponse(chunks: seq<string>) returns (full: string)
    ensures full == Concat(chunks)
  {
    full := "";
    var i := 0;
    while i < |chunks|
      invariant 0 <= i <= |chunks|
      invariant full == Concat(chunks[..i])
    {
      assert chunks[..i + 1][..i] == chunks[..i];
      full := full + chunks[i];
      i := i + 1;
    }
    assert chunks[..i] == chunks;
  }

  /** The answer of a turn: the concatenated stream, or the fixed apology when the model call failed. */
  function ResponseText(g: Generation): string {
    match g
    case Streamed(chunks) => Concat(chunks)
    case GenerationFailed => ErrorReply
  }

  /** The answer of a turn as the chat script obtains it: streamed and accumulated, or the apology on failure. */
  method StreamAnswer(g: Generation) returns (full: string)
    ensures full == ResponseText(g)
  {
    match g {
      case Streamed(chunks) =>
        full := AccumulateResponse(chunks);
      case GenerationFailed =>
        full := ErrorReply;
    }
  }

  /** The transcript entry that recommends a found product. */
  function ProductMessage(url: string): ChatMessage {
    ChatMessage("assistant", "Here is a recommended product: [View on Amazon.ca](" + url + ")")
  }

  /** What one text turn does: the messages it appends to the transcript, in order, and the row it logs, if any. */
  datatype TurnEffect = TurnEffect(appended: seq<ChatMessage>, log: Option<LogRow>)

  /**
   The effect of a text turn with prompt `prompt` and answer `response`, the
   search provider answering `search` if it is asked: the prompt is appended,
   then the answer is recorded.
   */
  function TextTurn(prompt: string, response: string, search: SearchOutcome): TurnEffect {
    var rest := AnswerEffect(prompt, response, search);
    TurnEffect([ChatMessage("user", prompt)] + rest.appended, rest.log)
  }

  /**
   The recording of a complete answer: a parse that raises `IndexError` ends
   the turn with nothing appended or logged; otherwise one row is logged, a
   found product is recommended, and the answer is appended last.
   */
  function AnswerEffect(prompt: string, response: string, search: SearchOutcome): TurnEffect {
    var answer := ChatMessage("assistant", response);
    match ParseResponse(response)
    case IndexError =>
      TurnEffect([], None)
    case NoSearch =>
      TurnEffect([answer], Some(LogRow(UserId, "text", prompt, response, PlainSeverity, None, None)))
    case Search(query) =>
      match FoundLink(search)
      case Some(url) =>
        TurnEffect([ProductMessage(url), answer],
                   Some(LogRow(UserId, "text", prompt, response, SearchSeverity, Some(query), Some(url))))
      case None =>
        TurnEffect([answer], Some(LogRow(UserId, "text", prompt, response, SearchSeverity, Some(query), None)))
  }

  /** The link `search_amazon` answers for a provider outcome: none when the provider failed. */
  function FoundLink(search: SearchOutcome): Option<string> {
    if search.Results? then FirstProductLink(search.urls) else None
  }

  /** The rows a turn hands to the logger. */
  function LoggedRows(e: TurnEffect): seq<LogRow> {
    match e.log
    case Some(row) => [row]
    case None => []
  }

  /**
   The transcript side of a text turn: the prompt always comes first; when the
   parse raises `IndexError` nothing else is appended; otherwise the answer
   comes last, preceded by the product recommendation exactly when the answer
   asked for a search and a product link was found.
   */
  lemma TurnTranscript(prompt: string, response: string, search: SearchOutcome)
    ensures var e := TextTurn(prompt, response, search);
      && 1 <= |e.appended| <= 3 && e.appended[0] == ChatMessage("user", prompt)
      && (|e.appended| == 1 <==> Contains(response, Sentinel) && !HasSentinelLine(Split(response, '\n')))
      && (|e.appended| > 1 ==> e.appended[|e.appended| - 1] == ChatMessage("assistant", response))
      && (|e.appended| == 3 <==> ParseResponse(response).Search? && FoundLink(search).Some?)
      && (|e.appended| == 3 ==> e.appended[1] == ProductMessage(FoundLink(search).value))
  {
    OutcomeCases(response);
    var answer := ChatMessage("assistant", response);
    match ParseResponse(response)
    case IndexError =>
      assert AnswerEffect(prompt, response, search).appended == [];
    case NoSearch =>
      assert AnswerEffect(prompt, response, search).appended == [answer];
    case Search(query) =>
      match FoundLink(search)
      case Some(url) =>
        assert AnswerEffect(prompt, response, search).appended == [ProductMessage(url), answer];
      case None =>
        assert AnswerEffect(prompt, response, search).appended == [answer];
  }

  /**
   The log side of a text turn: exactly one row unless the parse raises
   `IndexError`; the row carries the fixed user, the input type `text`, the
   prompt and the answer; its severity is 5 exactly when the answer holds the
   sentinel and 3 otherwise; it names the cleaned query exactly when the first
   sentinel line gave one, and the product link exactly when one was found.
   */
  lemma TurnLog(prompt: string, response: string, search: SearchOutcome)
    ensures var e := TextTurn(prompt, response, search);
      && (e.log.None? <==> Contains(response, Sentinel) && !HasSentinelLine(Split(response, '\n')))
      && (e.log.Some? ==>
        && e.log.value.userId == UserId && e.log.value.inputType == "text"
        && e.log.value.query == prompt && e.log.value.analysis == response
        && (e.log.value.severity == SearchSeverity <==> Contains(response, Sentinel))
        && (e.log.value.severity == PlainSeverity <==> !Contains(response, Sentinel))
        && (e.log.value.productName.Some? <==> HasSentinelLine(Split(response, '\n')))
        && e.log.value.productName == (if ParseResponse(response).Search? then Some(ParseResponse(response).query) else None)
        && e.log.value.productLink == (if ParseResponse(response).Search? then FoundLink(search) else None))
  {
    OutcomeCases(response);
  }

  /**
   A found product link is never empty, so the recommendation is appended
   exactly when the provider answered a product-detail URL, and it is the
   first one in result order.
   */
  lemma FoundLinkIsFirstProduct(search: SearchOutcome)
    ensures FoundLink(search).Some? <==>
      search.Results? && exists k :: 0 <= k < |search.urls| && IsProductLink(search.urls[k])
    ensures FoundLink(search).Some? ==>
      FoundLink(search).value != "" && exists k :: FirstProductAt(search.urls, k) && FoundLink(search).value == search.urls[k]
  {
    if search.Results? {
      ProductLinkNonEmpty(search.urls);
    }
  }

  /**
   A whole search turn: an answer whose second line is a clean sentinel line,
   with the provider answering a product-detail URL first, appends the prompt,
   the recommendation of that URL and the answer, and logs severity 5 with the
   stripped query and the URL.
   */
  lemma SearchTurnLogged(prompt: string, pre: string, q: string, post: string, urls: seq<string>)
    requires '\n' !in pre && '\n' !in q
    requires !StartsWith(pre, Sentinel) && !Contains(q, Sentinel)
    requires |urls| > 0 && IsProductLink(urls[0])
    ensures var response := pre + "\n" + (Sentinel + q) + "\n" + post;
      TextTurn(prompt, response, Results(urls)) == TurnEffect(
        [ChatMessage("user", prompt), ProductMessage(urls[0]), ChatMessage("assistant", response)],
        Some(LogRow(UserId, "text", prompt, response, SearchSeverity, Some(Strip(q)), Some(urls[0]))))
  {
    var response := pre + "\n" + (Sentinel + q) + "\n" + post;
    SentinelSecondLine(pre, q, post);
    assert FoundLink(Results(urls)) == Some(urls[0]);
    SearchAnswerRecorded(prompt, response, Results(urls), Strip(q), urls[0]);
  }

  /** An answer that asked for a search, with a link found, is recorded as the recommendation, then the answer, with a severity-5 row naming both. */
  lemma SearchAnswerRecorded(prompt: string, response: string, search: SearchOutcome, query: string, url: string)
    requires ParseResponse(response) == Search(query) && FoundLink(search) == Some(url)
    ensures AnswerEffect(prompt, response, search) == TurnEffect(
      [ProductMessage(url), ChatMessage("assistant", response)],
      Some(LogRow(UserId, "text", prompt, response, SearchSeverity, Some(query), Some(url))))
  {
  }

  /** The transcript entries of an analysed image: the file name as the user's turn, then the analysis. */
  function ImageMessages(fileName: string, analysis: string): seq<ChatMessage> {
    [ChatMessage("user", " (Image: " + fileName + ")"), ChatMessage("assistant", analysis)]
  }

  /**
   The history the next text turn sends after an analysed image: the file
   name as a `user` entry, then the analysis as a `model` entry.
   */
  lemma ImageTurnHistory(messages: seq<ChatMessage>, fileName: string, analysis: string)
    ensures ToModelHistory(messages + ImageMessages(fileName, analysis)) ==
      ToModelHistory(messages) + [Content("user", [" (Image: " + fileName + ")"]), Content("model", [analysis])]
  {
    var m := ImageMessages(fileName, analysis);
    assert messages + m == messages + [m[0]] + [m[1]];
    HistoryAppend(messages, m[0]);
    HistoryAppend(messages + [m[0]], m[1]);
  }

  /** A chat session: the transcript kept for the session and the rows handed to the interaction logger. */
  class ChatSession {
    var messages: seq<ChatMessage>
    var logged: seq<LogRow>

    /** Every transcript entry is a user or an assistant message. */
    ghost predicate Valid()
      reads this
    {
      AllTranscriptRoles(messages)
    }

    /** A new session: empty transcript, nothing logged. */
    constructor ()
      ensures Valid() && messages == [] && logged == []
    {
      messages := [];
      logged := [];
    }

    /**
     A text turn, step by step as the chat script runs it: append the prompt,
     call the model with the history (the prompt included), stream the answer,
     then record it. `completed` is false when the parse raised `IndexError`,
     which ends the turn after the prompt was appended.
     */
    method SubmitText(prompt: string, generation: Generation, search: SearchOutcome)
      returns (request: ChatRequest, searchRequest: Option<SearchRequest>, completed: bool)
      requires Valid()
      modifies this
      ensures Valid()
      ensures request == ChatRequestFor(old(messages), prompt)
      ensures messages == old(messages) + TextTurn(prompt, ResponseText(generation), search).appended
      ensures logged == old(logged) + LoggedRows(TextTurn(prompt, ResponseText(generation), search))
      ensures completed <==> !ParseResponse(ResponseText(generation)).IndexError?
      ensures searchRequest.Some? <==> ParseResponse(ResponseText(generation)).Search?
      ensures searchRequest.Some? ==> searchRequest.value == ProductFinder.RequestFor(ParseResponse(ResponseText(generation)).query)
    {
      ghost var before := messages;
      request := AppendPrompt(prompt);
      var full := StreamAnswer(generation);
      searchRequest, completed := RecordAnswer(prompt, full, search);
      ghost var rest := AnswerEffect(prompt, full, search).appended;
      assert TextTurn(prompt, full, search).appended == [ChatMessage("user", prompt)] + rest;
      AppendRegroup(before, [ChatMessage("user", prompt)], rest);
    }

    /**
     The start of a text turn: the prompt is appended as the user's message,
     and the chat call is made with the history of the transcript so far,
     the prompt included.
     */
    method AppendPrompt(prompt: string) returns (request: ChatRequest)
      requires Valid()
      modifies this
      ensures Valid()
      ensures messages == old(messages) + [ChatMessage("user", prompt)] && logged == old(logged)
      ensures request == ChatRequestFor(old(messages), prompt)
      ensures request.history == ToModelHistory(messages) && FromModelHistory(request.history) == messages
    {
      var user := ChatMessage("user", prompt);
      RolesAppend(messages, user);
      messages := messages + [user];
      request := ChatRequest(ToModelHistory(messages), prompt);
      HistoryRoundTrip(messages);
    }

    /**
     The rest of a text turn once the answer is complete: parse it; on a
     sentinel line search for the query, recommend a found product and log
     with severity 5; without the sentinel log with severity 3; then append
     the answer. A parse that raises `IndexError` changes nothing. The
     prompt itself was appended before and is not repeated here.
     */
    method RecordAnswer(prompt: string, response: string, search: SearchOutcome)
      returns (searchRequest: Option<SearchRequest>, completed: bool)
      requires Valid()
      modifies this
      ensures Valid()
      ensures messages == old(messages) + AnswerEffect(prompt, response, search).appended
      ensures logged == old(logged) + LoggedRows(AnswerEffect(prompt, response, search))
      ensures completed <==> !ParseResponse(response).IndexError?
      ensures searchRequest.Some? <==> ParseResponse(response).Search?
      ensures searchRequest.Some? ==> searchRequest.value == ProductFinder.RequestFor(ParseResponse(response).query)
    {
      var answer := ChatMessage("assistant", response);
      searchRequest := None;
      var parsed := ParseResponse(response);
      if parsed.IndexError? {
        assert AnswerEffect(prompt, response, search) == TurnEffect([], None);
        completed := false;
        return;
      }
      completed := true;
      if parsed.Search? {
        var sent, link := SearchAmazon(parsed.query, search);
        searchRequest := Some(sent);
        if link.Some? {
          var row := LogRow(UserId, "text", prompt, response, SearchSeverity, Some(parsed.query), Some(link.value));
          assert AnswerEffect(prompt, response, search) == TurnEffect([ProductMessage(link.value), answer], Some(row));
          RolesAppend(messages, ProductMessage(link.value));
          messages := messages + [ProductMessage(link.value)];
          logged := logged + [row];
        } else {
          var row := LogRow(UserId, "text", prompt, response, SearchSeverity, Some(parsed.query), None);
          assert AnswerEffect(prompt, response, search) == TurnEffect([answer], Some(row));
          logged := logged + [row];
        }
      } else {
        var row := LogRow(UserId, "text", prompt, response, PlainSeverity, None, None);
        assert AnswerEffect(prompt, response, search) == TurnEffect([answer], Some(row));
        logged := logged + [row];
      }
      RolesAppend(messages, answer);
      messages := messages + [answer];
    }

    /**
     The transcript bookkeeping of an image analysis: on success the file
     name and the analysis are appended, in that order; on failure nothing
     changes. No row is logged for an image.
     */
    method SubmitImage(fileName: string, analysis: Option<string>)
      requires Valid()
      modifies this
      ensures Valid()
      ensures messages == old(messages) + match analysis
                                          case Some(text) => ImageMessages(fileName, text)
                                          case None => []
      ensures logged == old(logged)
    {
      if analysis.Some? {
        RolesAppend(messages, ChatMessage("user", " (Image: " + fileName + ")"));
        messages := messages + [ChatMessage("user", " (Image: " + fileName + ")")];
        RolesAppend(messages, ChatMessage("assistant", analysis.value));
        messages := messages + [ChatMessage("assistant", analysis.value)];
      }
    }
  }
}
