# Derma-AI chat turn, modelled in Dafny

This models the logic of the Derma-AI assistant (`app.py`) that is its own.
The assistant is a chat application for one fixed user. It renders the user's
skin profile and routine audit into a system prompt, and streams an answer
from a hosted language model. When a line of the answer starts with the
sentinel `SEARCH:`, it looks up a product on Amazon Canada through a web
search. Each text turn is handed to an interaction logger, and the session
keeps a transcript of the conversation.

Modules:

- `Wrappers` (`wrappers.dfy`): the `Option` datatype that stands for Python's `None`-or-value.
- `PyStr` (`pystr.dfy`): the Python `str` operations the logic relies on, each with an independent characterisation:
  - `in`, `startswith`, `split` on one character, `join`;
  - `replace(pat, "")`;
  - the argument-less `strip()` over Python's white-space set.
- `PromptBuilder` (`prompt.dfy`): `construct_system_prompt`. The template text is kept verbatim. The f-string's newline-and-indent framing is made explicit, so that `strip()` can be shown to remove exactly that framing.
- `ResponseParser` (`parser.dfy`): the sentinel test, the choice of the first sentinel line, and the query cleaning. The outcome is `NoSearch`, `Search(query)`, or the `IndexError` the code raises when the sentinel occurs only inside a line.
- `ProductFinder` (`finder.dfy`): `search_amazon`. It holds the request sent to the search provider and the loop that picks the first product-detail URL. The provider's answer is an input.
- `ChatTurn` (`turn.dfy`): one text turn and one image analysis, in three parts:
  - `TextTurn`, a pure function that states a text turn's effect: the prompt, then `AnswerEffect`, the recording of the complete answer;
  - the class `ChatSession`, whose `messages` and `logged` fields the methods update step by step;
  - lemmas that relate the two.

The language model, the search provider and the logger's store are not called. What they answer is a parameter:

- a `Generation`: the streamed chunks, or a failure;
- a `SearchOutcome`: the result URLs, or a failure.

The rows the turn hands to `log_interaction` are recorded in `logged`.

Points of the code's behaviour that the model keeps as written:

- Image analyses are never logged: `log_interaction` takes an `input_type`, but only the text turn calls it (app.py:206-210); the image path never does (app.py:223-232).
- An answer that holds `SEARCH:` only inside a line raises `IndexError`. The turn stops after the prompt was appended: nothing is logged and the answer is not appended.
- The system prompt is built for a text turn but never sent. The model receives the history and the prompt, not the system prompt.
- The history is built after the prompt was appended, so the prompt is both the last history entry and the message sent (`ChatRequestFor`).

## Model

| member | source | states |
|---|---|---|
| PromptBuilder.SystemPrompt | app.py:94-96 | without a profile (`None` or an empty row) the prompt is the fixed fallback sentence |
| PromptBuilder.PromptLayout | app.py:101-129 | with a profile, `strip()` removes only the layout's framing: the prompt is the template with every value and the audit section in place exactly as given, and it is never the fallback |
| PromptBuilder.AuditSection | app.py:99 | the audit section is empty exactly when there are no audit records |
| PromptBuilder.AuditSectionLines | app.py:99 | for single-line records, splitting the audit section at newlines gives one bullet `- name (status): notes` per record, in input order |
| PromptBuilder.PromptShowsAuditEntry | app.py:99-120 | with a profile, every audit record's bullet line occurs in the prompt |
| PromptBuilder.AuditSectionShowsEntry | app.py:99 | every audit record's bullet line occurs in the audit section |
| PromptBuilder.Bullets | app.py:99 | one bullet per audit record, in order, each rendered as `- name (status): notes` |
| PromptBuilder.Bullet | app.py:99 | its contract is `Bullets` (one `- name (status): notes` line per record) and `AuditSectionShowsEntry` (each line occurs in the audit section) |
| PromptBuilder.IsTruthy | app.py:95 | its contract is `SystemPrompt` (falsy: the fallback sentence) and `PromptLayout` (truthy: the filled template, never the fallback) |
| PromptBuilder.TemplateEnds | app.py:102-127 | the template text begins with `You` and ends with the final full stop, so it has no white space for `strip()` to take, and it is longer than the fallback |
| ResponseParser.SentinelLines | app.py:199 | every kept line starts with `SEARCH:`; the list is empty exactly when no line does; its first element is the first such line |
| ResponseParser.SentinelLinesMembers | app.py:199 | a line is kept exactly when it is one of the answer's lines and starts with `SEARCH:` |
| ResponseParser.SentinelLinesAppend | app.py:199 | the filter keeps line order: filtering two runs of lines gives the first run's kept lines, then the second's |
| ResponseParser.ParseResponse | app.py:198-200 | its contract is `OutcomeCases` (the three outcomes, each in both directions) and `FirstSentinelLineWins` (the query comes from the first sentinel line) |
| ResponseParser.CleanQuery | app.py:200 | the query is no longer than the line and has no white space at either end; `CleanSingleSentinel` and `CleanRepeatedSentinel` state what is removed |
| ResponseParser.OutcomeCases | app.py:198-200 | no search exactly when `SEARCH:` occurs nowhere; `IndexError` exactly when it occurs but no line starts with it; otherwise the query comes from the first line that starts with it |
| ResponseParser.FirstSentinelLineWins | app.py:199-200 | for an answer made of lines, the query is the cleaned first sentinel line, whatever later lines hold |
| ResponseParser.CleanSingleSentinel | app.py:200 | a line made of the sentinel and text without it gives that text stripped |
| ResponseParser.CleanRepeatedSentinel | app.py:200 | every occurrence of `SEARCH:` in the chosen line is removed, not only the leading one |
| ResponseParser.SentinelSecondLine | app.py:198-200 | a clean sentinel line after a first line gives its stripped query, whatever follows |
| ResponseParser.ExampleMidLineSentinel | app.py:198-199 | `Try this: SEARCH: toner` holds the sentinel mid-line only and raises `IndexError` |
| ProductFinder.RequestFor | app.py:133-135 | the provider is asked for the query followed by ` site:amazon.ca`, with 3 results in English; the query can be read back from the request |
| ProductFinder.FirstProductLink | app.py:136-141 | a link is found exactly when some URL contains both `amazon.ca` and `/dp/`, and it is the first such URL in result order |
| ProductFinder.FindProductLink | app.py:136-141 | the loop with its early return answers the first product link, or none |
| ProductFinder.SearchAmazon | app.py:131-144 | the request sent, and the first product link, or none when the provider failed |
| ProductFinder.ProductLinkNonEmpty | app.py:202 | a chosen link is never the empty string, so the caller's truthiness test holds exactly when a link was found |
| ProductFinder.ExampleFirstResultChosen | app.py:136-139 | a product-detail URL ahead of an off-site URL is chosen |
| ProductFinder.ExampleSearchPageRejected | app.py:137 | a retailer search-results URL without `/dp/` is not a product link |
| ChatTurn.ToModelHistory | app.py:185 | one history entry per transcript message, in order: `user` stays `user`, every other role becomes `model`, and the content is the only part |
| ChatTurn.HistoryRoundTrip | app.py:185 | on a transcript of user and assistant messages the history loses nothing: reading it back gives the transcript |
| ChatTurn.HistoryAppend | app.py:185 | appending a message to the transcript appends its entry to the history |
| ChatTurn.ChatRequestFor | app.py:176-189 | the history holds the earlier transcript followed by the new prompt as a user entry, and the same prompt is the message sent |
| ChatTurn.AccumulateResponse | app.py:182-191 | the streaming loop's answer is the chunks concatenated in order |
| ChatTurn.ConcatSplit | app.py:190-191 | the accumulated answer of two chunk runs is the concatenation of their answers |
| ChatTurn.ConcatHoldsChunk | app.py:190-191 | every chunk appears in the answer, after the text of the chunks before it |
| ChatTurn.TextTurn | app.py:176-212 | its contract is `TurnTranscript` (what is appended, in order) and `TurnLog` (the row logged); `SubmitText` is proved to do what it says |
| ChatTurn.AnswerEffect | app.py:198-212 | its contract is `TurnTranscript` and `TurnLog` through `TextTurn`; `RecordAnswer` is proved to do what it says |
| ChatTurn.TurnTranscript | app.py:176-212 | a text turn appends one to three messages, the prompt first. On `IndexError` it appends nothing else. Otherwise the answer comes last, preceded by the product recommendation exactly when a search was asked for and a link was found |
| ChatTurn.TurnLog | app.py:198-210 | one row is logged unless the parse raises `IndexError`. The row holds the fixed user id, `text`, the prompt and the answer. Severity is 5 exactly when the answer holds `SEARCH:`, 3 otherwise. The product name is the parsed query, given exactly when a sentinel line gave one; the link is given exactly when one was found |
| ChatTurn.FoundLinkIsFirstProduct | app.py:201-202 | the recommendation's link is present exactly when the provider answered a product-detail URL; it is non-empty and the first such URL |
| ChatTurn.SearchTurnLogged | app.py:198-212 | an answer whose second line is a clean sentinel line, with a product URL first among the results, appends prompt, recommendation and answer, and logs severity 5 with the stripped query and the URL |
| ChatTurn.RolesAppend | app.py:176-229 | appending a user or assistant message keeps the transcript made of user and assistant messages |
| ChatTurn.ChatSession.SubmitText | app.py:175-212 | step by step, the transcript and the log grow exactly as `TextTurn` says. The request is `ChatRequestFor` on the earlier transcript. `completed` is false exactly on `IndexError`, and a search request is made exactly when a query was parsed |
| ChatTurn.ChatSession.AppendPrompt | app.py:176-189 | the prompt is appended as the user's message, nothing is logged, and the chat call carries the history of the transcript with the prompt, which reads back to that transcript |
| ChatTurn.StreamAnswer | app.py:182-196 | the answer is the streamed chunks concatenated, or `Sorry, I encountered an error.` when the model call failed |
| ChatTurn.ChatSession.RecordAnswer | app.py:198-212 | after the answer is complete, the transcript and the log grow exactly as `AnswerEffect` says; `completed` is false exactly on `IndexError`; a search request is made exactly when a query was parsed, for that query |
| ChatTurn.ChatSession.SubmitImage | app.py:223-232 | a successful analysis appends ` (Image: <file name>)` as the user's message, then the analysis; a failed one changes nothing; no row is logged |
| ChatTurn.ImageTurnHistory | app.py:228-229 | after an analysed image the history the next text turn sends gains the file name as a `user` entry, then the analysis as a `model` entry |
| ChatTurn.ChatSession.constructor | app.py:168-169 | a new session starts with an empty transcript |
| PyStr.Contains | app.py:198 | `p in s` holds exactly when `p` occurs at some index of `s` |
| PyStr.Split | app.py:199 | `split` gives at least one piece, no piece holds the separator, and joining the pieces gives back the string |
| PyStr.SplitJoin | app.py:199 | splitting the join of separator-free pieces gives back the pieces |
| PyStr.RemoveAll | app.py:200 | `replace(pat, "")` never lengthens the string; `RemoveAllAbsent` and `RemoveAllOccurrence` pin it as leftmost, non-overlapping removal |
| PyStr.RemoveAllOccurrence | app.py:200 | `replace(pat, "")` drops an occurrence and keeps the text before it untouched |
| PyStr.RemoveAllAbsent | app.py:200 | `replace(pat, "")` leaves a string without `pat` unchanged |
| PyStr.Strip | app.py:200 | `strip()` returns the slice between leading and trailing white space; the slice is empty or starts and ends with non-space characters |
| PyStr.StripFramed | app.py:129 | stripping white space from around text whose ends are not white space gives back the text |
| PyStr.Join | app.py:99 | one piece joins to itself; `JoinAppend` puts the separator between two joined runs, and `SplitJoin` shows `split` inverts the join |
| PyStr.ContainsInJoin | app.py:99 | an occurrence in one piece is an occurrence in the joined string |
| ProductFinder.IsProductLink | app.py:137 | its contract is `FirstProductLink` (a link is found exactly when some URL holds both `amazon.ca` and `/dp/`, and it is the first such URL) and `ExampleSearchPageRejected` |
| ChatTurn.ModelRole | app.py:185 | its contract is `ToModelHistory` (`user` stays `user`, every other role becomes `model`) and `HistoryRoundTrip` (on user and assistant transcripts the mapping loses nothing) |
| ChatTurn.ProductMessage | app.py:203 | its contract is `TurnTranscript` (the recommendation is appended before the answer exactly when a query was parsed and a link found) and `SearchTurnLogged` |
| ChatTurn.ResponseText | app.py:187-196 | its contract is `StreamAnswer` (the streamed chunks concatenated, or the fixed apology when the call failed) and `AccumulateResponse` |
| ChatTurn.FoundLink | app.py:201 | its contract is `FoundLinkIsFirstProduct` (present exactly when the provider answered a product-detail URL; non-empty and the first such URL) |
| ChatTurn.ImageMessages | app.py:228-229 | its contract is `SubmitImage` (appended on success, in order, nothing logged) and `ImageTurnHistory` (what the next history gains) |
| PromptBuilder.RawPrompt | app.py:101-128 | its contract is `PromptLayout` (`strip()` of it is the filled template, every value in place) and `TemplateEnds` (the framing is all white space, the template's ends are not) |
| PyStr.StartsWith | app.py:199 | its contract is `SentinelLinesMembers` and `SentinelLinesOne` (a line is kept exactly when it starts with `SEARCH:`) and `OutcomeCases` |
| PyStr.IsSpace | app.py:200 | its contract is `Strip` (the result is the slice between leading and trailing characters of Python's `isspace` set) and `StripFramed` |
| ResponseParser.SentinelLinesOne | app.py:199 | one line is kept exactly when it starts with `SEARCH:`; with `SentinelLinesAppend` this pins the filter to the comprehension |

## Left out

- The Streamlit user interface: sidebar, chat rendering, placeholders, spinners, the upload widget and `st.rerun`. It only displays.
- Reading credentials and configuring the clients (`app.py:16-38`). These are start-up I/O; a failure stops the application before any logic runs.
- `get_user_data` (`app.py:45-71`). It reads the profile store through a spreadsheet library with a ten-minute cache. Its result is a parameter of `SystemPrompt`.
- `log_interaction` (`app.py:73-90`). Its call is modelled as the row appended to `logged`. The spreadsheet write, its two timestamps and its swallowed failures are I/O.
- `json.dumps` of the concerns document (`app.py:98`) is a library rendering. The model takes the rendered text as the profile's `currentConcernsJson`, and `{}` when the key is absent.
- PromptBuilder.SystemPrompt: a key present with the value `None` is not modelled. In Python, `barrier_status` renders `None`, `current_concerns` renders `null`, and a `None` medication or ingredient list makes `', '.join` raise `TypeError`. The model knows only present and absent keys.
- The language model call, in both the streamed and the image form, and the web search itself. They are network calls; their answers are the `Generation`, `SearchOutcome` and `analysis` parameters.
- ProductFinder.SearchAmazon: does not enforce that the provider answers at most three URLs. That bound belongs to the provider.
- ChatTurn.ChatSession.SubmitImage: does not model the prompt parts sent with the image (system prompt, instruction text and image bytes). Those are only the input of the network call.
- The seeding script `seed_data.py`, which is not part of this model.
- Streaming that fails part-way is modelled as `GenerationFailed`. In the code such a failure replaces the partial answer with the fixed apology, so the chunks already received do not matter.
