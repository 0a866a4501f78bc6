# Mental-health support chatbot: a verified model of its turn logic

The chatbot (a single script, `app.py`) sends each user message to a remote
language model and streams the reply back into a chat window. Beside the
reply it shows a sentiment label and a coping tip. This project models the
script's four pieces of sequential logic in Dafny and proves what they
guarantee:

- **Line reassembler** (`generate_response_stream`), module `StreamReassembler`
  in `stream_reassembler.dfy`. Streamed text fragments are appended to a
  buffer. Whenever the buffer holds a newline it is split on every `"\n"`. Each
  complete line is yielded with its newline, and the last piece stays in the
  buffer. At the end of the stream a non-empty buffer is yielded once. If the
  stream fails, the buffer is dropped and one `"Error: <message>"` item is
  yielded. `Reassemble` is the loop itself, with the buffer as a local
  variable. It is proved equal to `Expected`, a reference definition that
  splits the whole streamed text once. The round trip, the shape of the items
  and the failure behaviour are lemmas about `Expected`.
- **Sentiment banding** (`analyze_sentiment`), module `SentimentAdvisor` in
  `sentiment_advisor.dfy`. The if/elif chain sorts a polarity into five bands
  (`Classify`). It is proved against the bands written as intervals (`InBand`):
  the bands are exhaustive, non-overlapping and ordered.
- **Coping-tip lookup** (`provide_coping_strategy`), same module. The source's
  five-entry dictionary (`Strategies`) is proved to agree with an exhaustive
  match on the band (`Tip`). Any other text gets the fallback sentence, and
  the fallback is never reached after `analyze_sentiment`.
- **Turn controller** (`chatbot` with its inner `response_generator`), module
  `ConversationController` in `conversation_controller.dfy`. Validation comes
  first: blank text is rejected before the length limit of 1000 characters is
  checked. The caller's history list is a `Transcript` object that `chatbot`
  appends to in place. The generator is modelled by the whole sequence of
  updates it publishes. Each update is a (chat, advisory text, input box)
  triple.

`wrappers.dfy` holds the `Option` type used for Python's `None`.

The remote stream is an input: the sequence of delta contents it delivers
(`None` or a string per chunk), then either a normal end or a failure with the
exception's message. A failure at any point, including in the initial call,
is the same as a failure after the fragments delivered so far. The polarity
is an input `real`: the decimal value Python prints for the float, so that
the source's literals 0.5, 0.1, -0.1 and -0.5 compare as they do in Python.
Its two-decimal rendering (`{polarity:.2f}`) is an input string.

Observed behaviour worth knowing, proved as stated:

- When the stream ends normally without any text, nothing is yielded. The last
  published update then still shows `"Typing..."` (`FinalReply`).
- The conversation-log record is written after the generator loop even when
  the stream failed, because the reassembler turns the failure into an
  ordinary `"Error: ..."` item. The record is therefore written for every
  accepted turn, and after a failure its bot text ends with that error text
  (`Chatbot`, `FinalReply`).
- The buffer is split on every newline at once, so one fragment can complete
  several lines, yielded in order (`FragmentWithNewline`, `YieldLines`).
- "Whitespace-only" means every character is one that Python's `str.isspace`
  accepts. These are the characters `str.strip()` removes (`IsSpace`).

## Model

| member | source | states |
|---|---|---|
| `StreamReassembler.Reassemble` | app.py:25-40 | The items yielded are exactly `Expected(fragments, failure)`: the complete lines of the whole streamed text, then the non-empty trailing part on a normal end, or `"Error: " + msg` instead of it on a failure. Only a failure writes its message to the error log. The loop invariant says that after each fragment the items so far are the complete lines seen and the buffer is the text after the last newline, with no newline in it. |
| `StreamReassembler.Content` | app.py:27-29 | `if content:` admits a chunk's content exactly when it is present and non-empty, and then the buffer grows by that content and nothing else. |
| `StreamReassembler.Split` | app.py:31 | `buffer.split("\n")` returns at least one piece. |
| `StreamReassembler.PiecesWithoutNewline` | app.py:31 | No piece of `buffer.split("\n")` contains a newline. |
| `StreamReassembler.YieldLines` | app.py:32-33 | The inner loop yields every piece but the last, in order, each with `"\n"` appended. |
| `StreamReassembler.Pending` | app.py:34 | The buffer kept after a split (`lines[-1]`) contains no newline. |
| `StreamReassembler.SplitSnoc` | app.py:31 | Splitting text plus one character: a newline starts a new empty piece, and any other character extends the last piece. |
| `StreamReassembler.SplitWithoutNewline` | app.py:30 | Text without a newline splits into itself alone. This is why the source may skip the split when `"\n" not in buffer`. |
| `StreamReassembler.SplitAppend` | app.py:29-31 | Splitting `a + b` gives the pieces of `a` except its last, followed by the split of that last piece extended by `b`. |
| `StreamReassembler.StreamStep` | app.py:29-34 | One fragment after text `a` adds exactly the complete lines of the old buffer plus the fragment. The new buffer is the part after their last newline. |
| `StreamReassembler.NewlineCompletesLine` | app.py:31-34 | A newline completes the pending line, which is then yielded with its newline, and empties the buffer. |
| `StreamReassembler.CharacterExtendsBuffer` | app.py:29-30 | Any other character completes no line and only extends the buffer. |
| `StreamReassembler.FragmentWithNewline` | app.py:29-34 | When a fragment makes the buffer hold a newline, the lines it completes are all pieces of the split buffer but the last, with newlines, and the last piece becomes the buffer. |
| `StreamReassembler.FragmentWithoutNewline` | app.py:29-30 | When the buffer still has no newline after a fragment, no line is completed and the fragment is only appended to the buffer. |
| `StreamReassembler.JoinSplit` | app.py:31-34 | The complete lines joined, followed by the buffer, give back the text exactly. |
| `StreamReassembler.CompleteLinesAreLines` | app.py:32-33 | Every complete line yielded ends in `"\n"` and contains no other newline. |
| `StreamReassembler.RoundTrip` | app.py:25-36 | On a normal end, the yielded items joined together equal the concatenation of all non-empty fragments. Nothing is lost or duplicated. |
| `StreamReassembler.ItemShape` | app.py:30-36 | Every item but the last is one newline-terminated line. On a normal end, the last item is such a line too, or else the non-empty trailing part without a newline. |
| `StreamReassembler.FailureDropsPending` | app.py:37-40 | On a failure, the items before the last are the complete lines unchanged, and the last item is `"Error: " + msg`, so the partial buffer is never yielded. |
| `StreamReassembler.FailureJoinsToLastNewline` | app.py:30-40 | On a failure, all items joined are the streamed text up to its last newline, then the error text. |
| `StreamReassembler.ErrorText` | app.py:40 | The error item is `"Error: "` followed by the exception's message, unchanged. |
| `StreamReassembler.LinesNeverRetracted` | app.py:30-34 | The lines yielded for a prefix of the stream are a prefix of those yielded for the whole stream. Lines are emitted as soon as they are complete and never taken back. |
| `StreamReassembler.EmptyFragmentIgnored` | app.py:27-28 | A chunk whose content is `None` or empty changes neither the buffer nor the output. |
| `SentimentAdvisor.Classify` | app.py:45-54 | The chosen band is the one whose interval holds the polarity: above 0.5; above 0.1 up to 0.5; -0.1 to 0.1 inclusive; above -0.5 below -0.1; at most -0.5. |
| `SentimentAdvisor.AnalyzeSentiment` | app.py:42-54 | Returns the polarity unchanged. The label returned is a band's label exactly when the polarity lies in that band, so it is exactly one of the five labels. |
| `SentimentAdvisor.LabelInjective` | app.py:46-54 | The five labels are distinct. |
| `SentimentAdvisor.BandsDisjoint` | app.py:45-54 | No polarity lies in two bands. |
| `SentimentAdvisor.ClassifyIsTheBand` | app.py:45-54 | `Classify(p) == s` holds exactly when `p` lies in band `s`, so the bands are exhaustive and non-overlapping. |
| `SentimentAdvisor.ClassifyMonotone` | app.py:45-54 | A higher polarity never yields a lower band. |
| `SentimentAdvisor.Boundaries` | app.py:45-53 | 0.5 gives Positive, 0.1 and -0.1 give Neutral, and -0.5 gives Very Negative. |
| `SentimentAdvisor.ProvideCopingStrategy` | app.py:56-64 | A band's label gets that band's fixed sentence. Text that is no band's label gets "You're doing great, keep going!". |
| `SentimentAdvisor.StrategiesKeyedByLabel` | app.py:57-63 | The dictionary `Strategies`, the literal of app.py:57-63, has exactly the five labels as keys, and each maps to its band's sentence. |
| `SentimentAdvisor.FallbackOnlyForUnknown` | app.py:64 | The fallback is returned exactly for text that is no band's label. |
| `SentimentAdvisor.AnalyzedLabelHasTip` | app.py:75-76 | The label from `analyze_sentiment` always gets its band's sentence, never the fallback. |
| `ConversationController.TrimStartCuts` | app.py:70 | Stripping the front of `s` keeps a suffix of `s`. What is cut off is whitespace in Python's `isspace` sense (`IsSpace`), and what is left is empty or starts with a non-space. |
| `ConversationController.TrimEndCuts` | app.py:70 | Stripping the back of `s` keeps a prefix of `s`. What is cut off is whitespace, and what is left is empty or ends with a non-space. |
| `ConversationController.Strip` | app.py:70 | `s.strip()` is no longer than `s`, and it is empty or starts and ends with a non-space character. |
| `ConversationController.TrimBothEnds` | app.py:70 | `s.strip()` is the slice of `s` between a whitespace-only prefix and a whitespace-only suffix. |
| `ConversationController.TrimStartBlank` | app.py:70 | Stripping leading whitespace leaves nothing exactly when the text is blank. |
| `ConversationController.TrimEndKeepsFirst` | app.py:70 | Stripping trailing whitespace from text that starts with a non-space character leaves it non-empty. |
| `ConversationController.StripEmptyIffBlank` | app.py:70 | `not s.strip()` holds exactly when every character of `s` is whitespace (the empty string included). |
| `ConversationController.Validate` | app.py:70-73 | Blank text is rejected with "Please enter a message." and an empty input box, whatever its length. Other text over 1000 characters is rejected with "Message too long. Please shorten your input." and handed back in the input box. Everything else passes. |
| `ConversationController.AdvisoryText` | app.py:85-88 | The advisory text starts with `"Sentiment: "` and the label, ends with the coping tip, and is 37 characters longer than the label, the rendered polarity and the tip together. |
| `ConversationController.PublishedSnoc` | app.py:81-85 | Each further item publishes one more update, whose assistant entry is the earlier reply with the item appended. |
| `ConversationController.ResponseGenerator` | app.py:79-88 | The updates published are exactly `Published(history, advisory, items)`: the "Typing..." placeholder, then one update per item. The final `bot_reply` is all items joined. |
| `ConversationController.PublishedShape` | app.py:80-88 | There is one update more than there are items. Each shows the history unchanged plus exactly one trailing assistant entry, with an empty input box. The first shows "Typing..." with no advisory text. The (k+1)-th shows the first k items joined, with the advisory text. |
| `ConversationController.ReplyOnlyGrows` | app.py:83-85 | Between consecutive streamed updates, the assistant entry is replaced by the previous reply with the next item appended. |
| `ConversationController.LastPublished` | app.py:80-85 | The last update shows "Typing..." when there were no items, and otherwise all items joined. |
| `ConversationController.FinalReply` | app.py:79-88 | The last update shows the whole streamed text on a normal end, or "Typing..." if nothing was streamed. On a failure it shows the text up to the last newline followed by `"Error: " + msg`: the error is appended, not substituted. |
| `ConversationController.Transcript.constructor` | app.py:67-68 | A `None` history becomes a new empty list. |
| `ConversationController.Transcript.Append` | app.py:77 | `history.append(m)` adds `m` at the end and changes nothing else. |
| `ConversationController.Chatbot` | app.py:66-93 | A rejected message leaves the history list unchanged and returns one update: the history plus the rejection note. Nothing is logged. An accepted message is appended to the caller's history as the one new user entry. The turn then publishes `Published` over the reassembler's items. One conversation-log record is written with the label and the full reply. The error log gets the failure's message, if any. |
| `ConversationController.AcceptedTurn` | app.py:75-91 | After validation the message is appended to the history as a user entry. The published updates are `Published` over the reassembler's items, with the advisory text built from the label and its tip. One log record holds the label and all items joined. The error log holds the failure's message, if any. |

## Left out

- The remote completion call (app.py:9-12, 17-24) is not modelled: the API key check, the client, the model name and the system preamble. The stream it returns is an input (fragments, then a normal end or a failure message).
- The sentiment scoring library (app.py:43-44) is not modelled. The polarity is an input `real`, read as the decimal value Python prints for the float, not its exact binary value: read in binary, the double nearest 0.1 lies slightly above 1/10 and would fall in Positive, while the source's literal `0.1` is that same double and compares equal. Python floats have NaN, which the if/elif chain would put in the last band. Reals have no NaN, so that case is not modelled.
- The `:.2f` rendering of the polarity (app.py:86, 91) is an input string, not computed.
- The two log files (app.py:38-39, 90-91) are returned as sequences of records rather than written as text. Their timestamps from `datetime.now()` and their exact line format are not modelled.
- `time.sleep(0.05)` (app.py:84) only paces the updates and is left out.
- The generator's laziness is left out. `Chatbot` computes all reassembled items, then all updates. The interleaving of publishes with the stream and with the error-log write is not captured. A consumer that stops the generator early is not modelled either.
- The extra list around the history in the two early returns (app.py:71, 73) is a quirk of the interface's value shape. The model returns the message list itself.
- Exceptions outside the stream are not modelled, such as a failure of the scoring library or of a log write. In the source they propagate out of `chatbot` or the generator.
- The Gradio interface and server (app.py:96-132) are not modelled.
