/**
 * The turn controller of app.py: `chatbot` validates the user's message,
 * scores it, appends it to the caller's history list in place, and hands back
 * a generator (`response_generator`) that publishes one transcript snapshot
 * for the "Typing..." placeholder and one more after each reassembled item,
 * then appends a record to the conversation log.
 *
 * The remote stream is given as its fragments and optional failure, the
 * polarity as a number and its two-decimal rendering as text; the generator is
 * modelled by the whole sequence of updates it publishes.
 */
module ConversationController {
  import opened Wrappers
  import SR = StreamReassembler
  import SA = SentimentAdvisor

  datatype Role = User | Assistant

  /** One chat message, `{"role": ..., "content": ...}`. */
  datatype Message = Message(role: Role, content: string)

  /** One publish to the interface: the chat shown, the advisory text, the input box. */
  datatype Update = Update(chat: seq<Message>, advisory: string, input: string)

  /** What `chatbot` returns: one update for a rejected message, or the updates of the stream. */
  datatype Turn = Rejected(update: Update) | Streamed(updates: seq<Update>)

  /** Why a message is rejected: the note shown and what goes back into the input box. */
  datatype Rejection = Rejection(note: string, input: string)

  /** The fields of one conversation-log entry, without its timestamp. */
  datatype ChatRecord = ChatRecord(user: string, sentiment: string, polarity: string, bot: string)

  const MaxMessageLength := 1000
  const EmptyNote := "Please enter a message."
  const TooLongNote := "Message too long. Please shorten your input."
  const Placeholder := "Typing..."

  /** The characters Python's `str.isspace` accepts, which `str.strip()` removes. */
  predicate IsSpace(c: char)
  {
    c == ' ' || '\t' <= c <= '\r' || '\U{1C}' <= c <= '\U{1F}' ||
    c == '\U{85}' || c == '\U{A0}' || c == '\U{1680}' || '\U{2000}' <= c <= '\U{200A}' ||
    c == '\U{2028}' || c == '\U{2029}' || c == '\U{202F}' || c == '\U{205F}' || c == '\U{3000}'
  }

  /** Text made of whitespace only (the empty text included). */
  predicate IsBlank(s: string)
  {
    forall i :: 0 <= i < |s| ==> IsSpace(s[i])
  }

  /** `s` without its leading whitespace. */
  function TrimStart(s: string): string
  {
    if s != [] && IsSpace(s[0]) then TrimStart(s[1..]) else s
  }

  /** `s` without its trailing whitespace. */
  function TrimEnd(s: string): string
  {
    if s != [] && IsSpace(s[|s| - 1]) then TrimEnd(s[..|s| - 1]) else s
  }

  /**
   * Trimming the front keeps a suffix of `s`: everything cut off is
   * whitespace, and what is left is empty or starts with a non-space.
   */
  lemma {:induction false} TrimStartCuts(s: string)
    ensures var r := TrimStart(s);
      |r| <= |s| && r == s[|s| - |r|..] && IsBlank(s[..|s| - |r|]) &&
      (r == "" || !IsSpace(r[0]))
  {
    if s != [] && IsSpace(s[0]) {
      TrimStartCuts(s[1..]);
      var r := TrimStart(s[1..]);
      assert s[..|s| - |r|] == [s[0]] + s[1..][..|s| - 1 - |r|];
    }
  }

  /**
   * Trimming the back keeps a prefix of `s`: everything cut off is
   * whitespace, and what is left is empty or ends with a non-space.
   */
  lemma {:induction false} TrimEndCuts(s: string)
    ensures var r := TrimEnd(s);
      |r| <= |s| && r == s[..|r|] && IsBlank(s[|r|..]) &&
      (r == "" || !IsSpace(r[|r| - 1]))
  {
    if s != [] && IsSpace(s[|s| - 1]) {
      TrimEndCuts(s[..|s| - 1]);
      var r := TrimEnd(s[..|s| - 1]);
      assert s[|r|..] == s[..|s| - 1][|r|..] + [s[|s| - 1]];
    }
  }

  /**
   * Python's `s.strip()`: at most as long as `s`, and empty or starting and
   * ending with a non-space character. `TrimBothEnds` places it in `s`.
   */
  function Strip(s: string): (r: string)
    ensures |r| <= |s|
    ensures r == "" || (!IsSpace(r[0]) && !IsSpace(r[|r| - 1]))
  {
    var t := TrimStart(s);
    TrimStartCuts(s);
    TrimEndCuts(t);
    assert TrimEnd(t) != "" ==> TrimEnd(t)[0] == t[0];
    TrimEnd(t)
  }

  /**
   * `s.strip()` is the slice of `s` starting after its leading whitespace,
   * between a whitespace-only prefix and a whitespace-only suffix.
   */
  lemma TrimBothEnds(s: string)
    ensures |TrimStart(s)| <= |s|
    ensures var i, r := |s| - |TrimStart(s)|, Strip(s);
      0 <= i && i + |r| <= |s| && r == s[i..i + |r|] && IsBlank(s[..i]) && IsBlank(s[i + |r|..])
  {
    var t := TrimStart(s);
    TrimStartCuts(s);
    TrimEndCuts(t);
    var r := TrimEnd(t);
    var i := |s| - |t|;
    assert t == s[i..] && r == t[..|r|];
    assert s[i + |r|..] == t[|r|..];
  }

  /** Trimming the front leaves nothing exactly when the text is blank. */
  lemma TrimStartBlank(s: string)
    ensures TrimStart(s) == "" <==> IsBlank(s)
  {
    TrimStartCuts(s);
    var r := TrimStart(s);
    if r == "" {
      assert s[..|s|] == s;
    } else {
      assert s[|s| - |r|] == r[0];
    }
  }

  /** Trimming the back of text that starts with a non-space leaves it non-empty. */
  lemma TrimEndKeepsFirst(s: string)
    requires s != [] && !IsSpace(s[0])
    ensures TrimEnd(s) != ""
  {
    TrimEndCuts(s);
  }

  /** `not s.strip()` holds exactly for blank text. */
  lemma StripEmptyIffBlank(s: string)
    ensures Strip(s) == "" <==> IsBlank(s)
  {
    TrimStartBlank(s);
    TrimStartCuts(s);
    if TrimStart(s) != "" {
      TrimEndKeepsFirst(TrimStart(s));
    }
  }

  /**
   * The two checks `chatbot` makes before anything else. Blank text is
   * rejected first, with an empty input box; other text longer than the
   * limit is rejected and handed back for editing; anything else passes.
   */
  function Validate(userMessage: string): (r: Option<Rejection>)
    ensures r.None? <==> !IsBlank(userMessage) && |userMessage| <= MaxMessageLength
    ensures IsBlank(userMessage) ==> r == Some(Rejection(EmptyNote, ""))
    ensures !IsBlank(userMessage) && |userMessage| > MaxMessageLength ==>
      r == Some(Rejection(TooLongNote, userMessage))
  {
    StripEmptyIffBlank(userMessage);
    if Strip(userMessage) == "" then Some(Rejection(EmptyNote, ""))
    else if |userMessage| > MaxMessageLength then Some(Rejection(TooLongNote, userMessage))
    else None
  }

  /**
   * The advisory text published with every streamed update: the label, then
   * the rendered polarity, then on a second line the coping tip, which ends
   * the text.
   */
  function AdvisoryText(sentiment: string, shownPolarity: string, tip: string): (r: string)
    ensures |r| == |sentiment| + |shownPolarity| + |tip| + 37
    ensures r[..11] == "Sentiment: " && r[11..11 + |sentiment|] == sentiment
    ensures r[|r| - |tip|..] == tip
  {
    var r := "Sentiment: " + sentiment + " (Polarity: " + shownPolarity + ")\nCoping Tip: " + tip;
    assert r[11..11 + |sentiment|] == sentiment;
    r
  }

  /**
   * The updates `response_generator` publishes for the reply items `items`:
   * the placeholder first, then after each item the reply so far, each time
   * as `history` with one trailing assistant entry.
   */
  function Published(history: seq<Message>, advisory: string, items: seq<string>): seq<Update>
  {
    [Update(history + [Message(Assistant, Placeholder)], "", "")] +
    seq(|items|, k requires 0 <= k < |items| =>
      Update(history + [Message(Assistant, SR.Concat(items[..k + 1]))], advisory, ""))
  }

  /**
   * The loop of `response_generator`: `botReply` accumulates the items and
   * each accumulation is published.
   */
  method ResponseGenerator(history: seq<Message>, advisory: string, items: seq<string>)
    returns (updates: seq<Update>, botReply: string)
    ensures updates == Published(history, advisory, items)
    ensures botReply == SR.Concat(items)
  {
    updates := [Update(history + [Message(Assistant, Placeholder)], "", "")];
    botReply := "";
    for i := 0 to |items|
      invariant |updates| == i + 1
      invariant updates == Published(history, advisory, items[..i])
      invariant botReply == SR.Concat(items[..i])
    {
      assert items[..i + 1] == items[..i] + [items[i]];
      PublishedSnoc(history, advisory, items[..i], items[i]);
      botReply := botReply + items[i];
      updates := updates + [Update(history + [Message(Assistant, botReply)], advisory, "")];
    }
    assert items[..|items|] == items;
  }

  /** One more item publishes one more update, holding the reply so far. */
  lemma PublishedSnoc(history: seq<Message>, advisory: string, items: seq<string>, item: string)
    ensures Published(history, advisory, items + [item]) ==
      Published(history, advisory, items) +
      [Update(history + [Message(Assistant, SR.Concat(items) + item)], advisory, "")]
  {
    var longer := items + [item];
    assert longer[..|longer|] == longer && longer[..|items|] == items;
    forall j | 1 <= j <= |items|
      ensures Published(history, advisory, longer)[j] == Published(history, advisory, items)[j]
    {
      assert longer[..j] == items[..j];
    }
  }

  /**
   * Every published update shows the history unchanged with exactly one
   * trailing assistant entry and an empty input box: first the placeholder,
   * then after `k` items the first `k` items joined.
   */
  lemma PublishedShape(history: seq<Message>, advisory: string, items: seq<string>)
    ensures var updates := Published(history, advisory, items);
      |updates| == |items| + 1 &&
      (forall k :: 0 <= k < |updates| ==>
        |updates[k].chat| == |history| + 1 && updates[k].chat[..|history|] == history &&
        updates[k].chat[|history|].role == Assistant && updates[k].input == "") &&
      updates[0].chat[|history|].content == Placeholder && updates[0].advisory == "" &&
      (forall k :: 1 <= k < |updates| ==>
        updates[k].chat[|history|].content == SR.Concat(items[..k]) && updates[k].advisory == advisory)
  {
    var updates := Published(history, advisory, items);
    forall k | 0 <= k < |updates|
      ensures updates[k].chat[..|history|] == history
    {
      assert updates[k].chat == history + [updates[k].chat[|history|]];
    }
  }

  /**
   * While streaming, the assistant entry is replaced by a longer reply each
   * time: the reply after item `k` is the one before it with item `k` appended.
   */
  lemma ReplyOnlyGrows(history: seq<Message>, advisory: string, items: seq<string>, k: nat)
    requires 1 <= k < |items|
    ensures var updates := Published(history, advisory, items);
      updates[k + 1].chat[|history|].content == updates[k].chat[|history|].content + items[k]
  {
    assert items[..k + 1][..k] == items[..k];
  }

  /** The last update shows the placeholder if there were no items, else all items joined. */
  lemma LastPublished(history: seq<Message>, advisory: string, items: seq<string>)
    ensures var updates := Published(history, advisory, items);
      updates[|updates| - 1].chat[|history|].content ==
        if items == [] then Placeholder else SR.Concat(items)
  {
    assert items[..|items|] == items;
  }

  /**
   * What the last update of a streamed turn shows. On a normal end it is the
   * whole streamed text, or still the placeholder when nothing was streamed;
   * on a failure it is the text up to the last newline with the error text
   * appended after it.
   */
  lemma FinalReply(history: seq<Message>, advisory: string,
                   fragments: seq<SR.Fragment>, failure: Option<string>)
    ensures var updates := Published(history, advisory, SR.Expected(fragments, failure));
      var shown := updates[|updates| - 1].chat[|history|].content;
      var text := SR.Flatten(fragments);
      |SR.Pending(text)| <= |text| &&
      (failure.None? && text != "" ==> shown == text) &&
      (failure.None? && text == "" ==> shown == Placeholder) &&
      (failure.Some? ==> shown == text[..|text| - |SR.Pending(text)|] + SR.ErrorText(failure.value))
  {
    var items := SR.Expected(fragments, failure);
    LastPublished(history, advisory, items);
    match failure {
      case None =>
        SR.RoundTrip(fragments);
        SR.JoinSplit(SR.Flatten(fragments));
      case Some(msg) =>
        SR.FailureJoinsToLastNewline(SR.Flatten(fragments), msg);
    }
  }

  /** The caller's history list, which `chatbot` appends to in place. */
  class Transcript {
    var messages: seq<Message>

    constructor ()
      ensures messages == []
    {
      messages := [];
    }

    /** `history.append(m)`. */
    method Append(m: Message)
      modifies this
      ensures messages == old(messages) + [m]
    {
      messages := messages + [m];
    }
  }

  /**
   * One call of `chatbot`, with the generator it returns run to the end.
   * `history == null` stands for the default `None`, replaced by a new list.
   * `chatLog` and `errorLog` are the entries appended to the two log files.
   */
  method Chatbot(userMessage: string, history: Transcript?, polarity: real, shownPolarity: string,
                 fragments: seq<SR.Fragment>, failure: Option<string>)
    returns (turn: Turn, chatLog: seq<ChatRecord>, errorLog: seq<string>)
    modifies history
    ensures history != null ==>
      history.messages == old(history.messages) +
        (if Validate(userMessage).None? then [Message(User, userMessage)] else [])
    ensures var before := if history == null then [] else old(history.messages);
      match Validate(userMessage)
      case Some(rejection) =>
        turn == Rejected(Update(before + [Message(Assistant, rejection.note)], "", rejection.input)) &&
        chatLog == [] && errorLog == []
      case None =>
        var sentiment := SA.AnalyzeSentiment(polarity).0;
        var advisory := AdvisoryText(sentiment, shownPolarity, SA.ProvideCopingStrategy(sentiment));
        var items := SR.Expected(fragments, failure);
        turn == Streamed(Published(before + [Message(User, userMessage)], advisory, items)) &&
        chatLog == [ChatRecord(userMessage, sentiment, shownPolarity, SR.Concat(items))] &&
        errorLog == (if failure.Some? then [failure.value] else [])
  {
    var list := history;
    if list == null {
      list := new Transcript();
    }
    chatLog, errorLog := [], [];
    var rejection := Validate(userMessage);
    if rejection.Some? {
      turn := Rejected(Update(list.messages + [Message(Assistant, rejection.value.note)], "", rejection.value.input));
      return;
    }
    var updates;
    updates, chatLog, errorLog := AcceptedTurn(userMessage, list, polarity, shownPolarity, fragments, failure);
    turn := Streamed(updates);
  }

  /**
   * The part of `chatbot` after validation: the message joins the history,
   * the generator publishes its updates, and the two logs are written.
   */
  method AcceptedTurn(userMessage: string, list: Transcript, polarity: real, shownPolarity: string,
                      fragments: seq<SR.Fragment>, failure: Option<string>)
    returns (updates: seq<Update>, chatLog: seq<ChatRecord>, errorLog: seq<string>)
    modifies list
    ensures list.messages == old(list.messages) + [Message(User, userMessage)]
    ensures var sentiment := SA.AnalyzeSentiment(polarity).0;
      var advisory := AdvisoryText(sentiment, shownPolarity, SA.ProvideCopingStrategy(sentiment));
      var items := SR.Expected(fragments, failure);
      updates == Published(list.messages, advisory, items) &&
      chatLog == [ChatRecord(userMessage, sentiment, shownPolarity, SR.Concat(items))] &&
      errorLog == (if failure.Some? then [failure.value] else [])
  {
    var (sentiment, _) := SA.AnalyzeSentiment(polarity);
    var tip := SA.ProvideCopingStrategy(sentiment);
    list.Append(Message(User, userMessage));
    var items, errors := SR.Reassemble(fragments, failure);
    var botReply;
    updates, botReply := ResponseGenerator(list.messages, AdvisoryText(sentiment, shownPolarity, tip), items);
    chatLog := [ChatRecord(userMessage, sentiment, shownPolarity, botReply)];
    errorLog := errors;
  }
}
