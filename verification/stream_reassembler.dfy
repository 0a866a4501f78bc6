/**
 * The line reassembler of `generate_response_stream` (app.py): streamed text
 * fragments are collected in a buffer, every complete line is emitted with its
 * newline, the trailing partial line is emitted once at the end of the stream,
 * and a failure of the stream replaces that trailing part by one error item.
 *
 * The remote completion call is not modelled: the stream is given as the
 * sequence of delta contents it delivers, followed either by a normal end or
 * by a failure carrying the exception's message.
 */
module StreamReassembler {
  import opened Wrappers

  /** The delta content of one streamed chunk; `None` when the chunk has none. */
  type Fragment = Option<string>

  /**
   * The text a fragment adds. Only a present, non-empty content adds text,
   * and then exactly that content (Python's `if content:`).
   */
  function Content(f: Fragment): (c: string)
    ensures c == "" <==> f.None? || f.value == ""
    ensures c != "" ==> c == f.value
  {
    if f.Some? then f.value else ""
  }

  /**
   * All streamed text, in arrival order: the same fold as `Concat`, applied
   * to the fragments' contents.
   */
  function Flatten(fragments: seq<Fragment>): string
  {
    if fragments == [] then ""
    else Flatten(fragments[..|fragments| - 1]) + Content(fragments[|fragments| - 1])
  }

  /** The items of `items` joined end to end, as the consumer accumulates them. */
  function Concat(items: seq<string>): string
  {
    if items == [] then ""
    else Concat(items[..|items| - 1]) + items[|items| - 1]
  }

  /**
   * Python's `s.split("\n")`: the pieces between newlines, in order. There is
   * always one piece more than there are newlines.
   */
  function Split(s: string): (pieces: seq<string>)
    ensures |pieces| >= 1
  {
    if s == [] then [""]
    else
      var ch, pieces := s[|s| - 1], Split(s[..|s| - 1]);
      if ch == '\n' then pieces + [""]
      else pieces[..|pieces| - 1] + [pieces[|pieces| - 1] + [ch]]
  }

  /** All pieces but the last: `lines[:-1]`. */
  function Init(pieces: seq<string>): seq<string>
    requires |pieces| >= 1
  {
    pieces[..|pieces| - 1]
  }

  /** The last piece: `lines[-1]`. */
  function Last(pieces: seq<string>): string
    requires |pieces| >= 1
  {
    pieces[|pieces| - 1]
  }

  /** Each line with its newline re-attached, as the loop over `lines[:-1]` yields them. */
  function Terminated(lines: seq<string>): seq<string>
  {
    seq(|lines|, k requires 0 <= k < |lines| => lines[k] + "\n")
  }

  /** An item that ends in a newline and holds no other newline. */
  predicate IsLine(item: string)
  {
    |item| > 0 && item[|item| - 1] == '\n' && '\n' !in item[..|item| - 1]
  }

  /** Every complete line of `text`, each with its newline. */
  function CompleteLines(text: string): seq<string>
  {
    Terminated(Init(Split(text)))
  }

  /** The text after the last newline of `text`: what the buffer keeps. */
  function Pending(text: string): (rest: string)
    ensures '\n' !in rest
  {
    PiecesWithoutNewline(text);
    Last(Split(text))
  }

  /** The item yielded when the stream raises an exception with message `msg`. */
  function ErrorText(msg: string): (r: string)
    ensures |r| == |msg| + 7 && r[..7] == "Error: " && r[7..] == msg
  {
    "Error: " + msg
  }

  /**
   * Reference definition of what the reassembler yields: the complete lines of
   * the whole streamed text, then the non-empty trailing part on a normal end,
   * or the error item instead of it on a failure.
   */
  function Expected(fragments: seq<Fragment>, failure: Option<string>): seq<string>
  {
    var text := Flatten(fragments);
    match failure
    case None => CompleteLines(text) + (if Pending(text) == "" then [] else [Pending(text)])
    case Some(msg) => CompleteLines(text) + [ErrorText(msg)]
  }

  /**
   * The reassembler loop. `items` is every value the generator yields, in
   * order; `errors` holds the message appended to the error log, if any.
   * After each fragment the buffer is the text after the last newline seen so
   * far, and the items yielded so far are exactly the complete lines seen.
   */
  method Reassemble(fragments: seq<Fragment>, failure: Option<string>)
    returns (items: seq<string>, errors: seq<string>)
    ensures items == Expected(fragments, failure)
    ensures errors == (if failure.Some? then [failure.value] else [])
  {
    items := [];
    var buffer := "";
    for i := 0 to |fragments|
      invariant items == CompleteLines(Flatten(fragments[..i]))
      invariant buffer == Pending(Flatten(fragments[..i]))
      invariant '\n' !in buffer
    {
      ghost var before := Flatten(fragments[..i]);
      var content := fragments[i];
      assert Flatten(fragments[..i + 1]) == before + Content(content) by {
        assert fragments[..i + 1][..i] == fragments[..i];
      }
      if content.Some? && content.value != "" {
        buffer := buffer + content.value;
        if '\n' in buffer {
          var lines := Split(buffer);
          items := YieldLines(items, lines);
          buffer := lines[|lines| - 1];
          FragmentWithNewline(before, content.value);
        } else {
          FragmentWithoutNewline(before, content.value);
        }
      } else {
        assert before + Content(content) == before;
      }
    }
    assert fragments[..|fragments|] == fragments;
    match failure {
      case None =>
        if buffer != "" {
          items := items + [buffer];
        }
        errors := [];
      case Some(msg) =>
        items := items + [ErrorText(msg)];
        errors := [msg];
    }
  }

  /**
   * The inner loop `for line in lines[:-1]: yield line + "\n"`: every piece but
   * the last is yielded, in order, with its newline.
   */
  method YieldLines(items: seq<string>, lines: seq<string>) returns (yielded: seq<string>)
    requires |lines| >= 1
    ensures yielded == items + Terminated(Init(lines))
  {
    yielded := items;
    for j := 0 to |lines| - 1
      invariant yielded == items + Terminated(lines[..j])
    {
      assert Terminated(lines[..j + 1]) == Terminated(lines[..j]) + [lines[j] + "\n"] by {
        assert lines[..j + 1] == lines[..j] + [lines[j]];
        TerminatedAppend(lines[..j], [lines[j]]);
      }
      yielded := yielded + [lines[j] + "\n"];
    }
    assert lines[..|lines| - 1] == Init(lines);
  }

  /** Splitting text extended by one character `ch`. */
  lemma SplitSnoc(s: string, ch: char)
    ensures Split(s + [ch]) == if ch == '\n' then Split(s) + [""]
                               else Init(Split(s)) + [Last(Split(s)) + [ch]]
  {
    assert (s + [ch])[..|s|] == s;
  }

  /** No piece of a split holds a newline. */
  lemma {:induction false} PiecesWithoutNewline(s: string)
    ensures forall k :: 0 <= k < |Split(s)| ==> '\n' !in Split(s)[k]
  {
    if s != [] {
      var s', ch := s[..|s| - 1], s[|s| - 1];
      assert s == s' + [ch];
      PiecesWithoutNewline(s');
      SplitSnoc(s', ch);
      if ch != '\n' {
        var last := Last(Split(s'));
        assert '\n' !in last;
        assert '\n' !in last + [ch];
      }
    }
  }

  /** Text without a newline splits into itself alone. */
  lemma {:induction false} SplitWithoutNewline(s: string)
    requires '\n' !in s
    ensures Split(s) == [s]
  {
    if s != [] {
      var s' := s[..|s| - 1];
      assert '\n' !in s';
      SplitWithoutNewline(s');
      assert s == s' + [s[|s| - 1]];
    }
  }

  /** Splitting `a + b` splits `a`, then continues from the last piece of `a`. */
  lemma {:induction false} SplitAppend(a: string, b: string)
    ensures Split(a + b) == Init(Split(a)) + Split(Last(Split(a)) + b)
  {
    if b == [] {
      var pa := Split(a);
      assert Last(pa) == Pending(a);
      assert a + b == a;
      assert Last(pa) + b == Last(pa);
      SplitWithoutNewline(Last(pa));
    } else {
      var b', ch := b[..|b| - 1], b[|b| - 1];
      assert b == b' + [ch];
      SplitAppend(a, b');
      SplitAppendSnoc(a, b', ch);
    }
  }

  /** The inductive step of `SplitAppend`: one more character at the end of `b`. */
  lemma SplitAppendSnoc(a: string, b: string, ch: char)
    requires Split(a + b) == Init(Split(a)) + Split(Last(Split(a)) + b)
    ensures Split(a + (b + [ch])) == Init(Split(a)) + Split(Last(Split(a)) + (b + [ch]))
  {
    var pa := Split(a);
    var last := Last(pa);
    assert a + (b + [ch]) == (a + b) + [ch];
    assert last + (b + [ch]) == (last + b) + [ch];
    SplitSnoc(a + b, ch);
    SplitSnoc(last + b, ch);
    SplitAppendStep(Init(pa), Split(a + b), Split(last + b), ch);
  }

  /** The sequence bookkeeping of one step of `SplitAppend`. */
  lemma SplitAppendStep(init: seq<string>, whole: seq<string>, rest: seq<string>, ch: char)
    requires |rest| >= 1 && whole == init + rest
    ensures |whole| >= 1
    ensures Init(whole) + [Last(whole) + [ch]] == init + (Init(rest) + [Last(rest) + [ch]])
    ensures whole + [""] == init + (rest + [""])
  {
  }

  /** A fragment whose arrival completes lines: they are the buffer's lines. */
  lemma FragmentWithNewline(before: string, c: string)
    ensures var lines := Split(Pending(before) + c);
      CompleteLines(before + c) == CompleteLines(before) + Terminated(Init(lines)) &&
      Pending(before + c) == Last(lines)
  {
    StreamStep(before, c);
  }

  /** A fragment whose arrival completes no line only extends the buffer. */
  lemma FragmentWithoutNewline(before: string, c: string)
    requires '\n' !in Pending(before) + c
    ensures CompleteLines(before + c) == CompleteLines(before)
    ensures Pending(before + c) == Pending(before) + c
  {
    StreamStep(before, c);
    SplitWithoutNewline(Pending(before) + c);
  }

  /** `Terminated` distributes over concatenation. */
  lemma TerminatedAppend(x: seq<string>, y: seq<string>)
    ensures Terminated(x + y) == Terminated(x) + Terminated(y)
  {
  }

  /**
   * One fragment `c` arriving after text `a`: the new complete lines are those
   * of the old buffer extended by `c`, and the buffer becomes what follows the
   * last newline of that.
   */
  lemma StreamStep(a: string, c: string)
    ensures CompleteLines(a + c) == CompleteLines(a) + CompleteLines(Pending(a) + c)
    ensures Pending(a + c) == Pending(Pending(a) + c)
  {
    SplitAppend(a, c);
    var pa := Split(a);
    var pb := Split(Pending(a) + c);
    var pab := Split(a + c);
    assert pab[..|pab| - 1] == pa[..|pa| - 1] + pb[..|pb| - 1];
    TerminatedAppend(pa[..|pa| - 1], pb[..|pb| - 1]);
  }

  /** A newline completes the pending line and empties the buffer. */
  lemma NewlineCompletesLine(s: string)
    ensures CompleteLines(s + ['\n']) == CompleteLines(s) + [Pending(s) + "\n"]
    ensures Pending(s + ['\n']) == ""
  {
    SplitSnoc(s, '\n');
    var p := Split(s);
    assert Init(Split(s + ['\n'])) == Init(p) + [Last(p)];
    TerminatedAppend(Init(p), [Last(p)]);
  }

  /** Any other character only extends the buffer. */
  lemma CharacterExtendsBuffer(s: string, ch: char)
    requires ch != '\n'
    ensures CompleteLines(s + [ch]) == CompleteLines(s)
    ensures Pending(s + [ch]) == Pending(s) + [ch]
  {
    SplitSnoc(s, ch);
  }

  /** The complete lines followed by the pending part give back the text. */
  lemma {:induction false} JoinSplit(s: string)
    ensures Concat(CompleteLines(s)) + Pending(s) == s
  {
    if s != [] {
      var s', ch := s[..|s| - 1], s[|s| - 1];
      assert s == s' + [ch];
      JoinSplit(s');
      if ch == '\n' {
        JoinNewline(s');
      } else {
        CharacterExtendsBuffer(s', ch);
        assert Concat(CompleteLines(s')) + (Pending(s') + [ch]) == (Concat(CompleteLines(s')) + Pending(s')) + [ch];
      }
    }
  }

  /** The step of `JoinSplit` for a newline. */
  lemma JoinNewline(s: string)
    requires Concat(CompleteLines(s)) + Pending(s) == s
    ensures Concat(CompleteLines(s + ['\n'])) + Pending(s + ['\n']) == s + ['\n']
  {
    NewlineCompletesLine(s);
    var lines, rest := CompleteLines(s), Pending(s);
    var longer := lines + [rest + "\n"];
    assert longer[..|lines|] == lines;
    assert Concat(longer) == Concat(lines) + (rest + "\n");
    assert Concat(lines) + (rest + "\n") == (Concat(lines) + rest) + ['\n'];
  }

  /** Every complete line ends in its one newline. */
  lemma CompleteLinesAreLines(text: string)
    ensures forall k :: 0 <= k < |CompleteLines(text)| ==> IsLine(CompleteLines(text)[k])
  {
    PiecesWithoutNewline(text);
    forall k | 0 <= k < |CompleteLines(text)|
      ensures IsLine(CompleteLines(text)[k])
    {
      var piece := Split(text)[k];
      assert CompleteLines(text)[k] == piece + "\n";
      assert (piece + "\n")[..|piece|] == piece;
    }
  }

  /**
   * Nothing is lost or duplicated: on a normal end, the yielded items joined
   * together are exactly the streamed text.
   */
  lemma RoundTrip(fragments: seq<Fragment>)
    ensures Concat(Expected(fragments, None)) == Flatten(fragments)
  {
    var text := Flatten(fragments);
    var lines, rest := CompleteLines(text), Pending(text);
    JoinSplit(text);
    if rest != "" {
      assert (lines + [rest])[..|lines|] == lines;
    } else {
      assert lines + [] == lines;
    }
  }

  /**
   * The shape of what is yielded: every item before the last is one line
   * ending in its newline; on a normal end the last item is such a line too,
   * or else the non-empty trailing part, which holds no newline.
   */
  lemma ItemShape(fragments: seq<Fragment>, failure: Option<string>)
    ensures var items := Expected(fragments, failure);
      forall k :: 0 <= k < |items| - 1 ==> IsLine(items[k])
    ensures var items := Expected(fragments, failure);
      failure.None? && items != [] ==>
        IsLine(items[|items| - 1]) ||
        (items[|items| - 1] != "" && '\n' !in items[|items| - 1])
  {
    CompleteLinesAreLines(Flatten(fragments));
  }

  /**
   * On a failure the pending partial line is dropped: the items are the
   * complete lines followed by the error item alone.
   */
  lemma FailureDropsPending(fragments: seq<Fragment>, msg: string)
    ensures var items, text := Expected(fragments, Some(msg)), Flatten(fragments);
      |items| >= 1 &&
      items[..|items| - 1] == CompleteLines(text) &&
      items[|items| - 1] == "Error: " + msg
  {
    var lines := CompleteLines(Flatten(fragments));
    assert (lines + [ErrorText(msg)])[..|lines|] == lines;
  }

  /**
   * Everything yielded on a failure joins to the streamed text up to its
   * last newline, followed by the error text.
   */
  lemma FailureJoinsToLastNewline(text: string, msg: string)
    ensures |Pending(text)| <= |text|
    ensures Concat(CompleteLines(text) + [ErrorText(msg)])
         == text[..|text| - |Pending(text)|] + "Error: " + msg
  {
    var lines, rest := CompleteLines(text), Pending(text);
    assert Concat(lines + [ErrorText(msg)]) == Concat(lines) + ErrorText(msg);
    JoinSplit(text);
    var done := Concat(lines);
    assert text == done + rest;
    assert text[..|done|] == done;
  }

  /**
   * Lines are yielded as soon as they are complete and never taken back:
   * the complete lines of a prefix of the stream are a prefix of those of
   * the whole stream.
   */
  lemma LinesNeverRetracted(a: string, b: string)
    ensures CompleteLines(a) <= CompleteLines(a + b)
  {
    StreamStep(a, b);
  }

  /** A chunk without content, or with empty content, changes nothing. */
  lemma EmptyFragmentIgnored(fragments: seq<Fragment>, f: Fragment, failure: Option<string>)
    requires Content(f) == ""
    ensures Expected(fragments + [f], failure) == Expected(fragments, failure)
  {
    assert (fragments + [f])[..|fragments|] == fragments;
    assert Flatten(fragments) + "" == Flatten(fragments);
  }
}
