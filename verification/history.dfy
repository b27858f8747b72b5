/**
 * Rendering of the conversation history as text, shared by the `show_history`
 * tool, `get_history_text` and the `save_history_to_file` tool, plus the
 * fixed-size window the `chat_tool` sends to the model.
 */
module History {
  import opened Messages
  import opened Text

  const HumanLabel: string := "Вы"
  const AssistantLabel: string := "Ассистент"
  const EmptyHistoryText: string := "История пустая"
  /** How many trailing messages `chat_tool` sends to the model. */
  const ChatWindow: nat := 10

  /** Human messages are labelled "Вы"; every other kind, system messages included, "Ассистент". */
  function Label(m: Message): string {
    if m.HumanMsg? then HumanLabel else AssistantLabel
  }

  /** The `f"{sender}: {msg.content}"` line for one message. */
  function Line(m: Message): string {
    Label(m) + ": " + m.content
  }

  /** One line per message with non-empty content, in history order. */
  function RenderLines(h: seq<Message>): (lines: seq<string>)
    ensures |lines| <= |h|
    ensures forall k :: 0 <= k < |lines| ==> lines[k] != ""
  {
    if |h| == 0 then []
    else (if HasContent(h[0]) then [Line(h[0])] else []) + RenderLines(h[1..])
  }

  /** `get_history_text`: the lines joined by newlines, "" when there are none. */
  function HistoryText(h: seq<Message>): (text: string)
    ensures text == "" <==> |RenderLines(h)| == 0
  {
    JoinEmpty(RenderLines(h));
    Join(RenderLines(h))
  }

  /** `show_history`: like `HistoryText`, but a fixed notice when there are no lines. */
  function ShowHistory(h: seq<Message>): (text: string)
    ensures text != ""
    ensures |RenderLines(h)| == 0 ==> text == EmptyHistoryText
  {
    var lines := RenderLines(h);
    JoinEmpty(lines);
    if |lines| > 0 then Join(lines) else EmptyHistoryText
  }

  /** What `save_history_to_file` writes: each line followed by a newline. */
  function SaveText(h: seq<Message>): (text: string)
    ensures text == "" <==> |RenderLines(h)| == 0
    ensures text != "" ==> text[|text| - 1] == NL
  {
    TerminatedIsJoin(RenderLines(h));
    Terminated(RenderLines(h))
  }

  /** `history[-10:]`: the last (at most) ten messages. */
  function Window(h: seq<Message>): (w: seq<Message>)
    ensures |w| == if |h| < ChatWindow then |h| else ChatWindow
    ensures h == h[..|h| - |w|] + w
  {
    if |h| <= ChatWindow then h else h[|h| - ChatWindow..]
  }

  /** Clearing empties the history. */
  function Clear(h: seq<Message>): (r: seq<Message>)
    ensures |r| == 0
  {
    []
  }

  /** Rendering distributes over concatenation: render order is append order. */
  lemma {:induction false} RenderAppend(a: seq<Message>, b: seq<Message>)
    ensures RenderLines(a + b) == RenderLines(a) + RenderLines(b)
  {
    if |a| == 0 {
      assert a + b == b;
    } else {
      assert (a + b)[1..] == a[1..] + b;
      RenderAppend(a[1..], b);
    }
  }

  /** Every line starts with a sender label followed by ": ". */
  lemma {:induction false} LinesLabelled(h: seq<Message>, k: nat)
    requires k < |RenderLines(h)|
    ensures var l := RenderLines(h)[k];
            (HumanLabel + ": " <= l) || (AssistantLabel + ": " <= l)
  {
    if HasContent(h[0]) && k == 0 {
    } else {
      var k' := if HasContent(h[0]) then k - 1 else k;
      LinesLabelled(h[1..], k');
    }
  }

  /**
   * The loop of `show_history` / `get_history_text`, with the positions of the
   * messages that produced each line: exactly the messages with content, in order.
   */
  method CollectLines(h: seq<Message>) returns (lines: seq<string>, ghost idx: seq<nat>)
    ensures lines == RenderLines(h)
    ensures |idx| == |lines|
    ensures forall k :: 0 <= k < |idx| ==> idx[k] < |h| && HasContent(h[idx[k]]) && lines[k] == Line(h[idx[k]])
    ensures forall k, k' :: 0 <= k < k' < |idx| ==> idx[k] < idx[k']
    ensures forall i :: 0 <= i < |h| && HasContent(h[i]) ==> i in idx
  {
    lines := [];
    idx := [];
    var n := 0;
    while n < |h|
      invariant 0 <= n <= |h|
      invariant lines == RenderLines(h[..n])
      invariant |idx| == |lines|
      invariant forall k :: 0 <= k < |idx| ==> idx[k] < n && HasContent(h[idx[k]]) && lines[k] == Line(h[idx[k]])
      invariant forall k, k' :: 0 <= k < k' < |idx| ==> idx[k] < idx[k']
      invariant forall i :: 0 <= i < n && HasContent(h[i]) ==> i in idx
    {
      RenderPrefix(h, n);
      if HasContent(h[n]) {
        lines := lines + [Line(h[n])];
        idx := idx + [n];
      }
      n := n + 1;
    }
    assert h[..n] == h;
  }

  /** Rendering one more message of the history adds its line, if it has content. */
  lemma RenderPrefix(h: seq<Message>, n: nat)
    requires n < |h|
    ensures RenderLines(h[..n + 1]) == RenderLines(h[..n]) + (if HasContent(h[n]) then [Line(h[n])] else [])
  {
    RenderAppend(h[..n], [h[n]]);
    assert h[..n + 1] == h[..n] + [h[n]];
    assert [h[n]][1..] == [];
  }

  /** The rendered text is empty exactly when no message has content. */
  lemma HistoryTextEmpty(h: seq<Message>)
    ensures HistoryText(h) == "" <==> forall i :: 0 <= i < |h| ==> !HasContent(h[i])
  {
    var lines := RenderLines(h);
    JoinEmpty(lines);
    NoLinesIffNoContent(h);
    if |lines| > 0 {
      LinesLabelled(h, 0);
    }
  }

  /** There are no lines exactly when no message has content. */
  lemma {:induction false} NoLinesIffNoContent(h: seq<Message>)
    ensures |RenderLines(h)| == 0 <==> forall i :: 0 <= i < |h| ==> !HasContent(h[i])
  {
    if |h| > 0 {
      NoLinesIffNoContent(h[1..]);
      assert forall i :: 1 <= i < |h| ==> h[i] == h[1..][i - 1];
    }
  }

  /** `show_history` agrees with `get_history_text` except on an empty rendering, and is never empty. */
  lemma ShowVersusText(h: seq<Message>)
    ensures HistoryText(h) != "" ==> ShowHistory(h) == HistoryText(h)
    ensures HistoryText(h) == "" ==> ShowHistory(h) == EmptyHistoryText
    ensures ShowHistory(h) != ""
  {
    var lines := RenderLines(h);
    JoinEmpty(lines);
    if |lines| > 0 {
      LinesLabelled(h, 0);
    }
  }

  /** The saved file is the rendered text plus a final newline, or empty. */
  lemma SaveIsText(h: seq<Message>)
    ensures SaveText(h) == if HistoryText(h) == "" then "" else HistoryText(h) + [NL]
  {
    var lines := RenderLines(h);
    TerminatedIsJoin(lines);
    JoinEmpty(lines);
    if |lines| > 0 {
      LinesLabelled(h, 0);
    }
  }

  /**
   * Splitting the rendered text at newlines splits every rendered line, so a
   * message whose content spans several lines (the system prompt does)
   * contributes several pieces; an empty rendering splits to one empty piece.
   */
  lemma SplitRendering(h: seq<Message>)
    ensures Split(HistoryText(h)) == if |RenderLines(h)| == 0 then [""] else SplitEach(RenderLines(h))
  {
    if |RenderLines(h)| > 0 {
      SplitJoinEach(RenderLines(h));
    }
  }

  /** After a clear every rendering is empty and the window is empty. */
  lemma AfterClear(h: seq<Message>)
    ensures ShowHistory(Clear(h)) == EmptyHistoryText
    ensures HistoryText(Clear(h)) == ""
    ensures SaveText(Clear(h)) == ""
    ensures Window(Clear(h)) == []
  {
  }
}
