/**
 * Context assembly: the prompt text handed to the engine for one turn.
 *
 * With history on, the prompt is the persona header followed by one
 * "sender: text" line for every settled (non-streaming) message among the
 * last ten entries of the chat, joined with newlines. The window is taken
 * before the streaming entries are dropped, so the reply placeholder of the
 * current turn, which is always the last entry, uses up one of the ten
 * places. With history off, the prompt is the header and the user's line.
 */
module Prompt {
  import opened ChatModel
  import opened Text

  /** How many of the most recent chat entries a prompt looks at. */
  const HistoryWindow: nat := 10

  /** The first prompt line: the persona's instructions. */
  function Header(content: string): string {
    "System: " + content
  }

  /** How a settled message appears in a prompt. */
  function Line(m: Message): string {
    m.sender + ": " + m.text
  }

  /** `takeLast(n)`: the last `n` entries, or all of them when there are fewer. */
  function TakeLast<T>(s: seq<T>, n: nat): (r: seq<T>)
    ensures |r| == if n < |s| then n else |s|
    ensures r == s[|s| - |r|..]
  {
    if n < |s| then s[|s| - n..] else s
  }

  /** The messages that are not streaming, in order (the filter of the prompt loop). */
  function Settled(ms: seq<Message>): (r: seq<Message>)
    ensures |r| <= |ms|
  {
    if |ms| == 0 then []
    else if ms[0].isStreaming then Settled(ms[1..])
    else [ms[0]] + Settled(ms[1..])
  }

  /** `Settled` keeps exactly the messages that are not streaming. */
  lemma {:induction false} SettledMembers(ms: seq<Message>)
    ensures forall m :: m in Settled(ms) <==> m in ms && !m.isStreaming
  {
    if |ms| > 0 {
      SettledMembers(ms[1..]);
      assert ms == [ms[0]] + ms[1..];
    }
  }

  /**
   * `Settled` drops nothing exactly when nothing streams, and otherwise
   * gives a strictly shorter list.
   */
  lemma {:induction false} SettledDropsStreaming(ms: seq<Message>)
    ensures (forall i :: 0 <= i < |ms| ==> !ms[i].isStreaming) <==> Settled(ms) == ms
    ensures Settled(ms) == ms || |Settled(ms)| < |ms|
  {
    if |ms| > 0 {
      SettledDropsStreaming(ms[1..]);
      if !ms[0].isStreaming && Settled(ms[1..]) == ms[1..] {
        assert ms == [ms[0]] + ms[1..];
      }
      if ms[0].isStreaming {
        assert Settled(ms) != ms;
      } else if (forall i :: 0 <= i < |ms| ==> !ms[i].isStreaming) {
        assert forall i :: 0 <= i < |ms[1..]| ==> !ms[1..][i].isStreaming by {
          forall i | 0 <= i < |ms[1..]| ensures !ms[1..][i].isStreaming {
            assert ms[1..][i] == ms[i + 1];
          }
        }
      } else {
        var i :| 0 <= i < |ms| && ms[i].isStreaming;
        assert ms[1..][i - 1] == ms[i];
      }
    }
  }

  /** One prompt line per message. */
  function Lines(ms: seq<Message>): (r: seq<string>)
    ensures |r| == |ms|
    ensures forall i :: 0 <= i < |ms| ==> r[i] == Line(ms[i])
  {
    seq(|ms|, i requires 0 <= i < |ms| => Line(ms[i]))
  }

  /**
   * The lines of a prompt with history: the header, then one line per
   * settled message of the window, so at most eleven lines.
   */
  function HistoryLines(content: string, ms: seq<Message>): (r: seq<string>)
    ensures 1 <= |r| <= HistoryWindow + 1
    ensures r[0] == Header(content)
  {
    [Header(content)] + Lines(Settled(TakeLast(ms, HistoryWindow)))
  }

  /**
   * Each settled entry of the window gives a line of a prompt with history,
   * and every line after the header comes from one (never from a streaming
   * entry).
   */
  lemma HistoryLinesFromWindow(content: string, ms: seq<Message>)
    ensures var r := HistoryLines(content, ms);
      && (forall m :: m in TakeLast(ms, HistoryWindow) && !m.isStreaming ==> Line(m) in r[1..])
      && (forall i :: 1 <= i < |r| ==>
            exists m :: m in TakeLast(ms, HistoryWindow) && !m.isStreaming && r[i] == Line(m))
  {
    var window := Settled(TakeLast(ms, HistoryWindow));
    var r := HistoryLines(content, ms);
    SettledMembers(TakeLast(ms, HistoryWindow));
    assert r[1..] == Lines(window);
    forall m | m in TakeLast(ms, HistoryWindow) && !m.isStreaming
      ensures Line(m) in r[1..]
    {
      var i :| 0 <= i < |window| && window[i] == m;
      assert r[1..][i] == Line(m);
    }
    forall i | 1 <= i < |r|
      ensures exists m :: m in TakeLast(ms, HistoryWindow) && !m.isStreaming && r[i] == Line(m)
    {
      assert r[i] == Line(window[i - 1]);
    }
  }

  /**
   * The prompt of one turn (`contextMessages`): the history lines joined by
   * newlines, or, with history off, the header and the user's line only.
   */
  function ContextPrompt(includeHistory: bool, content: string, ms: seq<Message>, userText: string): (p: string)
    ensures !includeHistory ==> p == Join([Header(content), "You: " + userText], '\n')
  {
    if includeHistory then Join(HistoryLines(content, ms), '\n')
    else Header(content) + "\nYou: " + userText
  }

  /** Dropping streaming entries distributes over concatenation. */
  lemma {:induction false} SettledAppend(a: seq<Message>, b: seq<Message>)
    ensures Settled(a + b) == Settled(a) + Settled(b)
  {
    if |a| > 0 {
      assert (a + b)[0] == a[0];
      assert (a + b)[1..] == a[1..] + b;
      SettledAppend(a[1..], b);
    } else {
      assert a + b == b;
    }
  }

  /** Rendering lines distributes over concatenation. */
  lemma LinesAppend(a: seq<Message>, b: seq<Message>)
    ensures Lines(a + b) == Lines(a) + Lines(b)
  {
  }

  /**
   * The reply placeholder is never part of its own prompt: while the last
   * entry is still streaming, the prompt holds at most nine message lines.
   */
  lemma PlaceholderLeavesNine(content: string, ms: seq<Message>)
    requires |ms| > 0 && ms[|ms| - 1].isStreaming
    ensures |HistoryLines(content, ms)| <= HistoryWindow
  {
    var window := TakeLast(ms, HistoryWindow);
    assert window[|window| - 1] == ms[|ms| - 1];
    SettledDropsStreaming(window);
  }

  /**
   * The prompt of a turn that just started: after the header come the
   * settled entries among the eight before the user's line, then the
   * user's line itself; the placeholder contributes nothing.
   */
  lemma {:induction false} FreshTurnLines(content: string, prior: seq<Message>, userId: int, text: string, botId: int)
    ensures HistoryLines(content, prior + [UserMessage(userId, text), Placeholder(botId)])
      == [Header(content)] + Lines(Settled(TakeLast(prior, HistoryWindow - 2))) + ["You: " + text]
  {
    var u, p := UserMessage(userId, text), Placeholder(botId);
    var old8 := Settled(TakeLast(prior, HistoryWindow - 2));
    FreshTurnWindow(prior, u, p);
    LinesAppend(old8, [u]);
    UserLine(userId, text);
  }

  /** The user's line in a prompt. */
  lemma UserLine(id: int, text: string)
    ensures Lines([UserMessage(id, text)]) == ["You: " + text]
  {
    assert Line(UserMessage(id, text)) == "You: " + text;
  }

  /**
   * The prompt of a turn that just started, in terms of the chat before it:
   * with history, the header, the lines of the settled entries among the
   * last eight, and the user's line; without, the header and the user's line.
   */
  function FreshTurnPrompt(includeHistory: bool, content: string, prior: seq<Message>, text: string): string {
    if includeHistory then
      Join([Header(content)] + Lines(Settled(TakeLast(prior, HistoryWindow - 2))) + ["You: " + text], '\n')
    else
      Header(content) + "\nYou: " + text
  }

  /** The prompt built right after a send is the fresh-turn prompt of the chat before it. */
  lemma FreshTurnContext(includeHistory: bool, content: string, prior: seq<Message>, userId: int, text: string, botId: int)
    ensures ContextPrompt(includeHistory, content, prior + [UserMessage(userId, text), Placeholder(botId)], text)
      == FreshTurnPrompt(includeHistory, content, prior, text)
  {
    if includeHistory {
      FreshTurnLines(content, prior, userId, text, botId);
    }
  }

  /** The settled window of a turn that just started. */
  lemma FreshTurnWindow(prior: seq<Message>, u: Message, p: Message)
    requires !u.isStreaming && p.isStreaming
    ensures Settled(TakeLast(prior + [u, p], HistoryWindow))
      == Settled(TakeLast(prior, HistoryWindow - 2)) + [u]
  {
    var old8 := TakeLast(prior, HistoryWindow - 2);
    assert TakeLast(prior + [u, p], HistoryWindow) == old8 + [u, p];
    SettledAppend(old8, [u, p]);
    assert Settled([u, p]) == [u] by {
      assert [u, p][1..] == [p];
      assert [p][1..] == [];
    }
  }

  /**
   * Once the window holds only settled messages, the prompt carries
   * exactly the last ten messages, oldest first.
   */
  lemma LastTenVerbatim(content: string, ms: seq<Message>)
    requires |ms| >= HistoryWindow
    requires forall i :: |ms| - HistoryWindow <= i < |ms| ==> !ms[i].isStreaming
    ensures HistoryLines(content, ms) == [Header(content)] + Lines(ms[|ms| - HistoryWindow..])
  {
    var window := TakeLast(ms, HistoryWindow);
    assert forall i :: 0 <= i < |window| ==> window[i] == ms[|ms| - HistoryWindow + i];
    SettledDropsStreaming(window);
  }

  /**
   * When neither the persona nor any message of the window holds a newline,
   * splitting the prompt at newlines gives back exactly its history lines.
   */
  lemma HistoryPromptLines(content: string, ms: seq<Message>, userText: string)
    requires '\n' !in content
    requires forall m :: m in TakeLast(ms, HistoryWindow) ==> '\n' !in Line(m)
    ensures Split(ContextPrompt(true, content, ms, userText), '\n') == HistoryLines(content, ms)
  {
    var window := TakeLast(ms, HistoryWindow);
    var w := Settled(window);
    var r := HistoryLines(content, ms);
    SettledMembers(window);
    forall i | 0 <= i < |r| ensures '\n' !in r[i] {
      if i == 0 {
        HeaderLine(content);
      } else {
        assert r[i] == Line(w[i - 1]);
        assert w[i - 1] in window;
      }
    }
    SplitJoin(r, '\n');
  }

  /** A persona without newlines gives a one-line header. */
  lemma HeaderLine(content: string)
    requires '\n' !in content
    ensures '\n' !in Header(content)
  {
    assert Header(content) == "System: " + content;
  }

  /**
   * With history off, the prompt is two lines whatever the conversation:
   * the header and "You: " with the user's text.
   */
  lemma HistoryOffPromptLines(content: string, ms: seq<Message>, userText: string)
    requires '\n' !in content && '\n' !in userText
    ensures ContextPrompt(false, content, ms, userText) == ContextPrompt(false, content, [], userText)
    ensures Split(ContextPrompt(false, content, ms, userText), '\n') == [Header(content), "You: " + userText]
  {
    SplitJoin([Header(content), "You: " + userText], '\n');
  }
}
