/** The chat-completion relay of main.go: a five-entry rolling context, a system/user
    message pair per question, a streamed answer, and a handler that records, answers
    and remembers. */
module ChatRelay {
  import opened Text
  import opened Collaborators

  /** Entries kept in the rolling context (main.go:82). */
  const WindowSize := 5

  const QueryTag := "query"
  const NonQueryTag := "non_query"

  // ----- Bounded FIFO context window (main.go:78-85) -----

  /** The window after `updateContext(entry)`: append, then drop the head once if the
      result is longer than WindowSize. */
  function Slide(window: seq<string>, entry: string): seq<string>
  {
    var grown := window + [entry];
    if |grown| > WindowSize then grown[1..] else grown
  }

  /** A window within its bound stays within it. */
  lemma SlideBounded(window: seq<string>, entry: string)
    requires |window| <= WindowSize
    ensures |Slide(window, entry)| <= WindowSize
  {
  }

  /** Sliding keeps the order, ends with the new entry and loses at most the single
      oldest entry, and only when the window would overflow. */
  lemma SlideEvictsOldest(window: seq<string>, entry: string)
    ensures var w := Slide(window, entry);
      && w[|w| - 1] == entry
      && w == (window + [entry])[|window| + 1 - |w|..]
      && (|window| < WindowSize ==> w == window + [entry])
      && (|window| >= WindowSize ==> |w| == |window|)
  {
  }

  /** The window after `updateContext` has been called with each of `entries` in turn. */
  function SlideAll(window: seq<string>, entries: seq<string>): seq<string>
    decreases |entries|
  {
    if entries == [] then window else SlideAll(Slide(window, entries[0]), entries[1..])
  }

  /** Starting from a window within its bound, any run of updates leaves exactly the
      WindowSize most recent entries of everything ever added: eviction is strictly FIFO. */
  lemma {:induction false} SlideAllKeepsNewest(window: seq<string>, entries: seq<string>)
    requires |window| <= WindowSize
    ensures SlideAll(window, entries) == Newest(window + entries, WindowSize)
    decreases |entries|
  {
    if entries == [] {
      assert window + entries == window;
    } else {
      var w := Slide(window, entries[0]);
      assert w == Newest(window + [entries[0]], WindowSize);
      SlideAllKeepsNewest(w, entries[1..]);
      NewestAppend(window + [entries[0]], entries[1..], WindowSize);
      assert window + [entries[0]] + entries[1..] == window + entries;
    }
  }

  // ----- Prompt builder (main.go:32-51) -----

  /** The context paragraph: every entry followed by a blank line, in order. */
  function ContextBlock(entries: seq<string>): string
  {
    if entries == [] then "" else ContextBlock(entries[..|entries| - 1]) + entries[|entries| - 1] + "\n\n"
  }

  /** The block of a list is the block of its first part followed by that of the rest. */
  lemma {:induction false} ContextBlockAppend(a: seq<string>, b: seq<string>)
    ensures ContextBlock(a + b) == ContextBlock(a) + ContextBlock(b)
    decreases |b|
  {
    if b == [] {
      assert a + b == a;
    } else {
      var b' := b[..|b| - 1];
      assert (a + b)[..|a + b| - 1] == a + b';
      ContextBlockAppend(a, b');
    }
  }

  /** The two chat messages for a non-empty query: a system message made of the static
      context and every entry but the last, and a user message holding the last entry. */
  function ChatRequest(systemContext: string, userQuery: seq<string>): Request
    requires |userQuery| > 0
  {
    Chat(systemContext + "\nmensagens de contexto:" + ContextBlock(userQuery[..|userQuery| - 1]) + " ",
         userQuery[|userQuery| - 1])
  }

  /** What the handler sends: the current window goes to the system message, each entry
      followed by a blank line, and the new message alone is the user message. */
  lemma ChatRequestOfWindow(systemContext: string, window: seq<string>, logMsg: string)
    ensures ChatRequest(systemContext, window + [logMsg])
         == Chat(systemContext + "\nmensagens de contexto:" + ContextBlock(window) + " ", logMsg)
  {
    assert (window + [logMsg])[..|window|] == window;
  }

  /** Builds the message pair with the loop of main.go:33-35. */
  method BuildMessages(systemContext: string, userQuery: seq<string>) returns (request: Request)
    requires |userQuery| > 0
    ensures request == ChatRequest(systemContext, userQuery)
  {
    var context := "";
    var i := 0;
    while i < |userQuery| - 1
      invariant 0 <= i <= |userQuery| - 1
      invariant context == ContextBlock(userQuery[..i])
    {
      assert userQuery[..i + 1][..i] == userQuery[..i];
      context := context + userQuery[i] + "\n\n";
      i := i + 1;
    }
    request := Chat(systemContext + "\nmensagens de contexto:" + context + " ", userQuery[|userQuery| - 1]);
  }

  // ----- Stream accumulator (main.go:59-75) -----

  /** Drains a streamed reply: on end-of-stream the chunks joined in order, on any error
      (creating the stream, or any receive before end-of-stream) the empty string and a
      failure, never partial text. */
  method Receive(reply: Reply) returns (r: string, failed: bool)
    ensures failed <==> !Succeeds(reply)
    ensures failed ==> r == ""
    ensures !failed ==> r == Concat(reply.chunks)
  {
    if reply.CreateError? {
      return "", true;
    }
    r := "";
    var i := 0;
    while true
      invariant 0 <= i <= |reply.chunks|
      invariant r == Concat(reply.chunks[..i])
      decreases |reply.chunks| - i
    {
      var event := Recv(reply, i);
      if event.Eof? {
        assert reply.chunks[..i] == reply.chunks;
        return r, false;
      }
      if event.Err? {
        return "", true;
      }
      assert reply.chunks[..i + 1][..i] == reply.chunks[..i];
      r := r + event.content;
      i := i + 1;
    }
  }

  /** `getOpenAI`: the request it sends for `userQuery`, and the answer it returns. */
  method GetOpenAI(systemContext: string, userQuery: seq<string>, reply: Reply)
    returns (request: Request, r: string, failed: bool)
    requires |userQuery| > 0
    ensures request == ChatRequest(systemContext, userQuery)
    ensures failed <==> !Succeeds(reply)
    ensures r == if failed then "" else Concat(reply.chunks)
  {
    request := BuildMessages(systemContext, userQuery);
    r, failed := Receive(reply);
  }

  // ----- Per-message handler (main.go:87-126) -----

  /** The window and the effects that one handler run leaves behind. */
  datatype Step = Step(window: seq<string>, effects: seq<Effect>)

  /** One handler run on `logMsg` given the model's `reply`: ask; on error stop; on the
      sentinel record a non-query with empty response; otherwise record the query with its
      response, send the response and push the incoming message into the window. */
  function Handle(systemContext: string, window: seq<string>, logMsg: string, reply: Reply): Step
  {
    var ask := Ask(ChatRequest(systemContext, window + [logMsg]));
    if !Succeeds(reply) then Step(window, [ask])
    else
      var r := Concat(reply.chunks);
      if r == Sentinel then Step(window, [ask, Record(NonQueryTag, logMsg, "")])
      else Step(Slide(window, logMsg), [ask, Record(QueryTag, logMsg, r), Send(r)])
  }

  /** Every run asks the model exactly once, first, with the current window plus the new
      message, and does not change the window while building that request. */
  lemma HandleAsksFirst(systemContext: string, window: seq<string>, logMsg: string, reply: Reply)
    ensures var s := Handle(systemContext, window, logMsg, reply);
      && |s.effects| >= 1
      && s.effects[0] == Ask(Chat(systemContext + "\nmensagens de contexto:" + ContextBlock(window) + " ", logMsg))
      && forall i :: 1 <= i < |s.effects| ==> !s.effects[i].Ask?
  {
    ChatRequestOfWindow(systemContext, window, logMsg);
  }

  /** A call followed by a record records just that row and sends nothing. */
  lemma ObservedAskThenRecord(ask: Effect, record: Effect)
    requires ask.Ask? && record.Record?
    ensures Recorded([ask, record]) == [record] && Sent([ask, record]) == []
  {
    ObservedOne(ask);
    ObservedOne(record);
    assert [ask, record] == [ask] + [record];
    ObservedAppend([ask], [record]);
  }

  /** A call, a record and a send record just that row and send just that text. */
  lemma ObservedAskRecordSend(ask: Effect, record: Effect, text: string)
    requires ask.Ask? && record.Record?
    ensures Recorded([ask, record, Send(text)]) == [record] && Sent([ask, record, Send(text)]) == [text]
  {
    ObservedAskThenRecord(ask, record);
    ObservedOne(Send(text));
    assert [ask, record, Send(text)] == [ask, record] + [Send(text)];
    ObservedAppend([ask, record], [Send(text)]);
  }

  /** A failed completion records nothing, sends nothing and keeps the window. */
  lemma HandleOnError(systemContext: string, window: seq<string>, logMsg: string, reply: Reply)
    requires !Succeeds(reply)
    ensures var s := Handle(systemContext, window, logMsg, reply);
      Recorded(s.effects) == [] && Sent(s.effects) == [] && s.window == window
  {
    var s := Handle(systemContext, window, logMsg, reply);
    assert s.effects[..0] == [];
  }

  /** A reply that is exactly the sentinel is recorded once as a non-query with an empty
      response, is not sent, and leaves the window alone. */
  lemma HandleOnSentinel(systemContext: string, window: seq<string>, logMsg: string, reply: Reply)
    requires Succeeds(reply) && Concat(reply.chunks) == Sentinel
    ensures var s := Handle(systemContext, window, logMsg, reply);
      && Recorded(s.effects) == [Record(NonQueryTag, logMsg, "")]
      && Sent(s.effects) == []
      && s.window == window
  {
    var ask := Ask(ChatRequest(systemContext, window + [logMsg]));
    var record := Record(NonQueryTag, logMsg, "");
    assert Handle(systemContext, window, logMsg, reply) == Step(window, [ask, record]);
    ObservedAskThenRecord(ask, record);
  }

  /** Any other reply, the empty one included, is recorded once as a query with that
      response, then sent, and then the incoming message (not the reply) enters the window. */
  lemma HandleOnAnswer(systemContext: string, window: seq<string>, logMsg: string, reply: Reply)
    requires Succeeds(reply) && Concat(reply.chunks) != Sentinel
    ensures var s := Handle(systemContext, window, logMsg, reply);
      var r := Concat(reply.chunks);
      && Recorded(s.effects) == [Record(QueryTag, logMsg, r)]
      && Sent(s.effects) == [r]
      && s.effects[|s.effects| - 2..] == [Record(QueryTag, logMsg, r), Send(r)]
      && s.window == Slide(window, logMsg)
      && s.window[|s.window| - 1] == logMsg
  {
    var r := Concat(reply.chunks);
    var ask := Ask(ChatRequest(systemContext, window + [logMsg]));
    var record := Record(QueryTag, logMsg, r);
    assert Handle(systemContext, window, logMsg, reply) == Step(Slide(window, logMsg), [ask, record, Send(r)]);
    ObservedAskRecordSend(ask, record, r);
  }

  /** No handler run takes the window past its bound. */
  lemma HandleKeepsBound(systemContext: string, window: seq<string>, logMsg: string, reply: Reply)
    requires |window| <= WindowSize
    ensures |Handle(systemContext, window, logMsg, reply).window| <= WindowSize
  {
  }

  /** The relay's process-wide state: the static system context read at start-up, the
      rolling context window, and the effects produced so far. */
  class Relay {
    const systemContext: string
    var contextQuery: seq<string>
    var effects: seq<Effect>

    constructor (systemContext: string)
      ensures this.systemContext == systemContext
      ensures contextQuery == [] && effects == []
    {
      this.systemContext := systemContext;
      contextQuery := [];
      effects := [];
    }

    /** `updateContext`: push `entry`, evicting the oldest entry on overflow. */
    method UpdateContext(entry: string)
      modifies this`contextQuery
      ensures contextQuery == Slide(old(contextQuery), entry)
      ensures |old(contextQuery)| <= WindowSize ==> |contextQuery| <= WindowSize
    {
      contextQuery := contextQuery + [entry];
      if |contextQuery| > WindowSize {
        contextQuery := contextQuery[1..];
      }
    }

    /** `handler` for one incoming message, given the model's `reply`. */
    method Handler(m: Message, reply: Reply)
      modifies this`contextQuery, this`effects
      ensures var s := Handle(systemContext, old(contextQuery), LogMsg(m), reply);
        contextQuery == s.window && effects == old(effects) + s.effects
      ensures |old(contextQuery)| <= WindowSize ==> |contextQuery| <= WindowSize
    {
      var logMsg := LogMsg(m);
      var q := contextQuery + [logMsg];
      var request, r, failed := GetOpenAI(systemContext, q, reply);
      effects := effects + [Ask(request)];
      if failed {
        return;
      }
      if r == Sentinel {
        effects := effects + [Record(NonQueryTag, logMsg, "")];
        return;
      }
      effects := effects + [Record(QueryTag, logMsg, r)];
      effects := effects + [Send(r)];
      UpdateContext(logMsg);
    }
  }
}
