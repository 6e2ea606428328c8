// Chat responses on the way in, Messages API responses and stream events on the way out.
module AnthropicTypes {
  import opened Text

  // Tool arguments as far as this layer looks at them: their JSON rendering, which may
  // fail, and the value of a string entry named "query" ("" if there is none).
  datatype Arguments = Arguments(json: Option<string>, query: string)

  const NO_ARGUMENTS := Arguments(Some("{}"), "")

  datatype ToolCall = ToolCall(id: string, name: string, args: Arguments)

  datatype Metrics = Metrics(promptEvalCount: int, promptEvalCachedCount: Option<int>, evalCount: int)

  datatype ChatResponse = ChatResponse(
    model: string, content: string, thinking: string, toolCalls: seq<ToolCall>,
    done: bool, doneReason: string, metrics: Metrics)

  datatype Usage = Usage(inputTokens: int, cacheRead: Option<int>, outputTokens: int)

  datatype SearchOutcome = Found(results: seq<string>) | SearchError(code: string)

  datatype ContentBlock =
    | ThinkingBlock(thinking: string)
    | TextBlock(text: string)
    | ToolUse(id: string, name: string, input: Arguments)
    | ServerToolUse(id: string, name: string, input: Arguments)
    | WebSearchToolResult(toolUseID: string, outcome: SearchOutcome)

  datatype MessagesResponse = MessagesResponse(
    id: string, model: string, content: seq<ContentBlock>, stopReason: string, usage: Usage)

  datatype Delta = ThinkingDelta(thinking: string) | TextDelta(text: string) | InputJSONDelta(json: string)

  datatype StreamEvent =
    | MessageStart(id: string, model: string, startUsage: Usage)
    | BlockStart(index: nat, contentBlock: ContentBlock)
    | BlockDelta(index: nat, delta: Delta)
    | BlockStop(index: nat)
    | MessageDelta(stopReason: string, usage: Usage)
    | MessageStop

  function Max(a: int, b: int): int {
    if a < b then b else a
  }

  function Min(a: int, b: int): int {
    if a < b then a else b
  }

  function IntValue(v: Option<int>): int {
    if v.Some? then v.value else 0
  }

  // Splits the prompt tokens into uncached and cache-read ones; the two always add up.
  function UsageFromMetrics(m: Metrics): (u: Usage)
    ensures u.inputTokens + IntValue(u.cacheRead) == Max(0, m.promptEvalCount)
    ensures 0 <= u.inputTokens && 0 <= IntValue(u.cacheRead)
    ensures u.cacheRead.Some? <==> m.promptEvalCachedCount.Some?
  {
    var total := Max(0, m.promptEvalCount);
    var cached :=
      if m.promptEvalCachedCount.Some? then Some(Min(Max(0, m.promptEvalCachedCount.value), total))
      else None;
    Usage(total - IntValue(cached), cached, m.evalCount)
  }

  function MapStopReason(reason: string, hasToolCalls: bool): string {
    if hasToolCalls then "tool_use"
    else if reason == "stop" then "end_turn"
    else if reason == "length" then "max_tokens"
    else if reason != "" then "stop_sequence"
    else ""
  }

  function ToolBlocks(calls: seq<ToolCall>): seq<ContentBlock> {
    if calls == [] then []
    else [ToolUse(calls[0].id, calls[0].name, calls[0].args)] + ToolBlocks(calls[1..])
  }

  function MessageBlocks(thinking: string, content: string, calls: seq<ToolCall>): seq<ContentBlock> {
    (if thinking != "" then [ThinkingBlock(thinking)] else [])
    + (if content != "" then [TextBlock(content)] else [])
    + ToolBlocks(calls)
  }

  // The complete response, as a client that does not stream receives it.
  function ToMessagesResponse(id: string, r: ChatResponse): MessagesResponse {
    MessagesResponse(id, r.model, MessageBlocks(r.thinking, r.content, r.toolCalls),
                     MapStopReason(r.doneReason, r.toolCalls != []), UsageFromMetrics(r.metrics))
  }
}

// The client's side of the stream: which event may follow which.
module StreamProtocol {
  import opened Text
  import opened AnthropicTypes

  datatype Kind = ThinkingKind | TextKind | ToolKind | ServerKind

  // Before the start; streaming, with the next block index and the kind of the block that is
  // open at that index; after message_delta; after message_stop; or out of protocol.
  datatype Phase = NotStarted | Streaming(next: nat, open: Option<Kind>) | Closing | Finished | Broken

  function KindOf(b: ContentBlock): Kind {
    match b
    case ThinkingBlock(_) => ThinkingKind
    case TextBlock(_) => TextKind
    case ToolUse(_, _, _) => ToolKind
    case ServerToolUse(_, _, _) => ServerKind
    case WebSearchToolResult(_, _) => ServerKind
  }

  function KindOfDelta(d: Delta): Kind {
    match d
    case ThinkingDelta(_) => ThinkingKind
    case TextDelta(_) => TextKind
    case InputJSONDelta(_) => ToolKind
  }

  function Accept(p: Phase, e: StreamEvent): Phase {
    match e
    case MessageStart(_, _, _) =>
      if p.NotStarted? then Streaming(0, None) else Broken
    case BlockStart(i, b) =>
      if p.Streaming? && p.open.None? && i == p.next then p.(open := Some(KindOf(b))) else Broken
    case BlockDelta(i, d) =>
      if p.Streaming? && p.open == Some(KindOfDelta(d)) && i == p.next then p else Broken
    case BlockStop(i) =>
      if p.Streaming? && p.open.Some? && i == p.next then Streaming(p.next + 1, None) else Broken
    case MessageDelta(_, _) =>
      if p.Streaming? && p.open.None? then Closing else Broken
    case MessageStop =>
      if p.Closing? then Finished else Broken
  }

  function AcceptAll(p: Phase, events: seq<StreamEvent>): Phase
    decreases |events|
  {
    if events == [] then p else AcceptAll(Accept(p, events[0]), events[1..])
  }

  predicate WellFormed(events: seq<StreamEvent>) {
    AcceptAll(NotStarted, events) == Finished
  }

  lemma {:induction false} AcceptConcat(p: Phase, a: seq<StreamEvent>, b: seq<StreamEvent>)
    ensures AcceptAll(p, a + b) == AcceptAll(AcceptAll(p, a), b)
    decreases |a|
  {
    if a == [] {
      assert a + b == b;
    } else {
      assert (a + b)[1..] == a[1..] + b;
      AcceptConcat(Accept(p, a[0]), a[1..], b);
    }
  }

  lemma {:induction false} AcceptOne(p: Phase, e: StreamEvent)
    ensures AcceptAll(p, [e]) == Accept(p, e)
  {
    assert [e][1..] == [];
  }

  lemma {:induction false} BrokenStays(events: seq<StreamEvent>)
    ensures AcceptAll(Broken, events) == Broken
    decreases |events|
  {
    if events != [] {
      BrokenStays(events[1..]);
    }
  }

  function Starts(events: seq<StreamEvent>): nat {
    if events == [] then 0
    else if events[0].MessageStart? then 1 + Starts(events[1..])
    else Starts(events[1..])
  }

  function Stops(events: seq<StreamEvent>): nat {
    if events == [] then 0
    else if events[0].MessageStop? then 1 + Stops(events[1..])
    else Stops(events[1..])
  }

  // Indices of the blocks that are opened, in order.
  function Opened(events: seq<StreamEvent>): seq<nat> {
    if events == [] then []
    else if events[0].BlockStart? then [events[0].index] + Opened(events[1..])
    else Opened(events[1..])
  }

  function Closed(events: seq<StreamEvent>): seq<nat> {
    if events == [] then []
    else if events[0].BlockStop? then [events[0].index] + Closed(events[1..])
    else Closed(events[1..])
  }

  function Count(from: nat, n: nat): seq<nat> {
    seq(n, i requires 0 <= i < n => from + i)
  }

  // From index n on, opened blocks o and closed blocks c pair up, one after the other.
  ghost predicate Paired(n: nat, open: Option<Kind>, o: seq<nat>, c: seq<nat>) {
    c == Count(n, |c|) && c == if open.None? then o else [n] + o
  }

  lemma CountStep(n: nat, k: nat)
    ensures [n] + Count(n + 1, k) == Count(n, k + 1)
  {
  }

  lemma {:induction false} BlocksPair(n: nat, open: Option<Kind>, events: seq<StreamEvent>)
    requires AcceptAll(Streaming(n, open), events) == Finished
    ensures Paired(n, open, Opened(events), Closed(events))
    decreases |events|
  {
    var e, rest := events[0], events[1..];
    var p := Accept(Streaming(n, open), e);
    if p.Streaming? {
      BlocksPair(p.next, p.open, rest);
      if e.BlockStop? {
        CountStep(n, |Closed(rest)|);
      }
    } else if p.Closing? {
      AfterClosing(rest);
    } else {
      BrokenStays(rest);
    }
  }

  lemma {:induction false} EndsOnce(n: nat, open: Option<Kind>, events: seq<StreamEvent>)
    requires AcceptAll(Streaming(n, open), events) == Finished
    ensures Starts(events) == 0 && Stops(events) == 1
    ensures events != [] && events[|events| - 1].MessageStop?
    decreases |events|
  {
    var e, rest := events[0], events[1..];
    var p := Accept(Streaming(n, open), e);
    if p.Streaming? {
      EndsOnce(p.next, p.open, rest);
    } else if p.Closing? {
      AfterClosing(rest);
    } else {
      BrokenStays(rest);
    }
  }

  lemma {:induction false} AfterClosing(events: seq<StreamEvent>)
    requires AcceptAll(Closing, events) == Finished
    ensures events == [MessageStop]
    ensures Starts(events) == 0 && Stops(events) == 1 && Opened(events) == Closed(events) == []
  {
    var p := Accept(Closing, events[0]);
    if events[1..] != [] {
      BrokenStays(events[1..][1..]);
      BrokenStays(events[1..]);
    }
  }

  // A well-formed stream starts with its only message_start and ends with its only message_stop;
  // its blocks are numbered 0, 1, 2, ... and each is closed before the next is opened.
  lemma {:induction false} WellFormedShape(events: seq<StreamEvent>)
    requires WellFormed(events)
    ensures events != [] && events[0].MessageStart? && events[|events| - 1].MessageStop?
    ensures Starts(events) == 1 && Stops(events) == 1
    ensures Opened(events) == Closed(events) == Count(0, |Opened(events)|)
  {
    if events[0].MessageStart? {
      BlocksPair(0, None, events[1..]);
      EndsOnce(0, None, events[1..]);
    } else {
      BrokenStays(events[1..]);
    }
  }
}
