// The web search writer: passes the converter's stream through, shadows where it stands, and
// finishes the stream itself once a background search has been started.
module WebSearchWriters {
  import opened Text
  import opened AnthropicTypes
  import opened StreamConverters
  import opened WebSearchLoop

  // What the writer remembers of the events it let through.
  datatype Shadow = Shadow(started: bool, hasOpen: bool, openIndex: nat, next: nat, terminal: bool)

  function AtLeast(n: nat, m: nat): nat {
    if m > n then m else n
  }

  function Track(s: Shadow, e: StreamEvent): Shadow {
    match e
    case MessageStart(_, _, _) => s.(started := true)
    case BlockStart(i, _) => s.(hasOpen := true, openIndex := i, next := AtLeast(s.next, i + 1))
    case BlockStop(i) =>
      s.(hasOpen := s.hasOpen && s.openIndex != i, next := AtLeast(s.next, i + 1))
    case MessageStop => s.(terminal := true)
    case _ => s
  }

  function TrackAll(s: Shadow, events: seq<StreamEvent>): Shadow
    decreases |events|
  {
    if events == [] then s else TrackAll(Track(s, events[0]), events[1..])
  }

  datatype Observed = Observed(prompt: int, cached: Option<int>, eval: int)

  datatype Body = ErrorBody | MessageBody(response: MessagesResponse)

  datatype Input = ErrorStatus | Undecodable | Chat(response: ChatResponse)

  datatype WriterState = WriterState(
    req: Request, stream: bool, estimatedInputTokens: int,
    converter: ConverterState, shadow: Shadow, observed: Observed,
    loopInFlight: bool, loopBase: Usage, loopResult: Option<LoopResult>,
    out: seq<StreamEvent>, bodies: seq<Body>)

  // ---------- usage ----------

  function Record(o: Observed, m: Metrics): Observed {
    Observed(if m.promptEvalCount > o.prompt then m.promptEvalCount else o.prompt,
             MaxOptional(o.cached, m.promptEvalCachedCount),
             if m.evalCount > o.eval then m.evalCount else o.eval)
  }

  function CurrentUsage(o: Observed): Usage {
    UsageFromMetrics(Metrics(o.prompt, o.cached, o.eval))
  }

  function UsageWith(o: Observed, m: Metrics): Usage {
    UsageFromMetrics(Metrics(Max(m.promptEvalCount, o.prompt), MaxOptional(m.promptEvalCachedCount, o.cached),
                             Max(m.evalCount, o.eval)))
  }

  // Adds what was observed after the loop had started from its base.
  function ApplyDelta(u: Usage, o: Observed, base: Usage): Usage {
    var now := CurrentUsage(o);
    Usage(u.inputTokens + Max(0, now.inputTokens - base.inputTokens),
          if now.cacheRead.Some? then
            AddOptional(u.cacheRead, Some(Max(0, IntValue(now.cacheRead) - IntValue(base.cacheRead))))
          else u.cacheRead,
          u.outputTokens + Max(0, o.eval - base.outputTokens))
  }

  // ---------- finishing the stream ----------

  function ErrorResponse(req: Request, code: string, query: string, usage: Usage): MessagesResponse {
    var id := ServerToolUseID(req.messageID);
    MessagesResponse(req.messageID, req.model,
      [ServerToolUse(id, "web_search", QueryArgs(query)), WebSearchToolResult(id, SearchError(code))],
      "end_turn", usage)
  }

  function BlockEvents(i: nat, b: ContentBlock): seq<StreamEvent> {
    if b.TextBlock? then [BlockStart(i, TextBlock("")), BlockDelta(i, TextDelta(b.text)), BlockStop(i)]
    else [BlockStart(i, b), BlockStop(i)]
  }

  function ContentEvents(n: nat, content: seq<ContentBlock>): seq<StreamEvent>
    decreases |content|
  {
    if content == [] then [] else BlockEvents(n, content[0]) + ContentEvents(n + 1, content[1..])
  }

  function StartEvents(w: WriterState, u: Usage): seq<StreamEvent> {
    if w.shadow.started then []
    else
      var input := if u.inputTokens == 0 && IntValue(u.cacheRead) == 0 then w.estimatedInputTokens else u.inputTokens;
      [MessageStart(w.req.messageID, w.req.model, Usage(input, u.cacheRead, 0))]
  }

  function CloseEvents(s: Shadow): seq<StreamEvent> {
    if s.hasOpen then [BlockStop(s.openIndex)] else []
  }

  function NextAfterClose(s: Shadow): nat {
    if s.hasOpen then AtLeast(s.next, s.openIndex + 1) else s.next
  }

  function EndEvents(r: MessagesResponse): seq<StreamEvent> {
    [MessageDelta(r.stopReason, r.usage), MessageStop]
  }

  function TerminalEvents(w: WriterState, r: MessagesResponse): seq<StreamEvent> {
    StartEvents(w, r.usage) + CloseEvents(w.shadow) + ContentEvents(NextAfterClose(w.shadow), r.content) + EndEvents(r)
  }

  function Terminal(w: WriterState, r: MessagesResponse): WriterState {
    if w.shadow.terminal then w
    else if !w.stream then w.(bodies := w.bodies + [MessageBody(r)], shadow := w.shadow.(terminal := true))
    else w.(out := w.out + TerminalEvents(w, r),
            shadow := Shadow(true, false, w.shadow.openIndex, NextAfterClose(w.shadow) + |r.content|, true))
  }

  // ---------- one upstream write ----------

  function PassThrough(w: WriterState, r: ChatResponse): WriterState {
    var o := ProcessOne(w.converter, r);
    w.(converter := o.state, out := w.out + o.events, shadow := TrackAll(w.shadow, o.events))
  }

  function StartWorker(w: WriterState, r: ChatResponse, call: ToolCall, s: Services): WriterState {
    if w.loopInFlight then w
    else
      var base := UsageWith(w.observed, r.metrics);
      w.(loopBase := base, loopInFlight := true,
         loopResult := Some(RunLoop(w.req, s, MAX_WEB_SEARCH_LOOPS, r, call, base)))
  }

  // The response the writer ends with, given what the loop came back with.
  function Ending(req: Request, o: Outcome, usage: Usage): MessagesResponse {
    match o
    case Failed(code, query, _) => ErrorResponse(req, code, query, usage)
    case Answer(r) => r.(usage := usage)
  }

  function WriteResult(w: WriterState): WriterState {
    if w.loopResult.None? then Terminal(w, ErrorResponse(w.req, "api_error", "", CurrentUsage(w.observed)))
    else
      var o := w.loopResult.value.outcome;
      var usage := ApplyDelta(OutcomeUsage(o), w.observed, w.loopBase);
      Terminal(w.(loopResult := None, loopInFlight := false), Ending(w.req, o, usage))
  }

  function StepChat(w: WriterState, r: ChatResponse, s: Services): WriterState {
    Answered(w.(observed := Record(w.observed, r.metrics)), r, s)
  }

  // The answer to a response whose usage has been recorded.
  function Answered(w: WriterState, r: ChatResponse, s: Services): WriterState {
    if w.stream && w.loopInFlight then
      if r.done then WriteResult(w) else w
    else match FindWebSearch(r.toolCalls)
      case None =>
        if w.stream then PassThrough(w, r)
        else w.(bodies := w.bodies + [MessageBody(ToMessagesResponse(w.req.messageID, r))])
      case Some(call) =>
        if w.stream then
          var started := StartWorker(w, r, call, s);
          if r.done then WriteResult(started) else started
        else
          var o := RunLoop(w.req, s, MAX_WEB_SEARCH_LOOPS, r, call, UsageWith(w.observed, r.metrics)).outcome;
          Terminal(w, Ending(w.req, o, OutcomeUsage(o)))
  }

  function Step(w: WriterState, i: Input, s: Services): WriterState {
    if w.shadow.terminal then w
    else match i
      case ErrorStatus => w.(bodies := w.bodies + [ErrorBody])
      case Undecodable => w
      case Chat(r) => StepChat(w, r, s)
  }

  class WebSearchAnthropicWriter {
    const req: Request
    const stream: bool
    const estimatedInputTokens: int
    const converter: StreamConverter
    var terminalSent: bool
    var observedPromptEvalCount: int
    var observedPromptEvalCachedCount: Option<int>
    var observedEvalCount: int
    var loopInFlight: bool
    var loopBase: Usage
    var loopResultCh: Option<LoopResult>
    var streamMessageStarted: bool
    var streamHasOpenBlock: bool
    var streamOpenBlockIndex: nat
    var streamNextIndex: nat
    // What the client has received: events of a stream, and plain bodies.
    var out: seq<StreamEvent>
    var bodies: seq<Body>

    constructor (req: Request, stream: bool, estimatedInputTokens: int)
      ensures State() == NewWriter(req, stream, estimatedInputTokens)
      ensures fresh(converter)
    {
      this.req, this.stream, this.estimatedInputTokens := req, stream, estimatedInputTokens;
      converter := new StreamConverter(req.messageID, req.model, estimatedInputTokens);
      terminalSent := false;
      observedPromptEvalCount, observedPromptEvalCachedCount, observedEvalCount := 0, None, 0;
      loopInFlight, loopBase, loopResultCh := false, Usage(0, None, 0), None;
      streamMessageStarted, streamHasOpenBlock, streamOpenBlockIndex, streamNextIndex := false, false, 0, 0;
      out, bodies := [], [];
    }

    function ShadowState(): Shadow
      reads this
    {
      Shadow(streamMessageStarted, streamHasOpenBlock, streamOpenBlockIndex, streamNextIndex, terminalSent)
    }

    function ObservedState(): Observed
      reads this
    {
      Observed(observedPromptEvalCount, observedPromptEvalCachedCount, observedEvalCount)
    }

    function State(): WriterState
      reads this, converter
    {
      WriterState(req, stream, estimatedInputTokens, converter.State(), ShadowState(), ObservedState(),
                  loopInFlight, loopBase, loopResultCh, out, bodies)
    }

    // Write handles one upstream body; s stands for whatever the search and chat services answer.
    method Write(input: Input, s: Services) returns (ok: bool)
      modifies this, converter
      ensures State() == Step(old(State()), input, s)
      ensures ok == (old(terminalSent) || input != Undecodable)
    {
      if terminalSent {
        return true;
      }
      match input
      case ErrorStatus =>
        bodies := bodies + [ErrorBody];
        return true;
      case Undecodable =>
        return false;
      case Chat(r) =>
        RecordObservedUsage(r.metrics);
        WriteChat(r, s);
        return true;
    }

    method WriteChat(r: ChatResponse, s: Services)
      requires !terminalSent
      modifies this, converter
      ensures State() == Answered(old(State()), r, s)
    {
      if stream && loopInFlight {
        if r.done {
          WriteLoopResult();
        }
        return;
      }
      var call, hasOtherTools := FindWebSearchToolCall(r.toolCalls);
      if call.None? {
        if stream {
          WritePassthroughStreamChunk(r);
        } else {
          bodies := bodies + [MessageBody(ToMessagesResponse(req.messageID, r))];
        }
        return;
      }
      if stream {
        StartLoopWorker(r, call.value, s);
        if r.done {
          WriteLoopResult();
        }
        return;
      }
      var initialUsage := UsageWithObservedMetrics(r.metrics);
      var outcome, _ := RunWebSearchLoop(req, s, MAX_WEB_SEARCH_LOOPS, r, call.value, initialUsage);
      match outcome
      case Failed(code, query, usage) => SendError(code, query, usage);
      case Answer(response) => WriteTerminalResponse(response);
    }

    method RecordObservedUsage(m: Metrics)
      modifies this`observedPromptEvalCount, this`observedPromptEvalCachedCount, this`observedEvalCount
      ensures ObservedState() == Record(old(ObservedState()), m)
    {
      if m.promptEvalCount > observedPromptEvalCount {
        observedPromptEvalCount := m.promptEvalCount;
      }
      observedPromptEvalCachedCount := MaxOptional(observedPromptEvalCachedCount, m.promptEvalCachedCount);
      if m.evalCount > observedEvalCount {
        observedEvalCount := m.evalCount;
      }
    }

    method CurrentObservedUsage() returns (u: Usage)
      ensures u == CurrentUsage(ObservedState())
    {
      u := UsageFromMetrics(Metrics(observedPromptEvalCount, observedPromptEvalCachedCount, observedEvalCount));
    }

    method UsageWithObservedMetrics(m: Metrics) returns (u: Usage)
      ensures u == UsageWith(ObservedState(), m)
    {
      var prompt := Max(m.promptEvalCount, observedPromptEvalCount);
      var cached := MaxOptional(m.promptEvalCachedCount, observedPromptEvalCachedCount);
      u := UsageFromMetrics(Metrics(prompt, cached, Max(m.evalCount, observedEvalCount)));
    }

    method ApplyObservedUsageDelta(usage: Usage) returns (u: Usage)
      ensures u == ApplyDelta(usage, ObservedState(), loopBase)
    {
      u := usage;
      var observed := CurrentObservedUsage();
      var delta := observed.inputTokens - loopBase.inputTokens;
      if delta > 0 {
        u := u.(inputTokens := u.inputTokens + delta);
      }
      if observed.cacheRead.Some? {
        var more := Max(0, IntValue(observed.cacheRead) - IntValue(loopBase.cacheRead));
        u := u.(cacheRead := AddOptional(u.cacheRead, Some(more)));
      }
      var deltaOut := observedEvalCount - loopBase.outputTokens;
      if deltaOut > 0 {
        u := u.(outputTokens := u.outputTokens + deltaOut);
      }
    }

    method StartLoopWorker(r: ChatResponse, call: ToolCall, s: Services)
      modifies this`loopBase, this`loopInFlight, this`loopResultCh
      ensures State() == StartWorker(old(State()), r, call, s)
    {
      if loopInFlight {
        return;
      }
      loopBase := UsageWithObservedMetrics(r.metrics);
      loopInFlight := true;
      var outcome, followUps := RunWebSearchLoop(req, s, MAX_WEB_SEARCH_LOOPS, r, call, loopBase);
      loopResultCh := Some(LoopResult(outcome, followUps));
    }

    method WriteLoopResult()
      modifies this
      ensures State() == WriteResult(old(State()))
    {
      if loopResultCh.None? {
        var usage := CurrentObservedUsage();
        SendError("api_error", "", usage);
        return;
      }
      var outcome := loopResultCh.value.outcome;
      loopResultCh := None;
      loopInFlight := false;
      match outcome
      case Failed(code, query, before) =>
        var usage := ApplyObservedUsageDelta(before);
        SendError(code, query, usage);
      case Answer(response) =>
        var usage := ApplyObservedUsageDelta(response.usage);
        WriteTerminalResponse(response.(usage := usage));
    }

    method SendError(code: string, query: string, usage: Usage)
      modifies this
      ensures State() == Terminal(old(State()), ErrorResponse(req, code, query, usage))
    {
      WriteTerminalResponse(ErrorResponse(req, code, query, usage));
    }

    method WritePassthroughStreamChunk(r: ChatResponse)
      modifies this, converter
      ensures State() == PassThrough(old(State()), r)
    {
      var events := converter.Process(r);
      WriteEvents(events);
    }

    method WriteEvents(events: seq<StreamEvent>)
      modifies this`out, this`streamMessageStarted, this`streamHasOpenBlock, this`streamOpenBlockIndex,
               this`streamNextIndex, this`terminalSent
      ensures out == old(out) + events && ShadowState() == TrackAll(old(ShadowState()), events)
    {
      ghost var whole := TrackAll(ShadowState(), events);
      for k := 0 to |events|
        invariant TrackAll(ShadowState(), events[k..]) == whole
        invariant out == old(out) + events[..k]
      {
        assert events[k..][1..] == events[k + 1..] && events[..k + 1] == events[..k] + [events[k]];
        TrackEvent(events[k]);
        out := out + [events[k]];
      }
      assert events[|events|..] == [] && events[..|events|] == events;
    }

    method TrackEvent(e: StreamEvent)
      modifies this`streamMessageStarted, this`streamHasOpenBlock, this`streamOpenBlockIndex,
               this`streamNextIndex, this`terminalSent
      ensures ShadowState() == Track(old(ShadowState()), e)
    {
      match e
      case MessageStart(_, _, _) =>
        streamMessageStarted := true;
      case BlockStart(i, _) =>
        streamHasOpenBlock := true;
        streamOpenBlockIndex := i;
        if i + 1 > streamNextIndex {
          streamNextIndex := i + 1;
        }
      case BlockStop(i) =>
        if streamHasOpenBlock && streamOpenBlockIndex == i {
          streamHasOpenBlock := false;
        }
        if i + 1 > streamNextIndex {
          streamNextIndex := i + 1;
        }
      case MessageStop =>
        terminalSent := true;
      case _ =>
    }

    method EnsureStreamMessageStart(usage: Usage)
      modifies this`out, this`streamMessageStarted
      ensures out == old(out) + StartEvents(old(State()), usage) && streamMessageStarted
    {
      if streamMessageStarted {
        return;
      }
      var inputTokens := usage.inputTokens;
      if inputTokens == 0 && IntValue(usage.cacheRead) == 0 {
        inputTokens := estimatedInputTokens;
      }
      out := out + [MessageStart(req.messageID, req.model, Usage(inputTokens, usage.cacheRead, 0))];
      streamMessageStarted := true;
    }

    method CloseOpenStreamBlock()
      modifies this`out, this`streamHasOpenBlock, this`streamNextIndex
      ensures out == old(out) + CloseEvents(old(ShadowState()))
      ensures !streamHasOpenBlock && streamNextIndex == NextAfterClose(old(ShadowState()))
    {
      if !streamHasOpenBlock {
        return;
      }
      out := out + [BlockStop(streamOpenBlockIndex)];
      if streamOpenBlockIndex + 1 > streamNextIndex {
        streamNextIndex := streamOpenBlockIndex + 1;
      }
      streamHasOpenBlock := false;
    }

    method WriteStreamContentBlocks(content: seq<ContentBlock>)
      modifies this`out, this`streamNextIndex
      ensures out == old(out) + ContentEvents(old(streamNextIndex), content)
      ensures streamNextIndex == old(streamNextIndex) + |content|
    {
      ghost var whole := out + ContentEvents(streamNextIndex, content);
      for k := 0 to |content|
        invariant streamNextIndex == old(streamNextIndex) + k
        invariant out + ContentEvents(streamNextIndex, content[k..]) == whole
      {
        var b := content[k];
        assert content[k..][1..] == content[k + 1..];
        Assoc(out, BlockEvents(streamNextIndex, b), ContentEvents(streamNextIndex + 1, content[k + 1..]));
        if b.TextBlock? {
          out := out + [BlockStart(streamNextIndex, TextBlock("")),
                        BlockDelta(streamNextIndex, TextDelta(b.text)), BlockStop(streamNextIndex)];
        } else {
          out := out + [BlockStart(streamNextIndex, b), BlockStop(streamNextIndex)];
        }
        streamNextIndex := streamNextIndex + 1;
      }
      assert content[|content|..] == [];
    }

    method WriteTerminalResponse(r: MessagesResponse)
      modifies this
      ensures State() == Terminal(old(State()), r)
    {
      if terminalSent {
        return;
      }
      if !stream {
        bodies := bodies + [MessageBody(r)];
        terminalSent := true;
        return;
      }
      WriteStreamEnd(r);
    }

    method WriteStreamEnd(r: MessagesResponse)
      modifies this`out, this`streamMessageStarted, this`streamHasOpenBlock, this`streamNextIndex, this`terminalSent
      ensures out == old(out) + TerminalEvents(old(State()), r)
      ensures ShadowState() == Shadow(true, false, old(streamOpenBlockIndex),
                                      NextAfterClose(old(ShadowState())) + |r.content|, true)
    {
      ghost var w := State();
      EnsureStreamMessageStart(r.usage);
      CloseOpenStreamBlock();
      WriteStreamContentBlocks(r.content);
      out := out + [MessageDelta(r.stopReason, r.usage), MessageStop];
      terminalSent := true;
      Regroup(w.out, StartEvents(w, r.usage), CloseEvents(w.shadow),
              ContentEvents(NextAfterClose(w.shadow), r.content), EndEvents(r));
    }
  }

  lemma Regroup<T>(a: seq<T>, b: seq<T>, c: seq<T>, d: seq<T>, e: seq<T>)
    ensures a + b + c + d + e == a + (b + c + d + e)
  {
  }

  function NewWriter(req: Request, stream: bool, estimatedInputTokens: int): WriterState {
    WriterState(req, stream, estimatedInputTokens, Fresh(req.messageID, req.model, estimatedInputTokens),
                Shadow(false, false, 0, 0, false), Observed(0, None, 0), false, Usage(0, None, 0), None, [], [])
  }
}
