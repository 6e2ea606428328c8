// Chat responses to Messages API stream events: the converter and its whole runs.
module StreamConverters {
  import opened Text
  import opened AnthropicTypes
  import opened StreamProtocol

  datatype ConverterState = ConverterState(
    id: string, model: string, estimatedInputTokens: int,
    firstWrite: bool, contentIndex: nat,
    inputTokens: int, cacheReadTokens: Option<int>, outputTokens: int,
    thinkingStarted: bool, thinkingDone: bool, textStarted: bool,
    toolCallsSent: set<string>)
  {
    predicate ThinkingOpen() {
      thinkingStarted && !thinkingDone
    }

    // At most one block is open, and nothing has happened before the first write.
    predicate Valid() {
      && (thinkingDone ==> thinkingStarted)
      && !(textStarted && ThinkingOpen())
      && (firstWrite ==> contentIndex == 0 && !thinkingStarted && !textStarted)
    }

    // Where the client is, as far as the converter has told it.
    function Client(): Phase {
      if firstWrite then NotStarted
      else Streaming(contentIndex,
                     if textStarted then Some(TextKind) else if ThinkingOpen() then Some(ThinkingKind) else None)
    }
  }

  // What a part of one response does: the state it leaves and the events it adds.
  datatype Out = Out(state: ConverterState, events: seq<StreamEvent>) {
    function Then(later: Out): Out {
      Out(later.state, events + later.events)
    }
  }

  function Fresh(id: string, model: string, estimatedInputTokens: int): ConverterState {
    ConverterState(id, model, estimatedInputTokens, true, 0, 0, None, 0, false, false, false, {})
  }

  function StartPart(c: ConverterState, m: Metrics): Out {
    if !c.firstWrite then Out(c, [])
    else
      var u := UsageFromMetrics(m);
      var input := if u.inputTokens == 0 && IntValue(u.cacheRead) == 0 && c.estimatedInputTokens > 0
                   then c.estimatedInputTokens else u.inputTokens;
      Out(c.(firstWrite := false, inputTokens := input, cacheReadTokens := u.cacheRead),
          [MessageStart(c.id, c.model, Usage(input, u.cacheRead, 0))])
  }

  function CloseText(c: ConverterState): Out {
    if c.textStarted then
      Out(c.(contentIndex := c.contentIndex + 1, textStarted := false), [BlockStop(c.contentIndex)])
    else Out(c, [])
  }

  function CloseThinking(c: ConverterState): Out {
    if c.ThinkingOpen() then
      Out(c.(contentIndex := c.contentIndex + 1, thinkingDone := true), [BlockStop(c.contentIndex)])
    else Out(c, [])
  }

  function ThinkingPart(c: ConverterState, thinking: string): Out {
    if thinking == "" || c.thinkingDone then Out(c, [])
    else
      var closed := CloseText(c);
      var i := closed.state.contentIndex;
      var start := if closed.state.thinkingStarted then [] else [BlockStart(i, ThinkingBlock(""))];
      closed.Then(Out(closed.state.(thinkingStarted := true),
                      start + [BlockDelta(i, ThinkingDelta(thinking))]))
  }

  function ContentPart(c: ConverterState, content: string): Out {
    if content == "" then Out(c, [])
    else
      var closed := CloseThinking(c);
      var i := closed.state.contentIndex;
      var start := if closed.state.textStarted then [] else [BlockStart(i, TextBlock(""))];
      closed.Then(Out(closed.state.(textStarted := true), start + [BlockDelta(i, TextDelta(content))]))
  }

  function ToolEvents(i: nat, tc: ToolCall, json: string): seq<StreamEvent> {
    [BlockStart(i, ToolUse(tc.id, tc.name, NO_ARGUMENTS)), BlockDelta(i, InputJSONDelta(json)), BlockStop(i)]
  }

  function ToolPart(c: ConverterState, tc: ToolCall): Out {
    if tc.id in c.toolCallsSent then Out(c, [])
    else
      var noThinking := CloseThinking(c);
      var closed := noThinking.Then(CloseText(noThinking.state));
      if tc.args.json.None? then closed
      else
        var i := closed.state.contentIndex;
        closed.Then(Out(closed.state.(toolCallsSent := c.toolCallsSent + {tc.id}, contentIndex := i + 1),
                        ToolEvents(i, tc, tc.args.json.value)))
  }

  function ToolsPart(c: ConverterState, calls: seq<ToolCall>): Out
    decreases |calls|
  {
    if calls == [] then Out(c, [])
    else
      var first := ToolPart(c, calls[0]);
      first.Then(ToolsPart(first.state, calls[1..]))
  }

  function DonePart(c: ConverterState, r: ChatResponse): Out {
    if !r.done then Out(c, [])
    else
      var stop := if c.textStarted || c.ThinkingOpen() then [BlockStop(c.contentIndex)] else [];
      var u := UsageFromMetrics(r.metrics);
      Out(c.(inputTokens := u.inputTokens, cacheReadTokens := u.cacheRead, outputTokens := u.outputTokens),
          stop + [MessageDelta(MapStopReason(r.doneReason, c.toolCallsSent != {}), u), MessageStop])
  }

  // Everything one response emits before the message is ended.
  function BodyPart(c: ConverterState, r: ChatResponse): Out {
    var s := StartPart(c, r.metrics);
    var t := ThinkingPart(s.state, r.thinking);
    var x := ContentPart(t.state, r.content);
    s.Then(t).Then(x).Then(ToolsPart(x.state, r.toolCalls))
  }

  function ProcessOne(c: ConverterState, r: ChatResponse): Out {
    var body := BodyPart(c, r);
    body.Then(DonePart(body.state, r))
  }

  class StreamConverter {
    const id: string
    const model: string
    const estimatedInputTokens: int
    var firstWrite: bool
    var contentIndex: nat
    var inputTokens: int
    var cacheReadTokens: Option<int>
    var outputTokens: int
    var thinkingStarted: bool
    var thinkingDone: bool
    var textStarted: bool
    var toolCallsSent: set<string>

    constructor (id: string, model: string, estimatedInputTokens: int)
      ensures State() == Fresh(id, model, estimatedInputTokens)
    {
      this.id, this.model, this.estimatedInputTokens := id, model, estimatedInputTokens;
      firstWrite, contentIndex, inputTokens, cacheReadTokens, outputTokens := true, 0, 0, None, 0;
      thinkingStarted, thinkingDone, textStarted, toolCallsSent := false, false, false, {};
    }

    function State(): ConverterState
      reads this
    {
      ConverterState(id, model, estimatedInputTokens, firstWrite, contentIndex, inputTokens,
                     cacheReadTokens, outputTokens, thinkingStarted, thinkingDone, textStarted, toolCallsSent)
    }

    // One response in, its events out.
    method Process(r: ChatResponse) returns (events: seq<StreamEvent>)
      modifies this
      ensures Out(State(), events) == ProcessOne(old(State()), r)
    {
      events := [];
      if firstWrite {
        firstWrite := false;
        var usage := UsageFromMetrics(r.metrics);
        inputTokens := usage.inputTokens;
        cacheReadTokens := usage.cacheRead;
        if inputTokens == 0 && IntValue(cacheReadTokens) == 0 && estimatedInputTokens > 0 {
          inputTokens := estimatedInputTokens;
        }
        events := events + [MessageStart(id, model, Usage(inputTokens, cacheReadTokens, 0))];
      }
      ghost var s := StartPart(old(State()), r.metrics);
      assert Out(State(), events) == s;

      var more := WriteThinking(r.thinking);
      events := events + more;
      more := WriteContent(r.content);
      events := events + more;
      more := WriteTools(r.toolCalls);
      events := events + more;
      assert Out(State(), events) == BodyPart(old(State()), r);

      if r.done {
        more := WriteDone(r);
        events := events + more;
      } else {
        assert events + [] == events;
      }
    }

    method WriteThinking(thinking: string) returns (events: seq<StreamEvent>)
      modifies this
      ensures Out(State(), events) == ThinkingPart(old(State()), thinking)
    {
      events := [];
      if thinking != "" && !thinkingDone {
        if textStarted {
          events := events + [BlockStop(contentIndex)];
          contentIndex := contentIndex + 1;
          textStarted := false;
        }
        if !thinkingStarted {
          thinkingStarted := true;
          events := events + [BlockStart(contentIndex, ThinkingBlock(""))];
        }
        events := events + [BlockDelta(contentIndex, ThinkingDelta(thinking))];
      }
    }

    method WriteContent(content: string) returns (events: seq<StreamEvent>)
      modifies this
      ensures Out(State(), events) == ContentPart(old(State()), content)
    {
      events := [];
      if content != "" {
        if thinkingStarted && !thinkingDone {
          thinkingDone := true;
          events := events + [BlockStop(contentIndex)];
          contentIndex := contentIndex + 1;
        }
        if !textStarted {
          textStarted := true;
          events := events + [BlockStart(contentIndex, TextBlock(""))];
        }
        events := events + [BlockDelta(contentIndex, TextDelta(content))];
      }
    }

    method WriteTools(calls: seq<ToolCall>) returns (events: seq<StreamEvent>)
      modifies this
      ensures Out(State(), events) == ToolsPart(old(State()), calls)
    {
      events := [];
      ghost var whole := ToolsPart(State(), calls);
      assert [] + whole.events == whole.events;
      for k := 0 to |calls|
        invariant Out(State(), events).Then(ToolsPart(State(), calls[k..])) == whole
      {
        ghost var sofar, rest := Out(State(), events), calls[k..];
        var more := WriteTool(calls[k]);
        assert rest[1..] == calls[k + 1..];
        OutAssoc(sofar, Out(State(), more), ToolsPart(State(), calls[k + 1..]));
        events := events + more;
      }
      assert calls[|calls|..] == [] && events + [] == events;
    }

    method WriteTool(tc: ToolCall) returns (events: seq<StreamEvent>)
      modifies this
      ensures Out(State(), events) == ToolPart(old(State()), tc)
    {
      events := [];
      if tc.id in toolCallsSent {
        return;
      }
      // Close a thinking block that is still open (no text came in between).
      if thinkingStarted && !thinkingDone {
        thinkingDone := true;
        events := events + [BlockStop(contentIndex)];
        contentIndex := contentIndex + 1;
      }
      if textStarted {
        events := events + [BlockStop(contentIndex)];
        contentIndex := contentIndex + 1;
        textStarted := false;
      }
      if tc.args.json.None? {
        return;
      }
      events := events + ToolEvents(contentIndex, tc, tc.args.json.value);
      toolCallsSent := toolCallsSent + {tc.id};
      contentIndex := contentIndex + 1;
    }

    method WriteDone(r: ChatResponse) returns (events: seq<StreamEvent>)
      requires r.done
      modifies this
      ensures Out(State(), events) == DonePart(old(State()), r)
    {
      events := [];
      if textStarted {
        events := events + [BlockStop(contentIndex)];
      } else if thinkingStarted && !thinkingDone {
        events := events + [BlockStop(contentIndex)];
      }
      var usage := UsageFromMetrics(r.metrics);
      inputTokens := usage.inputTokens;
      cacheReadTokens := usage.cacheRead;
      outputTokens := usage.outputTokens;
      var stopReason := MapStopReason(r.doneReason, |toolCallsSent| > 0);
      events := events + [MessageDelta(stopReason, Usage(inputTokens, cacheReadTokens, outputTokens)), MessageStop];
    }
  }

  lemma OutAssoc(a: Out, b: Out, c: Out)
    ensures a.Then(b).Then(c) == a.Then(b.Then(c))
  {
    Assoc(a.events, b.events, c.events);
  }

  // ---------- the protocol ----------

  // This part keeps the converter valid and moves the client where the converter says it is.
  ghost predicate KeepsProtocol(c: ConverterState, o: Out) {
    o.state.Valid() && AcceptAll(c.Client(), o.events) == o.state.Client()
  }

  lemma ThenKeeps(c: ConverterState, a: Out, b: Out)
    requires KeepsProtocol(c, a) && KeepsProtocol(a.state, b)
    ensures KeepsProtocol(c, a.Then(b))
  {
    AcceptConcat(c.Client(), a.events, b.events);
  }

  lemma StartKeeps(c: ConverterState, m: Metrics)
    requires c.Valid()
    ensures KeepsProtocol(c, StartPart(c, m)) && !StartPart(c, m).state.firstWrite
  {
    if c.firstWrite {
      AcceptOne(c.Client(), StartPart(c, m).events[0]);
    }
  }

  lemma CloseKeeps(c: ConverterState)
    requires c.Valid() && !c.firstWrite
    ensures KeepsProtocol(c, CloseText(c)) && KeepsProtocol(c, CloseThinking(c))
  {
    AcceptOne(c.Client(), BlockStop(c.contentIndex));
  }

  lemma ThinkingKeeps(c: ConverterState, thinking: string)
    requires c.Valid() && !c.firstWrite
    ensures KeepsProtocol(c, ThinkingPart(c, thinking))
  {
    if thinking != "" && !c.thinkingDone {
      CloseKeeps(c);
      var closed := CloseText(c);
      var d := closed.state;
      var start := if d.thinkingStarted then [] else [BlockStart(d.contentIndex, ThinkingBlock(""))];
      var delta := BlockDelta(d.contentIndex, ThinkingDelta(thinking));
      var open := Streaming(d.contentIndex, Some(ThinkingKind));
      AcceptConcat(d.Client(), start, [delta]);
      AcceptOne(open, delta);
      AcceptOne(d.Client(), BlockStart(d.contentIndex, ThinkingBlock("")));
      ThenKeeps(c, closed, Out(d.(thinkingStarted := true), start + [delta]));
    }
  }

  lemma ContentKeeps(c: ConverterState, content: string)
    requires c.Valid() && !c.firstWrite
    ensures KeepsProtocol(c, ContentPart(c, content))
  {
    if content != "" {
      CloseKeeps(c);
      var closed := CloseThinking(c);
      var d := closed.state;
      var start := if d.textStarted then [] else [BlockStart(d.contentIndex, TextBlock(""))];
      var delta := BlockDelta(d.contentIndex, TextDelta(content));
      var open := Streaming(d.contentIndex, Some(TextKind));
      AcceptConcat(d.Client(), start, [delta]);
      AcceptOne(open, delta);
      AcceptOne(d.Client(), BlockStart(d.contentIndex, TextBlock("")));
      ThenKeeps(c, closed, Out(d.(textStarted := true), start + [delta]));
    }
  }

  lemma ToolEventsAccepted(i: nat, tc: ToolCall, json: string)
    ensures AcceptAll(Streaming(i, None), ToolEvents(i, tc, json)) == Streaming(i + 1, None)
  {
    var e := ToolEvents(i, tc, json);
    assert e[1..] == [e[1], e[2]] && e[1..][1..] == [e[2]];
    AcceptOne(Streaming(i, Some(ToolKind)), e[2]);
  }

  lemma ToolKeeps(c: ConverterState, tc: ToolCall)
    requires c.Valid() && !c.firstWrite
    ensures KeepsProtocol(c, ToolPart(c, tc))
  {
    if tc.id !in c.toolCallsSent {
      var a := CloseThinking(c);
      CloseKeeps(c);
      var b := CloseText(a.state);
      CloseKeeps(a.state);
      ThenKeeps(c, a, b);
      if tc.args.json.Some? {
        var d := b.state;
        ToolEventsAccepted(d.contentIndex, tc, tc.args.json.value);
        ThenKeeps(c, a.Then(b), Out(d.(toolCallsSent := c.toolCallsSent + {tc.id}, contentIndex := d.contentIndex + 1),
                                    ToolEvents(d.contentIndex, tc, tc.args.json.value)));
      }
    }
  }

  lemma {:induction false} ToolsKeep(c: ConverterState, calls: seq<ToolCall>)
    requires c.Valid() && !c.firstWrite
    ensures KeepsProtocol(c, ToolsPart(c, calls)) && !ToolsPart(c, calls).state.firstWrite
    decreases |calls|
  {
    if calls != [] {
      ToolKeeps(c, calls[0]);
      var first := ToolPart(c, calls[0]);
      ToolsKeep(first.state, calls[1..]);
      ThenKeeps(c, first, ToolsPart(first.state, calls[1..]));
    }
  }

  lemma BodyKeeps(c: ConverterState, r: ChatResponse)
    requires c.Valid()
    ensures KeepsProtocol(c, BodyPart(c, r)) && !BodyPart(c, r).state.firstWrite
  {
    var s := StartPart(c, r.metrics);
    var t := ThinkingPart(s.state, r.thinking);
    var x := ContentPart(t.state, r.content);
    StartKeeps(c, r.metrics);
    ThinkingKeeps(s.state, r.thinking);
    ContentKeeps(t.state, r.content);
    ToolsKeep(x.state, r.toolCalls);
    ThenKeeps(c, s, t);
    ThenKeeps(c, s.Then(t), x);
    ThenKeeps(c, s.Then(t).Then(x), ToolsPart(x.state, r.toolCalls));
  }

  // One response moves the client to where the converter is, or, when it is the last, to the end.
  lemma ProcessKeepsProtocol(c: ConverterState, r: ChatResponse)
    requires c.Valid()
    ensures var o := ProcessOne(c, r);
      AcceptAll(c.Client(), o.events) == if r.done then Finished else o.state.Client()
    ensures !r.done ==> ProcessOne(c, r).state.Valid() && !ProcessOne(c, r).state.firstWrite
  {
    BodyKeeps(c, r);
    var body := BodyPart(c, r);
    var done := DonePart(body.state, r);
    AcceptConcat(c.Client(), body.events, done.events);
    if r.done {
      DoneFinishes(body.state, r);
    }
  }

  lemma DoneFinishes(c: ConverterState, r: ChatResponse)
    requires c.Valid() && !c.firstWrite && r.done
    ensures AcceptAll(c.Client(), DonePart(c, r).events) == Finished
  {
    var i := c.contentIndex;
    var stop := if c.textStarted || c.ThinkingOpen() then [BlockStop(i)] else [];
    var u := UsageFromMetrics(r.metrics);
    var end := [MessageDelta(MapStopReason(r.doneReason, c.toolCallsSent != {}), u), MessageStop];
    AcceptConcat(c.Client(), stop, end);
    AcceptOne(c.Client(), BlockStop(i));
    assert end[1..] == [MessageStop];
    AcceptOne(Closing, MessageStop);
  }

  // ---------- whole runs ----------

  function RunAll(c: ConverterState, rs: seq<ChatResponse>): Out
    decreases |rs|
  {
    if rs == [] then Out(c, [])
    else
      var first := ProcessOne(c, rs[0]);
      first.Then(RunAll(first.state, rs[1..]))
  }

  // Only the last response is marked done.
  predicate DoneLast(rs: seq<ChatResponse>) {
    rs != [] && rs[|rs| - 1].done && forall i :: 0 <= i < |rs| - 1 ==> !rs[i].done
  }

  lemma {:induction false} RunFinishes(c: ConverterState, rs: seq<ChatResponse>)
    requires c.Valid() && DoneLast(rs)
    ensures AcceptAll(c.Client(), RunAll(c, rs).events) == Finished
    decreases |rs|
  {
    var first := ProcessOne(c, rs[0]);
    ProcessKeepsProtocol(c, rs[0]);
    var rest := RunAll(first.state, rs[1..]);
    AcceptConcat(c.Client(), first.events, rest.events);
    if |rs| > 1 {
      RunFinishes(first.state, rs[1..]);
    } else {
      assert rs[1..] == [];
    }
  }

  // A run that has not ended is always a start of a well-formed stream.
  lemma {:induction false} RunInProgress(c: ConverterState, rs: seq<ChatResponse>)
    requires c.Valid() && forall i :: 0 <= i < |rs| ==> !rs[i].done
    ensures var o := RunAll(c, rs);
      o.state.Valid() && AcceptAll(c.Client(), o.events) == o.state.Client()
    decreases |rs|
  {
    if rs != [] {
      var first := ProcessOne(c, rs[0]);
      ProcessKeepsProtocol(c, rs[0]);
      var rest := RunAll(first.state, rs[1..]);
      AcceptConcat(c.Client(), first.events, rest.events);
      RunInProgress(first.state, rs[1..]);
    }
  }

  // Every run in which only the last response is done emits one well-formed stream.
  lemma {:induction false} EveryRunIsWellFormed(id: string, model: string, estimated: int, rs: seq<ChatResponse>)
    requires DoneLast(rs)
    ensures WellFormed(RunAll(Fresh(id, model, estimated), rs).events)
  {
    RunFinishes(Fresh(id, model, estimated), rs);
  }
}
