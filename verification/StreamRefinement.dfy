// What a streaming client ends up with: nothing of the text is lost, every tool call is
// announced once, and in-order runs accumulate to the response a non-streaming client gets.
module StreamRefinement {
  import opened Text
  import opened AnthropicTypes
  import opened StreamConverters

  function AllContent(rs: seq<ChatResponse>): string {
    if rs == [] then "" else rs[0].content + AllContent(rs[1..])
  }

  function AllThinking(rs: seq<ChatResponse>): string {
    if rs == [] then "" else rs[0].thinking + AllThinking(rs[1..])
  }

  function AllCalls(rs: seq<ChatResponse>): seq<ToolCall> {
    if rs == [] then [] else rs[0].toolCalls + AllCalls(rs[1..])
  }

  // ---------- text ----------

  function TextOf(events: seq<StreamEvent>): string {
    if events == [] then ""
    else if events[0].BlockDelta? && events[0].delta.TextDelta? then events[0].delta.text + TextOf(events[1..])
    else TextOf(events[1..])
  }

  lemma {:induction false} TextConcat(a: seq<StreamEvent>, b: seq<StreamEvent>)
    ensures TextOf(a + b) == TextOf(a) + TextOf(b)
    decreases |a|
  {
    if a == [] {
      assert a + b == b && "" + TextOf(b) == TextOf(b);
    } else {
      TextConcat(a[1..], b);
      assert (a + b)[1..] == a[1..] + b;
      if a[0].BlockDelta? && a[0].delta.TextDelta? {
        Assoc(a[0].delta.text, TextOf(a[1..]), TextOf(b));
      }
    }
  }

  lemma {:induction false} NoTextDeltas(events: seq<StreamEvent>)
    requires forall i :: 0 <= i < |events| && events[i].BlockDelta? ==> !events[i].delta.TextDelta?
    ensures TextOf(events) == ""
    decreases |events|
  {
    if events != [] {
      NoTextDeltas(events[1..]);
    }
  }

  lemma SilentParts(c: ConverterState, m: Metrics, thinking: string, r: ChatResponse)
    ensures TextOf(StartPart(c, m).events) == ""
    ensures TextOf(ThinkingPart(c, thinking).events) == ""
    ensures TextOf(DonePart(c, r).events) == ""
  {
    NoTextDeltas(StartPart(c, m).events);
    NoTextDeltas(ThinkingPart(c, thinking).events);
    NoTextDeltas(DonePart(c, r).events);
  }

  lemma ContentPartText(c: ConverterState, content: string)
    ensures TextOf(ContentPart(c, content).events) == content
  {
    if content != "" {
      var t := CloseThinking(c);
      var start := if t.state.textStarted then [] else [BlockStart(t.state.contentIndex, TextBlock(""))];
      var delta := [BlockDelta(t.state.contentIndex, TextDelta(content))];
      TextConcat(start, delta);
      TextConcat(t.events, start + delta);
      assert content + "" == content;
    }
  }

  lemma {:induction false} ToolsPartText(c: ConverterState, calls: seq<ToolCall>)
    ensures TextOf(ToolsPart(c, calls).events) == ""
    decreases |calls|
  {
    if calls != [] {
      var first := ToolPart(c, calls[0]);
      ToolPartText(c, calls[0]);
      ToolsPartText(first.state, calls[1..]);
      TextConcat(first.events, ToolsPart(first.state, calls[1..]).events);
    }
  }

  lemma ToolPartText(c: ConverterState, tc: ToolCall)
    ensures TextOf(ToolPart(c, tc).events) == ""
  {
    NoTextDeltas(ToolPart(c, tc).events);
  }

  lemma ProcessText(c: ConverterState, r: ChatResponse)
    ensures TextOf(ProcessOne(c, r).events) == r.content
  {
    var s := StartPart(c, r.metrics);
    var t := ThinkingPart(s.state, r.thinking);
    var x := ContentPart(t.state, r.content);
    var u := ToolsPart(x.state, r.toolCalls);
    SilentParts(c, r.metrics, r.thinking, r);
    SilentParts(s.state, r.metrics, r.thinking, r);
    SilentParts(u.state, r.metrics, r.thinking, r);
    ContentPartText(t.state, r.content);
    ToolsPartText(x.state, r.toolCalls);
    TextConcat(s.events, t.events);
    TextConcat(s.events + t.events, x.events);
    TextConcat(s.events + t.events + x.events, u.events);
    TextConcat(s.events + t.events + x.events + u.events, DonePart(u.state, r).events);
    assert "" + r.content + "" == r.content;
  }

  // Every run streams all of its content, in order, and no other text.
  lemma {:induction false} NoTextIsLost(c: ConverterState, rs: seq<ChatResponse>)
    ensures TextOf(RunAll(c, rs).events) == AllContent(rs)
    decreases |rs|
  {
    if rs != [] {
      var first := ProcessOne(c, rs[0]);
      ProcessText(c, rs[0]);
      NoTextIsLost(first.state, rs[1..]);
      TextConcat(first.events, RunAll(first.state, rs[1..]).events);
    }
  }

  // ---------- tool calls ----------

  // Ids of the tool blocks, in order.
  function ToolIds(events: seq<StreamEvent>): seq<string> {
    if events == [] then []
    else if events[0].BlockStart? && events[0].contentBlock.ToolUse? then
      [events[0].contentBlock.id] + ToolIds(events[1..])
    else ToolIds(events[1..])
  }

  lemma {:induction false} ToolIdsConcat(a: seq<StreamEvent>, b: seq<StreamEvent>)
    ensures ToolIds(a + b) == ToolIds(a) + ToolIds(b)
    decreases |a|
  {
    if a == [] {
      assert a + b == b;
    } else {
      ToolIdsConcat(a[1..], b);
      assert (a + b)[1..] == a[1..] + b;
    }
  }

  function IdsOf(calls: seq<ToolCall>): seq<string> {
    seq(|calls|, i requires 0 <= i < |calls| => calls[i].id)
  }

  predicate Announced(sent: seq<ToolCall>, id: string) {
    exists i :: 0 <= i < |sent| && sent[i].id == id
  }

  // The calls a client hears of: for each id the first whose arguments marshal.
  function Announce(sent: seq<ToolCall>, calls: seq<ToolCall>): seq<ToolCall>
    decreases |calls|
  {
    if calls == [] then sent
    else if Announced(sent, calls[0].id) || calls[0].args.json.None? then Announce(sent, calls[1..])
    else Announce(sent + [calls[0]], calls[1..])
  }

  lemma {:induction false} AnnounceConcat(sent: seq<ToolCall>, a: seq<ToolCall>, b: seq<ToolCall>)
    ensures Announce(sent, a + b) == Announce(Announce(sent, a), b)
    decreases |a|
  {
    if a == [] {
      assert a + b == b;
    } else {
      assert (a + b)[1..] == a[1..] + b;
      AnnounceConcat(if Announced(sent, a[0].id) || a[0].args.json.None? then sent else sent + [a[0]], a[1..], b);
    }
  }

  ghost predicate SentMatches(c: ConverterState, sent: seq<ToolCall>) {
    forall id :: id in c.toolCallsSent <==> Announced(sent, id)
  }

  lemma AnnounceSnoc(sent: seq<ToolCall>, tc: ToolCall)
    ensures IdsOf(sent + [tc]) == IdsOf(sent) + [tc.id]
    ensures forall id :: Announced(sent + [tc], id) <==> Announced(sent, id) || id == tc.id
  {
    var all := sent + [tc];
    forall id ensures Announced(all, id) <==> Announced(sent, id) || id == tc.id {
      assert all[|sent|] == tc;
      if Announced(sent, id) {
        var i :| 0 <= i < |sent| && sent[i].id == id;
        assert all[i].id == id;
      }
    }
  }

  lemma StartQuiet(c: ConverterState, m: Metrics)
    ensures ToolIds(StartPart(c, m).events) == [] && StartPart(c, m).state.toolCallsSent == c.toolCallsSent
  {
    NoToolStarts(StartPart(c, m).events);
  }

  lemma ThinkingQuiet(c: ConverterState, thinking: string)
    ensures ToolIds(ThinkingPart(c, thinking).events) == []
    ensures ThinkingPart(c, thinking).state.toolCallsSent == c.toolCallsSent
  {
    NoToolStarts(ThinkingPart(c, thinking).events);
  }

  lemma ContentQuiet(c: ConverterState, content: string)
    ensures ToolIds(ContentPart(c, content).events) == []
    ensures ContentPart(c, content).state.toolCallsSent == c.toolCallsSent
  {
    NoToolStarts(ContentPart(c, content).events);
  }

  lemma DoneQuiet(c: ConverterState, r: ChatResponse)
    ensures ToolIds(DonePart(c, r).events) == []
  {
    NoToolStarts(DonePart(c, r).events);
  }

  lemma {:induction false} NoToolStarts(events: seq<StreamEvent>)
    requires forall i :: 0 <= i < |events| && events[i].BlockStart? ==> !events[i].contentBlock.ToolUse?
    ensures ToolIds(events) == []
    decreases |events|
  {
    if events != [] {
      NoToolStarts(events[1..]);
    }
  }

  lemma {:induction false} ToolPartIds(c: ConverterState, tc: ToolCall, sent: seq<ToolCall>)
    requires SentMatches(c, sent)
    ensures var o := ToolPart(c, tc); var sent' := Announce(sent, [tc]);
      SentMatches(o.state, sent') && IdsOf(sent') == IdsOf(sent) + ToolIds(o.events)
  {
    assert [tc][1..] == [];
    assert IdsOf(sent) + [] == IdsOf(sent);
    if tc.id !in c.toolCallsSent {
      var a := CloseThinking(c);
      var b := CloseText(a.state);
      NoToolStarts(a.events + b.events);
      if tc.args.json.Some? {
        ToolEventsIds(b.state.contentIndex, tc, tc.args.json.value);
        ToolIdsConcat(a.events + b.events, ToolEvents(b.state.contentIndex, tc, tc.args.json.value));
        AnnounceSnoc(sent, tc);
        assert Announce(sent, [tc]) == sent + [tc];
      } else {
        assert Announce(sent, [tc]) == sent;
      }
    }
  }

  lemma ToolEventsIds(i: nat, tc: ToolCall, json: string)
    ensures ToolIds(ToolEvents(i, tc, json)) == [tc.id]
  {
    var e := ToolEvents(i, tc, json);
    NoToolStarts(e[1..]);
  }

  lemma {:induction false} ToolsPartIds(c: ConverterState, calls: seq<ToolCall>, sent: seq<ToolCall>)
    requires SentMatches(c, sent)
    ensures var o := ToolsPart(c, calls); var sent' := Announce(sent, calls);
      SentMatches(o.state, sent') && IdsOf(sent') == IdsOf(sent) + ToolIds(o.events)
    decreases |calls|
  {
    if calls != [] {
      var first := ToolPart(c, calls[0]);
      ToolPartIds(c, calls[0], sent);
      var sent' := Announce(sent, [calls[0]]);
      ToolsPartIds(first.state, calls[1..], sent');
      assert calls == [calls[0]] + calls[1..];
      AnnounceConcat(sent, [calls[0]], calls[1..]);
      var rest := ToolsPart(first.state, calls[1..]).events;
      ToolIdsConcat(first.events, rest);
      Assoc(IdsOf(sent), ToolIds(first.events), ToolIds(rest));
    } else {
      assert IdsOf(sent) + [] == IdsOf(sent);
    }
  }

  lemma {:induction false} ProcessIds(c: ConverterState, r: ChatResponse, sent: seq<ToolCall>)
    requires SentMatches(c, sent)
    ensures var o := ProcessOne(c, r); var sent' := Announce(sent, r.toolCalls);
      SentMatches(o.state, sent') && IdsOf(sent') == IdsOf(sent) + ToolIds(o.events)
  {
    var s := StartPart(c, r.metrics);
    var t := ThinkingPart(s.state, r.thinking);
    var x := ContentPart(t.state, r.content);
    var u := ToolsPart(x.state, r.toolCalls);
    StartQuiet(c, r.metrics);
    ThinkingQuiet(s.state, r.thinking);
    ContentQuiet(t.state, r.content);
    DoneQuiet(u.state, r);
    ToolsPartIds(x.state, r.toolCalls, sent);
    ToolIdsConcat(s.events, t.events);
    ToolIdsConcat(s.events + t.events, x.events);
    ToolIdsConcat(s.events + t.events + x.events, u.events);
    ToolIdsConcat(s.events + t.events + x.events + u.events, DonePart(u.state, r).events);
  }

  lemma {:induction false} RunIds(c: ConverterState, rs: seq<ChatResponse>, sent: seq<ToolCall>)
    requires SentMatches(c, sent)
    ensures IdsOf(Announce(sent, AllCalls(rs))) == IdsOf(sent) + ToolIds(RunAll(c, rs).events)
    decreases |rs|
  {
    if rs != [] {
      var first := ProcessOne(c, rs[0]);
      ProcessIds(c, rs[0], sent);
      var sent' := Announce(sent, rs[0].toolCalls);
      RunIds(first.state, rs[1..], sent');
      AnnounceConcat(sent, rs[0].toolCalls, AllCalls(rs[1..]));
      var rest := RunAll(first.state, rs[1..]).events;
      ToolIdsConcat(first.events, rest);
      Assoc(IdsOf(sent), ToolIds(first.events), ToolIds(rest));
    } else {
      assert IdsOf(sent) + [] == IdsOf(sent);
    }
  }

  // Announced calls have distinct ids, marshal, and cover every id that ever marshalled.
  lemma {:induction false} AnnounceMeans(sent: seq<ToolCall>, calls: seq<ToolCall>)
    requires forall i, j :: 0 <= i < j < |sent| ==> sent[i].id != sent[j].id
    ensures var all := Announce(sent, calls);
      && (forall i, j :: 0 <= i < j < |all| ==> all[i].id != all[j].id)
      && (forall id :: Announced(all, id) <==> (Announced(sent, id) || HasMarshalled(calls, id)))
    decreases |calls|
  {
    if calls != [] {
      var tc := calls[0];
      var sent' := if Announced(sent, tc.id) || tc.args.json.None? then sent else sent + [tc];
      if sent' != sent {
        AnnounceSnoc(sent, tc);
        forall i, j | 0 <= i < j < |sent'| ensures sent'[i].id != sent'[j].id {
          if j == |sent| {
            assert sent'[i].id == sent[i].id;
          }
        }
      }
      AnnounceMeans(sent', calls[1..]);
      forall id ensures HasMarshalled(calls, id) == ((tc.id == id && tc.args.json.Some?) || HasMarshalled(calls[1..], id)) {
        MarshalledStep(calls, id);
      }
    }
  }

  predicate HasMarshalled(calls: seq<ToolCall>, id: string) {
    exists k :: 0 <= k < |calls| && calls[k].id == id && calls[k].args.json.Some?
  }

  lemma MarshalledStep(calls: seq<ToolCall>, id: string)
    requires calls != []
    ensures HasMarshalled(calls, id)
      == ((calls[0].id == id && calls[0].args.json.Some?) || HasMarshalled(calls[1..], id))
  {
    if HasMarshalled(calls[1..], id) {
      var k :| 0 <= k < |calls[1..]| && calls[1..][k].id == id && calls[1..][k].args.json.Some?;
      assert calls[k + 1].id == id;
    }
    if HasMarshalled(calls, id) {
      var k :| 0 <= k < |calls| && calls[k].id == id && calls[k].args.json.Some?;
      if k > 0 {
        assert calls[1..][k - 1].id == id;
      }
    }
  }

  // Each id with a marshallable call occurs exactly once, and no other id occurs.
  predicate OnceEach(ids: seq<string>, calls: seq<ToolCall>) {
    && (forall i, j :: 0 <= i < j < |ids| ==> ids[i] != ids[j])
    && (forall id :: id in ids ==> HasMarshalled(calls, id))
    && (forall k :: 0 <= k < |calls| && calls[k].args.json.Some? ==> calls[k].id in ids)
  }

  lemma {:induction false} FreshRunIds(id: string, model: string, estimated: int, rs: seq<ChatResponse>)
    ensures ToolIds(RunAll(Fresh(id, model, estimated), rs).events) == IdsOf(Announce([], AllCalls(rs)))
  {
    RunIds(Fresh(id, model, estimated), rs, []);
    NothingBefore(IdsOf(Announce([], AllCalls(rs))), IdsOf([]), ToolIds(RunAll(Fresh(id, model, estimated), rs).events));
  }

  lemma NothingBefore<T>(all: seq<T>, before: seq<T>, more: seq<T>)
    requires all == before + more && |before| == 0
    ensures more == all
  {
  }

  // In every run each id whose arguments marshal gets exactly one tool block, and no other id gets one.
  lemma {:induction false} OneBlockPerToolId(id: string, model: string, estimated: int, rs: seq<ChatResponse>)
    ensures OnceEach(ToolIds(RunAll(Fresh(id, model, estimated), rs).events), AllCalls(rs))
  {
    FreshRunIds(id, model, estimated, rs);
    AnnouncedIds(AllCalls(rs));
  }

  lemma {:induction false} AnnouncedIds(calls: seq<ToolCall>)
    ensures OnceEach(IdsOf(Announce([], calls)), calls)
  {
    var all := Announce([], calls);
    AnnounceMeans([], calls);
    forall tool ensures tool in IdsOf(all) <==> Announced(all, tool) {
      if Announced(all, tool) {
        var i :| 0 <= i < |all| && all[i].id == tool;
        assert IdsOf(all)[i] == tool;
      }
    }
    forall k | 0 <= k < |calls| && calls[k].args.json.Some? ensures calls[k].id in IdsOf(all) {
      assert HasMarshalled(calls, calls[k].id);
    }
  }

  // ---------- accumulating the stream ----------

  // A content block as the client sees it: a tool's input is its JSON text.
  datatype Seen =
    | SeenThinking(thinking: string)
    | SeenText(text: string)
    | SeenTool(id: string, name: string, json: Option<string>)
    | SeenServer(contentBlock: ContentBlock)

  datatype Message = Message(id: string, model: string, blocks: seq<Seen>, stopReason: string, usage: Usage)

  const NO_MESSAGE := Message("", "", [], "", Usage(0, None, 0))

  function See(b: ContentBlock): Seen {
    match b
    case ThinkingBlock(t) => SeenThinking(t)
    case TextBlock(t) => SeenText(t)
    case ToolUse(id, name, input) => SeenTool(id, name, input.json)
    case _ => SeenServer(b)
  }

  function SeeAll(bs: seq<ContentBlock>): seq<Seen> {
    if bs == [] then [] else [See(bs[0])] + SeeAll(bs[1..])
  }

  function View(r: MessagesResponse): Message {
    Message(r.id, r.model, SeeAll(r.content), r.stopReason, r.usage)
  }

  // A streamed tool block starts with an empty JSON buffer; its deltas fill it.
  function SeeStart(b: ContentBlock): Seen {
    match b
    case ToolUse(id, name, _) => SeenTool(id, name, Some(""))
    case _ => See(b)
  }

  function Grow(b: Seen, d: Delta): Seen {
    match (b, d)
    case (SeenThinking(t), ThinkingDelta(more)) => SeenThinking(t + more)
    case (SeenText(t), TextDelta(more)) => SeenText(t + more)
    case (SeenTool(id, name, Some(json)), InputJSONDelta(more)) => SeenTool(id, name, Some(json + more))
    case _ => b
  }

  function Receive(m: Message, e: StreamEvent): Message {
    match e
    case MessageStart(id, model, u) => Message(id, model, [], "", u)
    case BlockStart(_, b) => m.(blocks := m.blocks + [SeeStart(b)])
    case BlockDelta(i, d) =>
      if i < |m.blocks| then m.(blocks := m.blocks[i := Grow(m.blocks[i], d)]) else m
    case BlockStop(_) => m
    case MessageDelta(reason, u) => m.(stopReason := reason, usage := u)
    case MessageStop => m
  }

  function ReceiveAll(m: Message, events: seq<StreamEvent>): Message
    decreases |events|
  {
    if events == [] then m else ReceiveAll(Receive(m, events[0]), events[1..])
  }

  lemma {:induction false} ReceiveConcat(m: Message, a: seq<StreamEvent>, b: seq<StreamEvent>)
    ensures ReceiveAll(m, a + b) == ReceiveAll(ReceiveAll(m, a), b)
    decreases |a|
  {
    if a == [] {
      assert a + b == b;
    } else {
      assert (a + b)[1..] == a[1..] + b;
      ReceiveConcat(Receive(m, a[0]), a[1..], b);
    }
  }

  lemma {:induction false} ReceiveOne(m: Message, e: StreamEvent)
    ensures ReceiveAll(m, [e]) == Receive(m, e)
  {
    assert [e][1..] == [];
  }

  function SeenTools(calls: seq<ToolCall>): seq<Seen> {
    seq(|calls|, i requires 0 <= i < |calls| => SeenTool(calls[i].id, calls[i].name, calls[i].args.json))
  }

  // Thinking, then text, then tools: the layout of a complete response.
  function Layout(thinking: string, text: string, calls: seq<ToolCall>): seq<Seen> {
    (if thinking != "" then [SeenThinking(thinking)] else [])
    + (if text != "" then [SeenText(text)] else [])
    + SeenTools(calls)
  }

  // The converter and the client after some responses with this thinking, text and announced
  // calls; anyCall says whether a tool call, announced or not, has been seen.
  ghost predicate InStep(c: ConverterState, m: Message, thinking: string, text: string,
                         sent: seq<ToolCall>, anyCall: bool)
  {
    && m.blocks == Layout(thinking, text, sent)
    && !c.firstWrite
    && c.thinkingStarted == (thinking != "")
    && c.thinkingDone == (thinking != "" && (text != "" || anyCall))
    && c.textStarted == (text != "" && !anyCall)
    && c.contentIndex == |m.blocks| - (if c.textStarted || c.ThinkingOpen() then 1 else 0)
    && SentMatches(c, sent)
    && (sent != [] ==> anyCall)
  }

  lemma {:induction false} ThinkingInStep(c: ConverterState, m: Message, thinking: string, more: string)
    requires InStep(c, m, thinking, "", [], false)
    ensures var o := ThinkingPart(c, more);
      InStep(o.state, ReceiveAll(m, o.events), thinking + more, "", [], false)
  {
    assert thinking + "" == thinking;
    assert Layout(thinking, "", []) == if thinking != "" then [SeenThinking(thinking)] else [];
    if more != "" {
      var i := c.contentIndex;
      var delta := BlockDelta(i, ThinkingDelta(more));
      assert Layout(thinking + more, "", []) == [SeenThinking(thinking + more)];
      if thinking == "" {
        var start := BlockStart(i, ThinkingBlock(""));
        ReceiveConcat(m, [start], [delta]);
        ReceiveOne(m, start);
        ReceiveOne(Receive(m, start), delta);
        assert ThinkingPart(c, more).events == [start] + [delta];
      } else {
        ReceiveOne(m, delta);
        assert ThinkingPart(c, more).events == [delta];
      }
    }
  }

  // A new text block and its first text.
  lemma {:induction false} ReceiveText(m: Message, text: string)
    ensures ReceiveAll(m, [BlockStart(|m.blocks|, TextBlock(""))] + [BlockDelta(|m.blocks|, TextDelta(text))])
         == m.(blocks := m.blocks + [SeenText(text)])
  {
    var start, delta := BlockStart(|m.blocks|, TextBlock("")), BlockDelta(|m.blocks|, TextDelta(text));
    ReceiveConcat(m, [start], [delta]);
    ReceiveOne(m, start);
    ReceiveOne(Receive(m, start), delta);
    assert "" + text == text;
  }

  lemma NoTextYet(thinking: string, text: string, more: string)
    requires text == "" && more != ""
    ensures text + more == more && Layout(thinking, text + more, []) == Layout(thinking, text, []) + [SeenText(more)]
  {
  }

  // The first text opens its block ...
  lemma {:induction false} ContentBegins(c: ConverterState, m: Message, thinking: string, text: string, more: string)
    requires InStep(c, m, thinking, text, [], false) && text == "" && more != ""
    ensures var o := ContentPart(c, more);
      InStep(o.state, ReceiveAll(m, o.events), thinking, text + more, [], false)
  {
    var closed := CloseThinking(c);
    var i := closed.state.contentIndex;
    NoTextYet(thinking, text, more);
    assert i == |m.blocks|;
    StopsAreSilent(m, closed.events);
    ReceiveConcat(m, closed.events, [BlockStart(i, TextBlock(""))] + [BlockDelta(i, TextDelta(more))]);
    ReceiveText(m, more);
  }

  lemma TextGrows(thinking: string, text: string, more: string)
    requires text != ""
    ensures var blocks := Layout(thinking, text, []);
      blocks != [] && blocks[|blocks| - 1] == SeenText(text)
      && Layout(thinking, text + more, []) == blocks[|blocks| - 1 := SeenText(text + more)]
  {
  }

  // ... and later text grows it.
  lemma {:induction false} ContentGoesOn(c: ConverterState, m: Message, thinking: string, text: string, more: string)
    requires InStep(c, m, thinking, text, [], false) && text != "" && more != ""
    ensures var o := ContentPart(c, more);
      InStep(o.state, ReceiveAll(m, o.events), thinking, text + more, [], false)
  {
    var delta := BlockDelta(c.contentIndex, TextDelta(more));
    TextGrows(thinking, text, more);
    assert ContentPart(c, more) == Out(c, [] + ([] + [delta])) && [] + ([] + [delta]) == [delta];
    ReceiveOne(m, delta);
  }

  lemma {:induction false} ContentInStep(c: ConverterState, m: Message, thinking: string, text: string, more: string)
    requires InStep(c, m, thinking, text, [], false)
    ensures var o := ContentPart(c, more);
      InStep(o.state, ReceiveAll(m, o.events), thinking, text + more, [], false)
  {
    if more == "" {
      assert text + more == text;
    } else if text == "" {
      ContentBegins(c, m, thinking, text, more);
    } else {
      ContentGoesOn(c, m, thinking, text, more);
    }
  }

  lemma {:induction false} StopsAreSilent(m: Message, events: seq<StreamEvent>)
    requires forall i :: 0 <= i < |events| ==> events[i].BlockStop?
    ensures ReceiveAll(m, events) == m
    decreases |events|
  {
    if events != [] {
      StopsAreSilent(m, events[1..]);
    }
  }

  lemma {:induction false} ToolInStep(c: ConverterState, m: Message, thinking: string, text: string, sent: seq<ToolCall>,
                                      anyCall: bool, tc: ToolCall)
    requires InStep(c, m, thinking, text, sent, anyCall)
    ensures var o := ToolPart(c, tc);
      InStep(o.state, ReceiveAll(m, o.events), thinking, text, Announce(sent, [tc]), true)
  {
    assert [tc][1..] == [];
    if tc.id !in c.toolCallsSent {
      var a := CloseThinking(c);
      var b := CloseText(a.state);
      StopsAreSilent(m, a.events + b.events);
      if tc.args.json.Some? {
        assert b.state.contentIndex == |m.blocks|;
        ToolAdded(m, a.events + b.events, thinking, text, sent, tc);
        AnnounceSnoc(sent, tc);
      }
    }
  }

  lemma {:induction false} ToolAdded(m: Message, stops: seq<StreamEvent>, thinking: string, text: string,
                                     sent: seq<ToolCall>, tc: ToolCall)
    requires m.blocks == Layout(thinking, text, sent) && tc.args.json.Some? && ReceiveAll(m, stops) == m
    ensures ReceiveAll(m, stops + ToolEvents(|m.blocks|, tc, tc.args.json.value))
         == m.(blocks := Layout(thinking, text, sent + [tc]))
  {
    ReceiveConcat(m, stops, ToolEvents(|m.blocks|, tc, tc.args.json.value));
    ReceiveTool(m, tc, tc.args.json.value);
    LayoutSnoc(thinking, text, sent, tc);
  }

  lemma {:induction false} ReceiveTool(m: Message, tc: ToolCall, json: string)
    ensures ReceiveAll(m, ToolEvents(|m.blocks|, tc, json))
         == m.(blocks := m.blocks + [SeenTool(tc.id, tc.name, Some(json))])
  {
    var e := ToolEvents(|m.blocks|, tc, json);
    var m1 := Receive(m, e[0]);
    var m2 := Receive(m1, e[1]);
    assert e[1..] == [e[1], e[2]] && e[1..][1..] == [e[2]];
    ReceiveOne(m2, e[2]);
    assert "" + json == json;
    assert m2.blocks == m.blocks + [SeenTool(tc.id, tc.name, Some(json))];
  }

  lemma LayoutSnoc(thinking: string, text: string, sent: seq<ToolCall>, tc: ToolCall)
    ensures Layout(thinking, text, sent + [tc])
         == Layout(thinking, text, sent) + [SeenTool(tc.id, tc.name, tc.args.json)]
  {
    assert SeenTools(sent + [tc]) == SeenTools(sent) + [SeenTool(tc.id, tc.name, tc.args.json)];
  }

  lemma {:induction false} ToolsInStep(c: ConverterState, m: Message, thinking: string, text: string,
                                       sent: seq<ToolCall>, anyCall: bool, calls: seq<ToolCall>)
    requires InStep(c, m, thinking, text, sent, anyCall)
    ensures var o := ToolsPart(c, calls);
      InStep(o.state, ReceiveAll(m, o.events), thinking, text, Announce(sent, calls), anyCall || calls != [])
    decreases |calls|
  {
    if calls != [] {
      var first := ToolPart(c, calls[0]);
      var sent' := Announce(sent, [calls[0]]);
      ToolInStep(c, m, thinking, text, sent, anyCall, calls[0]);
      ToolsInStep(first.state, ReceiveAll(m, first.events), thinking, text, sent', true, calls[1..]);
      assert calls == [calls[0]] + calls[1..];
      AnnounceConcat(sent, [calls[0]], calls[1..]);
      ReceiveConcat(m, first.events, ToolsPart(first.state, calls[1..]).events);
    }
  }

  // What one response may still bring once text or calls have been seen.
  predicate MayFollow(haveText: bool, haveCalls: bool, r: ChatResponse) {
    && (r.thinking != "" ==> !haveText && !haveCalls)
    && (r.content != "" ==> !haveCalls)
  }

  lemma {:induction false} BodyInStep(c: ConverterState, m: Message, thinking: string, text: string, sent: seq<ToolCall>,
                                      anyCall: bool, r: ChatResponse)
    requires InStep(c, m, thinking, text, sent, anyCall) && MayFollow(text != "", anyCall, r)
    ensures var o := BodyPart(c, r);
      InStep(o.state, ReceiveAll(m, o.events), thinking + r.thinking, text + r.content,
             Announce(sent, r.toolCalls), anyCall || r.toolCalls != [])
  {
    var s := StartPart(c, r.metrics);
    var t := ThinkingPart(s.state, r.thinking);
    var x := ContentPart(t.state, r.content);
    var u := ToolsPart(x.state, r.toolCalls);
    var m1 := ReceiveAll(m, t.events);
    var m2 := ReceiveAll(m1, x.events);
    if r.thinking != "" {
      ThinkingInStep(s.state, m, thinking, r.thinking);
    } else {
      assert thinking + r.thinking == thinking;
    }
    if r.content != "" {
      ContentInStep(t.state, m1, thinking + r.thinking, text, r.content);
    } else {
      assert text + r.content == text;
    }
    ToolsInStep(x.state, m2, thinking + r.thinking, text + r.content, sent, anyCall, r.toolCalls);
    ReceiveConcat(m, s.events, t.events);
    ReceiveConcat(m, s.events + t.events, x.events);
    ReceiveConcat(m, s.events + t.events + x.events, u.events);
  }

  function Ended(m: Message, r: ChatResponse, sent: seq<ToolCall>): Message {
    m.(stopReason := MapStopReason(r.doneReason, sent != []), usage := UsageFromMetrics(r.metrics))
  }

  lemma {:induction false} DoneReceived(c: ConverterState, m: Message, sent: seq<ToolCall>, r: ChatResponse)
    requires SentMatches(c, sent) && r.done
    ensures ReceiveAll(m, DonePart(c, r).events) == Ended(m, r, sent)
  {
    var stop := if c.textStarted || c.ThinkingOpen() then [BlockStop(c.contentIndex)] else [];
    var u := UsageFromMetrics(r.metrics);
    var delta := MessageDelta(MapStopReason(r.doneReason, c.toolCallsSent != {}), u);
    StopsAreSilent(m, stop);
    ReceiveConcat(m, stop, [delta, MessageStop]);
    assert [delta, MessageStop][1..] == [MessageStop];
    ReceiveOne(Receive(m, delta), MessageStop);
    if sent != [] {
      assert Announced(sent, sent[0].id);
      assert sent[0].id in c.toolCallsSent;
    }
  }

  // Thinking comes before text and calls, text before calls, across the whole run.
  predicate InOrder(rs: seq<ChatResponse>) {
    forall i, j :: 0 <= i < j < |rs| ==> MayFollow(rs[i].content != "", rs[i].toolCalls != [], rs[j])
  }

  predicate AllMayFollow(haveText: bool, haveCalls: bool, rs: seq<ChatResponse>) {
    forall j :: 0 <= j < |rs| ==> MayFollow(haveText, haveCalls, rs[j])
  }

  lemma OrderRest(text: string, content: string, anyCall: bool, rs: seq<ChatResponse>)
    requires DoneLast(rs) && |rs| > 1 && content == rs[0].content
    requires InOrder(rs) && AllMayFollow(text != "", anyCall, rs)
    ensures DoneLast(rs[1..]) && rs[1..][|rs| - 2] == rs[|rs| - 1]
    ensures InOrder(rs[1..]) && AllMayFollow(text + content != "", anyCall || rs[0].toolCalls != [], rs[1..])
  {
    var rest := rs[1..];
    forall j | 0 <= j < |rest| ensures MayFollow(text + content != "", anyCall || rs[0].toolCalls != [], rest[j]) {
      assert rest[j] == rs[j + 1];
    }
    forall i, j | 0 <= i < j < |rest| ensures MayFollow(rest[i].content != "", rest[i].toolCalls != [], rest[j]) {
      assert rest[i] == rs[i + 1] && rest[j] == rs[j + 1];
    }
  }

  // All but the blocks.
  predicate SameEnvelope(m: Message, n: Message) {
    m == n.(blocks := m.blocks)
  }

  // What the client has at the end, given what it and the converter had before.
  function Arrived(m: Message, thinking: string, text: string, sent: seq<ToolCall>, rs: seq<ChatResponse>): Message
    requires rs != []
  {
    var all := Announce(sent, AllCalls(rs));
    Ended(m.(blocks := Layout(thinking + AllThinking(rs), text + AllContent(rs), all)), rs[|rs| - 1], all)
  }

  lemma {:induction false} ArrivedLater(m: Message, m1: Message, thinking: string, text: string, sent: seq<ToolCall>,
                                        rs: seq<ChatResponse>)
    requires |rs| > 1 && SameEnvelope(m1, m)
    ensures Arrived(m1, thinking + rs[0].thinking, text + rs[0].content, Announce(sent, rs[0].toolCalls), rs[1..])
         == Arrived(m, thinking, text, sent, rs)
  {
    AnnounceConcat(sent, rs[0].toolCalls, AllCalls(rs[1..]));
    Assoc(thinking, rs[0].thinking, AllThinking(rs[1..]));
    Assoc(text, rs[0].content, AllContent(rs[1..]));
    assert rs[1..][|rs| - 2] == rs[|rs| - 1];
  }

  lemma {:induction false} ArrivedLast(m: Message, thinking: string, text: string, sent: seq<ToolCall>, r: ChatResponse)
    ensures Arrived(m, thinking, text, sent, [r])
         == Ended(m.(blocks := Layout(thinking + r.thinking, text + r.content, Announce(sent, r.toolCalls))), r,
                  Announce(sent, r.toolCalls))
  {
    assert [r][1..] == [] && AllCalls([]) == [];
    assert AllThinking([r]) == r.thinking + "" == r.thinking && AllContent([r]) == r.content + "" == r.content;
    assert AllCalls([r]) == r.toolCalls + [] == r.toolCalls;
  }

  lemma {:induction false} RunReceived(c: ConverterState, m: Message, thinking: string, text: string,
                                       sent: seq<ToolCall>, anyCall: bool, rs: seq<ChatResponse>)
    requires InStep(c, m, thinking, text, sent, anyCall)
    requires DoneLast(rs) && InOrder(rs) && AllMayFollow(text != "", anyCall, rs)
    ensures ReceiveAll(m, RunAll(c, rs).events) == Arrived(m, thinking, text, sent, rs)
    decreases |rs|
  {
    var r, body := rs[0], BodyPart(c, rs[0]);
    var m1 := ReceiveAll(m, body.events);
    var sent1 := Announce(sent, r.toolCalls);
    BodyInStep(c, m, thinking, text, sent, anyCall, r);
    ReceivePrefix(c, m, rs);
    BodyKeepsEnding(c, m, r);
    if |rs| == 1 {
      assert rs == [r] && rs[1..] == [];
      DoneReceived(body.state, m1, sent1, r);
      ArrivedLast(m, thinking, text, sent, r);
    } else {
      OrderRest(text, r.content, anyCall, rs);
      RunReceived(body.state, m1, thinking + r.thinking, text + r.content, sent1, anyCall || r.toolCalls != [], rs[1..]);
      ArrivedLater(m, m1, thinking, text, sent, rs);
    }
  }

  lemma {:induction false} ReceivePrefix(c: ConverterState, m: Message, rs: seq<ChatResponse>)
    requires rs != []
    ensures var body := BodyPart(c, rs[0]);
      var done := DonePart(body.state, rs[0]);
      var m1 := ReceiveAll(ReceiveAll(m, body.events), done.events);
      ReceiveAll(m, RunAll(c, rs).events) == ReceiveAll(m1, RunAll(done.state, rs[1..]).events)
  {
    var body := BodyPart(c, rs[0]);
    var done := DonePart(body.state, rs[0]);
    ReceiveConcat(m, body.events, done.events);
    ReceiveConcat(m, body.events + done.events, RunAll(done.state, rs[1..]).events);
  }

  // Events that open, fill and close blocks.
  predicate OnlyBlocks(events: seq<StreamEvent>) {
    forall i :: 0 <= i < |events| ==> events[i].BlockStart? || events[i].BlockDelta? || events[i].BlockStop?
  }

  lemma {:induction false} EndingKept(m: Message, events: seq<StreamEvent>)
    requires OnlyBlocks(events)
    ensures SameEnvelope(ReceiveAll(m, events), m)
    decreases |events|
  {
    if events != [] {
      EndingKept(Receive(m, events[0]), events[1..]);
    }
  }

  lemma {:induction false} ToolsOnlyBlocks(c: ConverterState, calls: seq<ToolCall>)
    ensures OnlyBlocks(ToolsPart(c, calls).events)
    decreases |calls|
  {
    if calls != [] {
      ToolsOnlyBlocks(ToolPart(c, calls[0]).state, calls[1..]);
    }
  }

  lemma BodyOnlyBlocks(c: ConverterState, r: ChatResponse)
    requires !c.firstWrite
    ensures OnlyBlocks(BodyPart(c, r).events)
  {
    var t := ThinkingPart(c, r.thinking);
    var x := ContentPart(t.state, r.content);
    ToolsOnlyBlocks(x.state, r.toolCalls);
    assert OnlyBlocks(t.events) && OnlyBlocks(x.events);
  }

  lemma {:induction false} BodyKeepsEnding(c: ConverterState, m: Message, r: ChatResponse)
    requires !c.firstWrite
    ensures SameEnvelope(ReceiveAll(m, BodyPart(c, r).events), m)
  {
    BodyOnlyBlocks(c, r);
    EndingKept(m, BodyPart(c, r).events);
  }

  // ---------- streaming refines not streaming ----------

  // The responses of a run as one: texts and calls joined, the ending of the last.
  function Merge(rs: seq<ChatResponse>): ChatResponse
    requires rs != []
  {
    rs[|rs| - 1].(thinking := AllThinking(rs), content := AllContent(rs), toolCalls := AllCalls(rs))
  }

  lemma {:induction false} SeeToolBlocks(calls: seq<ToolCall>)
    ensures SeeAll(ToolBlocks(calls)) == SeenTools(calls)
    decreases |calls|
  {
    if calls != [] {
      SeeToolBlocks(calls[1..]);
      assert ToolBlocks(calls)[1..] == ToolBlocks(calls[1..]);
    }
  }

  lemma {:induction false} SeeConcat(a: seq<ContentBlock>, b: seq<ContentBlock>)
    ensures SeeAll(a + b) == SeeAll(a) + SeeAll(b)
    decreases |a|
  {
    if a == [] {
      assert a + b == b;
    } else {
      SeeConcat(a[1..], b);
      assert (a + b)[1..] == a[1..] + b && (a + b)[0] == a[0];
      Assoc([See(a[0])], SeeAll(a[1..]), SeeAll(b));
    }
  }

  lemma SeeMessageBlocks(thinking: string, content: string, calls: seq<ToolCall>)
    ensures SeeAll(MessageBlocks(thinking, content, calls)) == Layout(thinking, content, calls)
  {
    var a := if thinking != "" then [ThinkingBlock(thinking)] else [];
    var b := if content != "" then [TextBlock(content)] else [];
    SeeToolBlocks(calls);
    SeeConcat(a + b, ToolBlocks(calls));
    SeeConcat(a, b);
  }

  lemma {:induction false} FirstIsStart(c: ConverterState, rs: seq<ChatResponse>)
    requires rs != [] && c.firstWrite
    ensures var s := StartPart(c, rs[0].metrics);
      RunAll(c, rs).events == s.events + RunAll(s.state, rs).events
  {
    var s := StartPart(c, rs[0].metrics);
    var r := rs[0];
    assert StartPart(s.state, r.metrics) == Out(s.state, []);
    var t := ThinkingPart(s.state, r.thinking);
    var x := ContentPart(t.state, r.content);
    var u := ToolsPart(x.state, r.toolCalls);
    var d := DonePart(u.state, r);
    var rest := RunAll(d.state, rs[1..]).events;
    Regroup(s.events, t.events, x.events, u.events, d.events, rest);
  }

  lemma Regroup<T>(s: seq<T>, t: seq<T>, x: seq<T>, u: seq<T>, d: seq<T>, rest: seq<T>)
    ensures s + t + x + u + d + rest == s + ([] + t + x + u + d + rest)
  {
  }

  // However an in-order run is cut into chunks, the streaming client ends up with the response
  // a non-streaming client gets for the merged run with its announced calls, under the model the
  // request named.
  lemma {:induction false} StreamingRefinesComplete(id: string, model: string, estimated: int, rs: seq<ChatResponse>)
    requires DoneLast(rs) && InOrder(rs)
    ensures ReceiveAll(NO_MESSAGE, RunAll(Fresh(id, model, estimated), rs).events)
         == View(ToMessagesResponse(id, Merge(rs).(model := model, toolCalls := Announce([], AllCalls(rs)))))
  {
    var c := Fresh(id, model, estimated);
    var s := StartPart(c, rs[0].metrics);
    var m := ReceiveAll(NO_MESSAGE, s.events);
    ReceiveOne(NO_MESSAGE, s.events[0]);
    FirstIsStart(c, rs);
    ReceiveConcat(NO_MESSAGE, s.events, RunAll(s.state, rs).events);
    assert Layout("", "", []) == [];
    RunReceived(s.state, m, "", "", [], false, rs);
    assert "" + AllThinking(rs) == AllThinking(rs) && "" + AllContent(rs) == AllContent(rs);
    SeeMessageBlocks(AllThinking(rs), AllContent(rs), Announce([], AllCalls(rs)));
  }

  predicate DistinctIds(calls: seq<ToolCall>) {
    forall i, j :: 0 <= i < j < |calls| ==> calls[i].id != calls[j].id
  }

  predicate AllMarshal(calls: seq<ToolCall>) {
    forall i :: 0 <= i < |calls| ==> calls[i].args.json.Some?
  }

  lemma {:induction false} AnnounceLength(sent: seq<ToolCall>, calls: seq<ToolCall>)
    ensures |Announce(sent, calls)| <= |sent| + |calls|
    ensures |Announce(sent, calls)| == |sent| + |calls| ==> Announce(sent, calls) == sent + calls && AllMarshal(calls)
    decreases |calls|
  {
    if calls != [] {
      var drop := Announced(sent, calls[0].id) || calls[0].args.json.None?;
      AnnounceLength(if drop then sent else sent + [calls[0]], calls[1..]);
      assert (sent + [calls[0]]) + calls[1..] == sent + calls;
      assert calls == [calls[0]] + calls[1..];
    }
  }

  lemma {:induction false} AnnounceEvery(sent: seq<ToolCall>, calls: seq<ToolCall>)
    requires DistinctIds(sent + calls) && AllMarshal(calls)
    ensures Announce(sent, calls) == sent + calls
    decreases |calls|
  {
    if calls != [] {
      var all := sent + calls;
      forall i | 0 <= i < |sent| ensures sent[i].id != calls[0].id {
        assert all[i] == sent[i] && all[|sent|] == calls[0];
      }
      assert (sent + [calls[0]]) + calls[1..] == all;
      AnnounceEvery(sent + [calls[0]], calls[1..]);
    }
  }

  // Nothing is dropped exactly when all ids differ and all arguments marshal.
  lemma {:induction false} AnnounceAllIff(calls: seq<ToolCall>)
    ensures |Announce([], calls)| == |calls| <==> DistinctIds(calls) && AllMarshal(calls)
    ensures |Announce([], calls)| == |calls| ==> Announce([], calls) == calls
  {
    assert [] + calls == calls;
    AnnounceLength([], calls);
    AnnounceMeans([], calls);
    if DistinctIds(calls) && AllMarshal(calls) {
      AnnounceEvery([], calls);
    }
  }

  // An in-order stream accumulates to exactly the complete response if and only if all tool ids
  // differ, all arguments marshal, and the last response names the model of the request.
  lemma {:induction false} InOrderEqualsCompleteIff(id: string, model: string, estimated: int, rs: seq<ChatResponse>)
    requires DoneLast(rs) && InOrder(rs)
    ensures ReceiveAll(NO_MESSAGE, RunAll(Fresh(id, model, estimated), rs).events)
            == View(ToMessagesResponse(id, Merge(rs)))
       <==> DistinctIds(AllCalls(rs)) && AllMarshal(AllCalls(rs)) && rs[|rs| - 1].model == model
  {
    var calls := AllCalls(rs);
    StreamingRefinesComplete(id, model, estimated, rs);
    AnnounceAllIff(calls);
    SeeMessageBlocks(AllThinking(rs), AllContent(rs), calls);
    SeeMessageBlocks(AllThinking(rs), AllContent(rs), Announce([], calls));
    LayoutLength(AllThinking(rs), AllContent(rs), calls, Announce([], calls));
  }

  lemma LayoutLength(thinking: string, text: string, a: seq<ToolCall>, b: seq<ToolCall>)
    ensures |a| != |b| ==> |Layout(thinking, text, a)| != |Layout(thinking, text, b)|
  {
  }
}
