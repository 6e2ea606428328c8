// What a stream loses or reorders: thinking that comes after a closed thinking block, tool calls
// that repeat an id or do not marshal, and parts out of order; and that it loses nothing else.
module StreamLosses {
  import opened Text
  import opened AnthropicTypes
  import opened StreamConverters
  import opened StreamRefinement

  // ---------- thinking ----------

  function ThinkingOf(events: seq<StreamEvent>): string {
    if events == [] then ""
    else if events[0].BlockDelta? && events[0].delta.ThinkingDelta? then events[0].delta.thinking + ThinkingOf(events[1..])
    else ThinkingOf(events[1..])
  }

  lemma {:induction false} ThinkingConcat(a: seq<StreamEvent>, b: seq<StreamEvent>)
    ensures ThinkingOf(a + b) == ThinkingOf(a) + ThinkingOf(b)
    decreases |a|
  {
    if a == [] {
      assert a + b == b && "" + ThinkingOf(b) == ThinkingOf(b);
    } else {
      ThinkingConcat(a[1..], b);
      assert (a + b)[1..] == a[1..] + b;
      if a[0].BlockDelta? && a[0].delta.ThinkingDelta? {
        Assoc(a[0].delta.thinking, ThinkingOf(a[1..]), ThinkingOf(b));
      }
    }
  }

  lemma {:induction false} NoThinkingDeltas(events: seq<StreamEvent>)
    requires forall i :: 0 <= i < |events| && events[i].BlockDelta? ==> !events[i].delta.ThinkingDelta?
    ensures ThinkingOf(events) == ""
    decreases |events|
  {
    if events != [] {
      NoThinkingDeltas(events[1..]);
    }
  }

  // The thinking one response adds: all of it until a thinking block has been closed.
  function Kept(done: bool, thinking: string): string {
    if done then "" else thinking
  }

  lemma ThinkingPartText(c: ConverterState, thinking: string)
    ensures ThinkingOf(ThinkingPart(c, thinking).events) == Kept(c.thinkingDone, thinking)
  {
    if thinking != "" && !c.thinkingDone {
      var closed := CloseText(c);
      var i := closed.state.contentIndex;
      var start := if closed.state.thinkingStarted then [] else [BlockStart(i, ThinkingBlock(""))];
      var delta := [BlockDelta(i, ThinkingDelta(thinking))];
      ThinkingConcat(start, delta);
      ThinkingConcat(closed.events, start + delta);
      assert thinking + "" == thinking;
    }
  }

  lemma {:induction false} ToolsPartThinking(c: ConverterState, calls: seq<ToolCall>)
    ensures ThinkingOf(ToolsPart(c, calls).events) == ""
    decreases |calls|
  {
    if calls != [] {
      var first := ToolPart(c, calls[0]);
      NoThinkingDeltas(first.events);
      ToolsPartThinking(first.state, calls[1..]);
      ThinkingConcat(first.events, ToolsPart(first.state, calls[1..]).events);
    }
  }

  lemma BodyThinking(c: ConverterState, r: ChatResponse)
    ensures ThinkingOf(BodyPart(c, r).events) == Kept(c.thinkingDone, r.thinking)
  {
    var s := StartPart(c, r.metrics);
    var t := ThinkingPart(s.state, r.thinking);
    var x := ContentPart(t.state, r.content);
    var u := ToolsPart(x.state, r.toolCalls);
    NoThinkingDeltas(s.events);
    ThinkingPartText(s.state, r.thinking);
    NoThinkingDeltas(x.events);
    ToolsPartThinking(x.state, r.toolCalls);
    FourTexts(s.events, t.events, x.events, u.events);
  }

  lemma {:induction false} FourTexts(s: seq<StreamEvent>, t: seq<StreamEvent>, x: seq<StreamEvent>, u: seq<StreamEvent>)
    requires ThinkingOf(s) == ThinkingOf(x) == ThinkingOf(u) == ""
    ensures ThinkingOf(s + t + x + u) == ThinkingOf(t)
  {
    ThinkingConcat(s, t);
    ThinkingConcat(s + t, x);
    ThinkingConcat(s + t + x, u);
    assert "" + ThinkingOf(t) + "" + "" == ThinkingOf(t);
  }

  lemma ProcessThinking(c: ConverterState, r: ChatResponse)
    ensures ThinkingOf(ProcessOne(c, r).events) == Kept(c.thinkingDone, r.thinking)
  {
    var body := BodyPart(c, r);
    var d := DonePart(body.state, r);
    BodyThinking(c, r);
    NoThinkingDeltas(d.events);
    ThinkingConcat(body.events, d.events);
    assert Kept(c.thinkingDone, r.thinking) + "" == Kept(c.thinkingDone, r.thinking);
  }

  // The response closes an open thinking block: it has content, or a call the client has not
  // heard of yet.
  predicate Closes(sent: seq<ToolCall>, r: ChatResponse) {
    r.content != "" || NewCall(sent, r.toolCalls)
  }

  predicate NewCall(sent: seq<ToolCall>, calls: seq<ToolCall>) {
    exists k :: 0 <= k < |calls| && !Announced(sent, calls[k].id)
  }

  lemma NewCallStep(sent: seq<ToolCall>, calls: seq<ToolCall>)
    requires calls != []
    ensures NewCall(sent, calls) <==> !Announced(sent, calls[0].id) || NewCall(sent, calls[1..])
  {
    if NewCall(sent, calls[1..]) {
      var k :| 0 <= k < |calls[1..]| && !Announced(sent, calls[1..][k].id);
      assert !Announced(sent, calls[k + 1].id);
    }
    if NewCall(sent, calls) {
      var k :| 0 <= k < |calls| && !Announced(sent, calls[k].id);
      assert k == 0 || !Announced(sent, calls[1..][k - 1].id);
    }
  }

  lemma {:induction false} ToolsClose(c: ConverterState, calls: seq<ToolCall>, sent: seq<ToolCall>)
    requires SentMatches(c, sent)
    ensures var d := ToolsPart(c, calls).state;
      && d.thinkingStarted == c.thinkingStarted
      && d.thinkingDone == (c.thinkingDone || (c.thinkingStarted && NewCall(sent, calls)))
    decreases |calls|
  {
    if calls != [] {
      var first := ToolPart(c, calls[0]);
      NewCallStep(sent, calls);
      if calls[0].id in c.toolCallsSent {
        ToolsClose(c, calls[1..], sent);
      } else {
        ToolPartIds(c, calls[0], sent);
        ToolsClose(first.state, calls[1..], Announce(sent, [calls[0]]));
      }
    }
  }

  lemma ProcessCloses(c: ConverterState, r: ChatResponse, sent: seq<ToolCall>)
    requires SentMatches(c, sent) && (c.thinkingDone ==> c.thinkingStarted)
    ensures var d := ProcessOne(c, r).state;
      && d.thinkingStarted == (c.thinkingStarted || r.thinking != "")
      && d.thinkingDone == (c.thinkingDone || (d.thinkingStarted && Closes(sent, r)))
  {
    var s := StartPart(c, r.metrics);
    var t := ThinkingPart(s.state, r.thinking);
    var x := ContentPart(t.state, r.content);
    StartQuiet(c, r.metrics);
    ThinkingQuiet(s.state, r.thinking);
    ContentQuiet(t.state, r.content);
    ToolsClose(x.state, r.toolCalls, sent);
  }

  // Some response of the run brings thinking after the thinking block has been closed; started
  // and done say whether it has been opened and closed before the run.
  predicate LosesThinking(started: bool, done: bool, sent: seq<ToolCall>, rs: seq<ChatResponse>)
    decreases |rs|
  {
    if rs == [] then false else
      var r := rs[0];
      var started' := started || r.thinking != "";
      || (done && r.thinking != "")
      || LosesThinking(started', done || (started' && Closes(sent, r)), Announce(sent, r.toolCalls), rs[1..])
  }

  lemma {:induction false} RunThinking(c: ConverterState, rs: seq<ChatResponse>, sent: seq<ToolCall>)
    requires SentMatches(c, sent) && (c.thinkingDone ==> c.thinkingStarted)
    ensures var lost := LosesThinking(c.thinkingStarted, c.thinkingDone, sent, rs);
      && (!lost ==> ThinkingOf(RunAll(c, rs).events) == AllThinking(rs))
      && (lost ==> |ThinkingOf(RunAll(c, rs).events)| < |AllThinking(rs)|)
      && |ThinkingOf(RunAll(c, rs).events)| <= |AllThinking(rs)|
    decreases |rs|
  {
    if rs != [] {
      var first := ProcessOne(c, rs[0]);
      ProcessThinking(c, rs[0]);
      ProcessCloses(c, rs[0], sent);
      ProcessIds(c, rs[0], sent);
      RunThinking(first.state, rs[1..], Announce(sent, rs[0].toolCalls));
      ThinkingConcat(first.events, RunAll(first.state, rs[1..]).events);
    }
  }

  // Response j closes the thinking block, if one is open then.
  predicate ClosesAt(sent: seq<ToolCall>, rs: seq<ChatResponse>, j: int) {
    0 <= j < |rs| && Closes(Announce(sent, AllCalls(rs[..j])), rs[j])
  }

  predicate ThinkingBy(started: bool, rs: seq<ChatResponse>, j: int) {
    started || exists i :: 0 <= i <= j && i < |rs| && rs[i].thinking != ""
  }

  // Before response k a thinking block was opened and closed.
  predicate BlockClosed(started: bool, done: bool, sent: seq<ToolCall>, rs: seq<ChatResponse>, k: int) {
    done || exists j :: 0 <= j < k && ClosesAt(sent, rs, j) && ThinkingBy(started, rs, j)
  }

  predicate LostAt(started: bool, done: bool, sent: seq<ToolCall>, rs: seq<ChatResponse>, k: int) {
    0 <= k < |rs| && rs[k].thinking != "" && BlockClosed(started, done, sent, rs, k)
  }

  lemma ThinkingByStep(started: bool, rs: seq<ChatResponse>, j: nat)
    requires rs != []
    ensures ThinkingBy(started, rs, j + 1) <==> ThinkingBy(started || rs[0].thinking != "", rs[1..], j)
  {
    if ThinkingBy(started, rs, j + 1) && !started && rs[0].thinking == "" {
      var i :| 0 <= i <= j + 1 && i < |rs| && rs[i].thinking != "";
      assert rs[1..][i - 1].thinking != "";
    }
    if ThinkingBy(started || rs[0].thinking != "", rs[1..], j) && !started && rs[0].thinking == "" {
      var i :| 0 <= i <= j && i < |rs[1..]| && rs[1..][i].thinking != "";
      assert rs[i + 1].thinking != "";
    }
  }

  lemma {:induction false} ClosesAtStep(sent: seq<ToolCall>, rs: seq<ChatResponse>, j: nat)
    requires rs != []
    ensures ClosesAt(sent, rs, j + 1) <==> ClosesAt(Announce(sent, rs[0].toolCalls), rs[1..], j)
  {
    if j + 1 < |rs| {
      var front := rs[..j + 1];
      assert front[1..] == rs[1..][..j] && front[0] == rs[0];
      AnnounceConcat(sent, rs[0].toolCalls, AllCalls(rs[1..][..j]));
    }
  }

  lemma {:induction false} BlockClosedStep(started: bool, done: bool, sent: seq<ToolCall>, rs: seq<ChatResponse>, k: nat)
    requires rs != []
    ensures var started' := started || rs[0].thinking != "";
      BlockClosed(started, done, sent, rs, k + 1)
      == BlockClosed(started', done || (started' && Closes(sent, rs[0])), Announce(sent, rs[0].toolCalls), rs[1..], k)
  {
    var started' := started || rs[0].thinking != "";
    var sent' := Announce(sent, rs[0].toolCalls);
    assert rs[..0] == [];
    assert ClosesAt(sent, rs, 0) == Closes(sent, rs[0]) && ThinkingBy(started, rs, 0) == started';
    forall j: nat ensures ClosesAt(sent, rs, j + 1) == ClosesAt(sent', rs[1..], j)
      && ThinkingBy(started, rs, j + 1) == ThinkingBy(started', rs[1..], j)
    {
      ClosesAtStep(sent, rs, j);
      ThinkingByStep(started, rs, j);
    }
    ShiftClosed(started, started', sent, sent', rs, k);
  }

  lemma ShiftClosed(started: bool, started': bool, sent: seq<ToolCall>, sent': seq<ToolCall>, rs: seq<ChatResponse>, k: nat)
    requires rs != []
    requires forall j: nat :: ClosesAt(sent, rs, j + 1) == ClosesAt(sent', rs[1..], j)
    requires forall j: nat :: ThinkingBy(started, rs, j + 1) == ThinkingBy(started', rs[1..], j)
    ensures (exists j :: 0 <= j < k + 1 && ClosesAt(sent, rs, j) && ThinkingBy(started, rs, j))
         == ((ClosesAt(sent, rs, 0) && ThinkingBy(started, rs, 0))
             || exists j :: 0 <= j < k && ClosesAt(sent', rs[1..], j) && ThinkingBy(started', rs[1..], j))
  {
    if exists j :: 0 <= j < k + 1 && ClosesAt(sent, rs, j) && ThinkingBy(started, rs, j) {
      var j :| 0 <= j < k + 1 && ClosesAt(sent, rs, j) && ThinkingBy(started, rs, j);
      if j > 0 {
        assert ClosesAt(sent', rs[1..], j - 1) && ThinkingBy(started', rs[1..], j - 1);
      }
    }
    if exists j :: 0 <= j < k && ClosesAt(sent', rs[1..], j) && ThinkingBy(started', rs[1..], j) {
      var j :| 0 <= j < k && ClosesAt(sent', rs[1..], j) && ThinkingBy(started', rs[1..], j);
      assert ClosesAt(sent, rs, j + 1) && ThinkingBy(started, rs, j + 1);
    }
  }

  lemma {:induction false} LosesIff(started: bool, done: bool, sent: seq<ToolCall>, rs: seq<ChatResponse>)
    ensures LosesThinking(started, done, sent, rs) <==> exists k :: LostAt(started, done, sent, rs, k)
    decreases |rs|
  {
    if rs != [] {
      var started' := started || rs[0].thinking != "";
      var done', sent' := done || (started' && Closes(sent, rs[0])), Announce(sent, rs[0].toolCalls);
      LosesIff(started', done', sent', rs[1..]);
      forall k: nat ensures LostAt(started, done, sent, rs, k + 1) == LostAt(started', done', sent', rs[1..], k) {
        BlockClosedStep(started, done, sent, rs, k);
      }
      assert LostAt(started, done, sent, rs, 0) == (done && rs[0].thinking != "");
      LostSomewhere(started, done, sent, started', done', sent', rs);
    }
  }

  lemma LostSomewhere(started: bool, done: bool, sent: seq<ToolCall>, started': bool, done': bool, sent': seq<ToolCall>,
                      rs: seq<ChatResponse>)
    requires rs != []
    requires forall k: nat :: LostAt(started, done, sent, rs, k + 1) == LostAt(started', done', sent', rs[1..], k)
    ensures (exists k :: LostAt(started, done, sent, rs, k))
         == (LostAt(started, done, sent, rs, 0) || exists k :: LostAt(started', done', sent', rs[1..], k))
  {
    if exists k :: LostAt(started, done, sent, rs, k) {
      var k :| LostAt(started, done, sent, rs, k);
      if k > 0 {
        assert LostAt(started', done', sent', rs[1..], k - 1);
      }
    }
    if exists k :: LostAt(started', done', sent', rs[1..], k) {
      var k :| LostAt(started', done', sent', rs[1..], k);
      assert LostAt(started, done, sent, rs, k + 1);
    }
  }

  // A response brings thinking after a thinking block was opened and then closed by content or
  // by a call the client had not heard of.
  ghost predicate ThinkingAfterClosed(rs: seq<ChatResponse>) {
    exists k :: LostAt(false, false, [], rs, k)
  }

  // The thinking deltas join to all thinking of the run exactly if no response brings thinking
  // after a closed thinking block.
  lemma {:induction false} ThinkingKeptIff(id: string, model: string, estimated: int, rs: seq<ChatResponse>)
    ensures ThinkingOf(RunAll(Fresh(id, model, estimated), rs).events) == AllThinking(rs) <==> !ThinkingAfterClosed(rs)
  {
    RunThinking(Fresh(id, model, estimated), rs, []);
    LosesIff(false, false, [], rs);
  }

  // Thinking a, content b, then thinking c: the last is lost.
  lemma LateThinkingIsLost(id: string, model: string, estimated: int, first: ChatResponse, second: ChatResponse)
    requires first.thinking == "a" && first.content == "b" && second.thinking == "c"
    ensures ThinkingAfterClosed([first, second])
    ensures ThinkingOf(RunAll(Fresh(id, model, estimated), [first, second]).events) != AllThinking([first, second])
  {
    var rs := [first, second];
    assert ThinkingBy(false, rs, 0) && ClosesAt([], rs, 0);
    assert LostAt(false, false, [], rs, 1);
    ThinkingKeptIff(id, model, estimated, rs);
  }

  // ---------- order ----------

  function Rank(b: Seen): nat {
    match b
    case SeenThinking(_) => 0
    case SeenText(_) => 1
    case SeenTool(_, _, _) => 2
    case SeenServer(_) => 3
  }

  predicate Ordered(blocks: seq<Seen>) {
    forall i, j :: 0 <= i < j < |blocks| ==> Rank(blocks[i]) <= Rank(blocks[j])
  }

  // Does not start the message anew, nor a thinking block that has text already.
  predicate SteadyEvent(e: StreamEvent) {
    !e.MessageStart? && (e.BlockStart? && e.contentBlock.ThinkingBlock? ==> e.contentBlock.thinking == "")
  }

  predicate Steady(events: seq<StreamEvent>) {
    if events == [] then true else SteadyEvent(events[0]) && Steady(events[1..])
  }

  lemma {:induction false} SteadyConcat(a: seq<StreamEvent>, b: seq<StreamEvent>)
    requires Steady(a) && Steady(b)
    ensures Steady(a + b)
    decreases |a|
  {
    if a == [] {
      assert a + b == b;
    } else {
      assert (a + b)[1..] == a[1..] + b;
      SteadyConcat(a[1..], b);
    }
  }

  // Blocks keep their place and kind.
  predicate Extends(blocks: seq<Seen>, more: seq<Seen>) {
    |blocks| <= |more| && forall i :: 0 <= i < |blocks| ==> Rank(more[i]) == Rank(blocks[i])
  }

  lemma ReceiveExtends(m: Message, e: StreamEvent)
    requires !e.MessageStart?
    ensures Extends(m.blocks, Receive(m, e).blocks)
  {
  }

  lemma {:induction false} AllExtends(m: Message, events: seq<StreamEvent>)
    requires Steady(events)
    ensures Extends(m.blocks, ReceiveAll(m, events).blocks)
    decreases |events|
  {
    if events != [] {
      ReceiveExtends(m, events[0]);
      AllExtends(Receive(m, events[0]), events[1..]);
    }
  }

  // A block of lower rank that starts behind one of higher rank stays behind it.
  lemma {:induction false} OutOfOrderStays(m: Message, start: StreamEvent, rest: seq<StreamEvent>, i: nat)
    requires start.BlockStart? && Steady(rest) && i < |m.blocks|
    requires Rank(SeeStart(start.contentBlock)) < Rank(m.blocks[i])
    ensures !Ordered(ReceiveAll(m, [start] + rest).blocks)
  {
    var m1 := Receive(m, start);
    ReceiveConcat(m, [start], rest);
    ReceiveOne(m, start);
    AllExtends(m1, rest);
    var all := ReceiveAll(m1, rest).blocks;
    assert Rank(all[i]) == Rank(m.blocks[i]) && Rank(all[|m.blocks|]) == Rank(m1.blocks[|m.blocks|]);
  }

  lemma SteadyOne(e: StreamEvent)
    requires SteadyEvent(e)
    ensures Steady([e])
  {
    assert [e][1..] == [];
  }

  lemma {:induction false} SteadyAll(events: seq<StreamEvent>)
    requires forall i :: 0 <= i < |events| ==> SteadyEvent(events[i])
    ensures Steady(events)
    decreases |events|
  {
    if events != [] {
      SteadyAll(events[1..]);
    }
  }

  lemma {:induction false} ToolsSteady(c: ConverterState, calls: seq<ToolCall>)
    ensures Steady(ToolsPart(c, calls).events) && ToolsPart(c, calls).state.firstWrite == c.firstWrite
    decreases |calls|
  {
    if calls != [] {
      var first := ToolPart(c, calls[0]);
      SteadyAll(first.events);
      ToolsSteady(first.state, calls[1..]);
      SteadyConcat(first.events, ToolsPart(first.state, calls[1..]).events);
    }
  }

  // The events of a response after its thinking, and after its content.
  function AfterContent(x: ConverterState, r: ChatResponse): Out {
    var u := ToolsPart(x, r.toolCalls);
    u.Then(DonePart(u.state, r))
  }

  function AfterThinking(t: ConverterState, r: ChatResponse): Out {
    var x := ContentPart(t, r.content);
    x.Then(AfterContent(x.state, r))
  }

  lemma ProcessInParts(c: ConverterState, r: ChatResponse)
    requires !c.firstWrite
    ensures var t := ThinkingPart(c, r.thinking);
      ProcessOne(c, r) == t.Then(AfterThinking(t.state, r))
  {
    var t := ThinkingPart(c, r.thinking);
    var x := ContentPart(t.state, r.content);
    var u := ToolsPart(x.state, r.toolCalls);
    var d := DonePart(u.state, r);
    FourParts(t.events, x.events, u.events, d.events);
  }

  lemma FourParts<T>(t: seq<T>, x: seq<T>, u: seq<T>, d: seq<T>)
    ensures [] + t + x + u + d == t + (x + (u + d))
  {
  }

  lemma AfterContentSteady(x: ConverterState, r: ChatResponse)
    ensures Steady(AfterContent(x, r).events) && AfterContent(x, r).state.firstWrite == x.firstWrite
  {
    var u := ToolsPart(x, r.toolCalls);
    ToolsSteady(x, r.toolCalls);
    SteadyAll(DonePart(u.state, r).events);
    SteadyConcat(u.events, DonePart(u.state, r).events);
  }

  lemma ContentSteady(t: ConverterState, content: string)
    ensures Steady(ContentPart(t, content).events) && ContentPart(t, content).state.firstWrite == t.firstWrite
  {
    SteadyAll(ContentPart(t, content).events);
  }

  lemma AfterThinkingSteady(t: ConverterState, r: ChatResponse)
    ensures Steady(AfterThinking(t, r).events) && AfterThinking(t, r).state.firstWrite == t.firstWrite
  {
    var x := ContentPart(t, r.content);
    ContentSteady(t, r.content);
    AfterContentSteady(x.state, r);
    SteadyConcat(x.events, AfterContent(x.state, r).events);
  }

  lemma {:induction false} RunSteady(c: ConverterState, rs: seq<ChatResponse>)
    requires !c.firstWrite
    ensures Steady(RunAll(c, rs).events)
    decreases |rs|
  {
    if rs != [] {
      var t := ThinkingPart(c, rs[0].thinking);
      ProcessInParts(c, rs[0]);
      SteadyAll(t.events);
      AfterThinkingSteady(t.state, rs[0]);
      SteadyConcat(t.events, AfterThinking(t.state, rs[0]).events);
      var first := ProcessOne(c, rs[0]);
      RunSteady(first.state, rs[1..]);
      SteadyConcat(first.events, RunAll(first.state, rs[1..]).events);
    }
  }

  // ---------- a first response out of order ----------

  lemma SplitFirst(pre: seq<StreamEvent>, start: StreamEvent, delta: StreamEvent, after: seq<StreamEvent>, rest: seq<StreamEvent>)
    ensures (pre + ([start] + [delta]) + after) + rest == pre + ([start] + ([delta] + after + rest))
  {
  }

  // After events that only close blocks, a block that is out of order stays out of order.
  lemma {:induction false} LateBlockShows(m: Message, pre: seq<StreamEvent>, start: StreamEvent, delta: StreamEvent,
                                          after: seq<StreamEvent>,
                                          rest: seq<StreamEvent>, i: nat)
    requires forall k :: 0 <= k < |pre| ==> pre[k].BlockStop?
    requires start.BlockStart? && delta.BlockDelta? && Steady(after) && Steady(rest)
    requires i < |m.blocks| && Rank(SeeStart(start.contentBlock)) < Rank(m.blocks[i])
    ensures !Ordered(ReceiveAll(m, (pre + ([start] + [delta]) + after) + rest).blocks)
  {
    SplitFirst(pre, start, delta, after, rest);
    ReceiveConcat(m, pre, [start] + ([delta] + after + rest));
    StopsAreSilent(m, pre);
    SteadyOne(delta);
    SteadyConcat([delta], after);
    SteadyConcat([delta] + after, rest);
    OutOfOrderStays(m, start, [delta] + after + rest, i);
  }

  lemma {:induction false} RunSplit(c: ConverterState, rs: seq<ChatResponse>)
    requires rs != [] && !c.firstWrite
    ensures var t := ThinkingPart(c, rs[0].thinking);
      && Steady(AfterThinking(t.state, rs[0]).events) && Steady(RunAll(ProcessOne(c, rs[0]).state, rs[1..]).events)
      && RunAll(c, rs).events
           == (t.events + AfterThinking(t.state, rs[0]).events) + RunAll(ProcessOne(c, rs[0]).state, rs[1..]).events
  {
    var t := ThinkingPart(c, rs[0].thinking);
    ProcessInParts(c, rs[0]);
    AfterThinkingSteady(t.state, rs[0]);
    RunSteady(ProcessOne(c, rs[0]).state, rs[1..]);
  }

  // Thinking that opens its block behind text or a call.
  lemma {:induction false} LateThinkingShows(c: ConverterState, m: Message, text: string, sent: seq<ToolCall>,
                                             anyCall: bool, rs: seq<ChatResponse>)
    requires InStep(c, m, "", text, sent, anyCall) && (text != "" || sent != [])
    requires rs != [] && rs[0].thinking != ""
    ensures !Ordered(ReceiveAll(m, RunAll(c, rs).events).blocks)
  {
    var r := rs[0];
    var closed := CloseText(c);
    var i := closed.state.contentIndex;
    var start, delta := BlockStart(i, ThinkingBlock("")), BlockDelta(i, ThinkingDelta(r.thinking));
    RunSplit(c, rs);
    assert ThinkingPart(c, r.thinking).events == closed.events + ([start] + [delta]);
    assert Rank(m.blocks[0]) > 0;
    LateBlockShows(m, closed.events, start, delta, AfterThinking(ThinkingPart(c, r.thinking).state, r).events,
                   RunAll(ProcessOne(c, r).state, rs[1..]).events, 0);
  }

  lemma ContentOpens(c: ConverterState, r: ChatResponse)
    requires !c.textStarted && !c.ThinkingOpen() && r.thinking == "" && r.content != ""
    ensures var start, delta := BlockStart(c.contentIndex, TextBlock("")), BlockDelta(c.contentIndex, TextDelta(r.content));
      var after := AfterContent(ContentPart(c, r.content).state, r).events;
      Steady(after) && ThinkingPart(c, r.thinking).events + AfterThinking(ThinkingPart(c, r.thinking).state, r).events
        == [] + ([start] + [delta]) + after
  {
    var x := ContentPart(c, r.content);
    AfterContentSteady(x.state, r);
    assert ThinkingPart(c, r.thinking) == Out(c, []);
    EmptyFront([BlockStart(c.contentIndex, TextBlock(""))] + [BlockDelta(c.contentIndex, TextDelta(r.content))],
               AfterContent(x.state, r).events);
  }

  // Content that opens a block behind a call.
  lemma {:induction false} LateContentShows(c: ConverterState, m: Message, thinking: string, text: string,
                                            sent: seq<ToolCall>, rs: seq<ChatResponse>)
    requires InStep(c, m, thinking, text, sent, true) && sent != []
    requires rs != [] && rs[0].thinking == "" && rs[0].content != ""
    ensures !Ordered(ReceiveAll(m, RunAll(c, rs).events).blocks)
  {
    var r := rs[0];
    RunSplit(c, rs);
    ContentOpens(c, r);
    LastIsTool(thinking, text, sent);
    LateBlockShows(m, [], BlockStart(c.contentIndex, TextBlock("")), BlockDelta(c.contentIndex, TextDelta(r.content)),
                   AfterContent(ContentPart(c, r.content).state, r).events,
                   RunAll(ProcessOne(c, r).state, rs[1..]).events, |m.blocks| - 1);
  }

  lemma LastIsTool(thinking: string, text: string, sent: seq<ToolCall>)
    requires sent != []
    ensures var blocks := Layout(thinking, text, sent); blocks != [] && blocks[|blocks| - 1].SeenTool?
  {
  }

  lemma EmptyFront<T>(a: seq<T>, b: seq<T>)
    ensures [] + (([] + a) + b) == [] + a + b
  {
  }

  lemma DistinctParts(sent: seq<ToolCall>, first: seq<ToolCall>, rest: seq<ToolCall>)
    requires DistinctIds(sent + (first + rest)) && AllMarshal(first + rest)
    ensures DistinctIds(sent + first) && DistinctIds((sent + first) + rest) && AllMarshal(first) && AllMarshal(rest)
  {
    var all := sent + (first + rest);
    assert (sent + first) + rest == all;
    forall i, j | 0 <= i < j < |sent + first| ensures (sent + first)[i].id != (sent + first)[j].id {
      assert all[i] == (sent + first)[i] && all[j] == (sent + first)[j];
    }
    forall i | 0 <= i < |rest| ensures rest[i].args.json.Some? {
      assert (first + rest)[|first| + i] == rest[i];
    }
    forall i | 0 <= i < |first| ensures first[i].args.json.Some? {
      assert (first + rest)[i] == first[i];
    }
  }

  lemma {:induction false} BodyGoesOn(c: ConverterState, m: Message, rs: seq<ChatResponse>)
    requires DoneLast(rs) && |rs| > 1
    ensures ProcessOne(c, rs[0]).state == BodyPart(c, rs[0]).state && DoneLast(rs[1..])
    ensures var body := BodyPart(c, rs[0]);
      ReceiveAll(m, RunAll(c, rs).events) == ReceiveAll(ReceiveAll(m, body.events), RunAll(body.state, rs[1..]).events)
  {
    ReceivePrefix(c, m, rs);
    RestDoneLast(rs);
  }

  lemma RestDoneLast(rs: seq<ChatResponse>)
    requires DoneLast(rs) && |rs| > 1
    ensures DoneLast(rs[1..]) && !rs[0].done
  {
    assert rs[1..][|rs| - 2] == rs[|rs| - 1];
  }

  lemma {:induction false} NextInStep(c: ConverterState, m: Message, thinking: string, text: string, sent: seq<ToolCall>,
                                      anyCall: bool, rs: seq<ChatResponse>)
    requires InStep(c, m, thinking, text, sent, anyCall) && DoneLast(rs) && |rs| > 1
    requires MayFollow(text != "", anyCall, rs[0])
    requires DistinctIds(sent + AllCalls(rs)) && AllMarshal(AllCalls(rs))
    ensures var r, body := rs[0], BodyPart(c, rs[0]);
      && InStep(body.state, ReceiveAll(m, body.events), thinking + r.thinking, text + r.content, sent + r.toolCalls,
                anyCall || r.toolCalls != [])
      && DistinctIds((sent + r.toolCalls) + AllCalls(rs[1..])) && AllMarshal(AllCalls(rs[1..]))
  {
    var r := rs[0];
    DistinctParts(sent, r.toolCalls, AllCalls(rs[1..]));
    AnnounceEvery(sent, r.toolCalls);
    BodyInStep(c, m, thinking, text, sent, anyCall, r);
  }

  lemma {:induction false} NextKeepsThinking(c: ConverterState, sent: seq<ToolCall>, rs: seq<ChatResponse>)
    requires SentMatches(c, sent) && (c.thinkingDone ==> c.thinkingStarted) && DoneLast(rs) && |rs| > 1
    requires !LosesThinking(c.thinkingStarted, c.thinkingDone, sent, rs)
    ensures var d := BodyPart(c, rs[0]).state;
      !LosesThinking(d.thinkingStarted, d.thinkingDone, Announce(sent, rs[0].toolCalls), rs[1..])
  {
    ProcessCloses(c, rs[0], sent);
  }

  // An in-step converter whose run keeps all thinking and all calls, and whose client sees
  // thinking, text and calls in this order, was given them in this order.
  lemma {:induction false} OrderForced(c: ConverterState, m: Message, thinking: string, text: string, sent: seq<ToolCall>,
                                       anyCall: bool, rs: seq<ChatResponse>)
    requires InStep(c, m, thinking, text, sent, anyCall) && (anyCall ==> sent != []) && DoneLast(rs)
    requires DistinctIds(sent + AllCalls(rs)) && AllMarshal(AllCalls(rs))
    requires !LosesThinking(c.thinkingStarted, c.thinkingDone, sent, rs)
    requires Ordered(ReceiveAll(m, RunAll(c, rs).events).blocks)
    ensures AllMayFollow(text != "", anyCall, rs) && InOrder(rs)
    decreases |rs|
  {
    var r, rest := rs[0], rs[1..];
    FirstMayFollow(c, m, thinking, text, sent, anyCall, rs);
    if rest != [] {
      var body := BodyPart(c, r);
      var m1 := ReceiveAll(m, body.events);
      NextInStep(c, m, thinking, text, sent, anyCall, rs);
      NextKeepsThinking(c, sent, rs);
      BodyGoesOn(c, m, rs);
      DistinctParts(sent, r.toolCalls, AllCalls(rest));
      AnnounceEvery(sent, r.toolCalls);
      OrderForced(body.state, m1, thinking + r.thinking, text + r.content, sent + r.toolCalls, anyCall || r.toolCalls != [], rest);
      OrderSnoc(text, anyCall, rs, r.content, text + r.content);
    }
  }

  lemma {:induction false} FirstMayFollow(c: ConverterState, m: Message, thinking: string, text: string,
                                          sent: seq<ToolCall>, anyCall: bool,
                                          rs: seq<ChatResponse>)
    requires InStep(c, m, thinking, text, sent, anyCall) && (anyCall ==> sent != []) && rs != []
    requires !(c.thinkingDone && rs[0].thinking != "")
    requires Ordered(ReceiveAll(m, RunAll(c, rs).events).blocks)
    ensures MayFollow(text != "", anyCall, rs[0])
  {
    if rs[0].thinking != "" && (text != "" || anyCall) {
      LateThinkingShows(c, m, text, sent, anyCall, rs);
    } else if rs[0].content != "" && anyCall {
      LateContentShows(c, m, thinking, text, sent, rs);
    }
  }

  lemma OrderSnoc(text: string, anyCall: bool, rs: seq<ChatResponse>, content: string, both: string)
    requires rs != [] && MayFollow(text != "", anyCall, rs[0]) && content == rs[0].content && both == text + content
    requires InOrder(rs[1..]) && AllMayFollow(both != "", anyCall || rs[0].toolCalls != [], rs[1..])
    ensures AllMayFollow(text != "", anyCall, rs) && InOrder(rs)
  {
    forall j | 0 < j < |rs|
      ensures MayFollow(text != "", anyCall, rs[j]) && MayFollow(rs[0].content != "", rs[0].toolCalls != [], rs[j])
    {
      assert rs[j] == rs[1..][j - 1];
      assert MayFollow(both != "", anyCall || rs[0].toolCalls != [], rs[1..][j - 1]);
    }
    forall i, j | 0 <= i < j < |rs| ensures MayFollow(rs[i].content != "", rs[i].toolCalls != [], rs[j]) {
      if i > 0 {
        assert rs[i] == rs[1..][i - 1] && rs[j] == rs[1..][j - 1];
      }
    }
  }

  // ---------- what the client has received ----------

  function Total(blocks: seq<Seen>, weight: Seen -> nat): nat {
    if blocks == [] then 0 else weight(blocks[0]) + Total(blocks[1..], weight)
  }

  function ToolWeight(): Seen -> nat {
    (b: Seen) => if b.SeenTool? then 1 else 0
  }

  function ThinkingWeight(): Seen -> nat {
    (b: Seen) => if b.SeenThinking? then |b.thinking| else 0
  }

  lemma {:induction false} TotalConcat(a: seq<Seen>, b: seq<Seen>, weight: Seen -> nat)
    ensures Total(a + b, weight) == Total(a, weight) + Total(b, weight)
    decreases |a|
  {
    if a == [] {
      assert a + b == b;
    } else {
      assert (a + b)[1..] == a[1..] + b;
      TotalConcat(a[1..], b, weight);
    }
  }

  lemma TotalOne(b: Seen, weight: Seen -> nat)
    ensures Total([b], weight) == weight(b)
  {
    assert [b][1..] == [];
  }

  lemma {:induction false} TotalUpdate(blocks: seq<Seen>, i: nat, b: Seen, weight: Seen -> nat)
    requires i < |blocks|
    ensures Total(blocks[i := b], weight) + weight(blocks[i]) == Total(blocks, weight) + weight(b)
    decreases |blocks|
  {
    if i > 0 {
      assert blocks[i := b][1..] == blocks[1..][i - 1 := b];
      TotalUpdate(blocks[1..], i - 1, b, weight);
    }
  }

  lemma ReceiveTotals(m: Message, e: StreamEvent)
    requires SteadyEvent(e)
    ensures Total(Receive(m, e).blocks, ToolWeight()) <= Total(m.blocks, ToolWeight()) + |ToolIds([e])|
    ensures Total(Receive(m, e).blocks, ThinkingWeight()) <= Total(m.blocks, ThinkingWeight()) + |ThinkingOf([e])|
  {
    if e.BlockStart? {
      var b := SeeStart(e.contentBlock);
      TotalConcat(m.blocks, [b], ToolWeight());
      TotalConcat(m.blocks, [b], ThinkingWeight());
      TotalOne(b, ToolWeight());
      TotalOne(b, ThinkingWeight());
      StartIds(e);
    } else if e.BlockDelta? && e.index < |m.blocks| {
      var b := Grow(m.blocks[e.index], e.delta);
      TotalUpdate(m.blocks, e.index, b, ToolWeight());
      TotalUpdate(m.blocks, e.index, b, ThinkingWeight());
      GrowsBy(m.blocks[e.index], e);
    }
  }

  lemma StartIds(e: StreamEvent)
    requires e.BlockStart?
    ensures |ToolIds([e])| == ToolWeight()(SeeStart(e.contentBlock))
  {
    assert [e][1..] == [];
  }

  lemma GrowsBy(b: Seen, e: StreamEvent)
    requires e.BlockDelta?
    ensures ToolWeight()(Grow(b, e.delta)) == ToolWeight()(b)
    ensures ThinkingWeight()(Grow(b, e.delta)) <= ThinkingWeight()(b) + |ThinkingOf([e])|
  {
    assert [e][1..] == [];
  }

  // The client has received no more tool blocks than were started and no more thinking than
  // was streamed.
  lemma {:induction false} AllTotals(m: Message, events: seq<StreamEvent>)
    requires Steady(events)
    ensures Total(ReceiveAll(m, events).blocks, ToolWeight()) <= Total(m.blocks, ToolWeight()) + |ToolIds(events)|
    ensures Total(ReceiveAll(m, events).blocks, ThinkingWeight()) <= Total(m.blocks, ThinkingWeight()) + |ThinkingOf(events)|
    decreases |events|
  {
    if events != [] {
      var m1 := Receive(m, events[0]);
      ReceiveTotals(m, events[0]);
      AllTotals(m1, events[1..]);
      assert events == [events[0]] + events[1..];
      ToolIdsConcat([events[0]], events[1..]);
      ThinkingConcat([events[0]], events[1..]);
    }
  }

  lemma {:induction false} ToolsTotal(calls: seq<ToolCall>)
    ensures Total(SeenTools(calls), ToolWeight()) == |calls| && Total(SeenTools(calls), ThinkingWeight()) == 0
  {
    if calls != [] {
      assert SeenTools(calls)[1..] == SeenTools(calls[1..]);
      ToolsTotal(calls[1..]);
    }
  }

  lemma LayoutTotals(thinking: string, text: string, calls: seq<ToolCall>)
    ensures Total(Layout(thinking, text, calls), ToolWeight()) == |calls|
    ensures Total(Layout(thinking, text, calls), ThinkingWeight()) == |thinking|
    ensures Ordered(Layout(thinking, text, calls))
  {
    var a := if thinking != "" then [SeenThinking(thinking)] else [];
    var b := if text != "" then [SeenText(text)] else [];
    ToolsTotal(calls);
    HeadTotals(a, b, thinking, text, ToolWeight());
    HeadTotals(a, b, thinking, text, ThinkingWeight());
    TotalConcat(a + b, SeenTools(calls), ToolWeight());
    TotalConcat(a + b, SeenTools(calls), ThinkingWeight());
  }

  lemma {:induction false} HeadTotals(a: seq<Seen>, b: seq<Seen>, thinking: string, text: string, weight: Seen -> nat)
    requires a == if thinking != "" then [SeenThinking(thinking)] else []
    requires b == if text != "" then [SeenText(text)] else []
    ensures Total(a + b, weight)
         == (if thinking != "" then weight(SeenThinking(thinking)) else 0) + (if text != "" then weight(SeenText(text)) else 0)
  {
    TotalConcat(a, b, weight);
    TotalOne(SeenThinking(thinking), weight);
    TotalOne(SeenText(text), weight);
  }

  // ---------- the exact condition ----------

  function Streamed(id: string, model: string, estimated: int, rs: seq<ChatResponse>): Message {
    ReceiveAll(NO_MESSAGE, RunAll(Fresh(id, model, estimated), rs).events)
  }

  // The client after the start event, and the converter that goes on from there.
  lemma StartReceived(id: string, model: string, estimated: int, rs: seq<ChatResponse>) returns (c: ConverterState, m: Message)
    requires rs != []
    ensures InStep(c, m, "", "", [], false) && !c.thinkingStarted && !c.thinkingDone && m.blocks == []
    ensures Streamed(id, model, estimated, rs) == ReceiveAll(m, RunAll(c, rs).events)
    ensures Steady(RunAll(c, rs).events)
  {
    var s := StartPart(Fresh(id, model, estimated), rs[0].metrics);
    c, m := s.state, ReceiveAll(NO_MESSAGE, s.events);
    ReceiveOne(NO_MESSAGE, s.events[0]);
    FirstIsStart(Fresh(id, model, estimated), rs);
    ReceiveConcat(NO_MESSAGE, s.events, RunAll(c, rs).events);
    RunSteady(c, rs);
    assert Layout("", "", []) == [];
  }

  lemma {:induction false} LayoutHeard(m: Message, events: seq<StreamEvent>, thinking: string, text: string, calls: seq<ToolCall>)
    requires m.blocks == [] && Steady(events) && ReceiveAll(m, events).blocks == Layout(thinking, text, calls)
    ensures |calls| <= |ToolIds(events)| && |thinking| <= |ThinkingOf(events)|
  {
    LayoutTotals(thinking, text, calls);
    AllTotals(m, events);
  }

  lemma {:induction false} AllCallsHeard(c: ConverterState, rs: seq<ChatResponse>)
    requires SentMatches(c, []) && |AllCalls(rs)| <= |ToolIds(RunAll(c, rs).events)|
    ensures DistinctIds(AllCalls(rs)) && AllMarshal(AllCalls(rs))
  {
    RunIds(c, rs, []);
    AnnounceLength([], AllCalls(rs));
    AnnounceAllIff(AllCalls(rs));
  }

  lemma {:induction false} AllThinkingHeard(c: ConverterState, rs: seq<ChatResponse>)
    requires SentMatches(c, []) && !c.thinkingStarted && !c.thinkingDone
    requires |AllThinking(rs)| <= |ThinkingOf(RunAll(c, rs).events)|
    ensures !LosesThinking(false, false, [], rs)
  {
    RunThinking(c, rs, []);
  }

  // A client that has seen the layout of the complete response has lost neither calls nor thinking.
  lemma {:induction false} LayoutLosesNothing(c: ConverterState, m: Message, rs: seq<ChatResponse>)
    requires SentMatches(c, []) && !c.thinkingStarted && !c.thinkingDone && m.blocks == []
    requires Steady(RunAll(c, rs).events)
    requires ReceiveAll(m, RunAll(c, rs).events).blocks == Layout(AllThinking(rs), AllContent(rs), AllCalls(rs))
    ensures DistinctIds(AllCalls(rs)) && AllMarshal(AllCalls(rs)) && !LosesThinking(false, false, [], rs)
  {
    LayoutHeard(m, RunAll(c, rs).events, AllThinking(rs), AllContent(rs), AllCalls(rs));
    AllThinkingHeard(c, rs);
    AllCallsHeard(c, rs);
  }

  // For every run, the stream accumulates to exactly the complete response of the merged run
  // if and only if thinking comes before text and calls, text before calls, all tool ids differ,
  // all arguments marshal, and the last response names the model of the request.
  lemma {:induction false} StreamingEqualsCompleteIff(id: string, model: string, estimated: int, rs: seq<ChatResponse>)
    requires DoneLast(rs)
    ensures Streamed(id, model, estimated, rs) == View(ToMessagesResponse(id, Merge(rs)))
       <==> InOrder(rs) && DistinctIds(AllCalls(rs)) && AllMarshal(AllCalls(rs)) && rs[|rs| - 1].model == model
  {
    if InOrder(rs) {
      InOrderEqualsCompleteIff(id, model, estimated, rs);
    } else if Streamed(id, model, estimated, rs) == View(ToMessagesResponse(id, Merge(rs))) {
      var c, m := StartReceived(id, model, estimated, rs);
      SeeMessageBlocks(AllThinking(rs), AllContent(rs), AllCalls(rs));
      LayoutLosesNothing(c, m, rs);
      LayoutTotals(AllThinking(rs), AllContent(rs), AllCalls(rs));
      assert [] + AllCalls(rs) == AllCalls(rs);
      OrderForced(c, m, "", "", [], false, rs);
    }
  }

  lemma OneOfTwoAnnounced(a: ToolCall, b: ToolCall)
    requires a.id == b.id && a.args.json.Some?
    ensures Announce([], [a, b]) == [a] && IdsOf([a]) == [a.id] && !DistinctIds([a, b])
  {
    assert [a, b][1..] == [b] && [b][1..] == [] && [] + [a] == [a];
    assert Announced([a], a.id) by {
      assert [a][0].id == a.id;
    }
    assert Announce([a], [b]) == [a];
    assert [a, b][0].id == [a, b][1].id;
  }

  // Two calls without an id: the stream announces only the first.
  lemma SecondEmptyIdIsLost(id: string, model: string, estimated: int, r: ChatResponse)
    requires r.toolCalls == [ToolCall("", "f", NO_ARGUMENTS), ToolCall("", "g", NO_ARGUMENTS)] && r.done
    ensures ToolIds(RunAll(Fresh(id, model, estimated), [r]).events) == [""]
    ensures Streamed(id, model, estimated, [r]) != View(ToMessagesResponse(id, Merge([r])))
  {
    var a, b := ToolCall("", "f", NO_ARGUMENTS), ToolCall("", "g", NO_ARGUMENTS);
    assert [r][1..] == [] && AllCalls([r]) == [a, b] + [] == [a, b];
    OneOfTwoAnnounced(a, b);
    RunIds(Fresh(id, model, estimated), [r], []);
    StreamingEqualsCompleteIff(id, model, estimated, [r]);
  }
}
