// The hand-over from the converter to the search loop: nothing that was passed through is lost,
// and while the loop runs nothing is written.
module WebSearchHandOver {
  import opened Text
  import opened AnthropicTypes
  import opened StreamConverters
  import opened StreamRefinement
  import opened WebSearchLoop
  import opened WebSearchWriters
  import opened WebSearchRuns

  function Chats(writes: seq<Write>): seq<ChatResponse> {
    if writes == [] then []
    else if writes[0].input.Chat? then [writes[0].input.response] + Chats(writes[1..])
    else Chats(writes[1..])
  }

  // Responses that neither search nor end the message.
  predicate Plain(writes: seq<Write>) {
    forall k :: 0 <= k < |writes| && writes[k].input.Chat? ==>
      !writes[k].input.response.done && FindWebSearch(writes[k].input.response.toolCalls).None?
  }

  predicate Unfinished(writes: seq<Write>) {
    forall k :: 0 <= k < |writes| && writes[k].input.Chat? ==> !writes[k].input.response.done
  }

  // Until a search the client gets exactly what the bare converter emits.
  lemma {:induction false} PassesThrough(w: WriterState, writes: seq<Write>)
    requires Synced(w) && !w.shadow.terminal && !w.loopInFlight && Plain(writes)
    ensures var run := RunAll(w.converter, Chats(writes));
      var w' := Serve(w, writes);
      && w'.out == w.out + run.events && w'.converter == run.state
      && Synced(w') && !w'.shadow.terminal && !w'.loopInFlight
    decreases |writes|
  {
    if writes == [] {
      assert w.out + [] == w.out;
    } else {
      var i, rest := writes[0].input, writes[1..];
      var w1 := Step(w, i, writes[0].services);
      StepSynced(w, i, writes[0].services);
      PassesThrough(w1, rest);
      if i.Chat? {
        assert ([i.response] + Chats(rest))[1..] == Chats(rest);
        Assoc(w.out, ProcessOne(w.converter, i.response).events, RunAll(w1.converter, Chats(rest)).events);
      }
    }
  }

  // While a loop is in flight nothing is written to the stream.
  lemma {:induction false} SilentInFlight(w: WriterState, writes: seq<Write>)
    requires w.stream && !w.shadow.terminal && w.loopInFlight && Unfinished(writes)
    ensures var w' := Serve(w, writes);
      w' == w.(observed := w'.observed, bodies := w'.bodies)
    decreases |writes|
  {
    if writes != [] {
      SilentInFlight(Step(w, writes[0].input, writes[0].services), writes[1..]);
    }
  }

  // ---------- a run with a search ----------

  function TextBlocks(content: seq<ContentBlock>): string {
    if content == [] then ""
    else if content[0].TextBlock? then content[0].text + TextBlocks(content[1..])
    else TextBlocks(content[1..])
  }

  lemma {:induction false} ContentText(n: nat, content: seq<ContentBlock>)
    ensures TextOf(ContentEvents(n, content)) == TextBlocks(content)
    decreases |content|
  {
    if content != [] {
      ContentText(n + 1, content[1..]);
      TextConcat(BlockEvents(n, content[0]), ContentEvents(n + 1, content[1..]));
      BlockText(n, content[0]);
    }
  }

  lemma BlockText(n: nat, b: ContentBlock)
    ensures TextOf(BlockEvents(n, b)) == if b.TextBlock? then b.text else ""
  {
    var e := BlockEvents(n, b);
    if b.TextBlock? {
      assert e[1..] == [e[1], e[2]];
      NoTextDeltas(e[1..][1..]);
      assert b.text + "" == b.text;
    } else {
      NoTextDeltas(e);
    }
  }

  lemma TerminalText(w: WriterState, r: MessagesResponse)
    ensures TextOf(TerminalEvents(w, r)) == TextBlocks(r.content)
  {
    var start, close := StartEvents(w, r.usage), CloseEvents(w.shadow);
    var content := ContentEvents(NextAfterClose(w.shadow), r.content);
    NoTextDeltas(start + close);
    NoTextDeltas(EndEvents(r));
    ContentText(NextAfterClose(w.shadow), r.content);
    TextConcat(start + close, content);
    TextConcat(start + close + content, EndEvents(r));
    assert "" + TextBlocks(r.content) + "" == TextBlocks(r.content);
  }

  // Responses before, a response that calls web_search, responses while the loop runs, and the
  // last response: the client's text is all content passed through before the search, followed
  // by the text of the response the loop ended with.
  lemma {:induction false} SearchRunText(req: Request, estimated: int, before: seq<Write>, search: ChatResponse, s: Services,
                                         meanwhile: seq<Write>, last: ChatResponse, t: Services)
    requires Plain(before) && Unfinished(meanwhile) && last.done
    requires !search.done && FindWebSearch(search.toolCalls).Some?
    ensures var w := Serve(Step(Serve(NewWriter(req, true, estimated), before), Chat(search), s), meanwhile);
      w.loopResult.Some? &&
      var outcome := w.loopResult.value.outcome;
      TextOf(Step(w, Chat(last), t).out)
        == AllContent(Chats(before)) + TextBlocks(Ending(req, outcome, OutcomeUsage(outcome)).content)
  {
    var w0 := NewWriter(req, true, estimated);
    PassesThrough(w0, before);
    var w1 := Serve(w0, before);
    assert w1.out == RunAll(w0.converter, Chats(before)).events;
    NoTextIsLost(w0.converter, Chats(before));
    var w2 := Step(w1, Chat(search), s);
    RequestKept(w0, before);
    SilentInFlight(w2, meanwhile);
    var w := Serve(w2, meanwhile);
    FinishText(w, last, t);
  }

  lemma FinishText(w: WriterState, last: ChatResponse, t: Services)
    requires w.stream && !w.shadow.terminal && w.loopInFlight && w.loopResult.Some? && last.done
    ensures var outcome := w.loopResult.value.outcome;
      TextOf(Step(w, Chat(last), t).out)
        == TextOf(w.out) + TextBlocks(Ending(w.req, outcome, OutcomeUsage(outcome)).content)
  {
    WriteResultText(w.(observed := Record(w.observed, last.metrics)));
  }

  lemma WriteResultText(w: WriterState)
    requires w.stream && !w.shadow.terminal && w.loopResult.Some?
    ensures var outcome := w.loopResult.value.outcome;
      TextOf(WriteResult(w).out) == TextOf(w.out) + TextBlocks(Ending(w.req, outcome, OutcomeUsage(outcome)).content)
  {
    var outcome := w.loopResult.value.outcome;
    var u := w.(loopResult := None, loopInFlight := false);
    var r := Ending(w.req, outcome, ApplyDelta(OutcomeUsage(outcome), w.observed, w.loopBase));
    TerminalText(u, r);
    TextConcat(w.out, TerminalEvents(u, r));
  }

  // What the loop for a search that comes with the last response ends with.
  function LastOutcome(w: WriterState, search: ChatResponse, call: ToolCall, s: Services): Outcome {
    var observed := Record(w.observed, search.metrics);
    RunLoop(w.req, s, MAX_WEB_SEARCH_LOOPS, search, call, UsageWith(observed, search.metrics)).outcome
  }

  // The same when the last response itself calls web_search.
  lemma {:induction false} SearchInLastText(req: Request, estimated: int, before: seq<Write>, search: ChatResponse, s: Services)
    requires Plain(before) && search.done && FindWebSearch(search.toolCalls).Some?
    ensures var w := Serve(NewWriter(req, true, estimated), before);
      var outcome := LastOutcome(w, search, FindWebSearch(search.toolCalls).value, s);
      TextOf(Step(w, Chat(search), s).out)
        == AllContent(Chats(before)) + TextBlocks(Ending(req, outcome, OutcomeUsage(outcome)).content)
  {
    var w0 := NewWriter(req, true, estimated);
    PassesThrough(w0, before);
    NoTextIsLost(w0.converter, Chats(before));
    RequestKept(w0, before);
    var w := Serve(w0, before);
    assert w.out == RunAll(w0.converter, Chats(before)).events;
    var v := w.(observed := Record(w.observed, search.metrics));
    WriteResultText(StartWorker(v, search, FindWebSearch(search.toolCalls).value, s));
  }

  // ---------- what of the run's own text the client gets ----------

  lemma {:induction false} ContentAdds(rs: seq<ChatResponse>, more: seq<ChatResponse>)
    ensures AllContent(rs + more) == AllContent(rs) + AllContent(more)
    decreases |rs|
  {
    if rs == [] {
      assert [] + more == more;
    } else {
      assert (rs + more)[1..] == rs[1..] + more;
      ContentAdds(rs[1..], more);
      Assoc(rs[0].content, AllContent(rs[1..]), AllContent(more));
    }
  }

  // The content of the responses from the search on.
  function FromSearch(search: ChatResponse, meanwhile: seq<ChatResponse>, last: ChatResponse): string {
    search.content + AllContent(meanwhile) + last.content
  }

  lemma {:induction false} ContentOfRun(before: seq<ChatResponse>, search: ChatResponse, meanwhile: seq<ChatResponse>,
                                        last: ChatResponse)
    ensures AllContent(before + [search] + meanwhile + [last]) == AllContent(before) + FromSearch(search, meanwhile, last)
  {
    ContentAdds(before + [search] + meanwhile, [last]);
    ContentAdds(before + [search], meanwhile);
    ContentAdds(before, [search]);
    ContentOfOne(search);
    ContentOfOne(last);
    Assoc(AllContent(before), search.content, AllContent(meanwhile));
    Assoc(AllContent(before), search.content + AllContent(meanwhile), last.content);
  }

  lemma ContentOfOne(r: ChatResponse)
    ensures AllContent([r]) == r.content
  {
    assert AllContent([r]) == r.content + "";
  }

  lemma NothingBetween(a: string, b: string, c: string)
    ensures a + c == (a + b) + c <==> b == ""
  {
    assert |a + c| == |a| + |c| && |(a + b) + c| == |a| + |b| + |c|;
    if b == "" {
      assert a + b == a;
    }
  }

  // The client reads all content of the run before the answer exactly if none came with the
  // search or after it: that content is never written.
  lemma {:induction false} AllTextArrivesIff(req: Request, estimated: int, before: seq<Write>, search: ChatResponse, s: Services,
                                             meanwhile: seq<Write>, last: ChatResponse, t: Services)
    requires Plain(before) && Unfinished(meanwhile) && last.done
    requires !search.done && FindWebSearch(search.toolCalls).Some?
    ensures var w := Serve(Step(Serve(NewWriter(req, true, estimated), before), Chat(search), s), meanwhile);
      w.loopResult.Some? &&
      var outcome := w.loopResult.value.outcome;
      var answer := TextBlocks(Ending(req, outcome, OutcomeUsage(outcome)).content);
      TextOf(Step(w, Chat(last), t).out) == AllContent(Chats(before) + [search] + Chats(meanwhile) + [last]) + answer
      <==> FromSearch(search, Chats(meanwhile), last) == ""
  {
    SearchRunText(req, estimated, before, search, s, meanwhile, last, t);
    ContentOfRun(Chats(before), search, Chats(meanwhile), last);
    var w := Serve(Step(Serve(NewWriter(req, true, estimated), before), Chat(search), s), meanwhile);
    var outcome := w.loopResult.value.outcome;
    NothingBetween(AllContent(Chats(before)), FromSearch(search, Chats(meanwhile), last),
                   TextBlocks(Ending(req, outcome, OutcomeUsage(outcome)).content));
  }

  // The same when the last response itself calls web_search.
  lemma {:induction false} AllTextArrivesAtEndIff(req: Request, estimated: int, before: seq<Write>, search: ChatResponse,
                                                  s: Services)
    requires Plain(before) && search.done && FindWebSearch(search.toolCalls).Some?
    ensures var w := Serve(NewWriter(req, true, estimated), before);
      var outcome := LastOutcome(w, search, FindWebSearch(search.toolCalls).value, s);
      var answer := TextBlocks(Ending(req, outcome, OutcomeUsage(outcome)).content);
      TextOf(Step(w, Chat(search), s).out) == AllContent(Chats(before) + [search]) + answer <==> search.content == ""
  {
    SearchInLastText(req, estimated, before, search, s);
    var w := Serve(NewWriter(req, true, estimated), before);
    var outcome := LastOutcome(w, search, FindWebSearch(search.toolCalls).value, s);
    ContentAdds(Chats(before), [search]);
    ContentOfOne(search);
    NothingBetween(AllContent(Chats(before)), search.content, TextBlocks(Ending(req, outcome, OutcomeUsage(outcome)).content));
  }

  lemma {:induction false} RequestKept(w: WriterState, writes: seq<Write>)
    ensures Serve(w, writes).req == w.req && Serve(w, writes).stream == w.stream
    decreases |writes|
  {
    if writes != [] {
      RequestKept(Step(w, writes[0].input, writes[0].services), writes[1..]);
    }
  }
}
