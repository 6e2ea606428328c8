// Usage accounting of the web search writer: what a finished stream reports.
module WebSearchUsage {
  import opened Text
  import opened AnthropicTypes
  import opened WebSearchLoop
  import opened WebSearchWriters
  import opened WebSearchRuns

  function PromptTokens(u: Usage): int {
    u.inputTokens + IntValue(u.cacheRead)
  }

  function FollowUpPrompts(followUps: seq<ChatResponse>): int {
    if followUps == [] then 0
    else Max(0, followUps[0].metrics.promptEvalCount) + FollowUpPrompts(followUps[1..])
  }

  function FollowUpOutput(followUps: seq<ChatResponse>): int {
    if followUps == [] then 0 else followUps[0].metrics.evalCount + FollowUpOutput(followUps[1..])
  }

  // Adding up follow-ups neither loses nor invents tokens.
  lemma {:induction false} AddFollowUpsTotals(u: Usage, followUps: seq<ChatResponse>)
    ensures PromptTokens(AddFollowUps(u, followUps)) == PromptTokens(u) + FollowUpPrompts(followUps)
    ensures AddFollowUps(u, followUps).outputTokens == u.outputTokens + FollowUpOutput(followUps)
    decreases |followUps|
  {
    if followUps != [] {
      AddFollowUpsTotals(AddUsage(u, UsageFromMetrics(followUps[0].metrics)), followUps[1..]);
    }
  }

  // ---------- what has been observed ----------

  function MetricsSeen(writes: seq<Write>): seq<Metrics> {
    if writes == [] then []
    else if writes[0].input.Chat? then [writes[0].input.response.metrics] + MetricsSeen(writes[1..])
    else MetricsSeen(writes[1..])
  }

  // The largest of the values of f, and 0.
  function Largest(ms: seq<Metrics>, f: Metrics -> int): (r: int)
    ensures r >= 0 && forall m :: m in ms ==> f(m) <= r
    ensures r == 0 || exists m :: m in ms && f(m) == r
  {
    if ms == [] then 0 else Max(f(ms[0]), Largest(ms[1..], f))
  }

  function RecordAll(o: Observed, ms: seq<Metrics>): Observed
    decreases |ms|
  {
    if ms == [] then o else RecordAll(Record(o, ms[0]), ms[1..])
  }

  lemma {:induction false} RecordAllIsLargest(o: Observed, ms: seq<Metrics>)
    requires o.prompt >= 0 && o.eval >= 0
    ensures RecordAll(o, ms).prompt == Max(o.prompt, Largest(ms, (m: Metrics) => m.promptEvalCount))
    ensures RecordAll(o, ms).eval == Max(o.eval, Largest(ms, (m: Metrics) => m.evalCount))
    decreases |ms|
  {
    if ms != [] {
      RecordAllIsLargest(Record(o, ms[0]), ms[1..]);
    }
  }

  lemma {:induction false} ServeObserves(w: WriterState, writes: seq<Write>)
    requires Synced(w) && !Serve(w, writes).shadow.terminal
    ensures Serve(w, writes).observed == RecordAll(w.observed, MetricsSeen(writes))
    decreases |writes|
  {
    if writes != [] {
      var w' := Step(w, writes[0].input, writes[0].services);
      StepSynced(w, writes[0].input, writes[0].services);
      if w'.shadow.terminal {
        NothingAfterTheEnd(w', writes[1..]);
      }
      StepObserves(w, writes[0].input, writes[0].services);
      ServeObserves(w', writes[1..]);
      if writes[0].input.Chat? {
        assert ([writes[0].input.response.metrics] + MetricsSeen(writes[1..]))[1..] == MetricsSeen(writes[1..]);
      }
    }
  }

  lemma StepObserves(w: WriterState, i: Input, s: Services)
    requires !w.shadow.terminal
    ensures Step(w, i, s).observed == if i.Chat? then Record(w.observed, i.response.metrics) else w.observed
  {
  }

  // ---------- the books of a loop in flight ----------

  // The pending result is the base plus its follow-ups, and the base is no more than what has
  // been observed since.
  ghost predicate Booked(w: WriterState) {
    && w.observed.prompt >= 0 && w.observed.eval >= 0
    && (w.loopResult.Some? ==>
          var now := CurrentUsage(w.observed);
          && OutcomeUsage(w.loopResult.value.outcome) == AddFollowUps(w.loopBase, w.loopResult.value.followUps)
          && w.loopBase.outputTokens <= w.observed.eval
          && 0 <= IntValue(w.loopBase.cacheRead) <= IntValue(now.cacheRead)
          && PromptTokens(w.loopBase) <= PromptTokens(now))
  }

  // More observations never lower the totals or the cache reads.
  lemma RecordGrows(o: Observed, m: Metrics)
    requires o.prompt >= 0
    ensures var before, now := CurrentUsage(o), CurrentUsage(Record(o, m));
      && PromptTokens(before) <= PromptTokens(now)
      && IntValue(before.cacheRead) <= IntValue(now.cacheRead)
      && (before.cacheRead.Some? ==> now.cacheRead.Some?)
  {
  }

  // The base of a loop is exactly what has been observed up to and including its response.
  lemma BaseIsCurrent(o: Observed, m: Metrics)
    ensures UsageWith(Record(o, m), m) == CurrentUsage(Record(o, m))
  {
  }

  lemma StartWorkerBooked(w: WriterState, r: ChatResponse, call: ToolCall, s: Services)
    requires Booked(w) && !w.loopInFlight && UsageWith(w.observed, r.metrics) == CurrentUsage(w.observed)
    ensures Booked(StartWorker(w, r, call, s))
  {
    var base := UsageWith(w.observed, r.metrics);
    LoopUsage(w.req, s, MAX_WEB_SEARCH_LOOPS, 1, Round(r, call, base, [], w.req.turns));
  }

  lemma RecordBooked(w: WriterState, m: Metrics)
    requires Booked(w)
    ensures Booked(w.(observed := Record(w.observed, m)))
  {
    RecordGrows(w.observed, m);
  }

  lemma StepBooked(w: WriterState, i: Input, s: Services)
    requires Booked(w) && Synced(w)
    ensures Booked(Step(w, i, s))
  {
    if !w.shadow.terminal && i.Chat? {
      var r := i.response;
      var v := w.(observed := Record(w.observed, r.metrics));
      RecordBooked(w, r.metrics);
      BaseIsCurrent(w.observed, r.metrics);
      if !v.loopInFlight && FindWebSearch(r.toolCalls).Some? {
        StartWorkerBooked(v, r, FindWebSearch(r.toolCalls).value, s);
      }
    }
  }

  lemma {:induction false} ServeBooked(w: WriterState, writes: seq<Write>)
    requires Booked(w) && Synced(w)
    ensures Booked(Serve(w, writes))
    decreases |writes|
  {
    if writes != [] {
      StepBooked(w, writes[0].input, writes[0].services);
      StepSynced(w, writes[0].input, writes[0].services);
      ServeBooked(Step(w, writes[0].input, writes[0].services), writes[1..]);
    }
  }

  // ---------- what the finished stream reports ----------

  // By how much the uncached part of the prompt shrank since the loop began.
  function Shrinkage(w: WriterState): int {
    Max(0, w.loopBase.inputTokens - CurrentUsage(w.observed).inputTokens)
  }

  // The usage in the message_delta that precedes the final message_stop.
  predicate Reports(events: seq<StreamEvent>, u: Usage) {
    && |events| >= 2 && events[|events| - 1] == MessageStop
    && events[|events| - 2].MessageDelta? && events[|events| - 2].usage == u
  }

  lemma TerminalReports(w: WriterState, r: MessagesResponse)
    requires w.stream && !w.shadow.terminal
    ensures Reports(Terminal(w, r).out, r.usage)
  {
    var out := w.out + TerminalEvents(w, r);
    var n := |out|;
    assert out[n - 2] == EndEvents(r)[0] && out[n - 1] == EndEvents(r)[1];
  }

  function FinalUsage(w: WriterState): Usage
    requires w.loopResult.Some?
  {
    ApplyDelta(OutcomeUsage(w.loopResult.value.outcome), w.observed, w.loopBase)
  }

  lemma FinalUsageTotals(w: WriterState)
    requires Booked(w) && w.loopResult.Some?
    ensures var u, followUps := FinalUsage(w), w.loopResult.value.followUps;
      && u.outputTokens == w.observed.eval + FollowUpOutput(followUps)
      && PromptTokens(u) == w.observed.prompt + FollowUpPrompts(followUps) + Shrinkage(w)
  {
    AddFollowUpsTotals(w.loopBase, w.loopResult.value.followUps);
  }

  lemma WriteResultReports(w: WriterState)
    requires w.stream && !w.shadow.terminal && w.loopResult.Some?
    ensures Reports(WriteResult(w).out, FinalUsage(w))
  {
    var o := w.loopResult.value.outcome;
    TerminalReports(w.(loopResult := None, loopInFlight := false), Ending(w.req, o, FinalUsage(w)));
  }

  // A streaming run that searched: front has started a loop and last ends the response. The
  // stream reports the largest eval count seen plus the output of every follow-up, and for the
  // prompt the largest count seen plus those of the follow-ups, exactly unless the uncached
  // part shrank after the loop began; then it reports more, by just that much.
  lemma {:induction false} SearchUsageReported(req: Request, estimated: int, front: seq<Write>, last: ChatResponse, s: Services)
    requires var w := Serve(NewWriter(req, true, estimated), front);
      !w.shadow.terminal && w.loopInFlight && last.done
    ensures var w := Serve(NewWriter(req, true, estimated), front);
      var due := w.(observed := Record(w.observed, last.metrics));
      var seen := MetricsSeen(front + [Write(Chat(last), s)]);
      due.loopResult.Some? &&
      var followUps := due.loopResult.value.followUps;
      && Reports(Step(w, Chat(last), s).out, FinalUsage(due))
      && FinalUsage(due).outputTokens == Largest(seen, (m: Metrics) => m.evalCount) + FollowUpOutput(followUps)
      && PromptTokens(FinalUsage(due))
           == Largest(seen, (m: Metrics) => m.promptEvalCount) + FollowUpPrompts(followUps) + Shrinkage(due)
  {
    var w0 := NewWriter(req, true, estimated);
    var w := Serve(w0, front);
    var due := w.(observed := Record(w.observed, last.metrics));
    ServeSynced(w0, front);
    ServeBooked(w0, front);
    ServeObserves(w0, front);
    RecordBooked(w, last.metrics);
    WriteResultReports(due);
    FinalUsageTotals(due);
    SeenSnoc(front, last, s);
    RecordAllSnoc(w0.observed, MetricsSeen(front), last.metrics);
    RecordAllIsLargest(w0.observed, MetricsSeen(front) + [last.metrics]);
  }

  // The same when the search comes with the last response itself: then nothing can shrink.
  lemma {:induction false} SearchInLastReported(req: Request, estimated: int, front: seq<Write>, last: ChatResponse, s: Services)
    requires var w := Serve(NewWriter(req, true, estimated), front);
      !w.shadow.terminal && !w.loopInFlight && last.done && FindWebSearch(last.toolCalls).Some?
    ensures var w := Serve(NewWriter(req, true, estimated), front);
      var due := StartWorker(w.(observed := Record(w.observed, last.metrics)), last, FindWebSearch(last.toolCalls).value, s);
      var seen := MetricsSeen(front + [Write(Chat(last), s)]);
      due.loopResult.Some? &&
      var followUps := due.loopResult.value.followUps;
      && Reports(Step(w, Chat(last), s).out, FinalUsage(due))
      && FinalUsage(due).outputTokens == Largest(seen, (m: Metrics) => m.evalCount) + FollowUpOutput(followUps)
      && PromptTokens(FinalUsage(due))
           == Largest(seen, (m: Metrics) => m.promptEvalCount) + FollowUpPrompts(followUps)
  {
    var w0 := NewWriter(req, true, estimated);
    var w := Serve(w0, front);
    var v := w.(observed := Record(w.observed, last.metrics));
    var due := StartWorker(v, last, FindWebSearch(last.toolCalls).value, s);
    ServeSynced(w0, front);
    ServeBooked(w0, front);
    ServeObserves(w0, front);
    RecordBooked(w, last.metrics);
    BaseIsCurrent(w.observed, last.metrics);
    StartWorkerBooked(v, last, FindWebSearch(last.toolCalls).value, s);
    WriteResultReports(due);
    FinalUsageTotals(due);
    SeenSnoc(front, last, s);
    RecordAllSnoc(w0.observed, MetricsSeen(front), last.metrics);
    RecordAllIsLargest(w0.observed, MetricsSeen(front) + [last.metrics]);
  }

  lemma {:induction false} SeenSnoc(front: seq<Write>, last: ChatResponse, s: Services)
    ensures MetricsSeen(front + [Write(Chat(last), s)]) == MetricsSeen(front) + [last.metrics]
    decreases |front|
  {
    var all := front + [Write(Chat(last), s)];
    if front == [] {
      assert all[1..] == [];
    } else {
      assert all[1..] == front[1..] + [Write(Chat(last), s)];
      SeenSnoc(front[1..], last, s);
    }
  }

  lemma {:induction false} RecordAllSnoc(o: Observed, ms: seq<Metrics>, m: Metrics)
    ensures RecordAll(o, ms + [m]) == Record(RecordAll(o, ms), m)
    decreases |ms|
  {
    if ms == [] {
      assert ([] + [m])[1..] == [];
    } else {
      assert (ms + [m])[1..] == ms[1..] + [m];
      RecordAllSnoc(Record(o, ms[0]), ms[1..], m);
    }
  }
}
