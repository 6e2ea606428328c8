// The background web search loop: search, ask the model again, and repeat a bounded number of times.
module WebSearchLoop {
  import opened Text
  import opened Decimal
  import opened AnthropicTypes

  const MAX_WEB_SEARCH_LOOPS := 3

  // A chat message of the follow-up requests.
  datatype ChatTurn =
    | Earlier(text: string)
    | Assistant(content: string, thinking: string, call: ToolCall)
    | ToolResult(results: seq<string>, toolCallID: string)

  // The two remote services: each may answer anything, in every round.
  datatype Services = Services(
    search: (nat, string) -> Result<seq<string>, string>,
    chat: (nat, seq<ChatTurn>) -> Result<ChatResponse, string>)

  // The parts of the request the loop uses.
  datatype Request = Request(messageID: string, model: string, turns: seq<ChatTurn>)

  datatype Outcome =
    | Answer(response: MessagesResponse)
    | Failed(code: string, query: string, usage: Usage)

  // The outcome together with the follow-up responses it is built from.
  datatype LoopResult = LoopResult(outcome: Outcome, followUps: seq<ChatResponse>)

  function OutcomeUsage(o: Outcome): Usage {
    match o
    case Answer(r) => r.usage
    case Failed(_, _, u) => u
  }

  // First call to web_search, if any.
  function FindWebSearch(calls: seq<ToolCall>): Option<ToolCall> {
    if calls == [] then None
    else if calls[0].name == "web_search" then Some(calls[0])
    else FindWebSearch(calls[1..])
  }

  function QueryArgs(query: string): Arguments {
    Arguments(Some(query), query)
  }

  function ServerToolUseID(messageID: string): string {
    "srvtoolu_" + TrimPrefix(messageID, "msg_")
  }

  function LoopToolUseID(messageID: string, loop: nat): string {
    if loop <= 1 then ServerToolUseID(messageID) else ServerToolUseID(messageID) + ("_" + Itoa(loop))
  }

  function SearchBlocks(messageID: string, loop: nat, query: string, outcome: SearchOutcome): seq<ContentBlock> {
    var id := LoopToolUseID(messageID, loop);
    [ServerToolUse(id, "web_search", QueryArgs(query)), WebSearchToolResult(id, outcome)]
  }

  function AddOptional(a: Option<int>, b: Option<int>): Option<int> {
    if a.None? && b.None? then None else Some(IntValue(a) + IntValue(b))
  }

  function MaxOptional(a: Option<int>, b: Option<int>): Option<int> {
    if a.None? && b.None? then None else Some(Max(IntValue(a), IntValue(b)))
  }

  function AddUsage(u: Usage, more: Usage): Usage {
    Usage(u.inputTokens + more.inputTokens, AddOptional(u.cacheRead, more.cacheRead),
          u.outputTokens + more.outputTokens)
  }

  // What one round starts from.
  datatype Round = Round(response: ChatResponse, call: ToolCall, usage: Usage,
                         content: seq<ContentBlock>, turns: seq<ChatTurn>)

  function Combine(req: Request, content: seq<ContentBlock>, final: ChatResponse, usage: Usage): MessagesResponse {
    var converted := ToMessagesResponse(req.messageID, final);
    MessagesResponse(req.messageID, req.model, content + converted.content, converted.stopReason, usage)
  }

  // The answer after the last allowed round: one more search, refused.
  function Exhausted(req: Request, loop: nat, r: Round): MessagesResponse {
    MessagesResponse(req.messageID, req.model,
      r.content + SearchBlocks(req.messageID, loop, r.call.args.query, SearchError("max_uses_exceeded")),
      "end_turn", r.usage)
  }

  // One round ends the loop, perhaps after a follow-up, or leads to the next round.
  datatype RoundEnd = Ends(outcome: Outcome, last: seq<ChatResponse>) | Continues(next: Round)

  // The turns that report a search back to the model: its own call and the results.
  function SearchTurns(r: Round, results: seq<string>): seq<ChatTurn> {
    [Assistant(r.response.content, r.response.thinking, r.call), ToolResult(results, r.call.id)]
  }

  function OneRound(req: Request, s: Services, loop: nat, r: Round): RoundEnd {
    var query := r.call.args.query;
    if query == "" then Ends(Failed("invalid_request", "", r.usage), [])
    else match s.search(loop, query)
      case Err(_) => Ends(Failed("unavailable", query, r.usage), [])
      case Ok(results) =>
        var content := r.content + SearchBlocks(req.messageID, loop, query, Found(results));
        var turns := r.turns + SearchTurns(r, results);
        match s.chat(loop, turns)
        case Err(_) => Ends(Failed("api_error", query, r.usage), [])
        case Ok(f) =>
          var usage := AddUsage(r.usage, UsageFromMetrics(f.metrics));
          match FindWebSearch(f.toolCalls)
          case None => Ends(Answer(Combine(req, content, f, usage)), [f])
          case Some(next) => Continues(Round(f, next, usage, content, turns))
  }

  function RunRounds(req: Request, s: Services, max: nat, loop: nat, r: Round): LoopResult
    requires 1 <= loop <= max + 1
    decreases max + 1 - loop
  {
    if loop > max then LoopResult(Answer(Exhausted(req, max + 1, r)), [])
    else match OneRound(req, s, loop, r)
      case Ends(outcome, last) => LoopResult(outcome, last)
      case Continues(next) =>
        var rest := RunRounds(req, s, max, loop + 1, next);
        LoopResult(rest.outcome, [next.response] + rest.followUps)
  }

  function RunLoop(req: Request, s: Services, max: nat, first: ChatResponse, call: ToolCall, usage: Usage): LoopResult {
    RunRounds(req, s, max, 1, Round(first, call, usage, [], req.turns))
  }

  method FindWebSearchToolCall(calls: seq<ToolCall>) returns (call: Option<ToolCall>, hasOtherTools: bool)
    ensures call == FindWebSearch(calls)
    ensures hasOtherTools <==> exists i :: 0 <= i < |calls| && calls[i].name != "web_search"
  {
    call, hasOtherTools := None, false;
    for i := 0 to |calls|
      invariant FindWebSearch(calls) == if call.Some? then call else FindWebSearch(calls[i..])
      invariant hasOtherTools <==> exists j :: 0 <= j < i && calls[j].name != "web_search"
    {
      assert calls[i..][1..] == calls[i + 1..];
      if calls[i].name == "web_search" {
        if call.None? {
          call := Some(calls[i]);
        }
        continue;
      }
      hasOtherTools := true;
    }
  }

  // One round of the worker: search, report the result to the model, and see what it answers.
  method RunRound(req: Request, s: Services, loop: nat, r: Round) returns (end: RoundEnd)
    ensures end == OneRound(req, s, loop, r)
  {
    var query := r.call.args.query;
    if query == "" {
      return Ends(Failed("invalid_request", "", r.usage), []);
    }
    var found := s.search(loop, query);
    if found.Err? {
      return Ends(Failed("unavailable", query, r.usage), []);
    }
    var content := r.content + SearchBlocks(req.messageID, loop, query, Found(found.value));
    var turns := r.turns + [Assistant(r.response.content, r.response.thinking, r.call), ToolResult(found.value, r.call.id)];
    var answer := s.chat(loop, turns);
    if answer.Err? {
      return Ends(Failed("api_error", query, r.usage), []);
    }
    var f := answer.value;
    var more := UsageFromMetrics(f.metrics);
    var usage := Usage(r.usage.inputTokens + more.inputTokens, AddOptional(r.usage.cacheRead, more.cacheRead),
                       r.usage.outputTokens + more.outputTokens);
    var next, _ := FindWebSearchToolCall(f.toolCalls);
    if next.None? {
      return Ends(Answer(Combine(req, content, f, usage)), [f]);
    }
    return Continues(Round(f, next.value, usage, content, turns));
  }

  // The worker, with the list of follow-ups it received.
  method RunWebSearchLoop(req: Request, s: Services, max: nat, initialResponse: ChatResponse,
                          initialToolCall: ToolCall, initialUsage: Usage)
    returns (outcome: Outcome, followUps: seq<ChatResponse>)
    ensures LoopResult(outcome, followUps) == RunLoop(req, s, max, initialResponse, initialToolCall, initialUsage)
  {
    var round := Round(initialResponse, initialToolCall, initialUsage, [], req.turns);
    followUps := [];
    ghost var whole := RunLoop(req, s, max, initialResponse, initialToolCall, initialUsage);
    assert [] + whole.followUps == whole.followUps;
    var loop := 1;
    while loop <= max
      invariant 1 <= loop <= max + 1
      invariant var rest := RunRounds(req, s, max, loop, round);
        whole == LoopResult(rest.outcome, followUps + rest.followUps)
    {
      var end := RunRound(req, s, loop, round);
      if end.Ends? {
        return end.outcome, followUps + end.last;
      }
      Assoc(followUps, [end.next.response], RunRounds(req, s, max, loop + 1, end.next).followUps);
      followUps := followUps + [end.next.response];
      round := end.next;
      loop := loop + 1;
    }
    assert followUps + [] == followUps;
    return Answer(Exhausted(req, max + 1, round)), followUps;
  }

  // ---------- what the loop adds up ----------

  function AddFollowUps(u: Usage, followUps: seq<ChatResponse>): Usage
    decreases |followUps|
  {
    if followUps == [] then u
    else AddFollowUps(AddUsage(u, UsageFromMetrics(followUps[0].metrics)), followUps[1..])
  }

  // Whatever the outcome, its usage is the initial usage plus that of every follow-up received.
  lemma {:induction false} LoopUsage(req: Request, s: Services, max: nat, loop: nat, r: Round)
    requires 1 <= loop <= max + 1
    ensures var o := RunRounds(req, s, max, loop, r);
      OutcomeUsage(o.outcome) == AddFollowUps(r.usage, o.followUps)
      && |o.followUps| <= max + 1 - loop
    decreases max + 1 - loop
  {
    if loop <= max {
      var end := OneRound(req, s, loop, r);
      if end.Continues? {
        LoopUsage(req, s, max, loop + 1, end.next);
        var rest := RunRounds(req, s, max, loop + 1, end.next).followUps;
        assert ([end.next.response] + rest)[1..] == rest;
      } else if end.last != [] {
        assert end.last[1..] == [];
      }
    }
  }

  // ---------- what the client can rely on ----------

  // A content list in which each search result directly follows the use it answers, and the
  // uses carry pairwise different ids.
  predicate PairedSearches(blocks: seq<ContentBlock>, messageID: string, n: nat) {
    |blocks| >= 2 * n && forall k :: 0 <= k < n ==>
      && blocks[2 * k].ServerToolUse? && blocks[2 * k].id == LoopToolUseID(messageID, k + 1)
      && blocks[2 * k + 1].WebSearchToolResult? && blocks[2 * k + 1].toolUseID == LoopToolUseID(messageID, k + 1)
  }

  lemma SearchIDsDiffer(messageID: string, j: nat, k: nat)
    requires 1 <= j < k
    ensures LoopToolUseID(messageID, j) != LoopToolUseID(messageID, k)
  {
    var base := ServerToolUseID(messageID);
    assert LoopToolUseID(messageID, k)[|base|..] == "_" + Itoa(k);
    if j > 1 {
      assert LoopToolUseID(messageID, j)[|base|..] == "_" + Itoa(j);
      if "_" + Itoa(j) == "_" + Itoa(k) {
        assert ("_" + Itoa(j))[1..] == Itoa(j) && ("_" + Itoa(k))[1..] == Itoa(k);
        ItoaInjective(j, k);
      }
    }
  }

  lemma PairedSnoc(blocks: seq<ContentBlock>, messageID: string, loop: nat, query: string, outcome: SearchOutcome)
    requires loop >= 1 && |blocks| == 2 * (loop - 1) && PairedSearches(blocks, messageID, loop - 1)
    ensures PairedSearches(blocks + SearchBlocks(messageID, loop, query, outcome), messageID, loop)
  {
    var all := blocks + SearchBlocks(messageID, loop, query, outcome);
    forall k | 0 <= k < loop
      ensures all[2 * k].ServerToolUse? && all[2 * k].id == LoopToolUseID(messageID, k + 1)
      ensures all[2 * k + 1].WebSearchToolResult? && all[2 * k + 1].toolUseID == LoopToolUseID(messageID, k + 1)
    {
      if k < loop - 1 {
        assert all[2 * k] == blocks[2 * k] && all[2 * k + 1] == blocks[2 * k + 1];
      }
    }
  }

  // Round loop found its n search pairs in order.
  predicate RoundReady(req: Request, loop: nat, r: Round) {
    loop >= 1 && |r.content| == 2 * (loop - 1) && PairedSearches(r.content, req.messageID, loop - 1)
  }

  lemma RoundPairs(req: Request, s: Services, loop: nat, r: Round)
    requires RoundReady(req, loop, r)
    ensures var end := OneRound(req, s, loop, r);
      match end
      case Continues(next) => RoundReady(req, loop + 1, next) && FindWebSearch(next.response.toolCalls).Some?
      case Ends(outcome, last) => outcome.Answer? ==>
        |last| == 1 && FindWebSearch(last[0].toolCalls).None?
        && ClosesAfter(req.messageID, loop, loop, outcome.response.content, Some(last[0]))
  {
    var query := r.call.args.query;
    if query != "" && s.search(loop, query).Ok? {
      var results := s.search(loop, query).value;
      var content := r.content + SearchBlocks(req.messageID, loop, query, Found(results));
      PairedSnoc(r.content, req.messageID, loop, query, Found(results));
      var turns := r.turns + SearchTurns(r, results);
      if s.chat(loop, turns).Ok? {
        PairedPrefix(content, ToMessagesResponse(req.messageID, s.chat(loop, turns).value).content, req.messageID, loop);
      }
    }
  }

  lemma PairedPrefix(blocks: seq<ContentBlock>, more: seq<ContentBlock>, messageID: string, n: nat)
    requires |blocks| == 2 * n && PairedSearches(blocks, messageID, n)
    ensures PairedSearches(blocks + more, messageID, n) && (blocks + more)[2 * n..] == more
  {
    forall k | 0 <= k < n
      ensures (blocks + more)[2 * k] == blocks[2 * k] && (blocks + more)[2 * k + 1] == blocks[2 * k + 1]
    {
    }
  }

  // Content after the search pairs of n rounds, the last of which led to follow-up last.
  predicate ClosesAfter(messageID: string, max: nat, n: nat, content: seq<ContentBlock>, last: Option<ChatResponse>) {
    && |content| >= 2 * n && PairedSearches(content, messageID, n)
    && if last.Some? && FindWebSearch(last.value.toolCalls).None? then
         content[2 * n..] == ToMessagesResponse(messageID, last.value).content
       else
         n == max && |content| == 2 * n + 2 && PairedSearches(content, messageID, n + 1)
  }

  function Last(followUps: seq<ChatResponse>): Option<ChatResponse> {
    if followUps == [] then None else Some(followUps[|followUps| - 1])
  }

  predicate AnswerShape(messageID: string, max: nat, before: nat, o: LoopResult) {
    o.outcome.Answer? ==>
      ClosesAfter(messageID, max, before + |o.followUps|, o.outcome.response.content, Last(o.followUps))
  }

  lemma ShapeStep(messageID: string, max: nat, before: nat, f: ChatResponse, rest: LoopResult)
    requires AnswerShape(messageID, max, before + 1, rest) && FindWebSearch(f.toolCalls).Some?
    ensures AnswerShape(messageID, max, before, LoopResult(rest.outcome, [f] + rest.followUps))
  {
    var all := [f] + rest.followUps;
    assert Last(all) == if rest.followUps == [] then Some(f) else Last(rest.followUps);
  }

  // An answer opens with one search pair per round. After them it holds exactly the blocks of
  // the model's final response, or, when the rounds are used up, one refused search.
  lemma {:induction false} AnswerPairsSearches(req: Request, s: Services, max: nat, loop: nat, r: Round)
    requires 1 <= loop <= max + 1 && RoundReady(req, loop, r)
    ensures AnswerShape(req.messageID, max, loop - 1, RunRounds(req, s, max, loop, r))
    decreases max + 1 - loop
  {
    if loop > max {
      PairedSnoc(r.content, req.messageID, loop, r.call.args.query, SearchError("max_uses_exceeded"));
    } else {
      var end := OneRound(req, s, loop, r);
      RoundPairs(req, s, loop, r);
      if end.Continues? {
        AnswerPairsSearches(req, s, max, loop + 1, end.next);
        ShapeStep(req.messageID, max, loop - 1, end.next.response, RunRounds(req, s, max, loop + 1, end.next));
      }
    }
  }
}
