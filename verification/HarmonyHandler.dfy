// The message handler: routes parser events to content, thinking and tool text, and at the
// end of a response turns the collected tool text into a call under the user's tool name.
module HarmonyHandler {
  import opened Text
  import opened HarmonyHeaders
  import opened HarmonyParsing
  import opened HarmonyChunking
  import opened FunctionNames

  datatype Mode = Normal | Thinking | ToolCalling

  // What a run of events adds: texts, the mode it ends in, and the last tool named.
  datatype Delta = Delta(mode: Mode, content: string, thinking: string, tool: string, name: Option<string>) {
    function Then(later: Delta): Delta {
      Delta(later.mode, content + later.content, thinking + later.thinking, tool + later.tool,
            LatestName(name, later.name))
    }
  }

  function LatestName(earlier: Option<string>, later: Option<string>): Option<string> {
    if later.Some? then later else earlier
  }

  function RouteHeader(mode: Mode, h: Header): Delta {
    var tool := h.recipient != "";
    if h.channel == "analysis" then
      if tool then Delta(ToolCalling, "", "", "", Some(h.recipient)) else Delta(Thinking, "", "", "", None)
    else if h.channel == "commentary" then
      if tool then Delta(ToolCalling, "", "", "", Some(h.recipient)) else Delta(Normal, "", "", "", None)
    else if h.channel == "final" then Delta(Normal, "", "", "", None)
    else Delta(mode, "", "", "", None)
  }

  function RouteText(mode: Mode, text: string): Delta {
    match mode
    case Normal => Delta(mode, text, "", "", None)
    case Thinking => Delta(mode, "", text, "", None)
    case ToolCalling => Delta(mode, "", "", text, None)
  }

  function RouteOne(mode: Mode, e: Event): Delta {
    match e
    case MessageStart => Delta(mode, "", "", "", None)
    case HeaderComplete(h) => RouteHeader(mode, h)
    case ContentEmitted(text) => RouteText(mode, text)
    case MessageEnd => Delta(Normal, "", "", "", None)
  }

  function Route(mode: Mode, events: seq<Event>): Delta
    decreases |events|
  {
    if events == [] then Delta(mode, "", "", "", None)
    else
      var one := RouteOne(mode, events[0]);
      one.Then(Route(one.mode, events[1..]))
  }

  lemma ThenAssoc(a: Delta, b: Delta, c: Delta)
    ensures a.Then(b).Then(c) == a.Then(b.Then(c))
  {
    Assoc(a.content, b.content, c.content);
    Assoc(a.thinking, b.thinking, c.thinking);
    Assoc(a.tool, b.tool, c.tool);
  }

  lemma ThenNothing(a: Delta, mode: Mode)
    ensures Delta(mode, "", "", "", None).Then(a) == a
    ensures a.Then(Delta(a.mode, "", "", "", None)) == a
  {
    assert a.content + "" == a.content && a.thinking + "" == a.thinking && a.tool + "" == a.tool;
  }

  lemma {:induction false} RouteConcat(mode: Mode, a: seq<Event>, b: seq<Event>)
    ensures Route(mode, a + b) == Route(mode, a).Then(Route(Route(mode, a).mode, b))
    decreases |a|
  {
    if a == [] {
      assert a + b == b;
      ThenNothing(Route(mode, b), mode);
    } else {
      var one := RouteOne(mode, a[0]);
      assert (a + b)[1..] == a[1..] + b;
      RouteConcat(one.mode, a[1..], b);
      var first := Route(one.mode, a[1..]);
      ThenAssoc(one, first, Route(first.mode, b));
    }
  }

  lemma RouteTexts(mode: Mode, x: string, y: string)
    ensures RouteText(mode, x).Then(RouteText(mode, y)) == RouteText(mode, x + y)
  {
  }

  // Joining neighbouring content events does not change what is routed where.
  lemma {:induction false} RouteJoined(mode: Mode, events: seq<Event>)
    ensures Route(mode, Join(events)) == Route(mode, events)
    decreases |events|
  {
    if events != [] {
      var e, rest := events[0], Join(events[1..]);
      var one := RouteOne(mode, e);
      RouteJoined(one.mode, events[1..]);
      RoutePrepend(mode, e, rest);
    }
  }

  lemma {:induction false} RoutePrepend(mode: Mode, e: Event, rest: seq<Event>)
    ensures Route(mode, Prepend(e, rest)) == RouteOne(mode, e).Then(Route(RouteOne(mode, e).mode, rest))
  {
    if e.ContentEmitted? && rest != [] && rest[0].ContentEmitted? {
      var x, y := e.content, rest[0].content;
      assert Prepend(e, rest)[1..] == rest[1..];
      RouteTexts(mode, x, y);
      ThenAssoc(RouteText(mode, x), RouteText(mode, y), Route(mode, rest[1..]));
    } else {
      assert Prepend(e, rest)[1..] == rest;
    }
  }

  // ---------- the handler ----------

  datatype ToolCall = ToolCall(name: string, arguments: string)

  datatype Reply = Reply(content: string, thinking: string, calls: seq<ToolCall>)

  datatype Snapshot = Snapshot(state: ParserState, acc: string, mode: Mode, toolText: string, toolName: Option<string>)

  // The tool the response calls, under the name the user gave it.
  function UserToolName(names: Names, recipient: string): string {
    names.Original(TrimPrefix(recipient, "functions."))
  }

  function ParseCall(names: Names, isJson: string -> bool, toolName: Option<string>, raw: string): Result<seq<ToolCall>, string> {
    match toolName
    case None => Ok([])
    case Some(recipient) =>
      if isJson(raw) then Ok([ToolCall(UserToolName(names, recipient), raw)])
      else Err("error parsing tool call")
  }

  // Tags of the handler's parser.
  const HANDLER_TAGS := Tags("<|start|>", "<|message|>", "<|end|>")

  function Advance(s: Snapshot, text: string): Snapshot {
    var o := Feed(HANDLER_TAGS, s.state, s.acc + text);
    var d := Route(s.mode, o.events);
    Snapshot(o.state, o.acc, d.mode, s.toolText + d.tool, LatestName(s.toolName, d.name))
  }

  function Routed(s: Snapshot, text: string): Delta {
    Route(s.mode, Feed(HANDLER_TAGS, s.state, s.acc + text).events)
  }

  datatype Renamed = Renaming(names: Names, renamed: seq<string>)

  function RenameTools(ab: Alphabet, names: Names, tools: seq<string>): (r: Renamed)
    ensures |r.renamed| == |tools|
    decreases |tools|
  {
    if tools == [] then Renaming(names, [])
    else
      var before, tool := RenameTools(ab, names, tools[..|tools| - 1]), tools[|tools| - 1];
      if tool == "" then Renaming(before.names, before.renamed + [""])
      else Renaming(before.names.Add(ab, tool), before.renamed + [before.names.HarmonyNameFor(ab, tool)])
  }

  // The tools that have a name, in order.
  function Named(tools: seq<string>): seq<string>
    decreases |tools|
  {
    if tools == [] then []
    else if tools[|tools| - 1] == "" then Named(tools[..|tools| - 1])
    else Named(tools[..|tools| - 1]) + [tools[|tools| - 1]]
  }

  lemma {:induction false} RenameSnoc(ab: Alphabet, names: Names, tools: seq<string>, tool: string)
    ensures var r := RenameTools(ab, names, tools);
      RenameTools(ab, names, tools + [tool]) ==
        if tool == "" then Renaming(r.names, r.renamed + [""])
        else Renaming(r.names.Add(ab, tool), r.renamed + [r.names.HarmonyNameFor(ab, tool)])
  {
    assert (tools + [tool])[..|tools|] == tools;
  }

  // Renaming a list of tools is adding its named tools in order ...
  lemma {:induction false} RenamingAddsTheNamed(ab: Alphabet, tools: seq<string>)
    ensures var r, all := RenameTools(ab, Names(map[], map[]), tools), AddAll(ab, Named(tools));
      r.names == all.names && Named(r.renamed) == all.returned
    decreases |tools|
  {
    if tools != [] {
      var front, tool := tools[..|tools| - 1], tools[|tools| - 1];
      assert tools == front + [tool];
      RenamingAddsTheNamed(ab, front);
      RenamingStep(ab, front, tool);
    }
  }

  lemma {:induction false} RenamingStep(ab: Alphabet, front: seq<string>, tool: string)
    requires var r, all := RenameTools(ab, Names(map[], map[]), front), AddAll(ab, Named(front));
      r.names == all.names && Named(r.renamed) == all.returned
    ensures var r, all := RenameTools(ab, Names(map[], map[]), front + [tool]), AddAll(ab, Named(front + [tool]));
      r.names == all.names && Named(r.renamed) == all.returned
  {
    var before := RenameTools(ab, Names(map[], map[]), front);
    var name := before.names.HarmonyNameFor(ab, tool);
    RenameSnoc(ab, Names(map[], map[]), front, tool);
    NamedSnoc(front, tool);
    if tool == "" {
      NamedSnoc(before.renamed, "");
    } else {
      NameNotEmpty(ab, before.names, tool);
      NamedSnoc(before.renamed, name);
      AddAllSnoc(ab, Named(front), tool);
    }
  }

  // ... and the unnamed ones keep their places.
  lemma {:induction false} UnnamedStay(ab: Alphabet, names: Names, tools: seq<string>, i: nat)
    requires i < |tools|
    ensures RenameTools(ab, names, tools).renamed[i] == "" <==> tools[i] == ""
    decreases |tools|
  {
    var front, tool := tools[..|tools| - 1], tools[|tools| - 1];
    var before := RenameTools(ab, names, front);
    NameNotEmpty(ab, before.names, tool);
    if i < |front| {
      UnnamedStay(ab, names, front, i);
    }
  }

  lemma {:induction false} NamedSnoc(tools: seq<string>, tool: string)
    ensures Named(tools + [tool]) == if tool == "" then Named(tools) else Named(tools) + [tool]
  {
    assert (tools + [tool])[..|tools|] == tools;
  }

  lemma NameNotEmpty(ab: Alphabet, names: Names, tool: string)
    ensures tool != "" ==> names.HarmonyNameFor(ab, tool) != ""
  {
    var base := ConvertToValidChars(ab, tool);
    assert |Candidate(base, FreeFrom(names.harmonyToUser.Keys, base, 1))| >= |base|;
  }

  class HarmonyToolCallAccumulator {
    var acc: string
    var currentToolName: Option<string>

    constructor ()
      ensures acc == "" && currentToolName == None
    {
      acc, currentToolName := "", None;
    }

    method SetToolName(toolName: string)
      modifies this`currentToolName
      ensures currentToolName == Some(toolName)
    {
      currentToolName := Some(toolName);
    }

    method Add(content: string)
      modifies this`acc
      ensures acc == old(acc) + content
    {
      acc := acc + content;
    }

    method Drain() returns (toolName: Option<string>, text: string)
      modifies this`acc
      ensures toolName == currentToolName && text == old(acc) && acc == ""
    {
      toolName, text := currentToolName, acc;
      acc := "";
    }
  }

  class HarmonyMessageHandler {
    var mode: Mode
    const parser: HarmonyParser
    const functionNames: FunctionNameMap
    var tools: HarmonyToolCallAccumulator
    const isJson: string -> bool

    constructor (alphabet: Alphabet, isJson: string -> bool)
      ensures Valid() && State() == Snapshot(LookingForMessageStart, "", Normal, "", None)
      ensures functionNames.Contents() == Names(map[], map[])
      ensures fresh(parser) && fresh(functionNames) && fresh(tools)
    {
      mode := Normal;
      parser := new HarmonyParser("<|start|>", "<|end|>", "<|message|>");
      functionNames := new FunctionNameMap(alphabet);
      tools := new HarmonyToolCallAccumulator();
      this.isJson := isJson;
    }

    ghost predicate Valid() {
      parser.TagSet() == HANDLER_TAGS
    }

    function State(): Snapshot
      reads this, parser, tools
    {
      Snapshot(parser.state, parser.acc, mode, tools.acc, tools.currentToolName)
    }

    // Primes the parser, starts with a new accumulator for tool text and renames the tools;
    // unnamed tools stay as they are.
    method Init(toolNames: seq<string>, lastMessage: Option<ChatMessage>) returns (renamed: seq<string>)
      requires Valid()
      modifies this`tools, parser`acc, functionNames
      ensures Valid() && fresh(tools)
      ensures State() == old(State()).(acc := old(parser.acc) + Prefill(lastMessage), toolText := "", toolName := None)
      ensures Renaming(functionNames.Contents(), renamed)
           == RenameTools(functionNames.alphabet, old(functionNames.Contents()), toolNames)
    {
      parser.AddImplicitStartOrPrefill(lastMessage);
      tools := new HarmonyToolCallAccumulator();
      renamed := RenameAll(toolNames);
    }

    method RenameAll(toolNames: seq<string>) returns (renamed: seq<string>)
      modifies functionNames
      ensures Renaming(functionNames.Contents(), renamed)
           == RenameTools(functionNames.alphabet, old(functionNames.Contents()), toolNames)
    {
      ghost var before := functionNames.Contents();
      renamed := [];
      for i := 0 to |toolNames|
        invariant Renaming(functionNames.Contents(), renamed)
               == RenameTools(functionNames.alphabet, before, toolNames[..i])
      {
        assert toolNames[..i + 1][..i] == toolNames[..i];
        if toolNames[i] != "" {
          var name := functionNames.ConvertAndAdd(toolNames[i]);
          renamed := renamed + [name];
        } else {
          renamed := renamed + [""];
        }
      }
      assert toolNames[..|toolNames|] == toolNames;
    }

    method FollowHeader(h: Header)
      modifies this`mode, tools`currentToolName
      ensures var d := RouteHeader(old(mode), h);
        mode == d.mode && tools.currentToolName == LatestName(old(tools.currentToolName), d.name)
    {
      match h.channel {
        case "analysis" =>
          if h.recipient != "" {
            mode := ToolCalling;
            tools.SetToolName(h.recipient);
          } else {
            mode := Thinking;
          }
        case "commentary" =>
          if h.recipient != "" {
            mode := ToolCalling;
            tools.SetToolName(h.recipient);
          } else {
            mode := Normal;
          }
        case "final" =>
          mode := Normal;
        case _ =>
      }
    }

    // What one event adds to the texts of a chunk.
    method FollowEvent(e: Event, content: string, thinking: string, toolContent: string)
      returns (content': string, thinking': string, toolContent': string)
      modifies this`mode, tools`currentToolName
      ensures var d := RouteOne(old(mode), e);
        && content' == content + d.content && thinking' == thinking + d.thinking && toolContent' == toolContent + d.tool
        && mode == d.mode && tools.currentToolName == LatestName(old(tools.currentToolName), d.name)
    {
      content', thinking', toolContent' := content, thinking, toolContent;
      match e {
        case HeaderComplete(h) =>
          FollowHeader(h);
        case ContentEmitted(t) =>
          if mode == Normal {
            content' := content + t;
          } else if mode == Thinking {
            thinking' := thinking + t;
          } else if mode == ToolCalling {
            toolContent' := toolContent + t;
          }
        case MessageEnd =>
          mode := Normal;
        case MessageStart =>
      }
    }

    // Content, thinking and tool text that one chunk adds.
    method AddContent(text: string) returns (content: string, thinking: string, toolContent: string)
      requires Valid()
      modifies this`mode, parser, tools`currentToolName
      ensures Valid()
      ensures var d := Routed(old(State()), text);
        content == d.content && thinking == d.thinking && toolContent == d.tool
      ensures State() == Advance(old(State()), text).(toolText := old(tools.acc))
    {
      content, thinking, toolContent := "", "", "";
      ghost var before := State();
      var events := parser.AddContent(text);
      ghost var whole, later := Route(mode, events), Advance(before, text);
      ghost var name: Option<string> := None;
      ThenNothing(whole, mode);
      var i := 0;
      while i < |events|
        invariant 0 <= i <= |events|
        invariant Delta(mode, content, thinking, toolContent, name).Then(Route(mode, events[i..])) == whole
        invariant tools.currentToolName == LatestName(before.toolName, name) && tools.acc == before.toolText
        invariant parser.state == later.state && parser.acc == later.acc
      {
        ghost var sofar, one := Delta(mode, content, thinking, toolContent, name), RouteOne(mode, events[i]);
        ThenAssoc(sofar, one, Route(one.mode, events[i..][1..]));
        assert events[i..][1..] == events[i + 1..];
        content, thinking, toolContent := FollowEvent(events[i], content, thinking, toolContent);
        name := LatestName(name, one.name);
        i := i + 1;
      }
      assert events[i..] == [];
      ThenNothing(Delta(mode, content, thinking, toolContent, name), mode);
    }

    // Tool calls are parsed once the response is complete.
    method Add(text: string, done: bool) returns (r: Result<Reply, string>)
      requires Valid()
      modifies this`mode, parser, tools
      ensures Valid()
      ensures r == Handle(functionNames.Contents(), isJson, old(State()), text, done)
      ensures State() == Advance(old(State()), text).(
          toolText := if done then "" else Advance(old(State()), text).toolText)
    {
      ghost var later := Advance(State(), text);
      ghost var names := functionNames.Contents();
      var content, thinking, toolContent := AddContent(text);
      if toolContent != "" {
        tools.Add(toolContent);
      } else {
        assert tools.acc + toolContent == tools.acc;
      }
      assert State() == later && functionNames.Contents() == names;
      var calls: seq<ToolCall> := [];
      if done {
        var toolName, raw := tools.Drain();
        if toolName.Some? {
          var name := TrimPrefix(toolName.value, "functions.");
          name := functionNames.OriginalFromConverted(name);
          if !isJson(raw) {
            return Err("error parsing tool call");
          }
          calls := calls + [ToolCall(name, raw)];
          assert calls == [ToolCall(UserToolName(names, toolName.value), raw)];
        }
        assert ParseCall(names, isJson, toolName, raw) == Ok(calls);
      }
      return Ok(Reply(content, thinking, calls));
    }
  }

  function Handle(names: Names, isJson: string -> bool, s: Snapshot, text: string, done: bool): Result<Reply, string> {
    var d, later := Routed(s, text), Advance(s, text);
    if !done then Ok(Reply(d.content, d.thinking, []))
    else match ParseCall(names, isJson, later.toolName, later.toolText)
      case Err(e) => Err(e)
      case Ok(calls) => Ok(Reply(d.content, d.thinking, calls))
  }

  // ---------- whole responses ----------

  // All chunks in turn, the last one marked done: the texts joined, and the calls.
  function HandleAll(names: Names, isJson: string -> bool, s: Snapshot, chunks: seq<string>): Result<Reply, string>
    requires chunks != []
    decreases |chunks|
  {
    if |chunks| == 1 then Handle(names, isJson, s, chunks[0], true)
    else
      var d := Routed(s, chunks[0]);
      match HandleAll(names, isJson, Advance(s, chunks[0]), chunks[1..])
      case Err(e) => Err(e)
      case Ok(rest) => Ok(Reply(d.content + rest.content, d.thinking + rest.thinking, rest.calls))
  }

  // Two texts handled in turn add up to the joined text handled at once.
  lemma HandleSplit(s: Snapshot, a: string, b: string)
    ensures Advance(Advance(s, a), b) == Advance(s, a + b)
    ensures var d, d1, d2 := Routed(s, a + b), Routed(s, a), Routed(Advance(s, a), b);
      d.content == d1.content + d2.content && d.thinking == d1.thinking + d2.thinking
  {
    var o := Feed(HANDLER_TAGS, s.state, s.acc + a);
    var o2 := Feed(HANDLER_TAGS, o.state, o.acc + b);
    var whole := Feed(HANDLER_TAGS, s.state, s.acc + a + b);
    Assoc(s.acc, a, b);
    FeedSplit(HANDLER_TAGS, s.state, s.acc + a, b);
    RouteJoined(s.mode, whole.events);
    RouteJoined(s.mode, o.events + o2.events);
    RouteConcat(s.mode, o.events, o2.events);
    Assoc(s.toolText, Routed(s, a).tool, Routed(Advance(s, a), b).tool);
  }

  lemma {:induction false} HandleAllIsOneCall(names: Names, isJson: string -> bool, s: Snapshot, chunks: seq<string>)
    requires chunks != []
    ensures HandleAll(names, isJson, s, chunks) == Handle(names, isJson, s, Concat(chunks), true)
    decreases |chunks|
  {
    if |chunks| == 1 {
      assert Concat(chunks) == chunks[0] + Concat([]) == chunks[0];
    } else {
      HandleAllIsOneCall(names, isJson, Advance(s, chunks[0]), chunks[1..]);
      HandleSplit(s, chunks[0], Concat(chunks[1..]));
    }
  }

  // The content, the thinking, the tool call and any error of a response do not depend on
  // how its text was cut into chunks.
  lemma {:induction false} ReplyIgnoresChunking(names: Names, isJson: string -> bool, s: Snapshot, one: seq<string>,
                                                two: seq<string>)
    requires one != [] && two != [] && Concat(one) == Concat(two)
    ensures HandleAll(names, isJson, s, one) == HandleAll(names, isJson, s, two)
  {
    HandleAllIsOneCall(names, isJson, s, one);
    HandleAllIsOneCall(names, isJson, s, two);
  }
}
