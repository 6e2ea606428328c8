// From registered tools to parsed calls: parser, header, handler and name map together.
module HarmonyToolCalls {
  import opened Text
  import opened Decimal
  import opened HarmonyHeaders
  import opened HarmonyHeaderRoundTrip
  import opened HarmonyParsing
  import opened HarmonyHandler
  import opened HarmonyDelivery
  import opened FunctionNames

  // No letter or digit is a blank or the first character of a tag.
  ghost predicate SaneAlphabet(ab: Alphabet) {
    forall c :: (ab.isLetter(c) || ab.isDigit(c)) ==> !IsSpace(c) && c != '<'
  }

  lemma {:induction false} MapCharsPlain(ab: Alphabet, s: string)
    requires SaneAlphabet(ab)
    ensures Plain(MapChars(ab, s))
    decreases |s|
  {
    if s != "" {
      MapCharsPlain(ab, s[1..]);
    }
  }

  lemma BuiltinPlain(name: string)
    requires IsBuiltin(name)
    ensures Plain(name) && name != ""
  {
  }

  lemma CandidatePlain(base: string, k: nat)
    requires Plain(base)
    ensures Plain(Candidate(base, k))
  {
    assert Plain("_" + Itoa(k));
  }

  lemma HarmonyNamePlain(ab: Alphabet, names: Names, user: string)
    requires SaneAlphabet(ab)
    ensures Plain(names.HarmonyNameFor(ab, user)) && names.HarmonyNameFor(ab, user) != ""
  {
    if IsBuiltin(user) {
      BuiltinPlain(user);
    } else {
      MapCharsPlain(ab, user);
      var base := ConvertToValidChars(ab, user);
      assert Plain(base);
      CandidatePlain(base, FreeFrom(names.harmonyToUser.Keys, base, 1));
    }
  }

  lemma {:induction false} ReturnedNamePlain(ab: Alphabet, users: seq<string>, i: nat)
    requires SaneAlphabet(ab) && i < |users|
    ensures Plain(AddAll(ab, users).returned[i]) && AddAll(ab, users).returned[i] != ""
    decreases |users|
  {
    var front, last := users[..|users| - 1], users[|users| - 1];
    var before := AddAll(ab, front);
    var name := before.names.HarmonyNameFor(ab, last);
    assert AddAll(ab, users).returned == before.returned + [name];
    HarmonyNamePlain(ab, before.names, last);
    if i < |front| {
      ReturnedNamePlain(ab, front, i);
    }
  }

  // ---------- one call, read back ----------

  // How the model addresses the tool with this harmony name.
  function CallHeader(name: string): Header {
    Header("assistant", "commentary", "functions." + name)
  }

  lemma CallHeaderPlain(name: string)
    requires Plain(name)
    ensures AssistantHeader(CallHeader(name), RecipientLast)
  {
  }

  // What the model generates after the implicit start: the rest of the header, then the arguments.
  function CallText(name: string, constrain: Constrain, arguments: string): string {
    HeaderText(CallHeader(name), RecipientLast, constrain) + arguments
  }

  // The handler inside the arguments of a call to the tool.
  function InArguments(name: string): Snapshot {
    Snapshot(ParsingContent, "", ToolCalling, "", Some("functions." + name))
  }

  lemma CallOpens(name: string, constrain: Constrain)
    requires Plain(name) && PlainClause(constrain)
    ensures var lead := HeaderText(CallHeader(name), RecipientLast, constrain);
      && Advance(PRIMED, lead) == InArguments(name)
      && Routed(PRIMED, lead).content == Routed(PRIMED, lead).thinking == ""
  {
    CallHeaderPlain(name);
    HeaderOpens(CallHeader(name), RecipientLast, constrain);
  }

  // ---------- how much can arrive ----------

  function EmittedLength(events: seq<Event>): nat {
    if events == [] then 0
    else (if events[0].ContentEmitted? then |events[0].content| else 0) + EmittedLength(events[1..])
  }

  lemma {:induction false} EmittedConcat(a: seq<Event>, b: seq<Event>)
    ensures EmittedLength(a + b) == EmittedLength(a) + EmittedLength(b)
    decreases |a|
  {
    if a == [] {
      assert a + b == b;
    } else {
      assert (a + b)[1..] == a[1..] + b;
      EmittedConcat(a[1..], b);
    }
  }

  lemma EmitLength(text: string)
    ensures EmittedLength(Emit(text)) == |text|
  {
    if text != "" {
      assert Emit(text)[1..] == [];
    }
  }

  lemma StepEmits(tags: Tags, state: ParserState, x: string)
    requires tags.Usable()
    ensures var s := EatStep(tags, state, x);
      EmittedLength(s.events) + |s.acc| <= |x| - (if s.more && state == ParsingContent then |tags.end| else 0)
  {
    var s := EatStep(tags, state, x);
    if state == ParsingContent {
      if s.more {
        EmittedConcat(Emit(Before(x, tags.end)), [MessageEnd]);
        EmitLength(Before(x, tags.end));
        assert [MessageEnd][1..] == [];
      } else {
        EmitLength(x[..|x| - Overlap(x, tags.end)]);
      }
    } else if s.more {
      assert s.events[1..] == [];
    }
  }

  // No more text comes out than went in.
  lemma {:induction false} FeedEmits(tags: Tags, state: ParserState, x: string)
    requires tags.Usable()
    ensures EmittedLength(Feed(tags, state, x).events) <= |x|
    decreases |x|
  {
    var s := EatStep(tags, state, x);
    StepEmits(tags, state, x);
    if s.more {
      FeedEmits(tags, s.state, s.acc);
      EmittedConcat(s.events, Feed(tags, s.state, s.acc).events);
    }
  }

  lemma {:induction false} FeedEmitsLess(tags: Tags, x: string)
    requires tags.Usable() && Contains(x, tags.end)
    ensures EmittedLength(Feed(tags, ParsingContent, x).events) < |x|
  {
    var s := EatStep(tags, ParsingContent, x);
    StepEmits(tags, ParsingContent, x);
    FeedEmits(tags, s.state, s.acc);
    EmittedConcat(s.events, Feed(tags, s.state, s.acc).events);
  }

  lemma {:induction false} ToolTextBound(mode: Mode, events: seq<Event>)
    ensures |Route(mode, events).tool| <= EmittedLength(events)
    decreases |events|
  {
    if events != [] {
      ToolTextBound(RouteOne(mode, events[0]).mode, events[1..]);
    }
  }

  // Exactly the arguments are collected only if they neither contain nor may still become the
  // end tag.
  lemma ArgumentsCollectedIff(name: string, arguments: string)
    ensures Advance(InArguments(name), arguments).toolText == arguments
       <==> !Contains(arguments, HANDLER_TAGS.end) && Overlap(arguments, HANDLER_TAGS.end) == 0
  {
    var s := InArguments(name);
    assert "" + arguments == arguments;
    var events := Feed(HANDLER_TAGS, ParsingContent, arguments).events;
    if Contains(arguments, HANDLER_TAGS.end) {
      FeedEmitsLess(HANDLER_TAGS, arguments);
      ToolTextBound(ToolCalling, events);
    } else {
      OpenRoutes(s, arguments);
      EmittedAllIff(arguments);
    }
  }

  function Replied(parsed: Result<seq<ToolCall>, string>, content: string, thinking: string): Result<Reply, string> {
    match parsed
    case Err(e) => Err(e)
    case Ok(calls) => Ok(Reply(content, thinking, calls))
  }

  lemma CallHandled(names: Names, isJson: string -> bool, name: string, constrain: Constrain, arguments: string)
    requires Plain(name) && PlainClause(constrain)
    ensures var later, d := Advance(InArguments(name), arguments), Routed(InArguments(name), arguments);
      Handle(names, isJson, PRIMED, CallText(name, constrain, arguments), true)
        == Replied(ParseCall(names, isJson, later.toolName, later.toolText), d.content, d.thinking)
  {
    CallOpens(name, constrain);
    HandleSplit(PRIMED, HeaderText(CallHeader(name), RecipientLast, constrain), arguments);
    var d := Routed(InArguments(name), arguments);
    assert "" + d.content == d.content && "" + d.thinking == d.thinking;
  }

  lemma CallNeedsArguments(names: Names, isJson: string -> bool, toolName: Option<string>, raw: string, content: string,
                           thinking: string, user: string, arguments: string)
    requires Replied(ParseCall(names, isJson, toolName, raw), content, thinking) == Ok(Reply("", "", [ToolCall(user, arguments)]))
    ensures raw == arguments && isJson(arguments)
  {
    assert [ToolCall(UserToolName(names, toolName.value), raw)][0] == [ToolCall(user, arguments)][0];
  }

  lemma CallParsed(names: Names, isJson: string -> bool, name: string, arguments: string)
    requires isJson(arguments)
    ensures ParseCall(names, isJson, Some("functions." + name), arguments) == Ok([ToolCall(names.Original(name), arguments)])
  {
    FunctionsPrefix(name);
  }

  lemma WholeArguments(name: string, arguments: string)
    requires !Contains(arguments, HANDLER_TAGS.end) && Overlap(arguments, HANDLER_TAGS.end) == 0
    ensures Routed(InArguments(name), arguments) == Delta(ToolCalling, "", "", arguments, None)
    ensures Advance(InArguments(name), arguments).toolText == arguments
    ensures Advance(InArguments(name), arguments).toolName == Some("functions." + name)
  {
    OpenRoutes(InArguments(name), arguments);
    EmittedAllIff(arguments);
    assert "" + arguments == arguments;
  }

  lemma CallRepliedIff(names: Names, isJson: string -> bool, name: string, user: string, arguments: string)
    requires names.Original(name) == user
    ensures var later, d := Advance(InArguments(name), arguments), Routed(InArguments(name), arguments);
      (Replied(ParseCall(names, isJson, later.toolName, later.toolText), d.content, d.thinking)
        == Ok(Reply("", "", [ToolCall(user, arguments)])))
      <==> (isJson(arguments) && !Contains(arguments, HANDLER_TAGS.end) && Overlap(arguments, HANDLER_TAGS.end) == 0)
  {
    var later, d := Advance(InArguments(name), arguments), Routed(InArguments(name), arguments);
    ArgumentsCollectedIff(name, arguments);
    if Replied(ParseCall(names, isJson, later.toolName, later.toolText), d.content, d.thinking)
      == Ok(Reply("", "", [ToolCall(user, arguments)]))
    {
      CallNeedsArguments(names, isJson, later.toolName, later.toolText, d.content, d.thinking, user, arguments);
    } else if isJson(arguments) && !Contains(arguments, HANDLER_TAGS.end) && Overlap(arguments, HANDLER_TAGS.end) == 0 {
      WholeArguments(name, arguments);
      CallParsed(names, isJson, name, arguments);
    }
  }

  // Whatever tools the user registered, a call the model makes to one of them comes back under
  // the name the user gave it, with the arguments the model wrote, in any chunking, exactly if
  // the arguments are JSON and neither contain the end tag nor end with a start of it.
  lemma {:induction false} ToolCallComesBack(ab: Alphabet, users: seq<string>, i: nat, constrain: Constrain,
                                             arguments: string, chunks: seq<string>, isJson: string -> bool)
    requires SaneAlphabet(ab) && i < |users| && !AliasBeforeBuiltin(ab, users)
    requires PlainClause(constrain)
    requires chunks != []
      && Concat(chunks) == CallText(AddAll(ab, users).returned[i], constrain, arguments)
    ensures HandleAll(AddAll(ab, users).names, isJson, PRIMED, chunks) == Ok(Reply("", "", [ToolCall(users[i], arguments)]))
       <==> isJson(arguments) && !Contains(arguments, HANDLER_TAGS.end) && Overlap(arguments, HANDLER_TAGS.end) == 0
  {
    var r := AddAll(ab, users);
    var name := r.returned[i];
    ReturnedNamePlain(ab, users, i);
    NamesMapBackIff(ab, users);
    HandleAllIsOneCall(r.names, isJson, PRIMED, chunks);
    CallHandled(r.names, isJson, name, constrain, arguments);
    CallRepliedIff(r.names, isJson, name, users[i], arguments);
  }

  lemma FunctionsPrefix(name: string)
    ensures TrimPrefix("functions." + name, "functions.") == name
  {
    var recipient := "functions." + name;
    assert recipient[..10] == "functions." && recipient[10..] == name;
  }
}
