// What a finished response delivers: the text of a message that is still open arrives up to
// what the parser holds back, because nothing flushes the parser at the end.
module HarmonyDelivery {
  import opened Text
  import opened HarmonyHeaders
  import opened HarmonyHeaderRoundTrip
  import opened HarmonyParsing
  import opened HarmonyChunking
  import opened HarmonyRoundTrip
  import opened HarmonyHandler
  import opened FunctionNames

  // ---------- open messages ----------

  // After lead the handler is inside a message and holds nothing back.
  predicate Opens(s: Snapshot, lead: string) {
    Advance(s, lead).state == ParsingContent && Advance(s, lead).acc == ""
  }

  lemma {:induction false} RouteEmit(mode: Mode, text: string)
    ensures Route(mode, Emit(text)) == RouteText(mode, text)
  {
    if text != "" {
      RouteSingle(mode, ContentEmitted(text));
    }
  }

  lemma {:induction false} RouteSingle(mode: Mode, e: Event)
    ensures Route(mode, [e]) == RouteOne(mode, e)
  {
    ThenNothing(RouteOne(mode, e), mode);
  }

  lemma OpenRoutes(s: Snapshot, text: string)
    requires s.state == ParsingContent && s.acc == "" && !Contains(text, HANDLER_TAGS.end)
    ensures Routed(s, text) == RouteText(s.mode, Emitted(HANDLER_TAGS, text))
    ensures Advance(s, text) == s.(acc := Held(HANDLER_TAGS, text),
                                   toolText := s.toolText + RouteText(s.mode, Emitted(HANDLER_TAGS, text)).tool)
  {
    assert "" + text == text;
    FeedHolds(HANDLER_TAGS, text);
    RouteEmit(s.mode, Emitted(HANDLER_TAGS, text));
  }

  // The reply of a handler that has routed d before the open message and stands at it, if
  // exactly this much of the message has arrived.
  function ReplyAt(names: Names, isJson: string -> bool, d: Delta, at: Snapshot, text: string): Result<Reply, string> {
    var more := RouteText(at.mode, text);
    match ParseCall(names, isJson, at.toolName, at.toolText + more.tool)
    case Err(e) => Err(e)
    case Ok(calls) => Ok(Reply(d.content + more.content, d.thinking + more.thinking, calls))
  }

  function Delivered(names: Names, isJson: string -> bool, s: Snapshot, lead: string, text: string): Result<Reply, string> {
    ReplyAt(names, isJson, Routed(s, lead), Advance(s, lead), text)
  }

  lemma SameReplyIff(names: Names, isJson: string -> bool, d: Delta, at: Snapshot, a: string, b: string)
    requires at.mode != ToolCalling && ReplyAt(names, isJson, d, at, b).Ok?
    ensures ReplyAt(names, isJson, d, at, a) == ReplyAt(names, isJson, d, at, b) <==> a == b
  {
    SamePrefix(d.content, a, b);
    SamePrefix(d.thinking, a, b);
  }

  lemma SamePrefix(x: string, a: string, b: string)
    ensures x + a == x + b <==> a == b
  {
    assert (x + a)[|x|..] == a && (x + b)[|x|..] == b;
  }

  // A response that ends inside a message delivers that message up to the longest end that may
  // still become the end tag, however it is cut into chunks.
  lemma {:induction false} OpenMessageDelivers(names: Names, isJson: string -> bool, s: Snapshot, lead: string,
                                               text: string, chunks: seq<string>)
    requires Opens(s, lead) && !Contains(text, HANDLER_TAGS.end)
    requires chunks != [] && Concat(chunks) == lead + text
    ensures HandleAll(names, isJson, s, chunks) == Delivered(names, isJson, s, lead, Emitted(HANDLER_TAGS, text))
  {
    HandleAllIsOneCall(names, isJson, s, chunks);
    HandleSplit(s, lead, text);
    OpenRoutes(Advance(s, lead), text);
  }

  lemma EmittedAllIff(text: string)
    ensures |Emitted(HANDLER_TAGS, text)| == |text| - Overlap(text, HANDLER_TAGS.end)
    ensures Overlap(text, HANDLER_TAGS.end) == 0 ==> Emitted(HANDLER_TAGS, text) == text
  {
  }

  // All of an open content or thinking message arrives exactly if its text does not end with a
  // start of the end tag.
  lemma {:induction false} OpenMessageCompleteIff(names: Names, isJson: string -> bool, s: Snapshot, lead: string,
                                                  text: string, chunks: seq<string>)
    requires Opens(s, lead) && Advance(s, lead).mode != ToolCalling && !Contains(text, HANDLER_TAGS.end)
    requires chunks != [] && Concat(chunks) == lead + text
    requires Delivered(names, isJson, s, lead, text).Ok?
    ensures HandleAll(names, isJson, s, chunks) == Delivered(names, isJson, s, lead, text)
       <==> Overlap(text, HANDLER_TAGS.end) == 0
  {
    OpenMessageDelivers(names, isJson, s, lead, text, chunks);
    EmittedAllIff(text);
    SameReplyIff(names, isJson, Routed(s, lead), Advance(s, lead), Emitted(HANDLER_TAGS, text), text);
  }

  // ---------- from a fresh handler ----------

  // A fresh handler waits after the implicit start of the assistant's turn.
  const PRIMED := Snapshot(LookingForMessageStart, "<|start|>" + "assistant", Normal, "", None)

  // Text that can stand anywhere in a header word.
  predicate Plain(w: string) {
    NoSpaces(w) && '<' !in w
  }

  lemma PlainIsWord(w: string)
    requires Plain(w) && w != ""
    ensures Word(w) && !Contains(w, MESSAGE_TAG)
  {
    IndexIsFirst("", CHANNEL_TAG);
    FreeAfterPlain(w, "", CHANNEL_TAG);
    FreeAfterPlain(w, "", CONSTRAIN_TAG);
    FreeAfterPlain(w, "", MESSAGE_TAG);
    assert w + "" == w;
  }

  predicate PlainClause(constrain: Constrain) {
    constrain == Unconstrained || (Plain(constrain.format) && constrain.format != "")
  }

  predicate StartsWord(s: string) {
    s == "" || s[0] == ' ' || s[0] == '<'
  }

  lemma NoMessageTag(role: string, channel: string, to: string, clause: string)
    requires '<' !in role && '<' !in to && StartsWord(to) && StartsWord(clause)
    requires !Contains(channel, MESSAGE_TAG) && !Contains(clause, MESSAGE_TAG)
    ensures !Contains((role + (channel + to)) + clause, MESSAGE_TAG)
  {
    assert !Contains("", MESSAGE_TAG);
    FreeAfterPlain(to, "", MESSAGE_TAG);
    assert to + "" == to;
    FreeConcat(channel, to, MESSAGE_TAG);
    FreeAfterPlain(role, channel + to, MESSAGE_TAG);
    FreeConcat(role + (channel + to), clause, MESSAGE_TAG);
  }

  // The rest of the assistant's header, after the implicit start.
  function HeaderText(h: Header, layout: Layout, constrain: Constrain): string {
    (ChannelPart(h) + Tail(h, layout)) + ConstrainPart(constrain) + MESSAGE_TAG
  }

  // A header of an assistant's message, to the user or to a tool.
  predicate AssistantHeader(h: Header, layout: Layout) {
    && h.role == "assistant" && Plain(h.channel) && h.channel != ""
    && (if layout == NoRecipient then h.recipient == "" else layout == RecipientLast && Plain(h.recipient) && h.recipient != "")
  }

  lemma AssistantPlain()
    ensures Plain("assistant") && !HasPrefix("assistant", TO)
  {
    assert "assistant"[..3][0] == 'a' != TO[0];
  }

  lemma AssistantPrintable(h: Header, layout: Layout, constrain: Constrain)
    requires AssistantHeader(h, layout) && PlainClause(constrain)
    ensures HarmonyHeaderRoundTrip.Printable(h, layout, constrain)
    ensures !Contains(PrintHeader(h, layout, constrain), MESSAGE_TAG)
  {
    AssistantPlain();
    PlainIsWord(h.role);
    PlainIsWord(h.channel);
    if layout == RecipientLast {
      PlainIsWord(h.recipient);
    }
    if constrain != Unconstrained {
      PlainIsWord(constrain.format);
      TagHidesNoOther(CONSTRAIN_TAG, constrain.format, MESSAGE_TAG);
      FreeAfterPlain(" ", CONSTRAIN_TAG + constrain.format, MESSAGE_TAG);
    }
    TagHidesNoOther(CHANNEL_TAG, h.channel, MESSAGE_TAG);
    NoMessageTag(h.role, ChannelPart(h), Tail(h, layout), ConstrainPart(constrain));
  }

  lemma {:induction false} HeaderFed(h: Header, header: string)
    requires !Contains(header, HANDLER_TAGS.headerEnd) && ParseHeader(header) == h
    ensures Feed(HANDLER_TAGS, LookingForMessageStart, HANDLER_TAGS.start + (header + HANDLER_TAGS.headerEnd + ""))
         == Outcome(ParsingContent, "", [MessageStart] + ([HeaderComplete(h)] + []))
  {
    HandlerTagsWellTagged();
    FeedStart(HANDLER_TAGS, header + HANDLER_TAGS.headerEnd + "");
    FeedHeader(HANDLER_TAGS, header, "");
    assert !Contains("", HANDLER_TAGS.end);
    FeedHolds(HANDLER_TAGS, "");
  }

  lemma RouteOpening(h: Header)
    ensures Route(Normal, [MessageStart] + ([HeaderComplete(h)] + [])) == RouteHeader(Normal, h)
  {
    var header := [HeaderComplete(h)];
    assert header + [] == header;
    RouteConcat(Normal, [MessageStart], header);
    RouteSingle(Normal, MessageStart);
    RouteSingle(Normal, header[0]);
  }

  lemma HeaderTextFed(h: Header, layout: Layout, constrain: Constrain)
    requires AssistantHeader(h, layout) && PlainClause(constrain)
    ensures Feed(HANDLER_TAGS, LookingForMessageStart, PRIMED.acc + HeaderText(h, layout, constrain))
         == Outcome(ParsingContent, "", [MessageStart] + ([HeaderComplete(h)] + []))
  {
    AssistantPrintable(h, layout, constrain);
    HeaderRoundTrip(h, layout, constrain);
    Regroup("<|start|>", h.role, ChannelPart(h) + Tail(h, layout), ConstrainPart(constrain), MESSAGE_TAG);
    HeaderFed(h, PrintHeader(h, layout, constrain));
  }

  lemma {:induction false} AdvancesTo(s: Snapshot, text: string, o: Outcome)
    requires Feed(HANDLER_TAGS, s.state, s.acc + text) == o
    ensures var d := Route(s.mode, o.events);
      && Routed(s, text) == d
      && Advance(s, text) == Snapshot(o.state, o.acc, d.mode, s.toolText + d.tool, LatestName(s.toolName, d.name))
  {
  }

  lemma {:induction false} OpensAfter(h: Header, s: Snapshot, text: string)
    requires s.mode == Normal && s.toolText == "" && s.toolName == None
    requires Feed(HANDLER_TAGS, s.state, s.acc + text)
          == Outcome(ParsingContent, "", [MessageStart] + ([HeaderComplete(h)] + []))
    ensures var d := RouteHeader(Normal, h);
      Routed(s, text) == d && Advance(s, text) == Snapshot(ParsingContent, "", d.mode, "", d.name)
  {
    AdvancesTo(s, text, Outcome(ParsingContent, "", [MessageStart] + ([HeaderComplete(h)] + [])));
    RouteOpening(h);
  }

  // After its header the handler is inside the message, in the mode of its channel.
  lemma HeaderOpens(h: Header, layout: Layout, constrain: Constrain)
    requires AssistantHeader(h, layout) && PlainClause(constrain)
    ensures var d := RouteHeader(Normal, h);
      && Routed(PRIMED, HeaderText(h, layout, constrain)) == d
      && Advance(PRIMED, HeaderText(h, layout, constrain)) == Snapshot(ParsingContent, "", d.mode, "", d.name)
  {
    HeaderTextFed(h, layout, constrain);
    OpensAfter(h, PRIMED, HeaderText(h, layout, constrain));
  }

  lemma Regroup(start: string, role: string, mid: string, clause: string, tag: string)
    ensures (start + role) + (mid + clause + tag) == start + (((role + mid) + clause) + tag + "")
  {
  }

  predicate UserChannel(channel: string) {
    channel == "final" || channel == "commentary" || channel == "analysis"
  }

  // What a first message to the user gives the user.
  function UserReply(channel: string, text: string): Reply {
    if channel == "analysis" then Reply("", text, []) else Reply(text, "", [])
  }

  lemma UserChannelPlain(channel: string)
    requires UserChannel(channel)
    ensures Plain(channel) && channel != ""
  {
  }

  // The first message of a response, content or thinking, arrives up to what is held back ...
  lemma {:induction false} FirstMessageDelivers(names: Names, isJson: string -> bool, channel: string,
                                                constrain: Constrain, text: string,
                                                chunks: seq<string>)
    requires UserChannel(channel) && PlainClause(constrain) && !Contains(text, HANDLER_TAGS.end)
    requires chunks != [] && Concat(chunks) == HeaderText(Header("assistant", channel, ""), NoRecipient, constrain) + text
    ensures HandleAll(names, isJson, PRIMED, chunks) == Ok(UserReply(channel, Emitted(HANDLER_TAGS, text)))
  {
    var h := Header("assistant", channel, "");
    UserChannelPlain(channel);
    HeaderOpens(h, NoRecipient, constrain);
    OpenMessageDelivers(names, isJson, PRIMED, HeaderText(h, NoRecipient, constrain), text, chunks);
    assert "" + Emitted(HANDLER_TAGS, text) == Emitted(HANDLER_TAGS, text);
  }

  // ... so all of it exactly if it does not end with a start of the end tag.
  lemma {:induction false} FirstMessageCompleteIff(names: Names, isJson: string -> bool, channel: string,
                                                   constrain: Constrain, text: string,
                                                   chunks: seq<string>)
    requires UserChannel(channel) && PlainClause(constrain) && !Contains(text, HANDLER_TAGS.end)
    requires chunks != [] && Concat(chunks) == HeaderText(Header("assistant", channel, ""), NoRecipient, constrain) + text
    ensures HandleAll(names, isJson, PRIMED, chunks) == Ok(UserReply(channel, text)) <==> Overlap(text, HANDLER_TAGS.end) == 0
  {
    FirstMessageDelivers(names, isJson, channel, constrain, text, chunks);
    EmittedAllIff(text);
  }

  lemma LessHeld()
    ensures !Contains("1 <", HANDLER_TAGS.end) && Emitted(HANDLER_TAGS, "1 <") == "1 "
  {
    var text, tag := "1 <", HANDLER_TAGS.end;
    assert EndsWithStartOf(text, tag, 1);
    assert !EndsWithStartOf(text, tag, 2) by {
      assert text[1..][0] == ' ' != tag[..2][0];
    }
    assert !EndsWithStartOf(text, tag, 3) by {
      assert text[0..][0] == '1' != tag[..3][0];
    }
    OverlapIsLongest(text, tag, 1);
    IndexIsFirst(text, tag);
  }

  // A final message that stops at a less-than sign loses it.
  lemma {:induction false} LessThanIsLost(names: Names, isJson: string -> bool)
    ensures HandleAll(names, isJson, PRIMED, ["<|channel|>final<|message|>1 <"]) == Ok(Reply("1 ", "", []))
  {
    var chunks := ["<|channel|>final<|message|>1 <"];
    var h := Header("assistant", "final", "");
    assert HeaderText(h, NoRecipient, Unconstrained) == "<|channel|>final<|message|>";
    assert Concat(chunks) == chunks[0] + Concat([]) == "<|channel|>final<|message|>" + "1 <";
    LessHeld();
    FirstMessageDelivers(names, isJson, "final", Unconstrained, "1 <", chunks);
  }
}
