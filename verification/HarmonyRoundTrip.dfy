// Printing messages and parsing them back, in any chunking; printing headers and parsing them back.
module HarmonyHeaderRoundTrip {
  import opened Text
  import opened HarmonyHeaders

  // Where a header puts its recipient.
  datatype Layout = NoRecipient | ToolFirst | RecipientFirst | RecipientLast

  // How a constrain clause follows the rest of the header.
  datatype Constrain = Unconstrained | Spaced(format: string) | Glued(format: string)

  predicate NoSpaces(w: string) {
    forall i :: 0 <= i < |w| ==> !IsSpace(w[i])
  }

  predicate TagFree(w: string) {
    !Contains(w, CHANNEL_TAG) && !Contains(w, CONSTRAIN_TAG)
  }

  predicate Word(w: string) {
    w != "" && NoSpaces(w) && TagFree(w)
  }

  predicate Printable(h: Header, layout: Layout, constrain: Constrain) {
    && Word(h.role) && (h.channel == "" || Word(h.channel))
    && (layout == NoRecipient <==> h.recipient == "")
    && (layout == NoRecipient || Word(h.recipient))
    && (if layout == ToolFirst then h.role == "tool" else !HasPrefix(h.role, TO))
    && (constrain == Unconstrained || Word(constrain.format))
  }

  function Lead(h: Header, layout: Layout): string {
    match layout
    case ToolFirst => TO + h.recipient
    case RecipientFirst => h.role + (" " + (TO + h.recipient))
    case _ => h.role
  }

  function ChannelPart(h: Header): string {
    if h.channel == "" then "" else CHANNEL_TAG + h.channel
  }

  function Tail(h: Header, layout: Layout): string {
    if layout == RecipientLast then " " + (TO + h.recipient) else ""
  }

  function ConstrainPart(constrain: Constrain): string {
    match constrain
    case Unconstrained => ""
    case Spaced(f) => " " + (CONSTRAIN_TAG + f)
    case Glued(f) => CONSTRAIN_TAG + f
  }

  function PrintHeader(h: Header, layout: Layout, constrain: Constrain): string {
    (Lead(h, layout) + (ChannelPart(h) + Tail(h, layout))) + ConstrainPart(constrain)
  }

  // ---------- words ----------

  lemma {:induction false} WordLengthIs(w: string, rest: string)
    requires NoSpaces(w) && (rest == "" || IsSpace(rest[0]))
    ensures WordLength(w + rest) == |w|
  {
    if w == "" {
      assert w + rest == rest;
    } else {
      assert (w + rest)[1..] == w[1..] + rest;
      WordLengthIs(w[1..], rest);
    }
  }

  lemma {:induction false} FieldsWord(w: string, rest: string)
    requires w != "" && NoSpaces(w) && (rest == "" || IsSpace(rest[0]))
    ensures Fields(w + rest) == [w] + Fields(rest)
  {
    WordLengthIs(w, rest);
    assert (w + rest)[..|w|] == w && (w + rest)[|w|..] == rest;
  }

  lemma {:induction false} FieldsSpace(rest: string)
    ensures Fields(" " + rest) == Fields(rest)
  {
    assert (" " + rest)[1..] == rest;
  }

  lemma {:induction false} FieldsTrimLeft(s: string)
    ensures Fields(TrimLeft(s)) == Fields(s)
    decreases |s|
  {
    if s != "" && IsSpace(s[0]) {
      FieldsTrimLeft(s[1..]);
    }
  }

  lemma {:induction false} FieldsTrailingSpace(s: string, c: char)
    requires IsSpace(c)
    ensures Fields(s + [c]) == Fields(s)
    decreases |s|
  {
    if s == "" {
      assert (s + [c])[1..] == "";
    } else if IsSpace(s[0]) {
      assert (s + [c])[1..] == s[1..] + [c];
      FieldsTrailingSpace(s[1..], c);
    } else {
      var w, rest := s[..WordLength(s)], s[WordLength(s)..];
      FieldsTrailingSpace(rest, c);
      assert s + [c] == w + (rest + [c]);
      FieldsWord(w, rest + [c]);
    }
  }

  lemma {:induction false} FieldsTrimRight(s: string)
    ensures Fields(TrimRight(s)) == Fields(s)
    decreases |s|
  {
    if s != "" && IsSpace(s[|s| - 1]) {
      var t := s[..|s| - 1];
      FieldsTrimRight(t);
      assert s == t + [s[|s| - 1]];
      FieldsTrailingSpace(t, s[|s| - 1]);
    }
  }

  // Trimming never changes the words.
  lemma {:induction false} FieldsTrimSpace(s: string)
    ensures Fields(TrimSpace(s)) == Fields(s)
  {
    FieldsTrimLeft(s);
    FieldsTrimRight(TrimLeft(s));
  }

  // ---------- where the tags are ----------

  lemma TagsLeadOnce()
    ensures Borderless(CHANNEL_TAG) && Borderless(CONSTRAIN_TAG)
  {
    LeadOnceBorderless(CHANNEL_TAG);
    LeadOnceBorderless(CONSTRAIN_TAG);
  }

  const MESSAGE_TAG := "<|message|>"

  predicate IsTag(tag: string) {
    tag == CHANNEL_TAG || tag == CONSTRAIN_TAG || tag == MESSAGE_TAG
  }

  // A tag cannot straddle into text that starts with a blank or with another tag.
  lemma FreeConcat(a: string, b: string, tag: string)
    requires IsTag(tag) && !Contains(a, tag) && !Contains(b, tag)
    requires b == "" || b[0] == ' ' || b[0] == '<'
    ensures !Contains(a + b, tag)
  {
    var s := a + b;
    IndexIsFirst(a, tag);
    IndexIsFirst(b, tag);
    assert s[|a|..] == b;
    forall j: nat ensures !OccursAt(s, tag, j) {
      if j >= |a| {
        OccursInSuffix(s, |a|, tag, j);
      } else if j + |tag| <= |a| {
        OccursInPrefix(a, b, tag, j);
      } else if j + |tag| <= |s| {
        assert s[j..j + |tag|][|a| - j] == b[0] != tag[|a| - j];
      }
    }
  }

  // A tag cannot start inside text without its first character.
  lemma FreeAfterPlain(a: string, b: string, tag: string)
    requires IsTag(tag) && '<' !in a && !Contains(b, tag)
    ensures !Contains(a + b, tag)
  {
    var s := a + b;
    IndexIsFirst(b, tag);
    assert s[|a|..] == b;
    forall j: nat ensures !OccursAt(s, tag, j) {
      if j >= |a| {
        OccursInSuffix(s, |a|, tag, j);
      } else if j + |tag| <= |s| {
        assert s[j..j + |tag|][0] == a[j] != tag[0];
      }
    }
  }

  // Text that starts with one tag hides no other at its seam.
  lemma TagHidesNoOther(first: string, word: string, tag: string)
    requires IsTag(first) && IsTag(tag) && first != tag && !Contains(word, tag)
    ensures !Contains(first + word, tag)
  {
    var s := first + word;
    IndexIsFirst(word, tag);
    assert s[|first|..] == word;
    TagsDiffer(first, tag);
    forall j: nat ensures !OccursAt(s, tag, j) {
      if j >= |first| {
        OccursInSuffix(s, |first|, tag, j);
      } else if j + |tag| <= |s| {
        assert s[j..j + |tag|][0] == first[j];
        if j > 0 {
          TagLead(first, j);
        } else {
          assert s[..|tag|][2] == first[2] && s[..|tag|][3] == first[3];
        }
      }
    }
  }

  lemma TagsDiffer(one: string, two: string)
    requires IsTag(one) && IsTag(two) && one != two
    ensures |one| > 3 && |two| > 3 && (one[2] != two[2] || one[3] != two[3])
  {
    assert CHANNEL_TAG[2] == 'c' && CHANNEL_TAG[3] == 'h';
    assert CONSTRAIN_TAG[2] == 'c' && CONSTRAIN_TAG[3] == 'o';
    assert MESSAGE_TAG[2] == 'm';
  }

  lemma TagLead(tag: string, k: nat)
    requires IsTag(tag) && 0 < k < |tag|
    ensures tag[k] != tag[0] == '<'
  {
  }

  lemma RecipientWord(recipient: string)
    requires Word(recipient)
    ensures NoSpaces(TO + recipient) && TagFree(TO + recipient) && TagFree(" " + (TO + recipient))
  {
    FreeAfterPlain(TO, recipient, CHANNEL_TAG);
    FreeAfterPlain(TO, recipient, CONSTRAIN_TAG);
    FreeAfterPlain(" ", TO + recipient, CHANNEL_TAG);
    FreeAfterPlain(" ", TO + recipient, CONSTRAIN_TAG);
  }

  lemma LeadIsTagFree(h: Header, layout: Layout)
    requires Printable(h, layout, Unconstrained)
    ensures TagFree(Lead(h, layout)) && Lead(h, layout) != "" && !IsSpace(Lead(h, layout)[0])
  {
    if layout != NoRecipient {
      RecipientWord(h.recipient);
      FreeConcat(h.role, " " + (TO + h.recipient), CHANNEL_TAG);
      FreeConcat(h.role, " " + (TO + h.recipient), CONSTRAIN_TAG);
    }
  }

  lemma TailIsTagFree(h: Header, layout: Layout)
    requires Printable(h, layout, Unconstrained)
    ensures TagFree(Tail(h, layout))
  {
    if layout == RecipientLast {
      RecipientWord(h.recipient);
    }
  }

  // Everything before the constrain clause is free of the constrain tag.
  lemma BodyHasNoConstrain(h: Header, layout: Layout)
    requires Printable(h, layout, Unconstrained)
    ensures !Contains(Lead(h, layout) + (ChannelPart(h) + Tail(h, layout)), CONSTRAIN_TAG)
  {
    LeadIsTagFree(h, layout);
    TailIsTagFree(h, layout);
    if h.channel == "" {
      assert ChannelPart(h) + Tail(h, layout) == Tail(h, layout);
    } else {
      TagHidesNoOther(CHANNEL_TAG, h.channel, CONSTRAIN_TAG);
      FreeConcat(ChannelPart(h), Tail(h, layout), CONSTRAIN_TAG);
    }
    FreeConcat(Lead(h, layout), ChannelPart(h) + Tail(h, layout), CONSTRAIN_TAG);
  }

  // ---------- the constrain clause becomes a word ----------

  lemma TrimSpaceKeeps(s: string)
    requires s != "" && !IsSpace(s[0]) && !IsSpace(s[|s| - 1])
    ensures TrimSpace(s) == s
  {
  }

  // The blanks and the constrain word after normalisation.
  function Clause(constrain: Constrain): string {
    match constrain
    case Unconstrained => ""
    case Spaced(f) => " " + (" " + (CONSTRAIN_TAG + f))
    case Glued(f) => " " + (CONSTRAIN_TAG + f)
  }

  lemma SpaceConstrainAt(body: string, f: string)
    requires body != "" && !IsSpace(body[0]) && !Contains(body, CONSTRAIN_TAG) && Word(f)
    ensures SpaceConstrain(body + (CONSTRAIN_TAG + f)) == body + (" " + (CONSTRAIN_TAG + f))
  {
    TagsLeadOnce();
    FirstTag(body, CONSTRAIN_TAG, f);
    Assoc(body, CONSTRAIN_TAG, f);
    var r := body + (" " + (CONSTRAIN_TAG + f));
    assert body + " " + CONSTRAIN_TAG + f == r;
    assert r[|r| - 1] == f[|f| - 1];
    TrimSpaceKeeps(r);
  }

  lemma Normalised(body: string, constrain: Constrain)
    requires body != "" && !IsSpace(body[0]) && !Contains(body, CONSTRAIN_TAG)
    requires constrain == Unconstrained || Word(constrain.format)
    ensures SpaceConstrain(body + ConstrainPart(constrain)) == body + Clause(constrain)
  {
    match constrain
    case Unconstrained =>
      assert body + "" == body;
    case Glued(f) =>
      SpaceConstrainAt(body, f);
    case Spaced(f) =>
      FreeConcat(body, " ", CONSTRAIN_TAG);
      Assoc(body, " ", CONSTRAIN_TAG + f);
      SpaceConstrainAt(body + " ", f);
      Assoc(body, " ", " " + (CONSTRAIN_TAG + f));
  }

  // ---------- the channel is cut out ----------

  lemma ChannelCut(lead: string, channel: string, rest: string)
    requires !Contains(lead, CHANNEL_TAG) && NoSpaces(channel) && (rest == "" || IsSpace(rest[0]))
    ensures CutChannel(lead + (CHANNEL_TAG + (channel + rest))) == (channel, TrimSpace(lead + rest))
  {
    TagsLeadOnce();
    FirstTag(lead, CHANNEL_TAG, channel + rest);
    Assoc(lead, CHANNEL_TAG, channel + rest);
    WordLengthIs(channel, rest);
    assert (channel + rest)[..|channel|] == channel && (channel + rest)[|channel|..] == rest;
  }

  // ---------- the words ----------

  function ClauseWords(constrain: Constrain): seq<string> {
    if constrain == Unconstrained then [] else [CONSTRAIN_TAG + constrain.format]
  }

  lemma FieldsOfClause(constrain: Constrain)
    requires constrain == Unconstrained || Word(constrain.format)
    ensures Fields(Clause(constrain)) == ClauseWords(constrain)
  {
    if constrain != Unconstrained {
      var w := CONSTRAIN_TAG + constrain.format;
      assert w + "" == w;
      FieldsWord(w, "");
      FieldsSpace(w);
      FieldsSpace(" " + w);
    }
  }

  lemma FieldsOfRest(h: Header, layout: Layout, constrain: Constrain)
    requires Printable(h, layout, constrain)
    ensures Fields(Tail(h, layout) + Clause(constrain))
         == (if layout == RecipientLast then [TO + h.recipient] else []) + ClauseWords(constrain)
  {
    FieldsOfClause(constrain);
    if layout == RecipientLast {
      RecipientWord(h.recipient);
      var w := TO + h.recipient;
      FieldsWord(w, Clause(constrain));
      FieldsSpace(w + Clause(constrain));
      Assoc(" ", w, Clause(constrain));
    } else {
      assert "" + Clause(constrain) == Clause(constrain);
      assert [] + ClauseWords(constrain) == ClauseWords(constrain);
    }
  }

  function LeadWords(h: Header, layout: Layout): seq<string> {
    match layout
    case ToolFirst => [TO + h.recipient]
    case RecipientFirst => [h.role, TO + h.recipient]
    case _ => [h.role]
  }

  lemma WordThenRest(v: string, w: string, rest: string)
    ensures (v + (" " + w)) + rest == v + (" " + (w + rest))
  {
    Assoc(v, " " + w, rest);
    Assoc(" ", w, rest);
  }

  lemma TwoWords(v: string, w: string, rest: seq<string>)
    ensures [v] + ([w] + rest) == [v, w] + rest
  {
  }

  lemma {:induction false} FieldsAfterWord(v: string, tail: string)
    requires v != "" && NoSpaces(v)
    ensures Fields(v + (" " + tail)) == [v] + Fields(tail)
  {
    FieldsWord(v, " " + tail);
    FieldsSpace(tail);
  }

  lemma {:induction false} FieldsOfTwo(v: string, w: string, rest: string)
    requires v != "" && NoSpaces(v) && w != "" && NoSpaces(w) && (rest == "" || IsSpace(rest[0]))
    ensures Fields((v + (" " + w)) + rest) == [v, w] + Fields(rest)
  {
    WordThenRest(v, w, rest);
    FieldsAfterWord(v, w + rest);
    FieldsWord(w, rest);
    TwoWords(v, w, Fields(rest));
  }

  lemma {:induction false} FieldsOfLead(h: Header, layout: Layout, rest: string)
    requires Printable(h, layout, Unconstrained) && (rest == "" || IsSpace(rest[0]))
    ensures Fields(Lead(h, layout) + rest) == LeadWords(h, layout) + Fields(rest)
  {
    if layout != NoRecipient {
      RecipientWord(h.recipient);
    }
    var w := TO + h.recipient;
    match layout
    case ToolFirst =>
      FieldsWord(w, rest);
    case RecipientFirst =>
      FieldsOfTwo(h.role, w, rest);
    case _ =>
      FieldsWord(h.role, rest);
  }

  lemma WordsGiveHeader(h: Header, layout: Layout, constrain: Constrain)
    requires Printable(h, layout, constrain)
    ensures FromWords(h.channel, LeadWords(h, layout)
              + ((if layout == RecipientLast then [TO + h.recipient] else []) + ClauseWords(constrain))) == h
  {
    assert (TO + h.recipient)[..3] == TO && (TO + h.recipient)[3..] == h.recipient;
    if constrain != Unconstrained {
      assert (CONSTRAIN_TAG + constrain.format)[..3][0] == '<';
    }
  }

  // ---------- the round trip ----------

  lemma RestHasNoChannel(h: Header, layout: Layout, constrain: Constrain)
    requires Printable(h, layout, constrain)
    ensures !Contains(Lead(h, layout) + (Tail(h, layout) + Clause(constrain)), CHANNEL_TAG)
  {
    LeadIsTagFree(h, layout);
    TailIsTagFree(h, layout);
    if constrain != Unconstrained {
      TagHidesNoOther(CONSTRAIN_TAG, constrain.format, CHANNEL_TAG);
      FreeAfterPlain(" ", CONSTRAIN_TAG + constrain.format, CHANNEL_TAG);
      FreeAfterPlain(" ", " " + (CONSTRAIN_TAG + constrain.format), CHANNEL_TAG);
    }
    FreeConcat(Tail(h, layout), Clause(constrain), CHANNEL_TAG);
    FreeConcat(Lead(h, layout), Tail(h, layout) + Clause(constrain), CHANNEL_TAG);
  }

  lemma CutOfPrinted(h: Header, layout: Layout, constrain: Constrain)
    requires Printable(h, layout, constrain)
    ensures var rest := Tail(h, layout) + Clause(constrain);
      var cut := CutChannel(Lead(h, layout) + (ChannelPart(h) + rest));
      cut.0 == h.channel && Fields(cut.1) == Fields(Lead(h, layout) + rest)
  {
    var lead, rest := Lead(h, layout), Tail(h, layout) + Clause(constrain);
    if h.channel != "" {
      LeadIsTagFree(h, layout);
      FieldsTrimSpace(lead + rest);
      Assoc(CHANNEL_TAG, h.channel, rest);
      ChannelCut(lead, h.channel, rest);
    } else {
      assert ChannelPart(h) + rest == rest;
      RestHasNoChannel(h, layout, constrain);
    }
  }

  // Every printable header is recovered, wherever its recipient stands and however a
  // constrain clause is attached.
  lemma HeaderRoundTrip(h: Header, layout: Layout, constrain: Constrain)
    requires Printable(h, layout, constrain)
    ensures ParseHeader(PrintHeader(h, layout, constrain)) == h
  {
    var lead, mid, tail := Lead(h, layout), ChannelPart(h), Tail(h, layout);
    var body := lead + (mid + tail);
    LeadIsTagFree(h, layout);
    assert body[0] == lead[0];
    BodyHasNoConstrain(h, layout);
    Normalised(body, constrain);
    Assoc(lead, mid + tail, Clause(constrain));
    Assoc(mid, tail, Clause(constrain));
    CutOfPrinted(h, layout, constrain);
    FieldsOfLead(h, layout, tail + Clause(constrain));
    FieldsOfRest(h, layout, constrain);
    WordsGiveHeader(h, layout, constrain);
  }
}

module HarmonyRoundTrip {
  import opened Text
  import opened HarmonyParsing
  import opened HarmonyHeaders
  import opened HarmonyChunking

  datatype Printed = Printed(header: string, body: string)

  predicate WellTagged(tags: Tags) {
    tags.Usable() && Borderless(tags.start) && Borderless(tags.headerEnd) && Borderless(tags.end)
  }

  // The tags of the message handler cannot overlap themselves.
  lemma HandlerTagsWellTagged()
    ensures WellTagged(Tags("<|start|>", "<|message|>", "<|end|>"))
  {
    LeadOnceBorderless("<|start|>");
    LeadOnceBorderless("<|message|>");
    LeadOnceBorderless("<|end|>");
  }

  predicate Printable(tags: Tags, m: Printed) {
    !Contains(m.header, tags.headerEnd) && !Contains(m.body, tags.end)
  }

  function Print(tags: Tags, messages: seq<Printed>): string {
    if messages == [] then ""
    else tags.start + (messages[0].header + tags.headerEnd
         + (messages[0].body + tags.end + Print(tags, messages[1..])))
  }

  function EventsOf(m: Printed): seq<Event> {
    [MessageStart, HeaderComplete(ParseHeader(m.header))] + (Emit(m.body) + [MessageEnd])
  }

  function Expected(messages: seq<Printed>): seq<Event> {
    if messages == [] then [] else EventsOf(messages[0]) + Expected(messages[1..])
  }

  lemma {:induction false} FeedBody(tags: Tags, body: string, rest: string)
    requires WellTagged(tags) && !Contains(body, tags.end)
    ensures var last := Feed(tags, LookingForMessageStart, rest);
      Feed(tags, ParsingContent, body + tags.end + rest)
        == last.(events := (Emit(body) + [MessageEnd]) + last.events)
  {
    FirstTag(body, tags.end, rest);
  }

  lemma {:induction false} FeedHeader(tags: Tags, header: string, rest: string)
    requires WellTagged(tags) && !Contains(header, tags.headerEnd)
    ensures var last := Feed(tags, ParsingContent, rest);
      Feed(tags, ParsingHeader, header + tags.headerEnd + rest)
        == last.(events := [HeaderComplete(ParseHeader(header))] + last.events)
  {
    FirstTag(header, tags.headerEnd, rest);
  }

  lemma {:induction false} FeedStart(tags: Tags, rest: string)
    requires WellTagged(tags)
    ensures var last := Feed(tags, ParsingHeader, rest);
      Feed(tags, LookingForMessageStart, tags.start + rest)
        == last.(events := [MessageStart] + last.events)
  {
    StartsWithTag(tags.start, rest);
  }

  lemma {:induction false} FeedOne(tags: Tags, m: Printed, rest: string)
    requires WellTagged(tags) && Printable(tags, m)
    ensures var text := tags.start + (m.header + tags.headerEnd + (m.body + tags.end + rest));
      var last := Feed(tags, LookingForMessageStart, rest);
      Feed(tags, LookingForMessageStart, text) == last.(events := EventsOf(m) + last.events)
  {
    var inBody := m.body + tags.end + rest;
    FeedBody(tags, m.body, rest);
    FeedHeader(tags, m.header, inBody);
    FeedStart(tags, m.header + tags.headerEnd + inBody);
    EventsInOrder(m, Feed(tags, LookingForMessageStart, rest).events);
  }

  lemma EventsInOrder(m: Printed, rest: seq<Event>)
    ensures EventsOf(m) + rest
         == [MessageStart] + ([HeaderComplete(ParseHeader(m.header))] + ((Emit(m.body) + [MessageEnd]) + rest))
  {
  }

  lemma StartsWithTag(tag: string, rest: string)
    requires tag != ""
    ensures Contains(tag + rest, tag) && After(tag + rest, tag) == rest
  {
    assert (tag + rest)[0..|tag|] == tag;
    IndexIs(tag + rest, tag, 0);
  }

  // Reading back a printed conversation gives exactly its messages, and leaves nothing behind.
  lemma {:induction false} PrintThenFeed(tags: Tags, messages: seq<Printed>)
    requires WellTagged(tags) && forall m :: m in messages ==> Printable(tags, m)
    ensures Feed(tags, LookingForMessageStart, Print(tags, messages))
         == Outcome(LookingForMessageStart, "", Expected(messages))
    decreases |messages|
  {
    if messages == [] {
      var s := EatStep(tags, LookingForMessageStart, "");
      assert !Contains("", tags.start);
    } else {
      PrintThenFeed(tags, messages[1..]);
      FeedOne(tags, messages[0], Print(tags, messages[1..]));
    }
  }

  lemma {:induction false} ExpectedIsJoined(messages: seq<Printed>)
    ensures Join(Expected(messages)) == Expected(messages)
    decreases |messages|
  {
    if messages != [] {
      ExpectedIsJoined(messages[1..]);
      MessageIsJoined(messages[0], Expected(messages[1..]));
    }
  }

  lemma {:induction false} MessageIsJoined(m: Printed, rest: seq<Event>)
    requires Join(rest) == rest
    ensures Join(EventsOf(m) + rest) == EventsOf(m) + rest
  {
    var body := (Emit(m.body) + [MessageEnd]) + rest;
    BodyIsJoined(m.body, rest);
    JoinKeeps(HeaderComplete(ParseHeader(m.header)), body);
    JoinKeeps(MessageStart, [HeaderComplete(ParseHeader(m.header))] + body);
    EventsInOrder(m, rest);
  }

  lemma {:induction false} BodyIsJoined(body: string, rest: seq<Event>)
    requires Join(rest) == rest
    ensures Join((Emit(body) + [MessageEnd]) + rest) == (Emit(body) + [MessageEnd]) + rest
  {
    JoinKeeps(MessageEnd, rest);
    Assoc(Emit(body), [MessageEnd], rest);
    if body != "" {
      JoinKeeps(ContentEmitted(body), [MessageEnd] + rest);
    } else {
      assert [] + ([MessageEnd] + rest) == [MessageEnd] + rest;
    }
  }

  lemma {:induction false} JoinKeeps(e: Event, rest: seq<Event>)
    requires Join(rest) == rest
    requires !e.ContentEmitted? || rest == [] || !rest[0].ContentEmitted?
    ensures Join([e] + rest) == [e] + rest
  {
    assert ([e] + rest)[1..] == rest;
  }

  // However the printed text is cut into chunks, exactly the printed messages come out.
  lemma {:induction false} RoundTrip(tags: Tags, messages: seq<Printed>, chunks: seq<string>)
    requires WellTagged(tags) && forall m :: m in messages ==> Printable(tags, m)
    requires chunks != [] && Concat(chunks) == Print(tags, messages)
    ensures var o := FeedChunks(tags, LookingForMessageStart, "", chunks);
      o.state == LookingForMessageStart && o.acc == "" && Join(o.events) == Expected(messages)
  {
    ChunksAreOneFeed(tags, LookingForMessageStart, "", chunks);
    assert "" + Concat(chunks) == Concat(chunks);
    PrintThenFeed(tags, messages);
    ExpectedIsJoined(messages);
  }
}
