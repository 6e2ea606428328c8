// Chunk invariance: how the text is cut into chunks changes neither the final parser
// state nor the events, once neighbouring content events are joined.
module HarmonyChunking {
  import opened Text
  import opened HarmonyParsing

  // ---------- joining neighbouring content events ----------

  function Prepend(e: Event, rest: seq<Event>): seq<Event> {
    if e.ContentEmitted? && rest != [] && rest[0].ContentEmitted? then
      [ContentEmitted(e.content + rest[0].content)] + rest[1..]
    else [e] + rest
  }

  function Join(events: seq<Event>): seq<Event> {
    if events == [] then [] else Prepend(events[0], Join(events[1..]))
  }

  lemma {:induction false} JoinTail(a: seq<Event>, b: seq<Event>, c: seq<Event>)
    requires Join(b) == Join(c)
    ensures Join(a + b) == Join(a + c)
  {
    if a == [] {
      assert a + b == b && a + c == c;
    } else {
      JoinTail(a[1..], b, c);
      assert (a + b)[1..] == a[1..] + b && (a + c)[1..] == a[1..] + c;
    }
  }

  lemma {:induction false} JoinThree(a: seq<Event>, b: seq<Event>, c: seq<Event>, d: seq<Event>)
    requires Join(b) == Join(c + d)
    ensures Join(a + b) == Join((a + c) + d)
  {
    JoinTail(a, b, c + d);
    Assoc(a, c, d);
  }

  // Two content events in a row join to the one that carries both texts.
  lemma {:induction false} JoinEmits(x: string, y: string, rest: seq<Event>)
    ensures Join(Emit(x) + (Emit(y) + rest)) == Join(Emit(x + y) + rest)
  {
    if x == "" || y == "" {
      assert x == "" ==> x + y == y && Emit(x) + (Emit(y) + rest) == Emit(y) + rest;
      assert y == "" ==> x + y == x && Emit(y) + rest == rest;
    } else {
      var cx, cy, cxy := ContentEmitted(x), ContentEmitted(y), ContentEmitted(x + y);
      assert Emit(x) + (Emit(y) + rest) == [cx] + ([cy] + rest);
      assert ([cx] + ([cy] + rest))[1..] == [cy] + rest;
      assert ([cy] + rest)[1..] == rest;
      assert ([cxy] + rest)[1..] == rest;
      var j := Join(rest);
      assert Join([cy] + rest) == Prepend(cy, j);
      assert Join([cxy] + rest) == Prepend(cxy, j);
      if j != [] && j[0].ContentEmitted? {
        assert x + y + j[0].content == x + (y + j[0].content);
      }
    }
  }

  // ---------- the held-back suffix is enough ----------

  // Nothing that could start the end tag lies before the held-back suffix of x,
  // whatever text s the prefix x grows into.
  lemma NoEarlyEnd(x: string, s: string, tag: string, j: nat)
    requires tag != "" && !Contains(x, tag) && x <= s
    requires j < |x| - Overlap(x, tag)
    ensures !OccursAt(s, tag, j)
    ensures !EndsWithStartOf(s, tag, |s| - j)
  {
    var k := |x| - j;
    IndexIsFirst(x, tag);
    OverlapIsLongest(x, tag, Overlap(x, tag));
    if |tag| <= k {
      assert !OccursAt(x, tag, j);
      assert s[j..j + |tag|] == x[j..j + |tag|];
    } else {
      assert !EndsWithStartOf(x, tag, k);
      assert exists m :: 0 <= m < k && x[j..][m] != tag[..k][m];
      var m :| 0 <= m < k && x[j..][m] != tag[..k][m];
      assert s[j..][m] == x[j + m] != tag[m];
    }
  }

  // Dropping the emitted text does not change where the end tag is found ...
  lemma EndAfterHold(x: string, s: string, tag: string, n: nat)
    requires tag != "" && !Contains(x, tag) && x <= s && n == |x| - Overlap(x, tag)
    ensures Index(s, tag) == if Contains(s[n..], tag) then n + Index(s[n..], tag) else -1
  {
    var r := s[n..];
    var i := Index(r, tag);
    IndexIsFirst(r, tag);
    forall j: nat ensures OccursAt(s, tag, j) == (n <= j && OccursAt(r, tag, j - n)) {
      if j < n {
        NoEarlyEnd(x, s, tag, j);
      } else {
        OccursInSuffix(s, n, tag, j);
      }
    }
    if i >= 0 {
      assert OccursAt(s, tag, n + i);
      IndexIs(s, tag, n + i);
    }
  }

  // ... nor how much must be held back.
  lemma SameEnds(x: string, s: string, tag: string, n: nat, k: nat)
    requires tag != "" && !Contains(x, tag) && x <= s && n == |x| - Overlap(x, tag)
    ensures EndsWithStartOf(s, tag, k) == EndsWithStartOf(s[n..], tag, k)
  {
    if k <= |s| - n {
      assert s[|s| - k..] == s[n..][|s[n..]| - k..];
    } else if k <= |s| {
      NoEarlyEnd(x, s, tag, |s| - k);
    }
  }

  lemma OverlapAfterHold(x: string, s: string, tag: string, n: nat)
    requires tag != "" && !Contains(x, tag) && x <= s && n == |x| - Overlap(x, tag)
    ensures Overlap(s, tag) == Overlap(s[n..], tag)
  {
    var r := s[n..];
    var o := Overlap(r, tag);
    OverlapIsLongest(r, tag, o);
    forall k: nat ensures EndsWithStartOf(s, tag, k) == EndsWithStartOf(r, tag, k) {
      SameEnds(x, s, tag, n, k);
    }
    OverlapIsLongest(s, tag, o);
  }

  // ---------- one cut ----------

  function Emitted(tags: Tags, x: string): string
    requires tags.Usable()
  {
    x[..|x| - Overlap(x, tags.end)]
  }

  function Held(tags: Tags, x: string): string
    requires tags.Usable()
  {
    x[|x| - Overlap(x, tags.end)..]
  }

  // Inside a message, emitting early and then reading r is reading both at once:
  // s is the whole text and its first n characters were emitted.
  lemma SplitAtEnd(tags: Tags, s: string, n: nat)
    requires tags.Usable() && n <= |s| && Contains(s[n..], tags.end)
    requires Index(s, tags.end) == n + Index(s[n..], tags.end)
    ensures Cut(tags, s, n)
  {
    var r := s[n..];
    var u := Before(r, tags.end);
    assert Before(s, tags.end) == s[..n] + u;
    assert After(s, tags.end) == After(r, tags.end);
    EndInContent(s[..n], u, Feed(tags, LookingForMessageStart, After(r, tags.end)).events);
  }

  lemma SplitBeforeEnd(tags: Tags, s: string, n: nat)
    requires tags.Usable() && n <= |s| && !Contains(s[n..], tags.end) && !Contains(s, tags.end)
    requires Overlap(s, tags.end) == Overlap(s[n..], tags.end)
    ensures Cut(tags, s, n)
  {
    var r := s[n..];
    SplitTexts(tags, s, n);
    FeedHolds(tags, s);
    FeedHolds(tags, r);
    JoinTwo(s[..n], Emitted(tags, r));
  }

  lemma SplitTexts(tags: Tags, s: string, n: nat)
    requires tags.Usable() && n <= |s| && Overlap(s, tags.end) == Overlap(s[n..], tags.end)
    ensures Held(tags, s) == Held(tags, s[n..])
    ensures Emitted(tags, s) == s[..n] + Emitted(tags, s[n..])
  {
    EndOfRest(s, s[n..], n, Overlap(s, tags.end));
  }

  lemma EndOfRest(s: string, r: string, n: nat, o: nat)
    requires n <= |s| && r == s[n..] && o <= |r|
    ensures s[|s| - o..] == r[|r| - o..] && s[..|s| - o] == s[..n] + r[..|r| - o]
  {
  }

  lemma {:induction false} FeedHolds(tags: Tags, x: string)
    requires tags.Usable() && !Contains(x, tags.end)
    ensures Feed(tags, ParsingContent, x) == Outcome(ParsingContent, Held(tags, x), Emit(Emitted(tags, x)))
  {
  }

  ghost predicate Cut(tags: Tags, s: string, n: nat)
    requires tags.Usable() && n <= |s|
  {
    var whole, second := Feed(tags, ParsingContent, s), Feed(tags, ParsingContent, s[n..]);
    && whole.state == second.state && whole.acc == second.acc
    && Join(whole.events) == Join(Emit(s[..n]) + second.events)
  }

  lemma {:induction false} ContentSplit(tags: Tags, x: string, b: string)
    requires tags.Usable() && !Contains(x, tags.end)
    ensures var whole := Feed(tags, ParsingContent, x + b);
      var second := Feed(tags, ParsingContent, Held(tags, x) + b);
      && whole.state == second.state && whole.acc == second.acc
      && Join(whole.events) == Join(Emit(Emitted(tags, x)) + second.events)
  {
    var n, s := |x| - Overlap(x, tags.end), x + b;
    assert s[n..] == Held(tags, x) + b && s[..n] == Emitted(tags, x);
    EndAfterHold(x, s, tags.end, n);
    if Contains(s[n..], tags.end) {
      SplitAtEnd(tags, s, n);
    } else {
      OverlapAfterHold(x, s, tags.end, n);
      SplitBeforeEnd(tags, s, n);
    }
  }

  lemma JoinTwo(x: string, y: string)
    ensures Join(Emit(x) + Emit(y)) == Join(Emit(x + y))
  {
    JoinEmits(x, y, []);
    assert Emit(y) + [] == Emit(y) && Emit(x + y) + [] == Emit(x + y);
  }

  lemma {:induction false} EndInContent(c: string, u: string, rest: seq<Event>)
    ensures Join((Emit(c + u) + [MessageEnd]) + rest) == Join(Emit(c) + ((Emit(u) + [MessageEnd]) + rest))
  {
    JoinEmits(c, u, [MessageEnd] + rest);
    Assoc(Emit(c + u), [MessageEnd], rest);
    Assoc(Emit(u), [MessageEnd], rest);
  }

  // A step that could go on does the same when more text follows.
  lemma StepStable(tags: Tags, state: ParserState, x: string, b: string)
    requires tags.Usable() && EatStep(tags, state, x).more
    ensures var s := EatStep(tags, state, x);
      EatStep(tags, state, x + b) == s.(acc := s.acc + b)
  {
    match state
    case LookingForMessageStart => IndexStable(x, b, tags.start);
    case ParsingHeader => IndexStable(x, b, tags.headerEnd);
    case ParsingContent => IndexStable(x, b, tags.end);
  }

  // Reading x and then b is reading x + b.
  ghost predicate Splits(tags: Tags, state: ParserState, x: string, b: string)
    requires tags.Usable()
  {
    var whole, first := Feed(tags, state, x + b), Feed(tags, state, x);
    var second := Feed(tags, first.state, first.acc + b);
    && whole.state == second.state && whole.acc == second.acc
    && Join(whole.events) == Join(first.events + second.events)
  }

  lemma SplitMore(tags: Tags, state: ParserState, x: string, b: string)
    requires tags.Usable() && EatStep(tags, state, x).more
    requires var s := EatStep(tags, state, x); Splits(tags, s.state, s.acc, b)
    ensures Splits(tags, state, x, b)
  {
    var s := EatStep(tags, state, x);
    StepStable(tags, state, x, b);
    var rest := Feed(tags, s.state, s.acc);
    var second := Feed(tags, rest.state, rest.acc + b);
    JoinThree(s.events, Feed(tags, s.state, s.acc + b).events, rest.events, second.events);
  }

  lemma SplitIdle(tags: Tags, state: ParserState, x: string, b: string)
    requires tags.Usable() && !state.ParsingContent? && !EatStep(tags, state, x).more
    ensures Splits(tags, state, x, b)
  {
    assert Feed(tags, state, x) == Outcome(state, x, []);
    assert [] + Feed(tags, state, x + b).events == Feed(tags, state, x + b).events;
  }

  lemma SplitContent(tags: Tags, x: string, b: string)
    requires tags.Usable() && !Contains(x, tags.end)
    ensures Splits(tags, ParsingContent, x, b)
  {
    FeedHolds(tags, x);
    ContentSplit(tags, x, b);
  }

  // From any state and any leftover text.
  lemma {:induction false} FeedSplit(tags: Tags, state: ParserState, x: string, b: string)
    requires tags.Usable()
    ensures Splits(tags, state, x, b)
    decreases |x|
  {
    var s := EatStep(tags, state, x);
    if s.more {
      FeedSplit(tags, s.state, s.acc, b);
      SplitMore(tags, state, x, b);
    } else if state.ParsingContent? {
      SplitContent(tags, x, b);
    } else {
      SplitIdle(tags, state, x, b);
    }
  }

  // ---------- any number of cuts ----------

  // Any way of cutting the text gives what feeding it at once gives.
  lemma {:induction false} ChunksAreOneFeed(tags: Tags, state: ParserState, acc: string, chunks: seq<string>)
    requires tags.Usable() && chunks != []
    ensures var cut := FeedChunks(tags, state, acc, chunks);
      var whole := Feed(tags, state, acc + Concat(chunks));
      && cut.state == whole.state && cut.acc == whole.acc
      && Join(cut.events) == Join(whole.events)
    decreases |chunks|
  {
    var x := acc + chunks[0];
    if |chunks| == 1 {
      OneChunk(tags, state, acc, chunks);
    } else {
      var first := Feed(tags, state, x);
      var tail := Concat(chunks[1..]);
      ChunksAreOneFeed(tags, first.state, first.acc, chunks[1..]);
      FeedSplit(tags, state, x, tail);
      Assoc(acc, chunks[0], tail);
      var rest := FeedChunks(tags, first.state, first.acc, chunks[1..]);
      var second := Feed(tags, first.state, first.acc + tail);
      assert FeedChunks(tags, state, acc, chunks) == rest.(events := first.events + rest.events);
      JoinTail(first.events, rest.events, second.events);
    }
  }

  lemma {:induction false} OneChunk(tags: Tags, state: ParserState, acc: string, chunks: seq<string>)
    requires tags.Usable() && |chunks| == 1
    ensures FeedChunks(tags, state, acc, chunks) == Feed(tags, state, acc + Concat(chunks))
  {
    var whole := Feed(tags, state, acc + chunks[0]);
    assert Concat(chunks) == chunks[0] + Concat([]) == chunks[0];
    assert FeedChunks(tags, whole.state, whole.acc, chunks[1..]) == Outcome(whole.state, whole.acc, []);
    assert whole.events + [] == whole.events;
  }

  // Two ways of cutting the same text cannot be told apart.
  lemma {:induction false} ChunkInvariance(tags: Tags, state: ParserState, acc: string, one: seq<string>, two: seq<string>)
    requires tags.Usable() && one != [] && two != []
    requires Concat(one) == Concat(two)
    ensures var a, b := FeedChunks(tags, state, acc, one), FeedChunks(tags, state, acc, two);
      a.state == b.state && a.acc == b.acc && Join(a.events) == Join(b.events)
  {
    ChunksAreOneFeed(tags, state, acc, one);
    ChunksAreOneFeed(tags, state, acc, two);
  }

  // Inside a message only text that may still become the end tag is ever held back,
  // and everything else has been emitted.
  lemma {:induction false} HoldsBackLeast(tags: Tags, state: ParserState, x: string)
    requires tags.Usable()
    ensures var o := Feed(tags, state, x);
      o.state == ParsingContent ==>
        && !Contains(o.acc, tags.end)
        && o.acc < tags.end
        && |o.acc| == Overlap(o.acc, tags.end)
    decreases |x|
  {
    var s := EatStep(tags, state, x);
    if s.more {
      HoldsBackLeast(tags, s.state, s.acc);
    } else if state.ParsingContent? {
      HeldIsProper(x, tags.end);
      FeedHolds(tags, x);
      OverlapOfPrefix(tags.end, Overlap(x, tags.end));
    }
  }

  lemma WholeTag(x: string, tag: string)
    requires EndsWithStartOf(x, tag, |tag|)
    ensures Contains(x, tag)
  {
    var i := |x| - |tag|;
    assert x[i..i + |tag|] == x[i..] == tag;
    IndexIsFirst(x, tag);
    assert OccursAt(x, tag, i);
  }

  lemma HeldIsProper(x: string, tag: string)
    requires !Contains(x, tag)
    ensures Overlap(x, tag) < |tag| && x[|x| - Overlap(x, tag)..] == tag[..Overlap(x, tag)]
  {
    OverlapIsLongest(x, tag, Overlap(x, tag));
    if Overlap(x, tag) == |tag| {
      WholeTag(x, tag);
    }
  }

  lemma OverlapOfPrefix(tag: string, n: nat)
    requires n < |tag|
    ensures !Contains(tag[..n], tag) && Overlap(tag[..n], tag) == n
  {
    assert EndsWithStartOf(tag[..n], tag, n);
    OverlapIsLongest(tag[..n], tag, n);
  }
}
