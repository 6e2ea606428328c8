// The incremental harmony tokenizer: three states, an accumulator, and the step
// that eats one tag or holds back what may still become the end tag.
module HarmonyParsing {
  import opened Text
  import opened HarmonyHeaders

  datatype ParserState = LookingForMessageStart | ParsingHeader | ParsingContent

  datatype Event =
    | MessageStart
    | HeaderComplete(header: Header)
    | ContentEmitted(content: string)
    | MessageEnd

  datatype Tags = Tags(start: string, headerEnd: string, end: string) {
    predicate Usable() {
      start != "" && headerEnd != "" && end != ""
    }
  }

  // What one step leaves behind: emitted events, new state and text, and whether to go on.
  datatype Step = Step(events: seq<Event>, state: ParserState, acc: string, more: bool)

  // Length of the longest suffix of s that is a prefix of delim.
  function Overlap(s: string, delim: string): (r: nat)
    ensures r <= |s| && r <= |delim|
  {
    OverlapUpTo(s, delim, if |s| < |delim| then |s| else |delim|)
  }

  predicate EndsWithStartOf(s: string, delim: string, k: nat)
  {
    k <= |s| && k <= |delim| && s[|s| - k..] == delim[..k]
  }

  // Overlap is the one length at which s ends with a start of delim and beyond which it never does.
  lemma OverlapIsLongest(s: string, delim: string, r: nat)
    ensures r == Overlap(s, delim) <==>
      EndsWithStartOf(s, delim, r) && forall k :: r < k ==> !EndsWithStartOf(s, delim, k)
  {
    var n := if |s| < |delim| then |s| else |delim|;
    OverlapUpToIsLongest(s, delim, n);
    forall k: nat | n < k ensures !EndsWithStartOf(s, delim, k) {}
    if r != Overlap(s, delim) && EndsWithStartOf(s, delim, r) {
      assert r < Overlap(s, delim);
    }
  }

  lemma {:induction false} OverlapUpToIsLongest(s: string, delim: string, n: nat)
    requires n <= |s| && n <= |delim|
    ensures var r := OverlapUpTo(s, delim, n);
      EndsWithStartOf(s, delim, r) && forall k :: r < k <= n ==> !EndsWithStartOf(s, delim, k)
  {
    if n == 0 {
      assert s[|s|..] == delim[..0];
    } else if !EndsWithStartOf(s, delim, n) {
      OverlapUpToIsLongest(s, delim, n - 1);
    }
  }

  function OverlapUpTo(s: string, delim: string, n: nat): (r: nat)
    requires n <= |s| && n <= |delim|
    ensures r <= n
  {
    if n == 0 || EndsWithStartOf(s, delim, n) then n else OverlapUpTo(s, delim, n - 1)
  }

  function Emit(content: string): seq<Event> {
    if content == "" then [] else [ContentEmitted(content)]
  }

  function EatStep(tags: Tags, state: ParserState, acc: string): (r: Step)
    requires tags.Usable()
    ensures r.more ==> |r.acc| < |acc|
  {
    match state
    case LookingForMessageStart =>
      if Contains(acc, tags.start) then
        Step([MessageStart], ParsingHeader, After(acc, tags.start), true)
      else
        Step([], state, acc, false)
    case ParsingHeader =>
      if Contains(acc, tags.headerEnd) then
        Step([HeaderComplete(ParseHeader(Before(acc, tags.headerEnd)))],
             ParsingContent, After(acc, tags.headerEnd), true)
      else
        Step([], state, acc, false)
    case ParsingContent =>
      if Contains(acc, tags.end) then
        Step(Emit(Before(acc, tags.end)) + [MessageEnd],
             LookingForMessageStart, After(acc, tags.end), true)
      else
        var held := Overlap(acc, tags.end);
        Step(Emit(acc[..|acc| - held]), state, acc[|acc| - held..], false)
  }

  datatype Outcome = Outcome(state: ParserState, acc: string, events: seq<Event>)

  // Steps until nothing more can be decided.
  function Feed(tags: Tags, state: ParserState, acc: string): Outcome
    requires tags.Usable()
    decreases |acc|
  {
    var s := EatStep(tags, state, acc);
    if s.more then
      var rest := Feed(tags, s.state, s.acc);
      rest.(events := s.events + rest.events)
    else
      Outcome(s.state, s.acc, s.events)
  }

  // The accumulator of the source, fed chunk by chunk.
  function FeedChunks(tags: Tags, state: ParserState, acc: string, chunks: seq<string>): Outcome
    requires tags.Usable()
    decreases |chunks|
  {
    if chunks == [] then Outcome(state, acc, [])
    else
      var first := Feed(tags, state, acc + chunks[0]);
      var rest := FeedChunks(tags, first.state, first.acc, chunks[1..]);
      rest.(events := first.events + rest.events)
  }

  function Concat(chunks: seq<string>): string {
    if chunks == [] then "" else chunks[0] + Concat(chunks[1..])
  }

  datatype ChatMessage = ChatMessage(role: string, content: string, thinking: string)

  class HarmonyParser {
    var state: ParserState
    const messageStartTag: string
    const messageEndTag: string
    const headerEndTag: string
    var acc: string
    var lifetimeAcc: string

    constructor (start: string, end: string, headerEnd: string)
      ensures TagSet() == Tags(start, headerEnd, end)
      ensures state == LookingForMessageStart && acc == "" && lifetimeAcc == ""
    {
      messageStartTag, messageEndTag, headerEndTag := start, end, headerEnd;
      state, acc, lifetimeAcc := LookingForMessageStart, "", "";
    }

    function TagSet(): Tags {
      Tags(messageStartTag, headerEndTag, messageEndTag)
    }

    method AddImplicitStart()
      modifies this`acc
      ensures acc == old(acc) + "<|start|>assistant"
    {
      acc := acc + "<|start|>assistant";
    }

    // A prefilled assistant turn puts the parser inside the message the model is continuing.
    method AddImplicitStartOrPrefill(lastMessage: Option<ChatMessage>)
      modifies this`acc
      ensures acc == old(acc) + Prefill(lastMessage)
    {
      if lastMessage.Some? && lastMessage.value.role == "assistant" {
        if lastMessage.value.content != "" {
          acc := acc + "<|start|>assistant<|channel|>final<|message|>";
          return;
        } else if lastMessage.value.thinking != "" {
          acc := acc + "<|start|>assistant<|channel|>analysis<|message|>";
          return;
        }
      }
      AddImplicitStart();
    }

    method AddContent(content: string) returns (events: seq<Event>)
      requires TagSet().Usable()
      modifies this`state, this`acc, this`lifetimeAcc
      ensures Outcome(state, acc, events) == Feed(TagSet(), old(state), old(acc) + content)
      ensures lifetimeAcc == old(lifetimeAcc) + content
    {
      lifetimeAcc := lifetimeAcc + content;
      acc := acc + content;
      events := [];
      var keepLooping := true;
      ghost var whole := Feed(TagSet(), state, acc);
      while keepLooping
        invariant keepLooping ==>
          var rest := Feed(TagSet(), state, acc);
          whole == rest.(events := events + rest.events)
        invariant !keepLooping ==> whole == Outcome(state, acc, events)
        invariant lifetimeAcc == old(lifetimeAcc) + content
        decreases keepLooping, |acc|
      {
        var newEvents;
        ghost var before := events;
        newEvents, keepLooping := Eat();
        events := events + newEvents;
        if keepLooping {
          assert before + (newEvents + Feed(TagSet(), state, acc).events)
              == events + Feed(TagSet(), state, acc).events;
        }
      }
    }

    method Eat() returns (events: seq<Event>, more: bool)
      requires TagSet().Usable()
      modifies this`state, this`acc
      ensures Step(events, state, acc, more) == EatStep(TagSet(), old(state), old(acc))
    {
      match state
      case LookingForMessageStart =>
        if Contains(acc, messageStartTag) {
          acc := After(acc, messageStartTag);
          state := ParsingHeader;
          return [MessageStart], true;
        }
        return [], false;
      case ParsingHeader =>
        if Contains(acc, headerEndTag) {
          var header := Before(acc, headerEndTag);
          acc := After(acc, headerEndTag);
          state := ParsingContent;
          return [HeaderComplete(ParseHeader(header))], true;
        }
        return [], false;
      case ParsingContent =>
        if Contains(acc, messageEndTag) {
          var content := Before(acc, messageEndTag);
          acc := After(acc, messageEndTag);
          state := LookingForMessageStart;
          events := [];
          if content != "" {
            events := events + [ContentEmitted(content)];
          }
          return events + [MessageEnd], true;
        }
        var overlapLen := FindOverlap(acc, messageEndTag);
        if overlapLen > 0 {
          var content, remaining := acc[..|acc| - overlapLen], acc[|acc| - overlapLen..];
          acc := remaining;
          if content == "" {
            return [], false;
          }
          return [ContentEmitted(content)], false;
        }
        assert acc[..|acc| - overlapLen] == acc;
        var content := acc;
        if content == "" {
          return [], false;
        }
        acc := "";
        return [ContentEmitted(content)], false;
    }
  }

  function Prefill(lastMessage: Option<ChatMessage>): string {
    if lastMessage.Some? && lastMessage.value.role == "assistant" && lastMessage.value.content != "" then
      "<|start|>assistant<|channel|>final<|message|>"
    else if lastMessage.Some? && lastMessage.value.role == "assistant" && lastMessage.value.thinking != "" then
      "<|start|>assistant<|channel|>analysis<|message|>"
    else
      "<|start|>assistant"
  }

  // Searches downwards from the longest candidate.
  method FindOverlap(s: string, delim: string) returns (r: nat)
    ensures r == Overlap(s, delim)
  {
    var max := if |delim| < |s| then |delim| else |s|;
    var i := max;
    while i > 0
      invariant 0 <= i <= max
      invariant Overlap(s, delim) == OverlapUpTo(s, delim, i)
    {
      if HasSuffix(s, delim[..i]) {
        return i;
      }
      i := i - 1;
    }
    return 0;
  }
}
