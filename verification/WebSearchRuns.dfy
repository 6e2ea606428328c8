// Whole runs of the web search writer: one well-formed client stream whatever is passed through
// and whatever the search loop comes back with, and exact usage accounting.
module WebSearchRuns {
  import opened Text
  import opened AnthropicTypes
  import opened StreamProtocol
  import opened StreamConverters
  import opened WebSearchLoop
  import opened WebSearchWriters

  // ---------- the shadow follows the client ----------

  // The shadow fields say where the client is in the protocol.
  predicate Shadows(s: Shadow, p: Phase) {
    match p
    case NotStarted => !s.started && !s.hasOpen && s.next == 0 && !s.terminal
    case Streaming(n, open) =>
      && s.started && !s.terminal && s.hasOpen == open.Some?
      && (if open.Some? then s.openIndex == n && s.next == n + 1 else s.next == n)
    case Closing => s.started && !s.hasOpen && !s.terminal
    case Finished => s.terminal
    case Broken => true
  }

  lemma {:induction false} TrackFollows(s: Shadow, p: Phase, events: seq<StreamEvent>)
    requires Shadows(s, p)
    ensures Shadows(TrackAll(s, events), AcceptAll(p, events))
    decreases |events|
  {
    if events != [] {
      TrackFollows(Track(s, events[0]), Accept(p, events[0]), events[1..]);
    }
  }

  // ---------- the writer ends the stream itself ----------

  lemma {:induction false} ContentAccepted(n: nat, content: seq<ContentBlock>)
    ensures AcceptAll(Streaming(n, None), ContentEvents(n, content)) == Streaming(n + |content|, None)
    decreases |content|
  {
    if content != [] {
      var b := BlockEvents(n, content[0]);
      BlockAccepted(n, content[0]);
      ContentAccepted(n + 1, content[1..]);
      AcceptConcat(Streaming(n, None), b, ContentEvents(n + 1, content[1..]));
    }
  }

  lemma BlockAccepted(n: nat, b: ContentBlock)
    ensures AcceptAll(Streaming(n, None), BlockEvents(n, b)) == Streaming(n + 1, None)
  {
    var e := BlockEvents(n, b);
    var stop := BlockStop(n);
    AcceptOne(Streaming(n, Some(KindOf(b))), stop);
    if b.TextBlock? {
      assert e[1..] == [e[1], stop] && e[1..][1..] == [stop];
    } else {
      assert e[1..] == [stop];
    }
  }

  // From wherever the shadow says the client is, the terminal events bring it to the end.
  lemma {:induction false} TerminalFinishes(w: WriterState, p: Phase, r: MessagesResponse)
    requires Shadows(w.shadow, p) && (p.NotStarted? || p.Streaming?)
    ensures AcceptAll(p, TerminalEvents(w, r)) == Finished
  {
    var start, close := StartEvents(w, r.usage), CloseEvents(w.shadow);
    var n := NextAfterClose(w.shadow);
    var p1 := AcceptAll(p, start);
    StartAccepted(w, p, r.usage);
    assert p1.Streaming? && Shadows(w.shadow.(started := true), p1);
    AcceptOne(p1, BlockStop(w.shadow.openIndex));
    assert AcceptAll(p1, close) == Streaming(n, None);
    ContentAccepted(n, r.content);
    var m := n + |r.content|;
    EndAccepted(m, r);
    AcceptConcat(p, start, close);
    AcceptConcat(p, start + close, ContentEvents(n, r.content));
    AcceptConcat(p, start + close + ContentEvents(n, r.content), EndEvents(r));
  }

  lemma {:induction false} StartAccepted(w: WriterState, p: Phase, u: Usage)
    requires Shadows(w.shadow, p) && (p.NotStarted? || p.Streaming?)
    ensures AcceptAll(p, StartEvents(w, u)) == if p.NotStarted? then Streaming(0, None) else p
  {
    if !w.shadow.started {
      AcceptOne(p, StartEvents(w, u)[0]);
    }
  }

  lemma EndAccepted(m: nat, r: MessagesResponse)
    ensures AcceptAll(Streaming(m, None), EndEvents(r)) == Finished
  {
    assert EndEvents(r)[1..] == [MessageStop];
    AcceptOne(Closing, MessageStop);
  }

  // ---------- one write ----------

  // The client stream so far is in protocol and the shadow, and until the stream ends also the
  // converter, stand exactly where the client stands; a loop is in flight iff its result is due.
  ghost predicate Synced(w: WriterState) {
    var p := AcceptAll(NotStarted, w.out);
    && w.stream && (w.loopInFlight <==> w.loopResult.Some?)
    && Shadows(w.shadow, p)
    && (w.shadow.terminal ==> p == Finished)
    && (!w.shadow.terminal ==> w.converter.Valid() && p == w.converter.Client())
  }

  lemma TerminalSynced(w: WriterState, r: MessagesResponse)
    requires Synced(w)
    ensures Synced(Terminal(w, r)) && Terminal(w, r).shadow.terminal
  {
    var p := AcceptAll(NotStarted, w.out);
    if !w.shadow.terminal {
      TerminalFinishes(w, p, r);
      AcceptConcat(NotStarted, w.out, TerminalEvents(w, r));
    }
  }

  lemma PassThroughSynced(w: WriterState, r: ChatResponse)
    requires Synced(w) && !w.shadow.terminal
    ensures Synced(PassThrough(w, r)) && (PassThrough(w, r).shadow.terminal <==> r.done)
  {
    var p := AcceptAll(NotStarted, w.out);
    var o := ProcessOne(w.converter, r);
    ProcessKeepsProtocol(w.converter, r);
    AcceptConcat(NotStarted, w.out, o.events);
    TrackFollows(w.shadow, p, o.events);
  }

  lemma WriteResultSynced(w: WriterState)
    requires Synced(w)
    ensures Synced(WriteResult(w)) && WriteResult(w).shadow.terminal
  {
    if w.loopResult.None? {
      TerminalSynced(w, ErrorResponse(w.req, "api_error", "", CurrentUsage(w.observed)));
    } else {
      var o := w.loopResult.value.outcome;
      TerminalSynced(w.(loopResult := None, loopInFlight := false),
                     Ending(w.req, o, ApplyDelta(OutcomeUsage(o), w.observed, w.loopBase)));
    }
  }

  // Whatever arrives, and whatever the services answer, the stream stays in protocol; it has
  // ended exactly when it had ended before or this was the last response.
  lemma StepSynced(w: WriterState, i: Input, s: Services)
    requires Synced(w)
    ensures var w' := Step(w, i, s);
      Synced(w') && (w'.shadow.terminal <==> w.shadow.terminal || (i.Chat? && i.response.done))
  {
    if !w.shadow.terminal && i.Chat? {
      var r := i.response;
      var v := w.(observed := Record(w.observed, r.metrics));
      assert Synced(v);
      if v.loopInFlight {
        if r.done {
          WriteResultSynced(v);
        }
      } else if FindWebSearch(r.toolCalls).None? {
        PassThroughSynced(v, r);
      } else {
        var started := StartWorker(v, r, FindWebSearch(r.toolCalls).value, s);
        assert Synced(started);
        if r.done {
          WriteResultSynced(started);
        }
      }
    }
  }

  // ---------- whole runs ----------

  datatype Write = Write(input: Input, services: Services)

  function Serve(w: WriterState, writes: seq<Write>): WriterState
    decreases |writes|
  {
    if writes == [] then w else Serve(Step(w, writes[0].input, writes[0].services), writes[1..])
  }

  predicate SeesDone(writes: seq<Write>) {
    exists k :: 0 <= k < |writes| && writes[k].input.Chat? && writes[k].input.response.done
  }

  lemma {:induction false} ServeSynced(w: WriterState, writes: seq<Write>)
    requires Synced(w)
    ensures Synced(Serve(w, writes))
    ensures Serve(w, writes).shadow.terminal <==> w.shadow.terminal || SeesDone(writes)
    decreases |writes|
  {
    if writes != [] {
      var first := writes[0];
      StepSynced(w, first.input, first.services);
      ServeSynced(Step(w, first.input, first.services), writes[1..]);
      SeesDoneStep(writes);
    }
  }

  lemma SeesDoneStep(writes: seq<Write>)
    requires writes != []
    ensures SeesDone(writes)
       <==> (writes[0].input.Chat? && writes[0].input.response.done) || SeesDone(writes[1..])
  {
    if SeesDone(writes[1..]) {
      var k :| 0 <= k < |writes[1..]| && writes[1..][k].input.Chat? && writes[1..][k].input.response.done;
      assert writes[k + 1].input.response.done;
    }
    if SeesDone(writes) {
      var k :| 0 <= k < |writes| && writes[k].input.Chat? && writes[k].input.response.done;
      if k > 0 {
        assert writes[1..][k - 1].input.response.done;
      }
    }
  }

  // After the end nothing more reaches the client.
  lemma {:induction false} NothingAfterTheEnd(w: WriterState, writes: seq<Write>)
    requires w.shadow.terminal
    ensures Serve(w, writes) == w
    decreases |writes|
  {
    if writes != [] {
      NothingAfterTheEnd(w, writes[1..]);
    }
  }

  // Every streaming run, with searches at any point and any outcomes, gives the client one
  // well-formed stream once a last response has arrived, and before that a start of one.
  lemma {:induction false} EveryServedStreamIsWellFormed(req: Request, estimated: int, writes: seq<Write>)
    ensures var w := Serve(NewWriter(req, true, estimated), writes);
      (SeesDone(writes) ==> WellFormed(w.out) && w.shadow.terminal)
      && (!SeesDone(writes) ==> var p := AcceptAll(NotStarted, w.out);
            (p.NotStarted? || p.Streaming?) && p == w.converter.Client() && Shadows(w.shadow, p))
  {
    ServeSynced(NewWriter(req, true, estimated), writes);
  }
}
