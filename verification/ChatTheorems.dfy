// Main results about the streaming Chat form.
module ChatTheorems {
  import opened Common
  import opened TokenUsage
  import opened AnthropicMessages
  import opened Drafts
  import opened ChatSpec
  import opened ChatProofs

  // ---- streaming and one-shot agree ----------------------------------------------------------

  predicate SameText(one: Option<string>, streamed: string) {
    streamed == (if one.Some? then one.value else "")
  }

  /** The streamed arguments are the one-shot arguments, or JSON text that reads as them. */
  predicate SameCall(one: ToolCall, streamed: ToolCall, parse: string -> Option<Json>) {
    && streamed.id == one.id && streamed.name == one.name
    && (streamed.arguments == one.arguments || parse(streamed.arguments) == Some(one.arguments))
  }

  predicate SameCalls(one: seq<ToolCall>, streamed: seq<ToolCall>, parse: string -> Option<Json>) {
    |one| == |streamed| && forall k :: 0 <= k < |one| ==> SameCall(one[k], streamed[k], parse)
  }

  /** Null and empty text are identified. */
  predicate Agrees(c: Completion, f: Folded, includeUsage: bool, parse: string -> Option<Json>) {
    && SameText(c.content, f.text) && SameText(c.reasoning, f.reasoning)
    && SameCalls(c.tools, f.tools, parse)
    && f.finish == Some(c.finish) && f.usage == (if includeUsage then Some(c.usage) else None)
  }

  function FinalCall(o: Open, parse: string -> Option<Json>): ToolCall
    requires o.block.ToolUse?
  {
    ToolCall(o.block.id, o.block.name, Arguments(Completed(o, parse)))
  }

  lemma {:induction false} CompletedTools(os: seq<Open>, parse: string -> Option<Json>)
    ensures |ToolsOf(CompletedAll(os, parse))| == |Kept(ToolBlocks, os)|
    ensures forall k :: 0 <= k < |Kept(ToolBlocks, os)| ==>
              && Kept(ToolBlocks, os)[k] in os && Kept(ToolBlocks, os)[k].block.ToolUse?
              && ToolsOf(CompletedAll(os, parse))[k] == FinalCall(Kept(ToolBlocks, os)[k], parse)
  {
    if os != [] {
      var init := os[..|os| - 1];
      CompletedTools(init, parse);
      assert CompletedAll(os, parse)[..|os| - 1] == CompletedAll(init, parse);
    }
  }

  /** A tool's streamed and one-shot arguments agree exactly when the upstream gave it an input. */
  lemma ToolAgrees(t: Tool, c: ToolCall, o: Open, parse: string -> Option<Json>)
    requires ToolRel(t, c, o, true) && (o.partial != "" ==> parse(o.partial).Some?)
    requires parse("{}") != Some("null")
    ensures SameCall(FinalCall(o, parse), c, parse) <==> !WithoutInput(o)
  {}

  lemma ToolsAgree(order: seq<Tool>, calls: seq<ToolCall>, os: seq<Open>, parse: string -> Option<Json>)
    requires ToolsRel(order, calls, Kept(ToolBlocks, os), true) && ArgumentsParse(os, parse) && parse("{}") != Some("null")
    ensures SameCalls(ToolsOf(CompletedAll(os, parse)), calls, parse) <==> !SomeWithoutInput(os)
  {
    CompletedTools(os, parse);
    var one := ToolsOf(CompletedAll(os, parse));
    forall k | 0 <= k < |Kept(ToolBlocks, os)| ensures SameCall(one[k], calls[k], parse) <==> !WithoutInput(Kept(ToolBlocks, os)[k]) {
      ToolAgrees(order[k], calls[k], Kept(ToolBlocks, os)[k], parse);
    }
    if SomeWithoutInput(os) {
      var o :| o in os && WithoutInput(o);
      var n :| 0 <= n < |os| && os[n] == o;
      KeptAt(ToolBlocks, os, n);
      assert !SameCall(one[Rank(ToolBlocks, os, n)], calls[Rank(ToolBlocks, os, n)], parse);
    }
  }

  lemma FinalAgrees(e: Encoder, d: Draft, m: Message, parse: string -> Option<Json>)
    requires FinalRel(e, d) && StandsFor(d, m, parse)
    requires ArgumentsParse(d.blocks, parse) && parse("{}") != Some("null")
    ensures ConvertResponse(m).Some?
    ensures Agrees(ConvertResponse(m).value, Fold(e.out), e.includeUsage, parse) <==> !SomeWithoutInput(d.blocks)
    ensures Named(e.out, ChunkId(m.id), m.model) && ConvertResponse(m).value.id == ChunkId(m.id)
  {
    hide Fold, TextOf, ThinkingOf, ToolsOf, CompletedAll, Kept, Largest, MapUsage, MergeRaw;
    CompletedText(d.blocks, parse);
    ToolsAgree(e.order, Fold(e.out).tools, d.blocks, parse);
    LargestIsUnique(m.usage, MergeRaw(e.inputUsage, e.outputUsage), d.reports, d.reports);
  }

  lemma FreshRel(includeUsage: bool)
    ensures Rel(Fresh(includeUsage), EMPTY_DRAFT)
  {
    assert MergeRaw(map[], map[]) == map[];
  }

  /** The chunks of a legal stream add up to what the one-shot converter makes of its message, in every
      failure mode, exactly when no tool block stays without an input: for such a block the stream sends
      "{}" where the one-shot form says "null". */
  lemma StreamRefinesOneShot(events: seq<Event>, m: Message, includeUsage: bool, mode: Mode,
                             parse: string -> Option<Json>)
    requires var d := AddAll(EMPTY_DRAFT, events);
             LegalFrom(EMPTY_DRAFT, events) && StandsFor(d, m, parse) && ArgumentsParse(d.blocks, parse)
    requires parse("{}") != Some("null")
    ensures var (e, failure) := Reencode(events, includeUsage, mode);
            && failure == None && ConvertResponse(m).Some?
            && Named(e.out, ConvertResponse(m).value.id, ConvertResponse(m).value.model)
            && (Agrees(ConvertResponse(m).value, Fold(e.out), includeUsage, parse)
                <==> !SomeWithoutInput(AddAll(EMPTY_DRAFT, events).blocks))
  {
    hide Rel, FinalRel, LegalFrom, Agrees, Named, Fold, ArgumentsParse, Largest, CompletedAll;
    FreshRel(includeUsage);
    FeedKeeps(Fresh(includeUsage), EMPTY_DRAFT, events);
    var (e, failure) := Feed(Fresh(includeUsage), events);
    var d := AddAll(EMPTY_DRAFT, events);
    FinalFinished(e, d);
    FinalAgrees(e, d, m, parse);
  }

  const INPUTLESS: seq<Event> :=
    [MessageStart(Some(Start("m", "x", None)))] + ([BlockStart(0, ToolUse("t", "f", None))] + ([BlockStop(0)] +
    ([MessageDelta("tool_use", None)] + ([MessageStop] + []))))

  lemma Prepend(d: Draft, ev: Event, rest: seq<Event>)
    requires Legal(d, ev) && LegalFrom(Add(d, ev), rest)
    ensures LegalFrom(d, [ev] + rest) && AddAll(d, [ev] + rest) == AddAll(Add(d, ev), rest)
  {
    assert ([ev] + rest)[1..] == rest;
  }

  lemma InputlessIsLegal()
    ensures LegalFrom(EMPTY_DRAFT, INPUTLESS)
    ensures AddAll(EMPTY_DRAFT, INPUTLESS)
         == Draft(true, "m", "x", [Open(ToolUse("t", "f", None), "", true)], map[0 := 0], "tool_use", [], true)
  {
    var tool := Open(ToolUse("t", "f", None), "", false);
    var d1 := Draft(true, "m", "x", [], map[], "", [], false);
    var d2 := d1.(blocks := [tool], at := map[0 := 0]);
    var d3 := d2.(blocks := [tool.(closed := true)]);
    var d4 := d3.(stopReason := "tool_use");
    var d5 := d4.(ended := true);
    assert LegalFrom(d5, []) && AddAll(d5, []) == d5;
    hide LegalFrom, AddAll;
    Prepend(d4, MessageStop, []);
    Prepend(d3, MessageDelta("tool_use", None), [MessageStop] + []);
    assert Add(d2, BlockStop(0)) == d3;
    Prepend(d2, BlockStop(0), [MessageDelta("tool_use", None)] + ([MessageStop] + []));
    assert Add(d1, BlockStart(0, tool.block)) == d2;
    Prepend(d1, BlockStart(0, tool.block), [BlockStop(0)] + ([MessageDelta("tool_use", None)] + ([MessageStop] + [])));
    assert Add(EMPTY_DRAFT, MessageStart(Some(Start("m", "x", None)))) == d1;
    Prepend(EMPTY_DRAFT, MessageStart(Some(Start("m", "x", None))),
            [BlockStart(0, tool.block)] + ([BlockStop(0)] + ([MessageDelta("tool_use", None)] + ([MessageStop] + []))));
  }

  /** The failing case is reachable: a tool called without input. */
  lemma InputlessToolDiffers(parse: string -> Option<Json>)
    requires parse("{}") != Some("null")
    ensures LegalFrom(EMPTY_DRAFT, INPUTLESS)
    ensures var m := Message("m", "x", [ToolUse("t", "f", None)], "tool_use", map[]);
            && StandsFor(AddAll(EMPTY_DRAFT, INPUTLESS), m, parse) && ConvertResponse(m).Some?
            && !Agrees(ConvertResponse(m).value, Fold(Reencode(INPUTLESS, false, Legacy).0.out), false, parse)
  {
    var m := Message("m", "x", [ToolUse("t", "f", None)], "tool_use", map[]);
    var o := Open(ToolUse("t", "f", None), "", true);
    assert CompletedAll([o], parse) == [o.block];
    InputlessIsLegal();
    var d := AddAll(EMPTY_DRAFT, INPUTLESS);
    assert StandsFor(d, m, parse);
    assert o in d.blocks && WithoutInput(o);
    assert ConvertResponse(m).Some?;
    hide Agrees, Fold, Reencode, LegalFrom, AddAll, CompletedAll, ConvertResponse, StandsFor;
    StreamRefinesOneShot(INPUTLESS, m, false, Legacy, parse);
  }

  // ---- exactly one ending, and it is last ----------------------------------------------------

  predicate Terminal(c: Chunk) { c.Done? || c.ErrorChunk? }

  predicate NoTerminal(cs: seq<Chunk>) { forall i :: 0 <= i < |cs| ==> !Terminal(cs[i]) }

  predicate OneTerminalLast(cs: seq<Chunk>) {
    cs != [] && Terminal(cs[|cs| - 1]) && NoTerminal(cs[..|cs| - 1])
  }

  predicate EndingInv(e: Encoder) {
    if e.finished then OneTerminalLast(e.out) && e.out[|e.out| - 1] == Done else NoTerminal(e.out)
  }

  /** A tool the client saw opened is in `order`; closed ones have had their arguments. */
  ghost predicate ToolInv(e: Encoder) {
    && (forall i :: 0 <= i < |e.out| && e.out[i].Choice? && e.out[i].delta.ToolOpen? ==> e.out[i].delta.index < |e.order|)
    && (forall k :: 0 <= k < |e.order| && e.order[k].closed ==> e.order[k].hasArgs)
    && (forall k :: 0 <= k < |e.order| && e.order[k].hasArgs ==> Argued(e.out, k))
  }

  ghost predicate Argued(out: seq<Chunk>, k: nat) {
    exists i :: 0 <= i < |out| && out[i].Choice? && out[i].delta.ToolArgs? && out[i].delta.index == k
  }

  /** Every tool the client saw opened was given arguments. */
  ghost predicate AllOpenArgued(out: seq<Chunk>) {
    forall i :: 0 <= i < |out| && out[i].Choice? && out[i].delta.ToolOpen? ==> Argued(out, out[i].delta.index)
  }

  lemma ArguedAppend(out: seq<Chunk>, c: Chunk)
    ensures forall k :: Argued(out, k) ==> Argued(out + [c], k)
    ensures c.Choice? && c.delta.ToolArgs? ==> Argued(out + [c], c.delta.index)
  {
    assert (out + [c])[|out|] == c;
    forall k | Argued(out, k) ensures Argued(out + [c], k) {
      var i :| 0 <= i < |out| && out[i].Choice? && out[i].delta.ToolArgs? && out[i].delta.index == k;
      assert (out + [c])[i] == out[i];
    }
  }

  lemma EmitEnds(e: Encoder, delta: Content, finish: Option<string>)
    requires !e.finished && EndingInv(e) && ToolInv(e)
    requires delta.ToolOpen? ==> delta.index < |e.order|
    ensures EndingInv(Emit(e, delta, finish)) && ToolInv(Emit(e, delta, finish))
  {
    ArguedAppend(e.out, Choice(e.id, e.model, delta, finish));
  }

  lemma EmitArgsEnds(e: Encoder, k: nat, arguments: string)
    requires !e.finished && EndingInv(e) && ToolInv(e) && k < |e.order|
    ensures EndingInv(EmitArgs(e, k, arguments)) && ToolInv(EmitArgs(e, k, arguments))
  {
    ArguedAppend(e.out, Choice(e.id, e.model, ToolArgs(k, arguments), None));
  }

  lemma {:induction false} FlushEnds(e: Encoder, n: nat)
    requires !e.finished && EndingInv(e) && ToolInv(e) && n <= |e.order|
    ensures var r := FlushTools(e, n);
            !r.finished && EndingInv(r) && ToolInv(r) && (forall k :: 0 <= k < n ==> r.order[k].hasArgs)
  {
    hide EndingInv, ToolInv;
    if n > 0 {
      FlushEnds(e, n - 1);
      var p := FlushTools(e, n - 1);
      if !p.order[n - 1].hasArgs { EmitArgsEnds(p, n - 1, p.order[n - 1].initial); }
    }
  }

  lemma BlockStartEnds(e: Encoder, i: int, b: Block)
    requires !e.finished && EndingInv(e) && ToolInv(e)
    ensures EndingInv(OnBlockStart(e, i, b)) && ToolInv(OnBlockStart(e, i, b))
  {
    match b
    case Text(t) => EmitEnds(e, TextPart(t), None);
    case Thinking(t) => EmitEnds(e, ReasoningPart(t), None);
    case ToolUse(id, name, input) =>
      var r := e.(tools := e.tools[i := |e.order|],
                  order := e.order + [Tool(if input.Some? then input.value else "{}", false, false)]);
      EmitEnds(r, ToolOpen(|e.order|, id, name), None);
    case OtherBlock =>
  }

  lemma BlockDeltaEnds(e: Encoder, i: int, delta: Delta)
    requires !e.finished && EndingInv(e) && ToolInv(e)
    ensures var r := OnBlockDelta(e, i, delta).0; !r.finished && EndingInv(r) && ToolInv(r)
  {
    hide EndingInv, ToolInv;
    match delta
    case TextDelta(t) => EmitEnds(e, TextPart(t), None);
    case ThinkingDelta(t) => EmitEnds(e, ReasoningPart(t), None);
    case InputJsonDelta(t) => if Known(e, i) { EmitArgsEnds(e, e.tools[i], t); }
    case OtherDelta =>
  }

  lemma BlockStopEnds(e: Encoder, i: int)
    requires !e.finished && EndingInv(e) && ToolInv(e)
    ensures EndingInv(OnBlockStop(e, i)) && ToolInv(OnBlockStop(e, i))
  {
    if Known(e, i) && !e.order[e.tools[i]].hasArgs {
      EmitArgsEnds(e, e.tools[i], e.order[e.tools[i]].initial);
    }
  }

  lemma MessageStartEnds(e: Encoder, m: Start)
    requires !e.finished && EndingInv(e) && ToolInv(e)
    ensures EndingInv(OnMessageStart(e, m)) && ToolInv(OnMessageStart(e, m))
  {
    var r := e.(id := ChunkId(if m.id == "" then "unknown" else m.id), model := m.model,
                inputUsage := if m.usage.Some? then m.usage.value else e.inputUsage);
    EmitEnds(r, Role, None);
  }

  lemma MessageDeltaEnds(e: Encoder, reason: string, usage: Option<Usage>)
    requires !e.finished && EndingInv(e) && ToolInv(e)
    ensures var r := OnMessageDelta(e, reason, usage); !r.finished && EndingInv(r) && ToolInv(r)
  {
    var r := if usage.Some? then e.(outputUsage := MergeRaw(e.outputUsage, usage.value)) else e;
    assert EndingInv(r) && ToolInv(r);
    hide EndingInv, ToolInv;
    if reason != "" {
      FlushEnds(r, |r.order|);
      EmitEnds(FlushTools(r, |r.order|), Nothing, Some(MapStopReason(reason)));
    }
  }

  lemma PlainAppend(e: Encoder, c: Chunk)
    requires NoTerminal(e.out) && ToolInv(e) && !c.Choice?
    ensures ToolInv(e.(out := e.out + [c]))
    ensures if Terminal(c) then OneTerminalLast(e.out + [c]) else NoTerminal(e.out + [c])
  {
    ArguedAppend(e.out, c);
    assert (e.out + [c])[..|e.out|] == e.out;
  }

  lemma MessageStopEnds(e: Encoder)
    requires !e.finished && EndingInv(e) && ToolInv(e)
    ensures var r := OnMessageStop(e);
            EndingInv(r) && ToolInv(r) && (forall k :: 0 <= k < |r.order| ==> r.order[k].hasArgs)
  {
    FlushEnds(e, |e.order|);
    var r := FlushTools(e, |e.order|);
    var u := UsageChunk(r.id, r.model, MapUsage(MergeRaw(r.inputUsage, r.outputUsage)));
    var s := if r.includeUsage then r.(out := r.out + [u]) else r;
    assert NoTerminal(r.out);
    hide ToolInv, FlushTools;
    PlainAppend(r, u);
    PlainAppend(s, Done);
    assert OnMessageStop(e) == s.(out := s.out + [Done]).(finished := true);
    FinishedSame(s.(out := s.out + [Done]));
  }

  lemma FinishedSame(e: Encoder)
    requires ToolInv(e)
    ensures ToolInv(e.(finished := true))
  {}

  lemma DispatchEnds(e: Encoder, ev: Event)
    requires EndingInv(e) && ToolInv(e)
    ensures var (r, failure) := Dispatch(e, ev);
            && EndingInv(r) && ToolInv(r) && (failure.Some? ==> !r.finished)
            && (r.finished && !e.finished ==> ev == MessageStop)
  {
    hide EndingInv, ToolInv;
    if !e.finished {
      match ev
      case MessageStart(m) => if m.Some? { MessageStartEnds(e, m.value); }
      case BlockStart(i, b) => BlockStartEnds(e, i, b);
      case BlockDelta(i, delta) => BlockDeltaEnds(e, i, delta);
      case BlockStop(i) => BlockStopEnds(e, i);
      case MessageDelta(reason, usage) => MessageDeltaEnds(e, reason, usage);
      case MessageStop => MessageStopEnds(e);
      case _ =>
    }
  }

  lemma {:induction false} FeedEnds(e: Encoder, events: seq<Event>)
    requires EndingInv(e) && ToolInv(e)
    ensures var (r, failure) := Feed(e, events);
            && EndingInv(r) && ToolInv(r) && (failure.Some? ==> !r.finished)
            && (r.finished && !e.finished ==> MessageStop in events)
    decreases |events|
  {
    hide EndingInv, ToolInv, Dispatch;
    if events != [] {
      DispatchEnds(e, events[0]);
      FeedEnds(Dispatch(e, events[0]).0, events[1..]);
    }
  }

  /** The ending a failure makes: by mode, and for `Graceful` only if the message can be completed. */
  lemma FailEnds(e: Encoder, mode: Mode)
    requires !e.finished && EndingInv(e) && ToolInv(e)
    ensures var r := Fail(e, mode);
            && r.finished && r.order == e.order && r.id == e.id && e.out <= r.out
            && (mode == Abort ==> r.out == e.out && NoTerminal(r.out))
            && (mode != Abort ==> OneTerminalLast(r.out)
                                  && (r.out[|r.out| - 1] == Done <==> mode == Graceful && CanFinishGracefully(e)))
            && ToolInv(r)
  {
    if mode == Graceful && CanFinishGracefully(e) {
      EmitEnds(e, Nothing, Some("stop"));
      var r := Emit(e, Nothing, Some("stop"));
      ArguedAppend(r.out, Done);
      assert (r.out + [Done])[..|r.out|] == r.out;
    } else {
      var c := ErrorChunk(if mode == Legacy then "upstream_stream_error" else "overloaded_error");
      ArguedAppend(e.out, c);
      assert (e.out + [c])[..|e.out|] == e.out;
    }
  }

  /** Whatever the upstream sends, the client sees exactly one ending and nothing after it, or none at
      all when a failure is configured to abort; success needs a message_stop. */
  lemma OneEnding(events: seq<Event>, includeUsage: bool, mode: Mode)
    ensures var (e, failure) := Reencode(events, includeUsage, mode);
            && e.finished
            && (if failure.Some? && mode == Abort then NoTerminal(e.out) else OneTerminalLast(e.out))
            && (failure.None? ==> MessageStop in events && e.out[|e.out| - 1] == Done)
            && (failure.Some? && mode in {Legacy, Retryable} ==> e.out[|e.out| - 1].ErrorChunk?)
  {
    hide Dispatch, Argued;
    FeedEnds(Fresh(includeUsage), events);
    var (e, failure) := Feed(Fresh(includeUsage), events);
    if !e.finished { FailEnds(e, mode); }
  }

  /** A stream that ends in [DONE], even one cut short, left no tool call half told: every tool the
      client saw opened was given arguments, and a cut-short one had every tool closed by the upstream. */
  lemma DoneMeansToolsComplete(events: seq<Event>, includeUsage: bool, mode: Mode)
    ensures var (e, failure) := Reencode(events, includeUsage, mode);
            e.out != [] && e.out[|e.out| - 1] == Done ==>
              AllOpenArgued(e.out) && (failure.Some? ==> mode == Graceful && CanFinishGracefully(e))
  {
    assert EndingInv(Fresh(includeUsage)) && ToolInv(Fresh(includeUsage));
    hide EndingInv, ToolInv, AllOpenArgued;
    FeedEnds(Fresh(includeUsage), events);
    FeedArgued(Fresh(includeUsage), events);
    var (e, failure) := Feed(Fresh(includeUsage), events);
    hide Feed, Fail, CanFinishGracefully;
    if e.finished { AllArgued(e); } else { FailedDone(e, mode); }
  }

  /** A failure that ends in [DONE] is a graceful one. */
  lemma FailedDone(e: Encoder, mode: Mode)
    requires !e.finished && EndingInv(e) && ToolInv(e)
    ensures var r := Fail(e, mode);
            r.out != [] && r.out[|r.out| - 1] == Done ==>
              mode == Graceful && CanFinishGracefully(r) && AllOpenArgued(r.out)
  {
    hide Argued, AllOpenArgued;
    FailEnds(e, mode);
    NoDone(e);
    if mode == Graceful && CanFinishGracefully(e) { AllArgued(Fail(e, mode)); }
  }

  lemma AllArgued(e: Encoder)
    requires ToolInv(e) && forall k :: 0 <= k < |e.order| ==> e.order[k].closed || e.order[k].hasArgs
    ensures AllOpenArgued(e.out)
  {}

  lemma NoDone(e: Encoder)
    requires !e.finished && EndingInv(e)
    ensures e.out != [] ==> e.out[|e.out| - 1] != Done
  {}

  /** Every tool has had its arguments. */
  predicate AllFlushed(e: Encoder) { forall k :: 0 <= k < |e.order| ==> e.order[k].hasArgs }

  lemma DispatchArgued(e: Encoder, ev: Event)
    requires EndingInv(e) && ToolInv(e) && (e.finished ==> AllFlushed(e))
    ensures Dispatch(e, ev).0.finished ==> AllFlushed(Dispatch(e, ev).0)
  {
    DispatchEnds(e, ev);
    hide ToolInv, EndingInv, OnMessageStop;
    if ev == MessageStop && !e.finished { MessageStopEnds(e); }
  }

  lemma {:induction false} FeedArgued(e: Encoder, events: seq<Event>)
    requires EndingInv(e) && ToolInv(e) && (e.finished ==> AllFlushed(e))
    ensures Feed(e, events).0.finished ==> AllFlushed(Feed(e, events).0)
    decreases |events|
  {
    hide EndingInv, ToolInv, Dispatch, AllFlushed;
    if events != [] {
      DispatchEnds(e, events[0]);
      DispatchArgued(e, events[0]);
      var (r, failure) := Dispatch(e, events[0]);
      if failure.None? { FeedArgued(r, events[1..]); }
    }
  }
}
