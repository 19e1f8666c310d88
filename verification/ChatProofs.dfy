// The streaming Chat form refines the one-shot form: proofs.
module ChatProofs {
  import opened Common
  import opened TokenUsage
  import opened AnthropicMessages
  import opened Drafts
  import opened ChatSpec

  // ---- the refinement relation ---------------------------------------------------------------

  /** One tool: encoder state `t`, what the client has so far `c`, and the draft's block `o`. */
  predicate ToolRel(t: Tool, c: ToolCall, o: Open, stopped: bool) {
    && o.block.ToolUse? && c.id == o.block.id && c.name == o.block.name
    && t.initial == (if o.block.input.Some? then o.block.input.value else "{}")
    && t.closed == o.closed
    && (t.hasArgs <==> o.partial != "" || o.closed || stopped)
    && c.arguments == (if o.partial != "" then o.partial else if t.hasArgs then t.initial else "")
  }

  predicate ToolsRel(order: seq<Tool>, calls: seq<ToolCall>, os: seq<Open>, stopped: bool) {
    && |order| == |calls| == |os|
    && forall k :: 0 <= k < |os| ==> ToolRel(order[k], calls[k], os[k], stopped)
  }

  predicate HeadRel(e: Encoder, d: Draft) {
    if d.started then d.id != "" && e.id == ChunkId(d.id) && e.model == d.model
    else d.blocks == [] && d.reports == [] && d.stopReason == "" && e.inputUsage == map[] && e.outputUsage == map[]
  }

  predicate TextRel(f: Folded, d: Draft) {
    && f.text == TextOf(Blocks(d.blocks)) && f.reasoning == ThinkingOf(Blocks(d.blocks))
    && f.finish == (if d.stopReason == "" then None else Some(MapStopReason(d.stopReason)))
  }

  /** Every chunk names the message it belongs to. */
  predicate Named(out: seq<Chunk>, id: string, model: string) {
    forall i :: 0 <= i < |out| && (out[i].Choice? || out[i].UsageChunk?) ==> out[i].id == id && out[i].model == model
  }

  ghost predicate Rel(e: Encoder, d: Draft) {
    var f := Fold(e.out);
    && !e.finished && !d.ended && (!d.started ==> e.out == [])
    && HeadRel(e, d) && UsageRel(e.inputUsage, e.outputUsage, d.reports) && TextRel(f, d) && f.usage == None
    && ToolsRel(e.order, f.tools, Kept(ToolBlocks, d.blocks), d.stopReason != "")
    && IndexRel(ToolBlocks, e.tools, d.at, d.blocks)
    && Named(e.out, e.id, e.model)
  }

  lemma FoldAppend(out: seq<Chunk>, c: Chunk)
    ensures Fold(out + [c]) == FoldChunk(Fold(out), c)
  {
    assert (out + [c])[..|out|] == out;
  }

  lemma NamedAppend(out: seq<Chunk>, id: string, model: string, c: Chunk)
    requires Named(out, id, model)
    requires c.Choice? || c.UsageChunk? ==> c.id == id && c.model == model
    ensures Named(out + [c], id, model)
  {
    forall i | 0 <= i < |out + [c]| && ((out + [c])[i].Choice? || (out + [c])[i].UsageChunk?)
      ensures (out + [c])[i].id == id && (out + [c])[i].model == model
    {
      if i < |out| { assert (out + [c])[i] == out[i]; }
    }
  }

  lemma Emitted(e: Encoder, delta: Content, finish: Option<string>)
    requires Named(e.out, e.id, e.model)
    ensures var r := Emit(e, delta, finish);
            && Fold(r.out) == FoldChunk(Fold(e.out), Choice(e.id, e.model, delta, finish))
            && Named(r.out, r.id, r.model)
  {
    FoldAppend(e.out, Choice(e.id, e.model, delta, finish));
    NamedAppend(e.out, e.id, e.model, Choice(e.id, e.model, delta, finish));
  }

  // ---- one lemma per event -------------------------------------------------------------------

  lemma MessageStartKeeps(e: Encoder, d: Draft, m: Start)
    requires Rel(e, d) && Legal(d, MessageStart(Some(m)))
    ensures Rel(OnMessageStart(e, m), Add(d, MessageStart(Some(m))))
  {
    var r := e.(id := ChunkId(m.id), model := m.model, inputUsage := if m.usage.Some? then m.usage.value else map[]);
    Emitted(r, Role, None);
    var s := OnMessageStart(e, m);
    assert s.out == [Choice(r.id, r.model, Role, None)];
    assert MergeRaw(map[], map[]) == map[];
    var i := s.inputUsage;
    assert MergeRaw(i, map[]) == i;
    assert Largest(i, Reports(m.usage)) by {
      if m.usage.Some? {
        assert Reports(m.usage)[0] == i;
      }
    }
    assert d.reports + Reports(m.usage) == Reports(m.usage);
  }

  lemma FoldText(e: Encoder, d: Draft, b: Block)
    requires Rel(e, d)
    requires b.Text? || b.Thinking?
    ensures var c := if b.Text? then TextPart(b.text) else ReasoningPart(b.text);
            var r := if b.text == "" then e else Emit(e, c, None);
            && Fold(r.out) == Fold(e.out).(text := Fold(e.out).text + Part(b), reasoning := Fold(e.out).reasoning + Thought(b))
            && Named(r.out, r.id, r.model)
  {
    Emitted(e, if b.Text? then TextPart(b.text) else ReasoningPart(b.text), None);
    assert Fold(e.out).text + "" == Fold(e.out).text;
    assert Fold(e.out).reasoning + "" == Fold(e.out).reasoning;
  }

  lemma BlockStartKeeps(e: Encoder, d: Draft, i: int, b: Block)
    requires Rel(e, d) && Legal(d, BlockStart(i, b))
    ensures Rel(OnBlockStart(e, i, b), Add(d, BlockStart(i, b)))
  {
    if b.ToolUse? { ToolStartKeeps(e, d, i, b); } else { TextStartKeeps(e, d, i, b); }
  }

  lemma TextStartKeeps(e: Encoder, d: Draft, i: int, b: Block)
    requires Rel(e, d) && Legal(d, BlockStart(i, b)) && !b.ToolUse?
    ensures Rel(OnBlockStart(e, i, b), Add(d, BlockStart(i, b)))
  {
    hide ToolRel, IndexRel, Kept, Rank, TextOf, ThinkingOf, UsageRel, Named, Fold;
    var o := Open(b, "", false);
    var r, d2 := OnBlockStart(e, i, b), Add(d, BlockStart(i, b));
    IndexAppend(ToolBlocks, e.tools, d.at, d.blocks, i, o);
    KeptAppend(ToolBlocks, d.blocks, o);
    TextAppend(d.blocks, o);
    assert Kept(ToolBlocks, d.blocks) + [] == Kept(ToolBlocks, d.blocks);
    if b.OtherBlock? {
      assert Fold(e.out).text + "" == Fold(e.out).text;
      assert Fold(e.out).reasoning + "" == Fold(e.out).reasoning;
    } else {
      FoldText(e, d, b);
    }
  }

  lemma OpenedRel(b: Block)
    requires b.ToolUse?
    ensures ToolRel(Tool(if b.input.Some? then b.input.value else "{}", false, false), ToolCall(b.id, b.name, ""),
                    Open(b, "", false), false)
  {}

  lemma ToolStartKeeps(e: Encoder, d: Draft, i: int, b: Block)
    requires Rel(e, d) && Legal(d, BlockStart(i, b)) && b.ToolUse?
    ensures Rel(OnBlockStart(e, i, b), Add(d, BlockStart(i, b)))
  {
    hide ToolRel, IndexRel, Kept, Rank, TextOf, ThinkingOf, UsageRel, Named, Fold;
    var o := Open(b, "", false);
    IndexAppend(ToolBlocks, e.tools, d.at, d.blocks, i, o);
    KeptAppend(ToolBlocks, d.blocks, o);
    TextAppend(d.blocks, o);
    assert Fold(e.out).text + "" == Fold(e.out).text;
    assert Fold(e.out).reasoning + "" == Fold(e.out).reasoning;
    var t := Tool(if b.input.Some? then b.input.value else "{}", false, false);
    var c := ToolCall(b.id, b.name, "");
    OpenedRel(b);
    Emitted(e.(tools := e.tools[i := |e.order|], order := e.order + [t]), ToolOpen(|e.order|, b.id, b.name), None);
  }

  lemma TextDeltaKeeps(e: Encoder, d: Draft, i: int, delta: Delta)
    requires Rel(e, d) && Legal(d, BlockDelta(i, delta)) && !delta.InputJsonDelta?
    ensures OnBlockDelta(e, i, delta).1 == None && Rel(OnBlockDelta(e, i, delta).0, Add(d, BlockDelta(i, delta)))
  {
    var n := d.at[i];
    var o := Extend(d.blocks[n], delta);
    var r, d2 := OnBlockDelta(e, i, delta).0, Add(d, BlockDelta(i, delta));
    IndexUpdate(ToolBlocks, e.tools, d.at, d.blocks, n, o);
    if delta.OtherDelta? {
      assert d.blocks[n := o] == d.blocks;
    } else {
      var b := if delta.TextDelta? then Text(delta.text) else Thinking(delta.text);
      FoldText(e, d, b);
      SkippedUpdate(ToolBlocks, d.blocks, n, o);
      TextUpdate(d.blocks, n, o, Part(b));
      ThinkingUpdate(d.blocks, n, o, Thought(b));
    }
  }

  /** A tool block changed in place, with its encoder state and the client's view of it. */
  lemma ToolStep(e: Encoder, d: Draft, i: int, r: Encoder, o: Open)
    requires Rel(e, d) && i in d.at && d.blocks[d.at[i]].block.ToolUse? && o.block == d.blocks[d.at[i]].block
    requires var n := d.at[i];
             var k := Rank(ToolBlocks, d.blocks, n);
             && r == e.(order := r.order, out := r.out) && Named(r.out, r.id, r.model) && r.out != []
             && |r.order| == |e.order| == |Fold(e.out).tools|
             && Fold(r.out) == Fold(e.out).(tools := Fold(r.out).tools) && |Fold(r.out).tools| == |r.order|
             && (forall j :: 0 <= j < |r.order| && j != k ==>
                   r.order[j] == e.order[j] && Fold(r.out).tools[j] == Fold(e.out).tools[j])
             && (k < |r.order| ==> ToolRel(r.order[k], Fold(r.out).tools[k], o, d.stopReason != ""))
    ensures Rel(r, d.(blocks := d.blocks[d.at[i] := o]))
  {
    hide TextOf, ThinkingOf, Kept, Named, Fold, ToolRel, UsageRel;
    var n := d.at[i];
    assert n < |d.blocks|;
    hide IndexRel;
    var d2 := d.(blocks := d.blocks[n := o]);
    KeptUpdate(ToolBlocks, d.blocks, n, o);
    TextUpdate(d.blocks, n, o, "");
    ThinkingUpdate(d.blocks, n, o, "");
    IndexUpdate(ToolBlocks, e.tools, d.at, d.blocks, n, o);
  }

  lemma ArgumentsKeep(e: Encoder, d: Draft, i: int, t: string)
    requires Rel(e, d) && Legal(d, BlockDelta(i, InputJsonDelta(t)))
    ensures OnBlockDelta(e, i, InputJsonDelta(t)).1 == None
    ensures Rel(OnBlockDelta(e, i, InputJsonDelta(t)).0, Add(d, BlockDelta(i, InputJsonDelta(t))))
  {
    hide TextOf, ThinkingOf, Kept, UsageRel, Named, Fold;
    var n := d.at[i];
    var o := d.blocks[n];
    var o2 := o.(partial := o.partial + t);
    KeptAt(ToolBlocks, d.blocks, n);
    var k := e.tools[i];
    if t == "" {
      assert o.partial + "" == o.partial && d.blocks[n := o] == d.blocks;
    } else {
      var f := Fold(e.out);
      Emitted(e.(order := e.order[k := e.order[k].(hasArgs := true)]), ToolArgs(k, t), None);
      assert ToolRel(e.order[k], f.tools[k], o, false);
      assert "" + t == t;
      ToolStep(e, d, i, EmitArgs(e, k, t), o2);
    }
  }

  function FlushedCall(t: Tool, c: ToolCall): ToolCall {
    if t.hasArgs then c else c.(arguments := c.arguments + t.initial)
  }

  /** Flushing is what closing the block, or the stop reason, asks for. */
  lemma FlushedRel(t: Tool, c: ToolCall, o: Open, stopped: bool)
    requires ToolRel(t, c, o, stopped)
    ensures ToolRel(t.(hasArgs := true), FlushedCall(t, c), o, true)
    ensures ToolRel(t.(hasArgs := true, closed := true), FlushedCall(t, c), o.(closed := true), stopped)
  {
    assert "" + t.initial == t.initial;
  }

  lemma FlushedTool(e: Encoder, k: nat)
    requires k < |e.order| == |Fold(e.out).tools| && Named(e.out, e.id, e.model)
    ensures var r, f := FlushTool(e, k), Fold(e.out);
            var c := f.tools[k];
            && r == e.(order := r.order, out := r.out) && Named(r.out, r.id, r.model)
            && r.order == e.order[k := e.order[k].(hasArgs := true)]
            && Fold(r.out) == f.(tools := f.tools[k := FlushedCall(e.order[k], c)])
            && |r.out| >= |e.out|
  {
    var t := e.order[k];
    if t.hasArgs {
      assert e.order[k := t] == e.order;
      assert Fold(e.out).tools[k := Fold(e.out).tools[k]] == Fold(e.out).tools;
    } else {
      Emitted(e.(order := e.order[k := t.(hasArgs := true)]), ToolArgs(k, t.initial), None);
    }
  }

  lemma ToolStopKeeps(e: Encoder, d: Draft, i: int)
    requires Rel(e, d) && Legal(d, BlockStop(i)) && d.blocks[d.at[i]].block.ToolUse?
    ensures Rel(OnBlockStop(e, i), Add(d, BlockStop(i)))
  {
    hide TextOf, ThinkingOf, Kept, UsageRel, Named, Fold, ToolRel;
    var n := d.at[i];
    var o := d.blocks[n];
    KeptAt(ToolBlocks, d.blocks, n);
    var k := e.tools[i];
    FlushedTool(e, k);
    FlushedRel(e.order[k], Fold(e.out).tools[k], o, d.stopReason != "");
    FoldOfNothing(e.out);
    ToolStep(e, d, i, OnBlockStop(e, i), o.(closed := true));
  }

  lemma FoldOfNothing(out: seq<Chunk>)
    ensures Fold(out).tools != [] ==> out != []
  {}

  lemma OtherStopKeeps(e: Encoder, d: Draft, i: int)
    requires Rel(e, d) && Legal(d, BlockStop(i)) && !d.blocks[d.at[i]].block.ToolUse?
    ensures Rel(OnBlockStop(e, i), Add(d, BlockStop(i)))
  {
    hide TextOf, ThinkingOf, Kept, Named, Fold, ToolRel, UsageRel;
    var n := d.at[i];
    var o := d.blocks[n].(closed := true);
    assert i !in e.tools;
    hide IndexRel;
    IndexUpdate(ToolBlocks, e.tools, d.at, d.blocks, n, o);
    SkippedUpdate(ToolBlocks, d.blocks, n, o);
    TextUpdate(d.blocks, n, o, "");
    ThinkingUpdate(d.blocks, n, o, "");
  }

  lemma RelOpen(e: Encoder, d: Draft)
    requires Rel(e, d)
    ensures !e.finished && !d.ended
  {}

  lemma BlockStopKeeps(e: Encoder, d: Draft, i: int)
    requires Rel(e, d) && Legal(d, BlockStop(i))
    ensures Rel(OnBlockStop(e, i), Add(d, BlockStop(i)))
  {
    hide Rel, OnBlockStop;
    RelOpen(e, d);
    if d.blocks[d.at[i]].block.ToolUse? { ToolStopKeeps(e, d, i); } else { OtherStopKeeps(e, d, i); }
  }

  /** Flushing tools changes nothing but the arguments of the flushed ones. */
  lemma {:induction false} FlushedTools(e: Encoder, n: nat, os: seq<Open>, stopped: bool)
    requires n <= |e.order| && Named(e.out, e.id, e.model) && ToolsRel(e.order, Fold(e.out).tools, os, stopped)
    ensures var r := FlushTools(e, n);
            && r == e.(order := r.order, out := r.out) && Named(r.out, r.id, r.model) && |r.out| >= |e.out|
            && Fold(r.out) == Fold(e.out).(tools := Fold(r.out).tools)
            && |r.order| == |Fold(r.out).tools| == |os|
            && (forall k :: 0 <= k < |os| ==> ToolRel(r.order[k], Fold(r.out).tools[k], os[k], stopped || k < n))
  {
    hide ToolRel, Fold, Named, FlushTool;
    if n > 0 {
      FlushedTools(e, n - 1, os, stopped);
      var p := FlushTools(e, n - 1);
      FlushedTool(p, n - 1);
      FlushedRel(p.order[n - 1], Fold(p.out).tools[n - 1], os[n - 1], stopped);
    }
  }

  lemma MessageDeltaKeeps(e: Encoder, d: Draft, reason: string, usage: Option<Usage>)
    requires Rel(e, d) && Legal(d, MessageDelta(reason, usage))
    ensures Rel(OnMessageDelta(e, reason, usage), Add(d, MessageDelta(reason, usage)))
  {
    hide IndexRel, TextOf, ThinkingOf, Kept, Named, Fold, ToolRel, UsageRel;
    if usage.Some? { ReportMore(e.inputUsage, e.outputUsage, d.reports, usage.value); }
    assert d.reports + [] == d.reports;
    var r := if usage.Some? then e.(outputUsage := MergeRaw(e.outputUsage, usage.value)) else e;
    if reason != "" {
      FlushedTools(r, |r.order|, Kept(ToolBlocks, d.blocks), false);
      var s := FlushTools(r, |r.order|);
      Emitted(s, Nothing, Some(MapStopReason(reason)));
    }
  }

  /** What a completed stream leaves: the relation at its end. */
  ghost predicate FinalRel(e: Encoder, d: Draft) {
    var f := Fold(e.out);
    && e.finished && d.ended && d.id != "" && e.id == ChunkId(d.id) && e.model == d.model
    && TextRel(f, d) && d.stopReason != "" && ToolsRel(e.order, f.tools, Kept(ToolBlocks, d.blocks), true)
    && UsageRel(e.inputUsage, e.outputUsage, d.reports)
    && f.usage == (if e.includeUsage then Some(MapUsage(MergeRaw(e.inputUsage, e.outputUsage))) else None)
    && Named(e.out, e.id, e.model)
  }

  lemma MessageStopFinishes(e: Encoder, d: Draft)
    requires Rel(e, d) && Legal(d, MessageStop)
    ensures FinalRel(OnMessageStop(e), Add(d, MessageStop))
  {
    FlushedTools(e, |e.order|, Kept(ToolBlocks, d.blocks), true);
    var r := FlushTools(e, |e.order|);
    var u := UsageChunk(r.id, r.model, MapUsage(MergeRaw(r.inputUsage, r.outputUsage)));
    var s := if r.includeUsage then r.(out := r.out + [u]) else r;
    FoldAppend(r.out, u);
    NamedAppend(r.out, r.id, r.model, u);
    FoldAppend(s.out, Done);
    NamedAppend(s.out, s.id, s.model, Done);
  }

  lemma KeptOptions(e: Encoder, ev: Event)
    ensures Dispatch(e, ev).0.includeUsage == e.includeUsage
  {
    match ev
    case MessageDelta(_, usage) =>
      FlushedUsage(if usage.Some? then e.(outputUsage := MergeRaw(e.outputUsage, usage.value)) else e, |e.order|);
    case MessageStop => FlushedUsage(e, |e.order|);
    case _ =>
  }

  lemma StepKeeps(e: Encoder, d: Draft, ev: Event)
    requires Rel(e, d) && Legal(d, ev)
    ensures var (r, failure) := Dispatch(e, ev);
            var d2 := Add(d, ev);
            && failure == None && r.includeUsage == e.includeUsage
            && (if d2.ended then FinalRel(r, d2) else Rel(r, d2))
  {
    hide Rel, FinalRel, OnMessageStart, OnBlockStart, OnBlockStop, OnMessageDelta, OnMessageStop, OnBlockDelta;
    RelOpen(e, d);
    KeptOptions(e, ev);
    match ev
    case MessageStart(m) => MessageStartKeeps(e, d, m.value);
    case BlockStart(i, b) => BlockStartKeeps(e, d, i, b);
    case BlockDelta(i, delta) =>
      if delta.InputJsonDelta? { ArgumentsKeep(e, d, i, delta.text); } else { TextDeltaKeeps(e, d, i, delta); }
    case BlockStop(i) =>
      BlockStopKeeps(e, d, i);
    case MessageDelta(reason, usage) =>
      MessageDeltaKeeps(e, d, reason, usage);
    case MessageStop =>
      MessageStopFinishes(e, d);
    case _ =>
  }

  lemma {:induction false} FlushedUsage(e: Encoder, n: nat)
    requires n <= |e.order|
    ensures FlushTools(e, n).includeUsage == e.includeUsage
  {
    if n > 0 { FlushedUsage(e, n - 1); }
  }

  lemma FinalFinished(e: Encoder, d: Draft)
    requires FinalRel(e, d)
    ensures e.finished
  {}

  lemma {:induction false} FeedKeeps(e: Encoder, d: Draft, events: seq<Event>)
    requires if d.ended then FinalRel(e, d) else Rel(e, d)
    requires LegalFrom(d, events)
    ensures var (r, failure) := Feed(e, events);
            var d2 := AddAll(d, events);
            && failure == None && r.includeUsage == e.includeUsage
            && (if d2.ended then FinalRel(r, d2) else Rel(r, d2))
    decreases |events|
  {
    hide Rel, FinalRel, Legal;
    if events != [] {
      if d.ended {
        FinalFinished(e, d);
      } else {
        StepKeeps(e, d, events[0]);
      }
      FeedKeeps(Dispatch(e, events[0]).0, Add(d, events[0]), events[1..]);
    }
  }
}
