// What a completed Responses stream says, in terms of the message it stands for.
module ResponsesRefinement {
  import opened Common
  import opened TokenUsage
  import opened AnthropicMessages
  import opened Drafts
  import opened ResponsesSpec

  function KindOf(b: Block): Kind
    requires !b.OtherBlock?
  {
    if b.Text? then TextKind else if b.Thinking? then ThinkingKind else ToolKind
  }

  function Visible(os: seq<Open>): seq<Open> { Kept(VisibleBlocks, os) }

  predicate AllVisible(vs: seq<Open>) { forall k :: 0 <= k < |vs| ==> !vs[k].block.OtherBlock? }

  function CountOf(vs: seq<Open>, kind: Kind): nat
    requires AllVisible(vs)
  {
    if vs == [] then 0
    else CountOf(vs[..|vs| - 1], kind) + (if KindOf(vs[|vs| - 1].block) == kind then 1 else 0)
  }

  /** Message and reasoning items are numbered by their place among their own kind. */
  function IdOf(vs: seq<Open>, k: nat, response: string): ItemId
    requires AllVisible(vs) && k < |vs|
  {
    var b := vs[k].block;
    if b.ToolUse? then OfCall(b.id) else Numbered(KindOf(b), response, CountOf(vs[..k], KindOf(b)))
  }

  function NameOf(b: Block): string { if b.ToolUse? then b.name else "" }

  function StreamText(o: Open): string {
    if o.block.Text? || o.block.Thinking? then o.block.text else o.partial
  }

  function InitialOf(b: Block): Json {
    if b.ToolUse? then (if b.input.Some? then b.input.value else "{}") else ""
  }

  predicate EntryRel(entry: Entry, o: Open) {
    && !o.block.OtherBlock? && entry.item.kind == KindOf(o.block) && entry.item.name == NameOf(o.block)
    && entry.item.text == StreamText(o) && entry.item.status == InProgress && entry.closed == o.closed
    && entry.initialArgs == InitialOf(o.block) && entry.hasArgs == (o.block.ToolUse? && o.partial != "")
  }

  predicate EntriesRel(es: seq<Entry>, vs: seq<Open>, response: string) {
    && |es| == |vs| && AllVisible(vs)
    && (forall k :: 0 <= k < |vs| ==> EntryRel(es[k], vs[k]))
    && (forall k :: 0 <= k < |vs| ==> es[k].item.id == IdOf(vs, k, response))
  }

  predicate CountsRel(e: Encoder, vs: seq<Open>) {
    AllVisible(vs) && e.texts == CountOf(vs, TextKind) && e.thoughts == CountOf(vs, ThinkingKind)
  }

  predicate HeadRel(e: Encoder, d: Draft) {
    if d.started then d.id != "" && e.respId == d.id && e.model == d.model
    else d.blocks == [] && d.reports == [] && d.stopReason == "" && e.inputUsage == map[] && e.outputUsage == map[]
  }

  predicate Named(os: seq<Open>) {
    forall n :: 0 <= n < |os| && os[n].block.ToolUse? ==> os[n].block.id != "" && os[n].block.name != ""
  }

  ghost predicate Rel(e: Encoder, d: Draft) {
    && !e.finished && !d.ended && e.stopReason == d.stopReason && HeadRel(e, d) && Named(d.blocks)
    && UsageRel(e.inputUsage, e.outputUsage, d.reports)
    && EntriesRel(e.items, Visible(d.blocks), d.id) && CountsRel(e, Visible(d.blocks))
    && IndexRel(VisibleBlocks, e.blocks, d.at, d.blocks)
  }

  // ---- counting ------------------------------------------------------------------------------

  lemma {:induction false} CountSame(vs: seq<Open>, n: nat, o: Open, kind: Kind)
    requires AllVisible(vs) && n < |vs| && !o.block.OtherBlock? && KindOf(o.block) == KindOf(vs[n].block)
    ensures AllVisible(vs[n := o]) && CountOf(vs[n := o], kind) == CountOf(vs, kind)
  {
    var last := |vs| - 1;
    assert AllVisible(vs[n := o]);
    if n < last {
      CountSame(vs[..last], n, o, kind);
      assert vs[n := o][..last] == vs[..last][n := o];
    } else {
      assert vs[n := o][..last] == vs[..last];
    }
  }

  /** Item ids survive a change of a block's text. */
  lemma IdsSame(vs: seq<Open>, n: nat, o: Open, response: string)
    requires AllVisible(vs) && n < |vs| && !o.block.OtherBlock? && KindOf(o.block) == KindOf(vs[n].block)
    requires o.block.ToolUse? ==> o.block == vs[n].block
    ensures AllVisible(vs[n := o]) && forall k :: 0 <= k < |vs| ==> IdOf(vs[n := o], k, response) == IdOf(vs, k, response)
  {
    var ws := vs[n := o];
    forall k | 0 <= k < |vs| ensures IdOf(ws, k, response) == IdOf(vs, k, response) {
      if n < k {
        CountSame(vs[..k], n, o, KindOf(vs[k].block));
        assert ws[..k] == vs[..k][n := o];
      } else {
        assert ws[..k] == vs[..k];
      }
    }
  }

  lemma CountAppend(vs: seq<Open>, o: Open, kind: Kind)
    requires AllVisible(vs) && !o.block.OtherBlock?
    ensures AllVisible(vs + [o])
    ensures CountOf(vs + [o], kind) == CountOf(vs, kind) + (if KindOf(o.block) == kind then 1 else 0)
  {
    assert (vs + [o])[..|vs|] == vs;
  }

  lemma EntriesAppend(es: seq<Entry>, vs: seq<Open>, response: string, entry: Entry, o: Open)
    requires EntriesRel(es, vs, response) && EntryRel(entry, o)
    requires entry.item.id == (if o.block.ToolUse? then OfCall(o.block.id)
                               else Numbered(KindOf(o.block), response, CountOf(vs, KindOf(o.block))))
    ensures EntriesRel(es + [entry], vs + [o], response)
  {
    var ws := vs + [o];
    assert !o.block.OtherBlock?;
    hide EntryRel;
    assert AllVisible(ws);
    forall k | 0 <= k < |ws| ensures (es + [entry])[k].item.id == IdOf(ws, k, response) {
      assert ws[..k] == vs[..k];
      assert vs[..|vs|] == vs;
    }
  }

  lemma EntriesUpdate(es: seq<Entry>, vs: seq<Open>, response: string, n: nat, entry: Entry, o: Open)
    requires EntriesRel(es, vs, response) && n < |vs| && EntryRel(entry, o) && entry.item.id == es[n].item.id
    requires !o.block.OtherBlock? && KindOf(o.block) == KindOf(vs[n].block)
    requires o.block.ToolUse? ==> o.block == vs[n].block
    ensures EntriesRel(es[n := entry], vs[n := o], response)
  {
    hide EntryRel, CountOf, IdOf;
    IdsSame(vs, n, o, response);
  }

  // ---- one lemma per event -------------------------------------------------------------------

  /** What AddItem and AppendDelta do to everything but `out`. */
  lemma Opened(e: Encoder, d: Draft, i: int, b: Block, r: Encoder)
    requires Rel(e, d) && i !in d.at && !b.OtherBlock?
    requires b.ToolUse? ==> b.id != "" && b.name != ""
    requires var k := |e.items|;
             var id := if b.ToolUse? then OfCall(b.id)
                       else Numbered(KindOf(b), e.respId, if b.Text? then e.texts else e.thoughts);
             && r == e.(blocks := e.blocks[i := k], items := r.items, texts := r.texts, thoughts := r.thoughts,
                        out := r.out, sequence := r.sequence)
             && r.items == e.items + [Entry(Item(KindOf(b), id, NameOf(b), StreamText(Open(b, "", false)), InProgress),
                                            InitialOf(b), false, false)]
             && r.texts == (if b.Text? then e.texts + 1 else e.texts)
             && r.thoughts == (if b.Thinking? then e.thoughts + 1 else e.thoughts)
    requires d.started
    ensures Rel(r, Add(d, BlockStart(i, b)))
  {
    hide Kept, UsageRel, IndexRel;
    var o := Open(b, "", false);
    var vs := Visible(d.blocks);
    KeptAppend(VisibleBlocks, d.blocks, o);
    IndexAppend(VisibleBlocks, e.blocks, d.at, d.blocks, i, o);
    CountAppend(vs, o, TextKind);
    CountAppend(vs, o, ThinkingKind);
    assert Named(d.blocks + [o]);
    EntriesAppend(e.items, vs, d.id, r.items[|e.items|], o);
    hide EntriesRel, CountOf, AllVisible, Named, IdOf;
  }

  lemma AppendedText(e: Encoder, k: nat, text: string)
    requires k < |e.items|
    ensures var r := AppendDelta(e, k, text);
            var b := e.items[k];
            && r == e.(items := r.items, out := r.out, sequence := r.sequence)
            && r.items == e.items[k := b.(item := b.item.(text := b.item.text + text),
                                          hasArgs := b.hasArgs || (b.item.kind == ToolKind && text != ""))]
  {
    if text == "" {
      assert e.items[k].item.text + "" == e.items[k].item.text;
      assert e.items[k := e.items[k]] == e.items;
    }
  }

  lemma BlockStartKeeps(e: Encoder, d: Draft, i: int, b: Block)
    requires Rel(e, d) && Fits(d, BlockStart(i, b)) && (b.ToolUse? ==> b.id != "" && b.name != "")
    ensures OnBlockStart(e, i, b).1.None? && Rel(OnBlockStart(e, i, b).0, Add(d, BlockStart(i, b)))
  {
    if b.OtherBlock? {
      OtherStartKeeps(e, d, i, b);
    } else {
      RelStarted(e, d);
      if !b.ToolUse? {
        AppendedText(OpenText(e, i, KindOf(b)), |e.items|, b.text);
        assert "" + b.text == b.text;
      }
      Opened(e, d, i, b, OnBlockStart(e, i, b).0);
    }
  }

  lemma RelStarted(e: Encoder, d: Draft)
    requires Rel(e, d)
    ensures !d.ended && !e.finished && e.stopReason == d.stopReason
  {}

  lemma OtherStartKeeps(e: Encoder, d: Draft, i: int, b: Block)
    requires Rel(e, d) && Fits(d, BlockStart(i, b)) && b.OtherBlock?
    ensures Rel(e, Add(d, BlockStart(i, b)))
  {
    hide Kept, UsageRel, IndexRel, EntriesRel;
    var o := Open(b, "", false);
    KeptAppend(VisibleBlocks, d.blocks, o);
    assert Kept(VisibleBlocks, d.blocks) + [] == Kept(VisibleBlocks, d.blocks);
    IndexAppend(VisibleBlocks, e.blocks, d.at, d.blocks, i, o);
  }

  /** One visible block grows, and its entry with it. */
  lemma Grown(e: Encoder, d: Draft, i: int, o: Open, entry: Entry, r: Encoder)
    requires Rel(e, d) && i in d.at && d.at[i] < |d.blocks|
    requires var old0 := d.blocks[d.at[i]];
             && !old0.block.OtherBlock? && !o.block.OtherBlock? && KindOf(o.block) == KindOf(old0.block)
             && (o.block.ToolUse? ==> o.block == old0.block)
    requires Known(e, i) && EntryRel(entry, o) && entry.item.id == e.items[e.blocks[i]].item.id
    requires r == e.(items := e.items[e.blocks[i] := entry], out := r.out, sequence := r.sequence)
    ensures Rel(r, d.(blocks := d.blocks[d.at[i] := o]))
  {
    hide Kept, UsageRel, EntryRel, IdOf;
    var n := d.at[i];
    KeptAt(VisibleBlocks, d.blocks, n);
    KeptUpdate(VisibleBlocks, d.blocks, n, o);
    IndexUpdate(VisibleBlocks, e.blocks, d.at, d.blocks, n, o);
    var vs, k := Visible(d.blocks), e.blocks[i];
    assert k == Rank(VisibleBlocks, d.blocks, n);
    EntriesUpdate(e.items, vs, d.id, k, entry, o);
    CountSame(vs, k, o, TextKind);
    CountSame(vs, k, o, ThinkingKind);
    hide IndexRel, EntriesRel, CountOf, AllVisible;
  }

  lemma KnownBlock(e: Encoder, d: Draft, i: int)
    requires Rel(e, d) && i in d.at && d.at[i] < |d.blocks| && !d.blocks[d.at[i]].block.OtherBlock?
    ensures Known(e, i) && EntryRel(e.items[e.blocks[i]], d.blocks[d.at[i]])
  {
    KeptAt(VisibleBlocks, d.blocks, d.at[i]);
  }

  lemma BlockDeltaKeeps(e: Encoder, d: Draft, i: int, delta: Delta)
    requires Rel(e, d) && Fits(d, BlockDelta(i, delta))
    ensures OnBlockDelta(e, i, delta).1.None? && Rel(OnBlockDelta(e, i, delta).0, Add(d, BlockDelta(i, delta)))
  {
    RelStarted(e, d);
    var n := d.at[i];
    var o := Extend(d.blocks[n], delta);
    hide Rel, Known;
    if delta.OtherDelta? {
      assert d.blocks[n := o] == d.blocks;
    } else if delta.text == "" {
      assert StreamText(d.blocks[n]) + "" == StreamText(d.blocks[n]);
      assert o == d.blocks[n] && d.blocks[n := o] == d.blocks;
    } else {
      KnownBlock(e, d, i);
      assert Known(e, i);
      var r := OnBlockDelta(e, i, delta).0;
      GrowsBy(e, d, i, delta);
    }
  }

  lemma GrowsBy(e: Encoder, d: Draft, i: int, delta: Delta)
    requires Rel(e, d) && Fits(d, BlockDelta(i, delta)) && !delta.OtherDelta? && delta.text != ""
    requires Known(e, i) && EntryRel(e.items[e.blocks[i]], d.blocks[d.at[i]])
    ensures OnBlockDelta(e, i, delta).1.None? && Rel(OnBlockDelta(e, i, delta).0, Add(d, BlockDelta(i, delta)))
  {
    RelStarted(e, d);
    var o := Extend(d.blocks[d.at[i]], delta);
    hide Rel;
    var k := e.blocks[i];
    AppendedText(e, k, delta.text);
    var r := AppendDelta(e, k, delta.text);
    Grown(e, d, i, o, r.items[k], r);
  }

  lemma BlockStopKeeps(e: Encoder, d: Draft, i: int)
    requires Rel(e, d) && Fits(d, BlockStop(i))
    ensures Rel(OnBlockStop(e, i), Add(d, BlockStop(i)))
  {
    RelStarted(e, d);
    var n := d.at[i];
    var o := d.blocks[n].(closed := true);
    if d.blocks[n].block.OtherBlock? {
      OtherStopKeeps(e, d, i);
    } else {
      KnownBlock(e, d, i);
      hide Rel;
      var k := e.blocks[i];
      Grown(e, d, i, o, e.items[k].(closed := true), OnBlockStop(e, i));
    }
  }

  lemma OtherStopKeeps(e: Encoder, d: Draft, i: int)
    requires Rel(e, d) && Fits(d, BlockStop(i)) && d.blocks[d.at[i]].block.OtherBlock?
    ensures Rel(OnBlockStop(e, i), Add(d, BlockStop(i)))
  {
    assert i !in e.blocks;
    hide Kept, UsageRel, IndexRel, EntriesRel;
    var n := d.at[i];
    var o := d.blocks[n].(closed := true);
    SkippedUpdate(VisibleBlocks, d.blocks, n, o);
    IndexUpdate(VisibleBlocks, e.blocks, d.at, d.blocks, n, o);
  }

  lemma MessageStartKeeps(e: Encoder, d: Draft, m: Start)
    requires Rel(e, d) && Fits(d, MessageStart(Some(m)))
    ensures Rel(OnMessageStart(e, Some(m)), Add(d, MessageStart(Some(m))))
  {
    hide IndexRel, Largest;
    if m.usage.Some? { FirstReport(m.usage.value); }
    assert d.reports + Reports(m.usage) == Reports(m.usage);
  }

  lemma MessageDeltaKeeps(e: Encoder, d: Draft, reason: string, usage: Option<Usage>)
    requires Rel(e, d) && Fits(d, MessageDelta(reason, usage))
    ensures Rel(Dispatch(e, MessageDelta(reason, usage)).0, Add(d, MessageDelta(reason, usage)))
  {
    hide Kept, UsageRel, IndexRel, EntriesRel;
    if usage.Some? { ReportMore(e.inputUsage, e.outputUsage, d.reports, usage.value); }
    assert d.reports + [] == d.reports;
  }

  // ---- the ending ----------------------------------------------------------------------------

  /** The whole text of an item: a call without argument deltas has the input of its start. */
  function WholeText(o: Open): string {
    if o.block.ToolUse? && o.partial == "" then InitialOf(o.block) else StreamText(o)
  }

  function StatusAt(n: nat, k: nat, stopReason: string): Status {
    if Completion(stopReason) == Incomplete && k + 1 == n then Incomplete else IsCompleted
  }

  function RenderedItem(vs: seq<Open>, k: nat, response: string, stopReason: string): Item
    requires AllVisible(vs) && k < |vs|
  {
    Item(KindOf(vs[k].block), IdOf(vs, k, response), NameOf(vs[k].block), WholeText(vs[k]), StatusAt(|vs|, k, stopReason))
  }

  function Rendered(vs: seq<Open>, response: string, stopReason: string): (items: seq<Item>)
    requires AllVisible(vs)
    ensures |items| == |vs|
  {
    seq(|vs|, k requires 0 <= k < |vs| => RenderedItem(vs, k, response, stopReason))
  }

  function FinishedEntry(entry: Entry, status: Status): Item {
    var text := if entry.item.kind == ToolKind && !entry.hasArgs then entry.item.text + entry.initialArgs else entry.item.text;
    entry.item.(text := text, status := status)
  }

  lemma FinishedBlock(e: Encoder, k: nat, status: Status)
    requires k < |e.items|
    ensures var r := FinishBlock(e, k, status);
            && r == e.(items := r.items, out := r.out, sequence := r.sequence)
            && r.items[k].item == FinishedEntry(e.items[k], status)
            && forall j :: 0 <= j < |e.items| && j != k ==> r.items[j] == e.items[j]
  {
    var p := SetStatus(e, k, status);
    AppendedText(p, k, e.items[k].initialArgs);
  }

  lemma {:induction false} FinishedBlocks(e: Encoder, n: nat)
    requires n <= |e.items|
    ensures var r := FinishBlocks(e, n);
            && r == e.(items := r.items, out := r.out, sequence := r.sequence)
            && (forall j :: 0 <= j < n ==> r.items[j].item == FinishedEntry(e.items[j], ItemStatus(e, j)))
            && (forall j :: n <= j < |e.items| ==> r.items[j] == e.items[j])
  {
    hide FinishBlock;
    if n > 0 {
      FinishedBlocks(e, n - 1);
      FinishedBlock(FinishBlocks(e, n - 1), n - 1, ItemStatus(FinishBlocks(e, n - 1), n - 1));
    }
  }

  /** The envelope of a message's draft. */
  ghost predicate Says(env: Envelope, d: Draft) {
    && env.id == "resp_" + d.id && env.model == d.model && env.status == Completion(d.stopReason)
    && AllVisible(Visible(d.blocks)) && env.output == Rendered(Visible(d.blocks), d.id, d.stopReason)
    && exists u :: Largest(u, d.reports) && AllNumeric(d.reports) && env.usage == Some(ResponsesUsage(u))
  }

  ghost predicate FinalRel(e: Encoder, d: Draft) {
    && e.finished && d.ended && d.id != "" && e.out != [] && e.out[|e.out| - 1].body.Finished?
    && Says(e.out[|e.out| - 1].body.env, d) && Named(d.blocks)
  }

  lemma EntryFinished(es: seq<Entry>, vs: seq<Open>, response: string, k: nat, stopReason: string)
    requires EntriesRel(es, vs, response) && k < |vs|
    ensures FinishedEntry(es[k], StatusAt(|vs|, k, stopReason)) == RenderedItem(vs, k, response, stopReason)
  {
    hide IdOf;
    assert EntryRel(es[k], vs[k]);
    assert "" + es[k].initialArgs == es[k].initialArgs;
  }

  lemma MessageStopSays(e: Encoder, d: Draft)
    requires Rel(e, d) && Fits(d, MessageStop)
    ensures FinalRel(OnMessageStop(e), Add(d, MessageStop))
  {
    hide Kept, IndexRel, CountsRel, IdOf, Largest, Numeric, MergeRaw, ResponsesUsage, FinishBlocks;
    var vs := Visible(d.blocks);
    FinishedBlocks(e, |e.items|);
    var r := FinishBlocks(e, |e.items|);
    forall k | 0 <= k < |vs| ensures r.items[k].item == RenderedItem(vs, k, d.id, d.stopReason) {
      EntryFinished(e.items, vs, d.id, k, d.stopReason);
    }
    assert AllVisible(vs) && Items(r.items) == Rendered(vs, d.id, d.stopReason);
    hide EntriesRel, AllVisible, Rendered, Items;
    var u := MergeRaw(r.inputUsage, r.outputUsage);
    assert Largest(u, d.reports) && AllNumeric(d.reports);
    var env := OnMessageStop(e).out[|OnMessageStop(e).out| - 1].body.env;
    assert env.usage == Some(ResponsesUsage(u));
  }

  lemma DispatchKeeps(e: Encoder, d: Draft, ev: Event)
    requires Rel(e, d) && Fits(d, ev)
    requires ev.BlockStart? && ev.block.ToolUse? ==> ev.block.id != "" && ev.block.name != ""
    ensures var (r, failure) := Dispatch(e, ev);
            failure.None? && (if Add(d, ev).ended then FinalRel(r, Add(d, ev)) else Rel(r, Add(d, ev)))
  {
    RelStarted(e, d);
    hide Rel, FinalRel, OnMessageStart, OnBlockStart, OnBlockDelta, OnBlockStop, OnMessageStop;
    match ev
    case MessageStart(m) => MessageStartKeeps(e, d, m.value);
    case BlockStart(i, b) => BlockStartKeeps(e, d, i, b);
    case BlockDelta(i, delta) => BlockDeltaKeeps(e, d, i, delta);
    case BlockStop(i) => BlockStopKeeps(e, d, i);
    case MessageDelta(reason, usage) => MessageDeltaKeeps(e, d, reason, usage);
    case MessageStop => MessageStopSays(e, d);
    case _ =>
  }

  /** A block keeps its kind, and a tool block its id and name. */
  lemma {:induction false} BlockStays(d: Draft, events: seq<Event>, n: nat)
    requires n < |d.blocks| && d.blocks[n].block.ToolUse?
    ensures var r := AddAll(d, events); n < |r.blocks| && r.blocks[n].block == d.blocks[n].block
    decreases |events|
  {
    if events != [] { BlockStays(Add(d, events[0]), events[1..], n); }
  }

  lemma {:induction false} FeedKeeps(e: Encoder, d: Draft, events: seq<Event>)
    requires if d.ended then FinalRel(e, d) else Rel(e, d)
    requires FitsFrom(d, events)
    ensures var (r, failure) := Feed(e, events);
            var d2 := AddAll(d, events);
            && (failure.None? <==> Named(d2.blocks)) && (failure.Some? ==> failure == Some(UnnamedTool))
            && (failure.None? ==> if d2.ended then FinalRel(r, d2) else Rel(r, d2))
    decreases |events|
  {
    hide FinalRel, Rel, Fits;
    NamedSoFar(e, d);
    if events != [] {
      var ev := events[0];
      var bad := !d.ended && ev.BlockStart? && ev.block.ToolUse? && (ev.block.id == "" || ev.block.name == "");
      if bad {
        BlockStays(Add(d, ev), events[1..], |d.blocks|);
      } else {
        if !d.ended { DispatchKeeps(e, d, ev); }
        FeedKeeps(Dispatch(e, ev).0, Add(d, ev), events[1..]);
      }
    }
  }

  lemma NamedSoFar(e: Encoder, d: Draft)
    requires if d.ended then FinalRel(e, d) else Rel(e, d)
    ensures Named(d.blocks) && e.finished == d.ended
  {}

  lemma FreshRel()
    ensures Rel(FRESH, EMPTY_DRAFT)
  {
    assert MergeRaw(map[], map[]) == map[];
  }

  /** A complete stream ends in the response of its message exactly when the upstream named every tool
      block; otherwise it fails on the unnamed tool, in every failure mode. */
  lemma StreamSaysTheMessage(events: seq<Event>, mode: Mode)
    requires FitsFrom(EMPTY_DRAFT, events) && AddAll(EMPTY_DRAFT, events).ended
    ensures var (e, failure) := Reencode(events, mode);
            var d := AddAll(EMPTY_DRAFT, events);
            && (failure.None? <==> Named(d.blocks)) && (failure.Some? ==> failure == Some(UnnamedTool))
            && (failure.None? ==> e.out != [] && e.out[|e.out| - 1].body.Finished? && Says(e.out[|e.out| - 1].body.env, d))
  {
    FreshRel();
    hide Rel, FitsFrom, Says;
    FeedKeeps(FRESH, EMPTY_DRAFT, events);
    var (e, failure) := Feed(FRESH, events);
    if failure.None? { NamedSoFar(e, AddAll(EMPTY_DRAFT, events)); }
  }

  // ---- what the output depends on ------------------------------------------------------------

  /** The blocks an upstream opens before it ends, in order. */
  function Starts(events: seq<Event>): seq<(int, Block)>
    decreases |events|
  {
    if events == [] || events[0].MessageStop? then []
    else (if events[0].BlockStart? then [(events[0].index, events[0].block)] else []) + Starts(events[1..])
  }

  /** All the text the upstream sends for block `i` before it ends. */
  function TextFor(events: seq<Event>, i: int): string
    decreases |events|
  {
    if events == [] || events[0].MessageStop? then ""
    else
      var ev := events[0];
      (if ev.BlockDelta? && ev.index == i && !ev.delta.OtherDelta? then ev.delta.text else "") + TextFor(events[1..], i)
  }

  /** A block and its argument text after `text` more. */
  function Grow(o: Open, text: string): (Block, string) {
    match o.block
    case Text(t) => (Text(t + text), o.partial)
    case Thinking(t) => (Thinking(t + text), o.partial)
    case ToolUse(_, _, _) => (o.block, o.partial + text)
    case OtherBlock => (o.block, o.partial)
  }

  predicate AtInside(d: Draft) {
    forall i :: i in d.at ==> d.at[i] < |d.blocks|
  }

  predicate AtApart(d: Draft) {
    forall i, j :: i in d.at && j in d.at && i != j ==> d.at[i] != d.at[j]
  }

  lemma GrowTwice(o: Open, delta: Delta, rest: string)
    requires !delta.OtherDelta?
    requires (delta.TextDelta? ==> o.block.Text?) && (delta.ThinkingDelta? ==> o.block.Thinking?)
    requires delta.InputJsonDelta? ==> o.block.ToolUse?
    ensures Grow(Extend(o, delta), rest) == Grow(o, delta.text + rest)
  {
    if o.block.ToolUse? {
      assert (o.partial + delta.text) + rest == o.partial + (delta.text + rest);
    } else {
      assert (o.block.text + delta.text) + rest == o.block.text + (delta.text + rest);
    }
  }

  lemma GrowNothing(o: Open)
    ensures Grow(o, "") == (o.block, o.partial)
  {
    assert o.partial + "" == o.partial;
    if o.block.Text? || o.block.Thinking? { assert o.block.text + "" == o.block.text; }
  }

  lemma GrowByOneEvent(d: Draft, ev: Event, rest: seq<Event>, i: int)
    requires Fits(d, ev) && !d.ended && !ev.MessageStop? && AtInside(d) && AtApart(d) && i in d.at
    ensures var d2 := Add(d, ev);
            && i in d2.at && d2.at[i] == d.at[i] < |d2.blocks|
            && Grow(d2.blocks[d.at[i]], TextFor(rest, i)) == Grow(d.blocks[d.at[i]], TextFor([ev] + rest, i))
  {
    assert ([ev] + rest)[1..] == rest;
    var o := d.blocks[d.at[i]];
    var t := TextFor(rest, i);
    assert "" + t == t;
    if ev.BlockDelta? && ev.index == i && !ev.delta.OtherDelta? { GrowTwice(o, ev.delta, t); }
  }

  /** Blocks open before `events` grow by their text in `events`. */
  predicate OldGrow(d: Draft, r: Draft, events: seq<Event>) {
    forall i :: i in d.at ==>
      && d.at[i] < |r.blocks| && d.at[i] < |d.blocks|
      && (r.blocks[d.at[i]].block, r.blocks[d.at[i]].partial) == Grow(d.blocks[d.at[i]], TextFor(events, i))
  }

  /** Blocks opened in `events` follow in order, each with its own text. */
  predicate NewGrow(n: nat, r: Draft, events: seq<Event>) {
    && |r.blocks| == n + |Starts(events)|
    && forall k :: n <= k < |r.blocks| ==>
         var s := Starts(events)[k - n];
         (r.blocks[k].block, r.blocks[k].partial) == Grow(Open(s.1, "", false), TextFor(events, s.0))
  }

  lemma UnchangedGrow(d: Draft)
    requires AtInside(d)
    ensures OldGrow(d, d, []) && NewGrow(|d.blocks|, d, [])
  {
    forall i | i in d.at ensures Grow(d.blocks[d.at[i]], "") == (d.blocks[d.at[i]].block, d.blocks[d.at[i]].partial) {
      GrowNothing(d.blocks[d.at[i]]);
    }
  }

  lemma OldGrowStep(d: Draft, ev: Event, rest: seq<Event>, r: Draft)
    requires Fits(d, ev) && !d.ended && !ev.MessageStop? && AtInside(d) && AtApart(d)
    requires OldGrow(Add(d, ev), r, rest)
    ensures OldGrow(d, r, [ev] + rest)
  {
    var d2 := Add(d, ev);
    forall i | i in d.at
      ensures d.at[i] < |r.blocks| && d.at[i] < |d.blocks|
      ensures (r.blocks[d.at[i]].block, r.blocks[d.at[i]].partial) == Grow(d.blocks[d.at[i]], TextFor([ev] + rest, i))
    {
      GrowByOneEvent(d, ev, rest, i);
      hide Grow, Add, TextFor;
      assert i in d2.at;
    }
  }

  lemma NewGrowStep(d: Draft, ev: Event, rest: seq<Event>, r: Draft)
    requires Fits(d, ev) && FitsFrom(Add(d, ev), rest) && !d.ended && !ev.MessageStop? && AtInside(d) && AtApart(d)
    requires OldGrow(Add(d, ev), r, rest) && NewGrow(|Add(d, ev).blocks|, r, rest)
    ensures NewGrow(|d.blocks|, r, [ev] + rest)
  {
    StartsGrow(d, ev, rest);
    var n := |d.blocks|;
    if ev.BlockStart? {
      assert ev.index in Add(d, ev).at && Add(d, ev).at[ev.index] == n && Add(d, ev).blocks[n] == Open(ev.block, "", false);
      NewGrowPrepend(n, r, (ev.index, ev.block), [ev] + rest, rest);
    } else {
      assert |Add(d, ev).blocks| == n;
      NewGrowSame(n, r, [ev] + rest, rest);
    }
  }

  predicate SameTexts(all: seq<Event>, rest: seq<Event>) {
    forall k :: 0 <= k < |Starts(rest)| ==> TextFor(all, Starts(rest)[k].0) == TextFor(rest, Starts(rest)[k].0)
  }

  lemma NewGrowSame(n: nat, r: Draft, all: seq<Event>, rest: seq<Event>)
    requires NewGrow(n, r, rest) && Starts(all) == Starts(rest) && SameTexts(all, rest)
    ensures NewGrow(n, r, all)
  {
    hide Grow, TextFor, Starts;
  }

  lemma NewGrowPrepend(n: nat, r: Draft, first: (int, Block), all: seq<Event>, rest: seq<Event>)
    requires NewGrow(n + 1, r, rest) && Starts(all) == [first] + Starts(rest) && SameTexts(all, rest)
    requires n < |r.blocks|
    requires (r.blocks[n].block, r.blocks[n].partial) == Grow(Open(first.1, "", false), TextFor(all, first.0))
    ensures NewGrow(n, r, all)
  {
    hide Grow, TextFor, Starts;
    forall k | n < k < |r.blocks|
      ensures var s := Starts(all)[k - n];
              (r.blocks[k].block, r.blocks[k].partial) == Grow(Open(s.1, "", false), TextFor(all, s.0))
    {
      assert Starts(all)[k - n] == Starts(rest)[k - (n + 1)];
    }
  }

  /** The draft's blocks are the starts in order, each grown by its own text, however these interleave. */
  lemma {:induction false} DraftGrows(d: Draft, events: seq<Event>)
    requires FitsFrom(d, events) && AtInside(d) && AtApart(d) && !d.ended
    ensures OldGrow(d, AddAll(d, events), events) && NewGrow(|d.blocks|, AddAll(d, events), events)
    decreases |events|
  {
    if events == [] {
      UnchangedGrow(d);
    } else {
      var ev, rest := events[0], events[1..];
      var d2 := Add(d, ev);
      assert events == [ev] + rest;
      if ev.MessageStop? {
        EndedStays(d2, rest);
        EndedGrow(d, rest);
      } else {
        AtStays(d, ev);
        DraftGrows(d2, rest);
        hide OldGrow, NewGrow, Fits, Add, AtInside, AtApart;
        OldGrowStep(d, ev, rest, AddAll(d2, rest));
        NewGrowStep(d, ev, rest, AddAll(d2, rest));
      }
    }
  }

  lemma AtStays(d: Draft, ev: Event)
    requires AtInside(d) && AtApart(d) && !d.ended && !ev.MessageStop?
    ensures AtInside(Add(d, ev)) && AtApart(Add(d, ev)) && !Add(d, ev).ended
  {}

  lemma EndedGrow(d: Draft, rest: seq<Event>)
    requires AtInside(d)
    ensures OldGrow(d, d.(ended := true), [MessageStop] + rest)
    ensures NewGrow(|d.blocks|, d.(ended := true), [MessageStop] + rest)
  {
    forall i | i in d.at ensures Grow(d.blocks[d.at[i]], "") == (d.blocks[d.at[i]].block, d.blocks[d.at[i]].partial) {
      GrowNothing(d.blocks[d.at[i]]);
    }
  }

  lemma {:induction false} EndedStays(d: Draft, events: seq<Event>)
    requires d.ended
    ensures AddAll(d, events) == d
    decreases |events|
  {
    if events != [] { EndedStays(d, events[1..]); }
  }

  /** Blocks still to be opened have no text before their start. */
  lemma StartsGrow(d: Draft, ev: Event, rest: seq<Event>)
    requires Fits(d, ev) && FitsFrom(Add(d, ev), rest) && !d.ended && !ev.MessageStop?
    ensures Starts([ev] + rest) == (if ev.BlockStart? then [(ev.index, ev.block)] else []) + Starts(rest)
    ensures SameTexts([ev] + rest, rest)
    ensures ev.BlockStart? ==> TextFor([ev] + rest, ev.index) == TextFor(rest, ev.index)
  {
    assert ([ev] + rest)[1..] == rest;
    forall k | 0 <= k < |Starts(rest)|
      ensures TextFor([ev] + rest, Starts(rest)[k].0) == TextFor(rest, Starts(rest)[k].0)
    {
      NewIndex(Add(d, ev), rest, k);
      assert "" + TextFor(rest, Starts(rest)[k].0) == TextFor(rest, Starts(rest)[k].0);
    }
    if ev.BlockStart? { assert "" + TextFor(rest, ev.index) == TextFor(rest, ev.index); }
  }

  lemma {:induction false} NewIndex(d: Draft, events: seq<Event>, k: nat)
    requires FitsFrom(d, events) && !d.ended && k < |Starts(events)|
    ensures Starts(events)[k].0 !in d.at
    decreases |events|
  {
    var ev := events[0];
    if ev.BlockStart? {
      if k > 0 { NewIndex(Add(d, ev), events[1..], k - 1); }
    } else {
      NewIndex(Add(d, ev), events[1..], k);
    }
  }

  predicate SameContent(a: Open, b: Open) { a.block == b.block && a.partial == b.partial }

  lemma {:induction false} SameVisible(a: seq<Open>, b: seq<Open>)
    requires |a| == |b| && forall n :: 0 <= n < |a| ==> SameContent(a[n], b[n])
    ensures |Visible(a)| == |Visible(b)| && forall k :: 0 <= k < |Visible(a)| ==> SameContent(Visible(a)[k], Visible(b)[k])
  {
    if a != [] { SameVisible(a[..|a| - 1], b[..|b| - 1]); }
  }

  lemma {:induction false} SameCount(a: seq<Open>, b: seq<Open>, kind: Kind)
    requires AllVisible(a) && AllVisible(b) && |a| == |b| && forall n :: 0 <= n < |a| ==> SameContent(a[n], b[n])
    ensures CountOf(a, kind) == CountOf(b, kind)
  {
    if a != [] { SameCount(a[..|a| - 1], b[..|b| - 1], kind); }
  }

  lemma SameRendered(a: seq<Open>, b: seq<Open>, response: string, stopReason: string)
    requires AllVisible(a) && AllVisible(b) && |a| == |b| && forall n :: 0 <= n < |a| ==> SameContent(a[n], b[n])
    ensures Rendered(a, response, stopReason) == Rendered(b, response, stopReason)
  {
    forall k | 0 <= k < |a| ensures RenderedItem(a, k, response, stopReason) == RenderedItem(b, k, response, stopReason) {
      assert SameContent(a[k], b[k]);
      if !a[k].block.ToolUse? { SameCount(a[..k], b[..k], KindOf(a[k].block)); }
    }
  }

  /** The final output depends only on the order of the block starts and on each block's own text: two
      streams that agree on these, however their deltas interleave, end in the same output. */
  lemma InterleavingIsInvisible(events: seq<Event>, others: seq<Event>, mode: Mode)
    requires FitsFrom(EMPTY_DRAFT, events) && AddAll(EMPTY_DRAFT, events).ended
    requires FitsFrom(EMPTY_DRAFT, others) && AddAll(EMPTY_DRAFT, others).ended
    requires Starts(events) == Starts(others) && forall i :: TextFor(events, i) == TextFor(others, i)
    requires var c, d := AddAll(EMPTY_DRAFT, events), AddAll(EMPTY_DRAFT, others);
             c.id == d.id && c.stopReason == d.stopReason
    requires Reencode(events, mode).1.None?
    ensures Reencode(others, mode).1.None?
    ensures var c, d := Reencode(events, mode).0.out, Reencode(others, mode).0.out;
            && c != [] && d != [] && c[|c| - 1].body.Finished? && d[|d| - 1].body.Finished?
            && c[|c| - 1].body.env.output == d[|d| - 1].body.env.output
  {
    var c, d := AddAll(EMPTY_DRAFT, events), AddAll(EMPTY_DRAFT, others);
    StreamSaysTheMessage(events, mode);
    StreamSaysTheMessage(others, mode);
    SameDrafts(events, others);
    hide FitsFrom, Reencode, AddAll, TextFor, Starts, Largest;
    assert Named(d.blocks) by { assert forall n :: 0 <= n < |c.blocks| ==> SameContent(c.blocks[n], d.blocks[n]); }
    SameVisible(c.blocks, d.blocks);
    hide SameContent;
    SameRendered(Visible(c.blocks), Visible(d.blocks), c.id, c.stopReason);
  }

  lemma SameDrafts(events: seq<Event>, others: seq<Event>)
    requires FitsFrom(EMPTY_DRAFT, events) && FitsFrom(EMPTY_DRAFT, others)
    requires Starts(events) == Starts(others) && forall i :: TextFor(events, i) == TextFor(others, i)
    ensures var c, d := AddAll(EMPTY_DRAFT, events), AddAll(EMPTY_DRAFT, others);
            |c.blocks| == |d.blocks| && forall n :: 0 <= n < |c.blocks| ==> SameContent(c.blocks[n], d.blocks[n])
  {
    DraftGrows(EMPTY_DRAFT, events);
    DraftGrows(EMPTY_DRAFT, others);
    hide FitsFrom, AddAll, Grow, TextFor, Starts;
  }
}
