// The life cycle of a Responses stream, whatever the upstream sends: numbering, stable items, one ending.
module ResponsesLifecycle {
  import opened Common
  import opened TokenUsage
  import opened AnthropicMessages
  import opened ResponsesSpec

  // ---- a strict reader -----------------------------------------------------------------------

  /** What a client knows that checks every event: `sound` is false once an event names an item that was
      not added, or not under that id and index. */
  datatype View = View(sound: bool, added: seq<Item>, texts: seq<string>, values: seq<string>, dones: seq<Item>)

  function ReadOne(v: View, b: Body): View {
    match b
    case ItemAdded(k, item) =>
      v.(sound := v.sound && k == |v.added| && item.text == "", added := v.added + [item], texts := v.texts + [""])
    case PartAdded(k, id, text) => v.(sound := v.sound && k < |v.added| && v.added[k].id == id && text == "")
    case TextPart(k, id, delta) =>
      if k < |v.added| && k < |v.texts| then
        v.(sound := v.sound && v.added[k].id == id, texts := v.texts[k := v.texts[k] + delta])
      else v.(sound := false)
    case ValueDone(k, id, text) =>
      v.(sound := v.sound && k == |v.values| < |v.added| && v.added[k].id == id, values := v.values + [text])
    case PartDone(k, id, text) =>
      v.(sound := v.sound && k < |v.added| && v.added[k].id == id && k < |v.values| && v.values[k] == text)
    case ItemDone(k, item) => v.(sound := v.sound && k == |v.dones|, dones := v.dones + [item])
    case _ => v
  }

  function Read(out: seq<Out>): View {
    if out == [] then View(true, [], [], [], []) else ReadOne(Read(out[..|out| - 1]), out[|out| - 1].body)
  }

  predicate Terminal(b: Body) { b.Finished? || b.Failed? }

  predicate NoTerminal(out: seq<Out>) { forall i :: 0 <= i < |out| ==> !Terminal(out[i].body) }

  predicate OneTerminalLast(out: seq<Out>) {
    out != [] && Terminal(out[|out| - 1].body) && NoTerminal(out[..|out| - 1])
  }

  predicate Numbering(out: seq<Out>) { forall i :: 0 <= i < |out| ==> out[i].sequence == i }

  /** The same item at another moment of its life: only text and status move. */
  predicate SameItem(a: Item, b: Item) { a.kind == b.kind && a.id == b.id && a.name == b.name }

  predicate ItemsRead(v: View, es: seq<Entry>) {
    && v.sound && |v.added| == |v.texts| == |es|
    && forall k :: 0 <= k < |es| ==> SameItem(v.added[k], es[k].item) && v.texts[k] == es[k].item.text
  }

  /** Message items are numbered apart, and so are reasoning items. */
  predicate IdsApart(es: seq<Entry>, kind: Kind, count: nat) {
    && (forall k :: 0 <= k < |es| && es[k].item.kind == kind ==>
          es[k].item.id.Numbered? && es[k].item.id.kind == kind && es[k].item.id.n < count)
    && (forall k, l :: 0 <= k < l < |es| && es[k].item.kind == kind && es[l].item.kind == kind ==>
          es[k].item.id != es[l].item.id)
  }

  predicate IdsOk(es: seq<Entry>, texts: nat, thoughts: nat) {
    IdsApart(es, TextKind, texts) && IdsApart(es, ThinkingKind, thoughts)
  }

  /** While the response runs. */
  predicate Running(e: Encoder) {
    var v := Read(e.out);
    && !e.finished && e.sequence == |e.out| && Numbering(e.out) && NoTerminal(e.out)
    && ItemsRead(v, e.items) && v.values == [] && v.dones == [] && IdsOk(e.items, e.texts, e.thoughts)
  }

  /** `n` items are finished: each value and item done matches what was streamed. */
  predicate Finishing(e: Encoder, n: nat) {
    var v := Read(e.out);
    && !e.finished && e.sequence == |e.out| && Numbering(e.out) && NoTerminal(e.out) && ItemsRead(v, e.items) && IdsOk(e.items, e.texts, e.thoughts)
    && |v.values| == |v.dones| == n <= |e.items|
    && forall k :: 0 <= k < n ==> v.values[k] == e.items[k].item.text && v.dones[k] == e.items[k].item
  }

  lemma Emitted(e: Encoder, b: Body)
    requires e.sequence == |e.out| && Numbering(e.out) && NoTerminal(e.out)
    ensures var r := Emit(e, b);
            && r.sequence == |r.out| && Numbering(r.out) && Read(r.out) == ReadOne(Read(e.out), b)
            && (if Terminal(b) then OneTerminalLast(r.out) else NoTerminal(r.out))
  {
    var o := Out(e.sequence, b);
    assert (e.out + [o])[..|e.out|] == e.out;
  }

  // ---- steps ---------------------------------------------------------------------------------

  lemma MessageStartRuns(e: Encoder, m: Option<Start>)
    requires Running(e)
    ensures Running(OnMessageStart(e, m))
  {
    hide Read, Numbering, NoTerminal, ItemsRead;
    var r := e.(respId := if m.None? || m.value.id == "" then "unknown" else m.value.id,
                model := if m.None? then "" else m.value.model,
                inputUsage := if m.Some? && m.value.usage.Some? then m.value.usage.value else map[]);
    Emitted(r, Created(EnvelopeOf(r, InProgress)));
    var s := Emit(r, Created(EnvelopeOf(r, InProgress)));
    Emitted(s, Started(EnvelopeOf(s, InProgress)));
  }

  lemma DeltaRuns(e: Encoder, k: nat, text: string)
    requires Running(e) && k < |e.items|
    ensures Running(AppendDelta(e, k, text))
  {
    hide Read, Numbering, NoTerminal;
    if text != "" {
      var b := e.items[k];
      var r := e.(items := e.items[k := b.(item := b.item.(text := b.item.text + text),
                                           hasArgs := b.hasArgs || b.item.kind == ToolKind)]);
      IdsKept(e, r);
      hide IdsOk;
      Emitted(r, TextPart(k, b.item.id, text));
      assert SameItem(Read(e.out).added[k], b.item);
    }
  }

  lemma AddRuns(e: Encoder, i: int, kind: Kind, id: ItemId, name: string, initialArgs: Json)
    requires Running(e)
    requires kind == TextKind ==> id == Numbered(TextKind, e.respId, e.texts)
    requires kind == ThinkingKind ==> id == Numbered(ThinkingKind, e.respId, e.thoughts)
    ensures Running(AddItem(e, i, kind, id, name, initialArgs))
  {
    hide Read, Numbering, NoTerminal;
    var k, item := |e.items|, Item(kind, id, name, "", InProgress);
    var r := e.(blocks := e.blocks[i := k], items := e.items + [Entry(item, initialArgs, false, false)],
                texts := if kind == TextKind then e.texts + 1 else e.texts,
                thoughts := if kind == ThinkingKind then e.thoughts + 1 else e.thoughts);
    IdsAdd(e, r.items[k], r);
    hide IdsOk;
    Emitted(r, ItemAdded(k, item));
    var s := Emit(r, ItemAdded(k, item));
    assert Running(s);
    Emitted(s, PartAdded(k, id, ""));
  }

  lemma IdsAdd(e: Encoder, entry: Entry, r: Encoder)
    requires IdsOk(e.items, e.texts, e.thoughts) && r.items == e.items + [entry]
    requires r.texts == (if entry.item.kind == TextKind then e.texts + 1 else e.texts)
    requires r.thoughts == (if entry.item.kind == ThinkingKind then e.thoughts + 1 else e.thoughts)
    requires entry.item.kind == TextKind ==> entry.item.id.Numbered? && entry.item.id.kind == TextKind && entry.item.id.n == e.texts
    requires entry.item.kind == ThinkingKind ==>
               entry.item.id.Numbered? && entry.item.id.kind == ThinkingKind && entry.item.id.n == e.thoughts
    ensures IdsOk(r.items, r.texts, r.thoughts)
  {
    var n := |e.items|;
    assert r.items[n] == entry && forall k :: 0 <= k < n ==> r.items[k] == e.items[k];
  }

  lemma BlockStartRuns(e: Encoder, i: int, b: Block)
    requires Running(e)
    ensures Running(OnBlockStart(e, i, b).0)
  {
    hide Running;
    match b
    case Text(t) =>
      AddRuns(e, i, TextKind, Numbered(TextKind, e.respId, e.texts), "", "");
      DeltaRuns(OpenText(e, i, TextKind), |e.items|, t);
    case Thinking(t) =>
      AddRuns(e, i, ThinkingKind, Numbered(ThinkingKind, e.respId, e.thoughts), "", "");
      DeltaRuns(OpenText(e, i, ThinkingKind), |e.items|, t);
    case ToolUse(id, name, input) => AddRuns(e, i, ToolKind, OfCall(id), name, if input.Some? then input.value else "{}");
    case OtherBlock =>
  }

  lemma BlockDeltaRuns(e: Encoder, i: int, delta: Delta)
    requires Running(e)
    ensures Running(OnBlockDelta(e, i, delta).0)
  {
    hide Running;
    if delta.OtherDelta? || delta.text == "" {
    } else if Known(e, i) && e.items[e.blocks[i]].item.kind == DeltaKind(delta) {
      DeltaRuns(e, e.blocks[i], delta.text);
    } else if DeltaKind(delta) != ToolKind {
      var kind := DeltaKind(delta);
      AddRuns(e, i, kind, Numbered(kind, e.respId, if kind == TextKind then e.texts else e.thoughts), "", "");
      DeltaRuns(OpenText(e, i, kind), |e.items|, delta.text);
    }
  }

  /** The reader's items and texts do not depend on what is done. */
  lemma SameReading(v: View, w: View, es: seq<Entry>, k: nat)
    requires ItemsRead(v, es) && w.added == v.added && w.texts == v.texts && k < |es|
    ensures v.sound && k < |v.added| && v.added[k].id == es[k].item.id
    ensures w.sound ==> ItemsRead(w, es)
  {
    assert SameItem(v.added[k], es[k].item);
  }

  lemma FinishedTool(q: Encoder, k: nat)
    requires Finishing(q, k) && k < |q.items|
    ensures var item := q.items[k].item;
            Finishing(Emit(Emit(q, ValueDone(k, item.id, item.text)), ItemDone(k, item)), k + 1)
  {
    hide Read, Numbering, NoTerminal, IdsOk, ItemsRead;
    var item := q.items[k].item;
    Emitted(q, ValueDone(k, item.id, item.text));
    var r := Emit(q, ValueDone(k, item.id, item.text));
    Emitted(r, ItemDone(k, item));
    SameReading(Read(q.out), Read(r.out), q.items, k);
    SameReading(Read(r.out), Read(Emit(r, ItemDone(k, item)).out), q.items, k);
  }

  lemma FinishedText(p: Encoder, k: nat)
    requires Finishing(p, k) && k < |p.items|
    ensures var item := p.items[k].item;
            Finishing(Emit(Emit(Emit(p, ValueDone(k, item.id, item.text)), PartDone(k, item.id, item.text)),
                           ItemDone(k, item)), k + 1)
  {
    hide Read, Numbering, NoTerminal, IdsOk, ItemsRead;
    var item := p.items[k].item;
    Emitted(p, ValueDone(k, item.id, item.text));
    var q := Emit(p, ValueDone(k, item.id, item.text));
    Emitted(q, PartDone(k, item.id, item.text));
    var r := Emit(q, PartDone(k, item.id, item.text));
    Emitted(r, ItemDone(k, item));
    SameReading(Read(p.out), Read(q.out), p.items, k);
    SameReading(Read(q.out), Read(r.out), p.items, k);
    SameReading(Read(r.out), Read(Emit(r, ItemDone(k, item)).out), p.items, k);
  }

  lemma FinishedOne(e: Encoder, k: nat, status: Status)
    requires Finishing(e, k) && k < |e.items|
    ensures Finishing(FinishBlock(e, k, status), k + 1)
  {
    hide Finishing;
    var p := SetStatus(e, k, status);
    StatusKeeps(e, k, status);
    if p.items[k].item.kind == ToolKind {
      if !p.items[k].hasArgs { FinishingDelta(p, k, p.items[k].initialArgs); }
      FinishedTool(if p.items[k].hasArgs then p else AppendDelta(p, k, p.items[k].initialArgs), k);
    } else {
      FinishedText(p, k);
    }
  }

  lemma StatusKeeps(e: Encoder, k: nat, status: Status)
    requires Finishing(e, k) && k < |e.items|
    ensures Finishing(SetStatus(e, k, status), k)
  {
    hide Read, Numbering, NoTerminal;
    IdsKept(e, SetStatus(e, k, status));
  }

  lemma IdsKept(e: Encoder, r: Encoder)
    requires IdsOk(e.items, e.texts, e.thoughts) && |r.items| == |e.items| && r.texts == e.texts && r.thoughts == e.thoughts
    requires forall k :: 0 <= k < |e.items| ==> SameItem(r.items[k].item, e.items[k].item)
    ensures IdsOk(r.items, r.texts, r.thoughts)
  {}

  /** A delta only adds to one item's text. */
  function Extended(e: Encoder, k: nat, text: string): Encoder
    requires k < |e.items|
  {
    var b := e.items[k];
    e.(items := e.items[k := b.(item := b.item.(text := b.item.text + text), hasArgs := b.hasArgs || b.item.kind == ToolKind)])
  }

  lemma ExtendedFinishing(e: Encoder, k: nat, text: string, r: Encoder)
    requires Finishing(e, k) && k < |e.items|
    requires r == Emit(Extended(e, k, text), TextPart(k, e.items[k].item.id, text))
    ensures Finishing(r, k) && SameItem(r.items[k].item, e.items[k].item)
  {
    var x := Extended(e, k, text);
    hide Read, Numbering, NoTerminal;
    assert r.items == x.items && r.texts == e.texts && r.thoughts == e.thoughts && !r.finished;
    IdsKept(e, x);
    hide IdsOk;
    Emitted(x, TextPart(k, e.items[k].item.id, text));
    DeltaRead(Read(e.out), e.items, x.items, k, text);
    hide ItemsRead, ReadOne, Emit;
  }

  lemma FinishingDelta(e: Encoder, k: nat, text: string)
    requires Finishing(e, k) && k < |e.items|
    ensures Finishing(AppendDelta(e, k, text), k)
    ensures SameItem(AppendDelta(e, k, text).items[k].item, e.items[k].item)
  {
    hide Finishing, Emit;
    if text != "" {
      ExtendedFinishing(e, k, text, AppendDelta(e, k, text));
    }
  }

  lemma DeltaRead(v: View, es: seq<Entry>, fs: seq<Entry>, k: nat, text: string)
    requires ItemsRead(v, es) && k < |es| == |fs|
    requires forall l :: 0 <= l < |es| && l != k ==> fs[l] == es[l]
    requires fs[k].item == es[k].item.(text := es[k].item.text + text)
    ensures var w := ReadOne(v, TextPart(k, es[k].item.id, text));
            ItemsRead(w, fs) && w.values == v.values && w.dones == v.dones
  {}

  lemma NoneFinished(e: Encoder)
    requires Running(e)
    ensures Finishing(e, 0)
  {}

  lemma {:induction false} FinishedAll(e: Encoder, n: nat)
    requires Running(e) && n <= |e.items|
    ensures Finishing(FinishBlocks(e, n), n)
  {
    hide Finishing, Running, FinishBlock;
    if n == 0 {
      NoneFinished(e);
    } else {
      FinishedAll(e, n - 1);
      FinishedOne(FinishBlocks(e, n - 1), n - 1, ItemStatus(FinishBlocks(e, n - 1), n - 1));
    }
  }

  /** The reader saw every item of the output added and streamed in full. */
  predicate Streamed(v: View, output: seq<Item>) {
    && v.sound && |v.added| == |v.texts| == |output|
    && forall k :: 0 <= k < |output| ==> SameItem(v.added[k], output[k]) && v.texts[k] == output[k].text
  }

  predicate IdsDistinct(output: seq<Item>) {
    forall k, l :: 0 <= k < l < |output| && output[k].kind == output[l].kind != ToolKind ==> output[k].id != output[l].id
  }

  /** A successful ending: every item done once, in order, with what was streamed, as the envelope says. */
  predicate Succeeded(e: Encoder) {
    && e.finished && Numbering(e.out) && OneTerminalLast(e.out) && e.out[|e.out| - 1].body.Finished?
    && var v, output := Read(e.out), e.out[|e.out| - 1].body.env.output;
       Streamed(v, output) && v.dones == output && v.values == v.texts && IdsDistinct(output)
  }

  lemma ItemsStreamed(v: View, es: seq<Entry>)
    requires ItemsRead(v, es)
    ensures Streamed(v, Items(es))
  {}

  lemma IdsOfItems(es: seq<Entry>, texts: nat, thoughts: nat)
    requires IdsOk(es, texts, thoughts)
    ensures IdsDistinct(Items(es))
  {}

  lemma EndsWell(r: Encoder, status: Status)
    requires Finishing(r, |r.items|)
    ensures Succeeded(Emit(r.(finished := true), Finished(EnvelopeOf(r, status))))
  {
    hide Read, Numbering, NoTerminal, OneTerminalLast, MergeRaw, ResponsesUsage;
    var b := Finished(EnvelopeOf(r, status));
    Emitted(r.(finished := true), b);
    var v := Read(r.out);
    ItemsStreamed(v, r.items);
    IdsOfItems(r.items, r.texts, r.thoughts);
    assert v.values == v.texts && v.dones == Items(r.items);
    hide Streamed, IdsDistinct, ItemsRead, IdsOk;
  }

  lemma MessageStopSucceeds(e: Encoder)
    requires Running(e)
    ensures Succeeded(OnMessageStop(e))
  {
    hide Running, Finishing, Succeeded, FinishBlocks;
    FinishedAll(e, |e.items|);
    EndsWell(FinishBlocks(e, |e.items|), Completion(FinishBlocks(e, |e.items|).stopReason));
  }

  predicate Sound(e: Encoder) { if e.finished then Succeeded(e) else Running(e) }

  lemma DispatchSound(e: Encoder, ev: Event)
    requires Sound(e)
    ensures var (r, failure) := Dispatch(e, ev);
            Sound(r) && (failure.Some? ==> !r.finished) && (r.finished && !e.finished ==> ev == MessageStop)
  {
    hide Running, Succeeded, OnMessageStart, OnMessageStop;
    if !e.finished {
      match ev
      case MessageStart(m) => MessageStartRuns(e, m); StillRunning(OnMessageStart(e, m));
      case BlockStart(i, b) => BlockStartRuns(e, i, b); StillRunning(OnBlockStart(e, i, b).0);
      case BlockDelta(i, delta) => BlockDeltaRuns(e, i, delta); StillRunning(OnBlockDelta(e, i, delta).0);
      case BlockStop(i) => StopRuns(e, i); StillRunning(OnBlockStop(e, i));
      case MessageDelta(reason, usage) => UsageRuns(e, Dispatch(e, ev).0);
      case MessageStop => MessageStopSucceeds(e); SucceededEnds(OnMessageStop(e));
      case _ =>
    }
  }

  lemma StillRunning(e: Encoder)
    requires Running(e)
    ensures !e.finished
  {}

  lemma SucceededEnds(e: Encoder)
    requires Succeeded(e)
    ensures e.finished
  {}

  lemma StopRuns(e: Encoder, i: int)
    requires Running(e)
    ensures Running(OnBlockStop(e, i))
  {
    hide Read, Numbering, NoTerminal;
    IdsKept(e, OnBlockStop(e, i));
  }

  lemma UsageRuns(e: Encoder, r: Encoder)
    requires Running(e) && r == e.(outputUsage := r.outputUsage, stopReason := r.stopReason)
    ensures Running(r)
  {
    hide Read, Numbering, NoTerminal;
    IdsKept(e, r);
  }

  lemma {:induction false} FeedSound(e: Encoder, events: seq<Event>)
    requires Sound(e)
    ensures var (r, failure) := Feed(e, events);
            Sound(r) && (failure.Some? ==> !r.finished) && (r.finished && !e.finished ==> MessageStop in events)
    decreases |events|
  {
    hide Sound, Dispatch;
    if events != [] {
      DispatchSound(e, events[0]);
      FeedSound(Dispatch(e, events[0]).0, events[1..]);
    }
  }

  /** The failure event's envelope holds what was streamed so far, and no item was done. */
  predicate FailedSoundly(e: Encoder) {
    && e.finished && Numbering(e.out) && OneTerminalLast(e.out) && e.out[|e.out| - 1].body.Failed?
    && var v, output := Read(e.out), e.out[|e.out| - 1].body.env.output;
       && Streamed(v, output) && v.dones == []
       && (forall k :: 0 <= k < |output| ==> output[k].status == Incomplete)
  }

  lemma MarkedFails(s: Encoder, code: string)
    requires Running(s)
    ensures var r := s.(items := MarkIncomplete(s.items), finished := true);
            FailedSoundly(Emit(r, Failed(EnvelopeOf(r, IsFailed), code)))
  {
    hide Read, Numbering, NoTerminal, IdsOk, OneTerminalLast;
    var r := s.(items := MarkIncomplete(s.items), finished := true);
    Emitted(r, Failed(EnvelopeOf(r, IsFailed), code));
    assert ItemsRead(Read(s.out), r.items);
    ItemsStreamed(Read(s.out), r.items);
    hide ItemsRead, Streamed;
  }

  lemma FailSound(e: Encoder, mode: Mode)
    requires Running(e)
    ensures var r := Fail(e, mode);
            && (mode == Abort ==> r.out == e.out)
            && (mode == Legacy || mode == Retryable ==> FailedSoundly(r))
            && (mode == Graceful ==> Succeeded(r) || FailedSoundly(r))
  {
    if mode != Abort {
      var s := if e.respId == "" then OnMessageStart(e, None) else e;
      MessageStartRuns(e, None);
      StillRunning(e);
      if mode == Graceful && CanFinishGracefully(s) {
        hide Running, OnMessageStop, Succeeded;
        MessageStopSucceeds(s);
      } else {
        hide Running, FailedSoundly, OnMessageStart;
        MarkedFails(s, if mode == Legacy then "server_error" else "overloaded_error");
      }
    }
  }

  /** For every upstream stream: sequence numbers are 0, 1, 2, ...; every event names an item added before,
      under its id and index; a completed response finishes each item exactly once, in order, with exactly
      the streamed text; there is one terminal event and it is last, or none when a failure aborts. */
  lemma Lifecycle(events: seq<Event>, mode: Mode)
    ensures var (e, failure) := Reencode(events, mode);
            && e.finished && Numbering(e.out) && Read(e.out).sound
            && (failure.None? ==> Succeeded(e) && MessageStop in events)
            && (failure.Some? && mode == Abort ==> NoTerminal(e.out))
            && (failure.Some? && (mode == Legacy || mode == Retryable) ==> FailedSoundly(e))
            && (failure.Some? && mode == Graceful ==> Succeeded(e) || FailedSoundly(e))
  {
    assert Running(FRESH);
    FeedSound(FRESH, events);
    var (e, failure) := Feed(FRESH, events);
    hide Feed, Fail, Read, Numbering, NoTerminal, OneTerminalLast;
    if !e.finished {
      FailSound(e, mode);
      FailFinishes(e, mode);
    }
  }

  lemma FailFinishes(e: Encoder, mode: Mode)
    ensures Fail(e, mode).finished
  {}

  // ---- events that belong together ------------------------------------------------------------

  /** What must stand next to the k-th event, and what an envelope says of its moment: a created response has no usage
      yet and starts at once, a text item's part is added with it,
      and a value that is done is followed by its part, if it has one, and its item. */
  predicate PairedAt(out: seq<Out>, k: nat)
    requires k < |out|
  {
    match out[k].body
    case Created(env) =>
      env.status == InProgress && env.usage.None? && k + 1 < |out| && out[k + 1].body == Started(env)
    case Finished(env) => env.status in {IsCompleted, Incomplete} && env.usage.Some?
    case Failed(env, _) => env.status == IsFailed && env.usage.Some?
    case Started(env) => k > 0 && out[k - 1].body == Created(env)
    case ItemAdded(i, item) => item.kind != ToolKind ==> k + 1 < |out| && out[k + 1].body == PartAdded(i, item.id, "")
    case PartAdded(i, id, _) =>
      && k > 0 && out[k - 1].body.ItemAdded? && out[k - 1].body.index == i
      && out[k - 1].body.item.id == id && out[k - 1].body.item.kind != ToolKind
    case ValueDone(i, id, text) =>
      && k + 1 < |out|
      && (out[k + 1].body == PartDone(i, id, text) || (out[k + 1].body.ItemDone? && out[k + 1].body.item.kind == ToolKind))
    case PartDone(i, id, text) =>
      && 0 < k < |out| - 1 && out[k - 1].body == ValueDone(i, id, text)
      && out[k + 1].body.ItemDone? && out[k + 1].body.item.kind != ToolKind
    case ItemDone(i, item) =>
      && k > 0 && out[k - 1].body == (if item.kind == ToolKind then ValueDone(i, item.id, item.text)
                                      else PartDone(i, item.id, item.text))
    case _ => true
  }

  predicate Paired(out: seq<Out>) { forall k :: 0 <= k < |out| ==> PairedAt(out, k) }

  lemma PairsJoin(a: seq<Out>, b: seq<Out>)
    requires Paired(a) && Paired(b)
    ensures Paired(a + b)
  {
    var all := a + b;
    forall k | 0 <= k < |all| ensures PairedAt(all, k) {
      if k < |a| { assert PairedAt(a, k); } else { assert PairedAt(b, k - |a|); }
    }
    hide PairedAt;
  }

  /** A move that only adds events that belong together. */
  ghost predicate AddsPairs(e: Encoder, r: Encoder) {
    Paired(e.out) ==> Paired(r.out)
  }

  lemma OnePairs(e: Encoder, b: Body)
    requires b.TextPart? || (b.Finished? && b.env.status in {IsCompleted, Incomplete} && b.env.usage.Some?)
             || (b.Failed? && b.env.status == IsFailed && b.env.usage.Some?)
    ensures AddsPairs(e, Emit(e, b))
  {
    if Paired(e.out) { PairsJoin(e.out, [Out(e.sequence, b)]); }
  }

  lemma StartPairs(e: Encoder, m: Option<Start>)
    ensures AddsPairs(e, OnMessageStart(e, m))
  {
    var r := OnMessageStart(e, m);
    var env := r.out[|e.out|].body.env;
    var unit := [Out(e.sequence, Created(env)), Out(e.sequence + 1, Started(env))];
    assert r.out == e.out + unit;
    assert PairedAt(unit, 0) && PairedAt(unit, 1);
    if Paired(e.out) { PairsJoin(e.out, unit); }
  }

  lemma AppendPairs(e: Encoder, k: nat, text: string)
    requires k < |e.items|
    ensures AddsPairs(e, AppendDelta(e, k, text))
  {
    hide Paired;
    if text != "" { OnePairs(Extended(e, k, text), TextPart(k, e.items[k].item.id, text)); }
  }

  lemma AddPairs(e: Encoder, i: int, kind: Kind, id: ItemId, name: string, initialArgs: Json)
    ensures AddsPairs(e, AddItem(e, i, kind, id, name, initialArgs))
    ensures |AddItem(e, i, kind, id, name, initialArgs).items| == |e.items| + 1
  {
    var k, item := |e.items|, Item(kind, id, name, "", InProgress);
    var unit := [Out(e.sequence, ItemAdded(k, item))] +
                (if kind == ToolKind then [] else [Out(e.sequence + 1, PartAdded(k, id, ""))]);
    assert AddItem(e, i, kind, id, name, initialArgs).out == e.out + unit;
    assert Paired(unit);
    if Paired(e.out) { PairsJoin(e.out, unit); }
  }

  lemma FinishPairs(e: Encoder, k: nat, status: Status)
    requires k < |e.items|
    ensures AddsPairs(e, FinishBlock(e, k, status))
  {
    var p := SetStatus(e, k, status);
    var q := if p.items[k].item.kind == ToolKind && !p.items[k].hasArgs then AppendDelta(p, k, p.items[k].initialArgs) else p;
    if p.items[k].item.kind == ToolKind && !p.items[k].hasArgs { AppendPairs(p, k, p.items[k].initialArgs); }
    hide AppendDelta;
    DonePairs(e, p, q, k, status);
  }

  lemma DonePairs(e: Encoder, p: Encoder, q: Encoder, k: nat, status: Status)
    requires k < |e.items| && p == SetStatus(e, k, status) && AddsPairs(e, q)
    requires q == if p.items[k].item.kind == ToolKind && !p.items[k].hasArgs then AppendDelta(p, k, p.items[k].initialArgs) else p
    requires |q.items| == |p.items| && q.items[k].item.kind == p.items[k].item.kind && q.items[k].item.id == p.items[k].item.id
    ensures AddsPairs(e, FinishBlock(e, k, status))
  {
    hide AppendDelta, Paired;
    var item := q.items[k].item;
    var unit := [Out(q.sequence, ValueDone(k, item.id, item.text))] +
                (if item.kind == ToolKind then [] else [Out(q.sequence + 1, PartDone(k, item.id, item.text))]) +
                [Out(q.sequence + (if item.kind == ToolKind then 1 else 2), ItemDone(k, item))];
    assert FinishBlock(e, k, status).out == q.out + unit;
    UnitPaired(unit, k, item);
    if Paired(e.out) { PairsJoin(q.out, unit); }
  }

  lemma UnitPaired(unit: seq<Out>, k: nat, item: Item)
    requires if item.kind == ToolKind
             then |unit| == 2 && unit[0].body == ValueDone(k, item.id, item.text) && unit[1].body == ItemDone(k, item)
             else |unit| == 3 && unit[0].body == ValueDone(k, item.id, item.text) &&
                  unit[1].body == PartDone(k, item.id, item.text) && unit[2].body == ItemDone(k, item)
    ensures Paired(unit)
  {}

  lemma {:induction false} FinishAllPairs(e: Encoder, n: nat)
    requires n <= |e.items|
    ensures AddsPairs(e, FinishBlocks(e, n))
  {
    hide FinishBlock, Paired;
    if n > 0 {
      FinishAllPairs(e, n - 1);
      var p := FinishBlocks(e, n - 1);
      FinishPairs(p, n - 1, ItemStatus(p, n - 1));
    }
  }

  lemma StopPairs(e: Encoder)
    ensures AddsPairs(e, OnMessageStop(e))
  {
    hide FinishBlocks, Paired;
    FinishAllPairs(e, |e.items|);
    var r := FinishBlocks(e, |e.items|);
    OnePairs(r.(finished := true), Finished(EnvelopeOf(r, Completion(r.stopReason))));
  }

  lemma BlockPairs(e: Encoder, i: int, b: Block)
    ensures AddsPairs(e, OnBlockStart(e, i, b).0)
  {
    hide AddItem, AppendDelta, Paired;
    match b
    case Text(t) =>
      AddPairs(e, i, TextKind, Numbered(TextKind, e.respId, e.texts), "", "");
      AppendPairs(OpenText(e, i, TextKind), |e.items|, t);
    case Thinking(t) =>
      AddPairs(e, i, ThinkingKind, Numbered(ThinkingKind, e.respId, e.thoughts), "", "");
      AppendPairs(OpenText(e, i, ThinkingKind), |e.items|, t);
    case ToolUse(id, name, input) => AddPairs(e, i, ToolKind, OfCall(id), name, if input.Some? then input.value else "{}");
    case OtherBlock =>
  }

  lemma DeltaPairs(e: Encoder, i: int, delta: Delta)
    ensures AddsPairs(e, OnBlockDelta(e, i, delta).0)
  {
    hide AddItem, AppendDelta, Paired;
    if !(delta.OtherDelta? || delta.text == "") {
      var kind := DeltaKind(delta);
      if Known(e, i) && e.items[e.blocks[i]].item.kind == kind {
        AppendPairs(e, e.blocks[i], delta.text);
      } else if kind != ToolKind {
        AddPairs(e, i, kind, Numbered(kind, e.respId, if kind == TextKind then e.texts else e.thoughts), "", "");
        AppendPairs(OpenText(e, i, kind), |e.items|, delta.text);
      }
    }
  }

  lemma DispatchPairs(e: Encoder, ev: Event)
    ensures AddsPairs(e, Dispatch(e, ev).0)
  {
    hide OnMessageStart, OnBlockStart, OnBlockDelta, OnMessageStop, Paired;
    match ev
    case MessageStart(m) => StartPairs(e, m);
    case BlockStart(i, b) => BlockPairs(e, i, b);
    case BlockDelta(i, delta) => DeltaPairs(e, i, delta);
    case MessageStop => StopPairs(e);
    case _ =>
  }

  lemma {:induction false} FeedPairs(e: Encoder, events: seq<Event>)
    ensures AddsPairs(e, Feed(e, events).0)
    decreases |events|
  {
    hide Dispatch, Paired;
    if events != [] {
      DispatchPairs(e, events[0]);
      if Dispatch(e, events[0]).1.None? { FeedPairs(Dispatch(e, events[0]).0, events[1..]); }
    }
  }

  lemma FailPairs(e: Encoder, mode: Mode)
    ensures AddsPairs(e, Fail(e, mode))
  {
    hide Paired, OnMessageStart, OnMessageStop;
    var s := if e.respId == "" then OnMessageStart(e, None) else e;
    StartPairs(e, None);
    StopPairs(s);
    var r := s.(items := MarkIncomplete(s.items), finished := true);
    OnePairs(r, Failed(EnvelopeOf(r, IsFailed), if mode == Legacy then "server_error" else "overloaded_error"));
  }

  /** In every translated stream the events that belong together stand together, whatever the upstream sends. */
  lemma EventsArePaired(events: seq<Event>, mode: Mode)
    ensures Paired(Reencode(events, mode).0.out)
  {
    assert Paired(FRESH.out);
    hide Paired, Feed, Fail;
    FeedPairs(FRESH, events);
    FailPairs(Feed(FRESH, events).0, mode);
  }
}
