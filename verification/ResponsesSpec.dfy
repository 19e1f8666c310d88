// The Responses API: output events, and the streaming encoder as a function of its state.
module ResponsesSpec {
  import opened Common
  import opened TokenUsage
  import opened AnthropicMessages

  datatype Kind = TextKind | ThinkingKind | ToolKind

  datatype Status = InProgress | IsCompleted | Incomplete | IsFailed

  /** Message and reasoning items are numbered within the response; a call's item is named after its call. */
  datatype ItemId = Numbered(kind: Kind, response: string, n: nat) | OfCall(call: string)

  /** `text` is the item's text, summary or arguments. */
  datatype Item = Item(kind: Kind, id: ItemId, name: string, text: string, status: Status)

  datatype Totals = Totals(input: real, output: real, total: real, cached: real, cacheWrite: real)

  function ResponsesUsage(u: Usage): Totals {
    var read, write := Count(u, "cache_read_input_tokens"), Count(u, "cache_creation_input_tokens");
    var input, output := Count(u, "input_tokens") + read + write, Count(u, "output_tokens");
    Totals(input, output, input + output, read, write)
  }

  datatype Envelope = Envelope(id: string, model: string, status: Status, output: seq<Item>, usage: Option<Totals>)

  datatype Body =
    | Created(env: Envelope)
    | Started(env: Envelope)
    | ItemAdded(index: nat, item: Item)
    | PartAdded(index: nat, id: ItemId, text: string)
    | TextPart(index: nat, id: ItemId, delta: string)
    | ValueDone(index: nat, id: ItemId, text: string)
    | PartDone(index: nat, id: ItemId, text: string)
    | ItemDone(index: nat, item: Item)
    | Finished(env: Envelope)
    | Failed(env: Envelope, code: string)

  datatype Out = Out(sequence: nat, body: Body)

  /** A block under construction; its place in `items` is its output index. */
  datatype Entry = Entry(item: Item, initialArgs: Json, hasArgs: bool, closed: bool)

  datatype Encoder = Encoder(respId: string, model: string, finished: bool, stopReason: string, sequence: nat,
                             inputUsage: Usage, outputUsage: Usage, blocks: map<int, nat>, items: seq<Entry>,
                             texts: nat, thoughts: nat, out: seq<Out>)

  const FRESH := Encoder("", "", false, "", 0, map[], map[], map[], [], 0, 0, [])

  datatype Failure = BadJson | UndeclaredTool | UnnamedTool | UpstreamError | EarlyEnd

  function Items(es: seq<Entry>): (items: seq<Item>)
    ensures |items| == |es|
  {
    seq(|es|, i requires 0 <= i < |es| => es[i].item)
  }

  function Completion(stopReason: string): Status {
    if stopReason == "max_tokens" then Incomplete else IsCompleted
  }

  function EnvelopeOf(e: Encoder, status: Status): Envelope {
    Envelope("resp_" + e.respId, e.model, status, Items(e.items),
             if status == InProgress then None else Some(ResponsesUsage(MergeRaw(e.inputUsage, e.outputUsage))))
  }

  function Emit(e: Encoder, body: Body): Encoder {
    e.(out := e.out + [Out(e.sequence, body)], sequence := e.sequence + 1)
  }

  /** A missing message, or one without an id, starts an unknown response. */
  function OnMessageStart(e: Encoder, m: Option<Start>): Encoder {
    var r := e.(respId := if m.None? || m.value.id == "" then "unknown" else m.value.id,
                model := if m.None? then "" else m.value.model,
                inputUsage := if m.Some? && m.value.usage.Some? then m.value.usage.value else map[]);
    var s := Emit(r, Created(EnvelopeOf(r, InProgress)));
    Emit(s, Started(EnvelopeOf(s, InProgress)))
  }

  function AppendDelta(e: Encoder, k: nat, text: string): Encoder
    requires k < |e.items|
  {
    if text == "" then e
    else
      var b := e.items[k];
      var tool := b.item.kind == ToolKind;
      var r := e.(items := e.items[k := b.(item := b.item.(text := b.item.text + text), hasArgs := b.hasArgs || tool)]);
      Emit(r, TextPart(k, b.item.id, text))
  }

  /** A new output item at the end of `items`. */
  function AddItem(e: Encoder, i: int, kind: Kind, id: ItemId, name: string, initialArgs: Json): Encoder {
    var k, item := |e.items|, Item(kind, id, name, "", InProgress);
    var r := e.(blocks := e.blocks[i := k], items := e.items + [Entry(item, initialArgs, false, false)],
                texts := if kind == TextKind then e.texts + 1 else e.texts,
                thoughts := if kind == ThinkingKind then e.thoughts + 1 else e.thoughts);
    var s := Emit(r, ItemAdded(k, item));
    if kind == ToolKind then s else Emit(s, PartAdded(k, id, ""))
  }

  function OpenText(e: Encoder, i: int, kind: Kind): Encoder
    requires kind != ToolKind
  {
    AddItem(e, i, kind, Numbered(kind, e.respId, if kind == TextKind then e.texts else e.thoughts), "", "")
  }

  function OnBlockStart(e: Encoder, i: int, b: Block): (Encoder, Option<Failure>) {
    match b
    case Text(t) => (AppendDelta(OpenText(e, i, TextKind), |e.items|, t), None)
    case Thinking(t) => (AppendDelta(OpenText(e, i, ThinkingKind), |e.items|, t), None)
    case ToolUse(id, name, input) =>
      if id == "" || name == "" then (e, Some(UnnamedTool))
      else (AddItem(e, i, ToolKind, OfCall(id), name, if input.Some? then input.value else "{}"), None)
    case OtherBlock => (e, None)
  }

  function DeltaKind(delta: Delta): Kind
    requires !delta.OtherDelta?
  {
    if delta.TextDelta? then TextKind else if delta.ThinkingDelta? then ThinkingKind else ToolKind
  }

  predicate Known(e: Encoder, i: int) {
    i in e.blocks && e.blocks[i] < |e.items|
  }

  /** Text without a fitting block opens one; tool arguments without one are an error. */
  function OnBlockDelta(e: Encoder, i: int, delta: Delta): (Encoder, Option<Failure>) {
    if delta.OtherDelta? || delta.text == "" then (e, None)
    else
      var kind := DeltaKind(delta);
      if Known(e, i) && e.items[e.blocks[i]].item.kind == kind then (AppendDelta(e, e.blocks[i], delta.text), None)
      else if kind == ToolKind then (e, Some(UndeclaredTool))
      else (AppendDelta(OpenText(e, i, kind), |e.items|, delta.text), None)
  }

  function OnBlockStop(e: Encoder, i: int): Encoder {
    if Known(e, i) then e.(items := e.items[e.blocks[i] := e.items[e.blocks[i]].(closed := true)]) else e
  }

  function SetStatus(e: Encoder, k: nat, status: Status): Encoder
    requires k < |e.items|
  {
    e.(items := e.items[k := e.items[k].(item := e.items[k].item.(status := status))])
  }

  function FinishBlock(e: Encoder, k: nat, status: Status): (r: Encoder)
    requires k < |e.items|
    ensures |r.items| == |e.items|
  {
    var p := SetStatus(e, k, status);
    var b := p.items[k];
    var id := b.item.id;
    if b.item.kind == ToolKind then
      var q := if b.hasArgs then p else AppendDelta(p, k, b.initialArgs);
      Emit(Emit(q, ValueDone(k, id, q.items[k].item.text)), ItemDone(k, q.items[k].item))
    else
      Emit(Emit(Emit(p, ValueDone(k, id, b.item.text)), PartDone(k, id, b.item.text)), ItemDone(k, b.item))
  }

  function ItemStatus(e: Encoder, k: nat): Status {
    if Completion(e.stopReason) == Incomplete && k + 1 == |e.items| then Incomplete else IsCompleted
  }

  /** Finishes the first `n` items. */
  function FinishBlocks(e: Encoder, n: nat): (r: Encoder)
    requires n <= |e.items|
    ensures |r.items| == |e.items|
  {
    if n == 0 then e
    else
      var p := FinishBlocks(e, n - 1);
      FinishBlock(p, n - 1, ItemStatus(p, n - 1))
  }

  function OnMessageStop(e: Encoder): Encoder {
    var r := FinishBlocks(e, |e.items|);
    Emit(r.(finished := true), Finished(EnvelopeOf(r, Completion(r.stopReason))))
  }

  function Dispatch(e: Encoder, ev: Event): (Encoder, Option<Failure>) {
    if e.finished then (e, None)
    else
      match ev
      case MessageStart(m) => (OnMessageStart(e, m), None)
      case BlockStart(i, b) => OnBlockStart(e, i, b)
      case BlockDelta(i, delta) => OnBlockDelta(e, i, delta)
      case BlockStop(i) => (OnBlockStop(e, i), None)
      case MessageDelta(reason, usage) =>
        (e.(outputUsage := if usage.Some? then MergeRaw(e.outputUsage, usage.value) else e.outputUsage,
            stopReason := if reason == "" then e.stopReason else reason), None)
      case MessageStop => (OnMessageStop(e), None)
      case ErrorEvent => (e, Some(UpstreamError))
      case Malformed => (e, Some(BadJson))
      case Ping => (e, None)
  }

  predicate CanFinishGracefully(e: Encoder) {
    forall k :: 0 <= k < |e.items| && e.items[k].item.kind == ToolKind ==> e.items[k].closed
  }

  function MarkIncomplete(es: seq<Entry>): (r: seq<Entry>)
    ensures |r| == |es|
  {
    seq(|es|, i requires 0 <= i < |es| => es[i].(item := es[i].item.(status := Incomplete)))
  }

  /** A failure before the message started still announces a response. */
  function Fail(e: Encoder, mode: Mode): Encoder {
    if e.finished then e
    else if mode == Abort then e.(finished := true)
    else
      var s := if e.respId == "" then OnMessageStart(e, None) else e;
      if mode == Graceful && CanFinishGracefully(s) then OnMessageStop(s)
      else
        var r := s.(items := MarkIncomplete(s.items), finished := true);
        Emit(r, Failed(EnvelopeOf(r, IsFailed), if mode == Legacy then "server_error" else "overloaded_error"))
  }

  function Feed(e: Encoder, events: seq<Event>): (Encoder, Option<Failure>)
    decreases |events|
  {
    if events == [] then (e, None)
    else
      var (r, failure) := Dispatch(e, events[0]);
      if failure.Some? then (r, failure) else Feed(r, events[1..])
  }

  function Reencode(events: seq<Event>, mode: Mode): (Encoder, Option<Failure>) {
    var (e, failure) := Feed(FRESH, events);
    if failure.Some? then (Fail(e, mode), failure)
    else if !e.finished then (Fail(e, mode), Some(EarlyEnd))
    else (e, None)
  }

  // ---- one-shot form -------------------------------------------------------------------------

  function CallsOf(bs: seq<Block>): seq<Item> {
    if bs == [] then []
    else
      var b := bs[|bs| - 1];
      CallsOf(bs[..|bs| - 1]) +
      (if b.ToolUse? then [Item(ToolKind, OfCall(b.id), b.name, Arguments(b), IsCompleted)] else [])
  }

  /** Reasoning, then the message, then the calls; an incomplete response marks its last item. */
  function OneShotOutput(m: Message): seq<Item> {
    var thinking, calls := ThinkingOf(m.content), CallsOf(m.content);
    var reasoning := if thinking == "" then [] else [Item(ThinkingKind, Numbered(ThinkingKind, m.id, 0), "", thinking, IsCompleted)];
    var message := if forall b :: b in m.content ==> !b.Text? then []
                   else [Item(TextKind, Numbered(TextKind, m.id, 0), "", TextOf(m.content), IsCompleted)];
    reasoning + message + calls
  }

  function ConvertResponse(m: Message): Option<Envelope> {
    if m.id == "" then None
    else
      var status, output := Completion(m.stopReason), OneShotOutput(m);
      var marked := if status == Incomplete && output != [] then
                      output[|output| - 1 := output[|output| - 1].(status := Incomplete)]
                    else output;
      Some(Envelope("resp_" + m.id, m.model, status, marked, Some(ResponsesUsage(m.usage))))
  }
}
