// The upstream's own protocol: streamed events, the message they add up to, and what a well-formed
// stream is.  This is the reference both streaming translators are compared with.
module AnthropicMessages {
  import opened Common
  import opened TokenUsage

  /** A JSON value, written as its compact serialisation. */
  type Json = string

  /** A tool's `input` is None both when it is missing and when a start gives an explicit null, which readers treat
      alike; the value null itself only comes out of argument text. */
  datatype Block =
    | Text(text: string)
    | Thinking(text: string)
    | ToolUse(id: string, name: string, input: Option<Json>)
    | OtherBlock

  datatype Delta =
    | TextDelta(text: string)
    | ThinkingDelta(text: string)
    | InputJsonDelta(text: string)
    | OtherDelta

  datatype Start = Start(id: string, model: string, usage: Option<Usage>)

  datatype Event =
    | MessageStart(message: Option<Start>)
    | BlockStart(index: int, block: Block)
    | BlockDelta(index: int, delta: Delta)
    | BlockStop(index: int)
    | MessageDelta(stopReason: string, usage: Option<Usage>)
    | MessageStop
    | ErrorEvent
    | Malformed   // data that is not JSON
    | Ping        // no data, [DONE] and every unknown event

  datatype Message = Message(id: string, model: string, content: seq<Block>, stopReason: string, usage: Usage)

  function TextOf(bs: seq<Block>): string {
    if bs == [] then "" else TextOf(bs[..|bs| - 1]) + (if bs[|bs| - 1].Text? then bs[|bs| - 1].text else "")
  }

  function ThinkingOf(bs: seq<Block>): string {
    if bs == [] then "" else ThinkingOf(bs[..|bs| - 1]) + (if bs[|bs| - 1].Thinking? then bs[|bs| - 1].text else "")
  }

  /** A missing or null input serialises as null. */
  function Arguments(b: Block): string
    requires b.ToolUse?
  {
    if b.input.Some? then b.input.value else "null"
  }

  /** A content block under construction; a tool's argument text arrives in pieces. */
  datatype Open = Open(block: Block, partial: string, closed: bool)

  datatype Draft = Draft(started: bool, id: string, model: string, blocks: seq<Open>, at: map<int, nat>,
                         stopReason: string, reports: seq<Usage>, ended: bool)

  const EMPTY_DRAFT := Draft(false, "", "", [], map[], "", [], false)

  function Reports(u: Option<Usage>): seq<Usage> {
    if u.Some? then [u.value] else []
  }

  function Extend(o: Open, delta: Delta): Open {
    match (o.block, delta)
    case (Text(t), TextDelta(more)) => o.(block := Text(t + more))
    case (Thinking(t), ThinkingDelta(more)) => o.(block := Thinking(t + more))
    case (ToolUse(_, _, _), InputJsonDelta(more)) => o.(partial := o.partial + more)
    case _ => o
  }

  /** The draft after one more event. */
  function Add(d: Draft, ev: Event): Draft {
    if d.ended then d
    else
      match ev
      case MessageStart(Some(m)) =>
        d.(started := true, id := m.id, model := m.model, reports := d.reports + Reports(m.usage))
      case BlockStart(i, b) => d.(blocks := d.blocks + [Open(b, "", false)], at := d.at[i := |d.blocks|])
      case BlockDelta(i, delta) =>
        if i in d.at && d.at[i] < |d.blocks| then
          d.(blocks := d.blocks[d.at[i] := Extend(d.blocks[d.at[i]], delta)])
        else d
      case BlockStop(i) =>
        if i in d.at && d.at[i] < |d.blocks| then
          d.(blocks := d.blocks[d.at[i] := d.blocks[d.at[i]].(closed := true)])
        else d
      case MessageDelta(reason, usage) =>
        d.(stopReason := if reason == "" then d.stopReason else reason, reports := d.reports + Reports(usage))
      case MessageStop => d.(ended := true)
      case _ => d
  }

  predicate NumericReport(u: Option<Usage>) { u.Some? ==> Numeric(u.value) }

  /** No later block of the same kind was opened: text goes on at its end. */
  predicate LastOfKind(blocks: seq<Open>, n: nat) {
    n < |blocks| && forall m :: n < m < |blocks| ==>
      !(blocks[m].block.Text? && blocks[n].block.Text?) && !(blocks[m].block.Thinking? && blocks[n].block.Thinking?)
  }

  /** The upstream keeps its own block protocol: blocks are opened once, deltas fit their open block,
      one stop reason ends it. */
  predicate Fits(d: Draft, ev: Event) {
    d.ended ||
    match ev
    case MessageStart(m) => !d.started && m.Some? && m.value.id != "" && NumericReport(m.value.usage)
    case BlockStart(i, b) => d.started && d.stopReason == "" && i !in d.at
    case BlockDelta(i, delta) =>
      && d.stopReason == "" && i in d.at && d.at[i] < |d.blocks| && !d.blocks[d.at[i]].closed
      && (match delta
          case TextDelta(_) => d.blocks[d.at[i]].block.Text?
          case ThinkingDelta(_) => d.blocks[d.at[i]].block.Thinking?
          case InputJsonDelta(_) => d.blocks[d.at[i]].block.ToolUse?
          case OtherDelta => true)
    case BlockStop(i) => i in d.at && d.at[i] < |d.blocks| && !d.blocks[d.at[i]].closed
    case MessageDelta(reason, usage) => d.started && NumericReport(usage) && (reason != "" ==> d.stopReason == "")
    case MessageStop => d.stopReason != ""
    case ErrorEvent => false
    case Malformed => false
    case Ping => true
  }

  /** In addition text blocks come one after another, as thinking blocks do; tool arguments may interleave. */
  predicate Legal(d: Draft, ev: Event) {
    && Fits(d, ev)
    && (!d.ended && ev.BlockDelta? && (ev.delta.TextDelta? || ev.delta.ThinkingDelta?) ==>
          LastOfKind(d.blocks, d.at[ev.index]))
  }

  predicate FitsFrom(d: Draft, events: seq<Event>)
    decreases |events|
  {
    events == [] || (Fits(d, events[0]) && FitsFrom(Add(d, events[0]), events[1..]))
  }

  predicate LegalFrom(d: Draft, events: seq<Event>)
    decreases |events|
  {
    events == [] || (Legal(d, events[0]) && LegalFrom(Add(d, events[0]), events[1..]))
  }

  function AddAll(d: Draft, events: seq<Event>): Draft
    decreases |events|
  {
    if events == [] then d else AddAll(Add(d, events[0]), events[1..])
  }

  /** A finished block; `parse` reads JSON text and gives its compact form. */
  function Completed(o: Open, parse: string -> Option<Json>): Block {
    if o.block.ToolUse? && o.partial != "" then o.block.(input := parse(o.partial)) else o.block
  }

  function CompletedAll(os: seq<Open>, parse: string -> Option<Json>): (bs: seq<Block>)
    ensures |bs| == |os|
  {
    if os == [] then [] else CompletedAll(os[..|os| - 1], parse) + [Completed(os[|os| - 1], parse)]
  }

  /** `m` is the message the events of draft `d` stand for. */
  ghost predicate StandsFor(d: Draft, m: Message, parse: string -> Option<Json>) {
    && d.ended && m.id == d.id && m.model == d.model && m.stopReason == d.stopReason
    && m.content == CompletedAll(d.blocks, parse)
    && Largest(m.usage, d.reports)
  }

  /** All usage that message deltas reported, merged in the order it came. */
  function UsageReported(events: seq<Event>): Usage {
    if events == [] then map[]
    else
      var ev, before := events[|events| - 1], UsageReported(events[..|events| - 1]);
      if ev.MessageDelta? && ev.usage.Some? then MergeRaw(before, ev.usage.value) else before
  }
}
