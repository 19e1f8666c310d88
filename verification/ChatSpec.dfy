// Chat Completions: the one-shot converter, the chunks of the streaming form, what a client makes of
// them, and the streaming encoder as a function of its state.
module ChatSpec {
  import opened Common
  import opened TokenUsage
  import opened AnthropicMessages

  // ---- one-shot form -----------------------------------------------------------------------

  datatype ToolCall = ToolCall(id: string, name: string, arguments: string)

  datatype Completion = Completion(id: string, model: string, content: Option<string>, reasoning: Option<string>,
                                   tools: seq<ToolCall>, finish: string, usage: OpenAIUsage)

  function ChunkId(id: string): string { "chatcmpl-" + id }

  function MapStopReason(reason: string): string {
    if reason == "max_tokens" then "length"
    else if reason == "tool_use" then "tool_calls"
    else if reason == "refusal" then "content_filter"
    else "stop"
  }

  function ToolsOf(bs: seq<Block>): seq<ToolCall> {
    if bs == [] then []
    else
      var b := bs[|bs| - 1];
      ToolsOf(bs[..|bs| - 1]) + (if b.ToolUse? then [ToolCall(b.id, b.name, Arguments(b))] else [])
  }

  /** No result for a response without a message id. */
  function ConvertResponse(m: Message): Option<Completion> {
    if m.id == "" then None
    else
      var text, thinking, tools := TextOf(m.content), ThinkingOf(m.content), ToolsOf(m.content);
      Some(Completion(ChunkId(m.id), m.model,
                      if text == "" then None else Some(text),
                      if thinking == "" then None else Some(thinking),
                      tools, MapStopReason(m.stopReason), MapUsage(m.usage)))
  }

  // ---- chunks and their reading --------------------------------------------------------------

  datatype Content =
    | Role
    | TextPart(text: string)
    | ReasoningPart(text: string)
    | ToolOpen(index: nat, id: string, name: string)
    | ToolArgs(index: nat, arguments: string)
    | Nothing

  datatype Chunk =
    | Choice(id: string, model: string, delta: Content, finish: Option<string>)
    | UsageChunk(id: string, model: string, usage: OpenAIUsage)
    | ErrorChunk(kind: string)
    | Done

  datatype Folded = Folded(text: string, reasoning: string, tools: seq<ToolCall>, finish: Option<string>,
                           usage: Option<OpenAIUsage>)

  function FoldChunk(f: Folded, c: Chunk): Folded {
    match c
    case Choice(_, _, delta, finish) =>
      var g := if finish.Some? then f.(finish := finish) else f;
      (match delta
       case TextPart(t) => g.(text := g.text + t)
       case ReasoningPart(t) => g.(reasoning := g.reasoning + t)
       case ToolOpen(i, id, name) => if i == |g.tools| then g.(tools := g.tools + [ToolCall(id, name, "")]) else g
       case ToolArgs(i, args) =>
         if i < |g.tools| then g.(tools := g.tools[i := g.tools[i].(arguments := g.tools[i].arguments + args)]) else g
       case _ => g)
    case UsageChunk(_, _, u) => f.(usage := Some(u))
    case _ => f
  }

  /** What a client that adds the chunks up ends with. */
  function Fold(cs: seq<Chunk>): Folded {
    if cs == [] then Folded("", "", [], None, None) else FoldChunk(Fold(cs[..|cs| - 1]), cs[|cs| - 1])
  }

  // ---- streaming form ------------------------------------------------------------------------

  /** `initial` is the serialised input of the block start; the tool's index is its place in `order`. */
  datatype Tool = Tool(initial: Json, hasArgs: bool, closed: bool)

  datatype Failure = BadJson | UndeclaredTool | UpstreamError | EarlyEnd

  /** `order` lists the tools by first appearance; `tools` finds them by upstream block index. */
  datatype Encoder = Encoder(id: string, model: string, tools: map<int, nat>, order: seq<Tool>, finished: bool,
                             inputUsage: Usage, outputUsage: Usage, includeUsage: bool, out: seq<Chunk>)

  function Fresh(includeUsage: bool): Encoder {
    Encoder("", "", map[], [], false, map[], map[], includeUsage, [])
  }

  function Emit(e: Encoder, delta: Content, finish: Option<string>): Encoder {
    e.(out := e.out + [Choice(e.id, e.model, delta, finish)])
  }

  function EmitArgs(e: Encoder, k: nat, arguments: string): Encoder
    requires k < |e.order|
  {
    Emit(e.(order := e.order[k := e.order[k].(hasArgs := true)]), ToolArgs(k, arguments), None)
  }

  /** The input of the block start is sent only when no argument delta came. */
  function FlushTool(e: Encoder, k: nat): Encoder
    requires k < |e.order|
  {
    if e.order[k].hasArgs then e else EmitArgs(e, k, e.order[k].initial)
  }

  /** Flushes the first `n` tools. */
  function FlushTools(e: Encoder, n: nat): (r: Encoder)
    requires n <= |e.order|
    ensures |r.order| == |e.order|
  {
    if n == 0 then e else FlushTool(FlushTools(e, n - 1), n - 1)
  }

  predicate Known(e: Encoder, i: int) {
    i in e.tools && e.tools[i] < |e.order|
  }

  function OnMessageStart(e: Encoder, m: Start): Encoder {
    var r := e.(id := ChunkId(if m.id == "" then "unknown" else m.id), model := m.model,
                inputUsage := if m.usage.Some? then m.usage.value else e.inputUsage);
    Emit(r, Role, None)
  }

  function OnBlockStart(e: Encoder, i: int, b: Block): Encoder {
    match b
    case Text(t) => if t == "" then e else Emit(e, TextPart(t), None)
    case Thinking(t) => if t == "" then e else Emit(e, ReasoningPart(t), None)
    case ToolUse(id, name, input) =>
      var k := |e.order|;
      var initial := if input.Some? then input.value else "{}";
      Emit(e.(tools := e.tools[i := k], order := e.order + [Tool(initial, false, false)]), ToolOpen(k, id, name), None)
    case OtherBlock => e
  }

  function OnBlockDelta(e: Encoder, i: int, delta: Delta): (Encoder, Option<Failure>) {
    match delta
    case TextDelta(t) => (if t == "" then e else Emit(e, TextPart(t), None), None)
    case ThinkingDelta(t) => (if t == "" then e else Emit(e, ReasoningPart(t), None), None)
    case InputJsonDelta(t) =>
      if !Known(e, i) then (e, Some(UndeclaredTool))
      else (if t == "" then e else EmitArgs(e, e.tools[i], t), None)
    case OtherDelta => (e, None)
  }

  function OnBlockStop(e: Encoder, i: int): Encoder {
    if !Known(e, i) then e
    else
      var k := e.tools[i];
      var r := FlushTool(e, k);
      r.(order := r.order[k := r.order[k].(closed := true)])
  }

  function OnMessageDelta(e: Encoder, reason: string, usage: Option<Usage>): Encoder {
    var r := if usage.Some? then e.(outputUsage := MergeRaw(e.outputUsage, usage.value)) else e;
    if reason == "" then r
    else Emit(FlushTools(r, |r.order|), Nothing, Some(MapStopReason(reason)))
  }

  function OnMessageStop(e: Encoder): Encoder {
    var r := FlushTools(e, |e.order|);
    var s := if r.includeUsage then
               r.(out := r.out + [UsageChunk(r.id, r.model, MapUsage(MergeRaw(r.inputUsage, r.outputUsage)))])
             else r;
    s.(out := s.out + [Done], finished := true)
  }

  function Dispatch(e: Encoder, ev: Event): (Encoder, Option<Failure>) {
    if e.finished then (e, None)
    else
      match ev
      case MessageStart(m) => (if m.None? then e else OnMessageStart(e, m.value), None)
      case BlockStart(i, b) => (OnBlockStart(e, i, b), None)
      case BlockDelta(i, delta) => OnBlockDelta(e, i, delta)
      case BlockStop(i) => (OnBlockStop(e, i), None)
      case MessageDelta(reason, usage) => (OnMessageDelta(e, reason, usage), None)
      case MessageStop => (OnMessageStop(e), None)
      case ErrorEvent => (e, Some(UpstreamError))
      case Malformed => (e, Some(BadJson))
      case Ping => (e, None)
  }

  predicate CanFinishGracefully(e: Encoder) {
    e.id != "" && forall k :: 0 <= k < |e.order| ==> e.order[k].closed
  }

  function Fail(e: Encoder, mode: Mode): Encoder {
    if e.finished then e
    else if mode == Abort then e.(finished := true)
    else if mode == Graceful && CanFinishGracefully(e) then
      var r := Emit(e, Nothing, Some("stop"));
      r.(out := r.out + [Done], finished := true)
    else
      e.(out := e.out + [ErrorChunk(if mode == Legacy then "upstream_stream_error" else "overloaded_error")],
         finished := true)
  }

  /** Dispatches events until one fails. */
  function Feed(e: Encoder, events: seq<Event>): (Encoder, Option<Failure>)
    decreases |events|
  {
    if events == [] then (e, None)
    else
      var (r, failure) := Dispatch(e, events[0]);
      if failure.Some? then (r, failure) else Feed(r, events[1..])
  }

  /** A whole response: the events, then the ending. */
  function Reencode(events: seq<Event>, includeUsage: bool, mode: Mode): (Encoder, Option<Failure>) {
    var (e, failure) := Feed(Fresh(includeUsage), events);
    if failure.Some? then (Fail(e, mode), failure)
    else if !e.finished then (Fail(e, mode), Some(EarlyEnd))
    else (e, None)
  }
}
