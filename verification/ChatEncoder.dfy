// The streaming encoder as the program runs it: an object updated by each event, and the loop over a
// message's blocks.
module ChatEncoder {
  import opened Common
  import opened TokenUsage
  import opened AnthropicMessages
  import opened ChatSpec

  /** One pass over the blocks; its three accumulators are the one-shot form's text, reasoning and tools. */
  method MessageToOpenAI(content: seq<Block>) returns (texts: string, reasoning: string, toolCalls: seq<ToolCall>)
    ensures texts == TextOf(content) && reasoning == ThinkingOf(content) && toolCalls == ToolsOf(content)
  {
    texts, reasoning, toolCalls := "", "", [];
    for i := 0 to |content|
      invariant texts == TextOf(content[..i]) && reasoning == ThinkingOf(content[..i])
      invariant toolCalls == ToolsOf(content[..i])
    {
      assert content[..i + 1][..i] == content[..i];
      match content[i] {
        case Text(t) => texts := texts + t;
        case Thinking(t) => reasoning := reasoning + t;
        case ToolUse(id, name, _) => toolCalls := toolCalls + [ToolCall(id, name, Arguments(content[i]))];
        case OtherBlock =>
      }
    }
    assert content[..|content|] == content;
  }

  class SseEncoder {
    var id: string
    var model: string
    var tools: map<int, nat>
    var toolOrder: seq<Tool>
    var finished: bool
    var inputUsage: Usage
    var outputUsage: Usage
    const includeUsage: bool
    var written: seq<Chunk>

    ghost function State(): Encoder
      reads this
    {
      Encoder(id, model, tools, toolOrder, finished, inputUsage, outputUsage, includeUsage, written)
    }

    constructor (includeUsage: bool)
      ensures State() == Fresh(includeUsage)
    {
      id, model, tools, toolOrder, finished := "", "", map[], [], false;
      inputUsage, outputUsage, written := map[], map[], [];
      this.includeUsage := includeUsage;
    }

    method Write(c: Chunk)
      modifies this`written
      ensures written == old(written) + [c]
    {
      written := written + [c];
    }

    method EmitChunk(delta: Content, finish: Option<string>)
      modifies this`written
      ensures State() == Emit(old(State()), delta, finish)
    {
      Write(Choice(id, model, delta, finish));
    }

    method EmitToolArguments(k: nat, arguments: string)
      requires k < |toolOrder|
      modifies this`written, this`toolOrder
      ensures State() == EmitArgs(old(State()), k, arguments)
    {
      toolOrder := toolOrder[k := toolOrder[k].(hasArgs := true)];
      EmitChunk(ToolArgs(k, arguments), None);
    }

    method FlushToolInput(k: nat)
      requires k < |toolOrder|
      modifies this`written, this`toolOrder
      ensures State() == FlushTool(old(State()), k)
    {
      if !toolOrder[k].hasArgs {
        EmitToolArguments(k, toolOrder[k].initial);
      }
    }

    method FlushAll()
      modifies this`written, this`toolOrder
      ensures State() == FlushTools(old(State()), |old(State()).order|)
    {
      for k := 0 to |toolOrder|
        invariant |toolOrder| == |old(toolOrder)|
        invariant State() == FlushTools(old(State()), k)
      {
        FlushToolInput(k);
      }
    }

    method OnMessageStart(m: Start)
      modifies this
      ensures State() == ChatSpec.OnMessageStart(old(State()), m)
    {
      id := ChunkId(if m.id == "" then "unknown" else m.id);
      model := m.model;
      if m.usage.Some? {
        inputUsage := m.usage.value;
      }
      EmitChunk(Role, None);
    }

    method OnBlockStart(i: int, b: Block)
      modifies this
      ensures State() == ChatSpec.OnBlockStart(old(State()), i, b)
    {
      match b {
        case Text(t) => if t != "" { EmitChunk(TextPart(t), None); }
        case Thinking(t) => if t != "" { EmitChunk(ReasoningPart(t), None); }
        case ToolUse(toolId, name, input) =>
          var k := |toolOrder|;
          tools := tools[i := k];
          toolOrder := toolOrder + [Tool(if input.Some? then input.value else "{}", false, false)];
          EmitChunk(ToolOpen(k, toolId, name), None);
        case OtherBlock =>
      }
    }

    method OnBlockDelta(i: int, delta: Delta) returns (failure: Option<Failure>)
      modifies this
      ensures (State(), failure) == ChatSpec.OnBlockDelta(old(State()), i, delta)
    {
      failure := None;
      match delta {
        case TextDelta(t) => if t != "" { EmitChunk(TextPart(t), None); }
        case ThinkingDelta(t) => if t != "" { EmitChunk(ReasoningPart(t), None); }
        case InputJsonDelta(t) =>
          if !(i in tools && tools[i] < |toolOrder|) {
            failure := Some(UndeclaredTool);
          } else if t != "" {
            EmitToolArguments(tools[i], t);
          }
        case OtherDelta =>
      }
    }

    method OnBlockStop(i: int)
      modifies this
      ensures State() == ChatSpec.OnBlockStop(old(State()), i)
    {
      if i in tools && tools[i] < |toolOrder| {
        var k := tools[i];
        FlushToolInput(k);
        toolOrder := toolOrder[k := toolOrder[k].(closed := true)];
      }
    }

    method OnMessageDelta(reason: string, usage: Option<Usage>)
      modifies this
      ensures State() == ChatSpec.OnMessageDelta(old(State()), reason, usage)
    {
      if usage.Some? {
        outputUsage := MergeRawUsage(outputUsage, usage.value);
      }
      if reason != "" {
        FlushAll();
        EmitChunk(Nothing, Some(MapStopReason(reason)));
      }
    }

    method OnMessageStop()
      modifies this
      ensures State() == ChatSpec.OnMessageStop(old(State()))
    {
      FlushAll();
      if includeUsage {
        var merged := MergeRawUsage(inputUsage, outputUsage);
        Write(UsageChunk(id, model, MapUsage(merged)));
      }
      Write(Done);
      finished := true;
    }

    method Dispatch(ev: Event) returns (failure: Option<Failure>)
      modifies this
      ensures (State(), failure) == ChatSpec.Dispatch(old(State()), ev)
    {
      failure := None;
      if !finished {
        match ev {
          case MessageStart(m) => if m.Some? { OnMessageStart(m.value); }
          case BlockStart(i, b) => OnBlockStart(i, b);
          case BlockDelta(i, delta) => failure := OnBlockDelta(i, delta);
          case BlockStop(i) => OnBlockStop(i);
          case MessageDelta(reason, usage) => OnMessageDelta(reason, usage);
          case MessageStop => OnMessageStop();
          case ErrorEvent => failure := Some(UpstreamError);
          case Malformed => failure := Some(BadJson);
          case Ping =>
        }
      }
    }

    method CanFinishGracefully() returns (ok: bool)
      ensures ok <==> ChatSpec.CanFinishGracefully(State())
    {
      if id == "" { return false; }
      for k := 0 to |toolOrder|
        invariant forall j :: 0 <= j < k ==> toolOrder[j].closed
      {
        if !toolOrder[k].closed { return false; }
      }
      return true;
    }

    method Fail(mode: Mode)
      modifies this
      ensures State() == ChatSpec.Fail(old(State()), mode)
    {
      if finished { return; }
      var graceful := CanFinishGracefully();
      finished := true;
      if mode == Abort { return; }
      if mode == Graceful && graceful {
        EmitChunk(Nothing, Some("stop"));
        Write(Done);
      } else {
        Write(ErrorChunk(if mode == Legacy then "upstream_stream_error" else "overloaded_error"));
      }
    }

    /** Serves one response from a fresh encoder. */
    method ReencodeEvents(events: seq<Event>, mode: Mode) returns (failure: Option<Failure>)
      requires State() == Fresh(includeUsage)
      modifies this
      ensures (State(), failure) == Reencode(events, includeUsage, mode)
    {
      failure := None;
      var n := 0;
      while n < |events| && failure.None?
        invariant n <= |events|
        invariant failure.None? ==> Feed(Fresh(includeUsage), events) == Feed(State(), events[n..])
        invariant failure.Some? ==> Feed(Fresh(includeUsage), events) == (State(), failure)
        decreases |events| - n, failure.None?
      {
        assert events[n..][1..] == events[n + 1..];
        failure := Dispatch(events[n]);
        n := n + 1;
      }
      if failure.Some? {
        Fail(mode);
      } else if !finished {
        failure := Some(EarlyEnd);
        Fail(mode);
      }
    }
  }
}
