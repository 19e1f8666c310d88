// The Responses encoder as the program runs it, and the loop of the one-shot converter.
module ResponsesEncoder {
  import opened Common
  import opened TokenUsage
  import opened AnthropicMessages
  import opened ResponsesSpec

  /** One pass over the blocks, collecting texts, reasoning and calls apart. */
  method MessageToResponsesOutput(m: Message) returns (output: seq<Item>)
    ensures output == OneShotOutput(m)
  {
    var texts, anyText, reasoning, calls := "", false, "", [];
    for i := 0 to |m.content|
      invariant texts == TextOf(m.content[..i]) && reasoning == ThinkingOf(m.content[..i])
      invariant calls == CallsOf(m.content[..i])
      invariant anyText <==> exists b :: b in m.content[..i] && b.Text?
    {
      assert m.content[..i + 1][..i] == m.content[..i];
      assert m.content[..i + 1] == m.content[..i] + [m.content[i]];
      match m.content[i] {
        case Text(t) => texts, anyText := texts + t, true;
        case Thinking(t) => reasoning := reasoning + t;
        case ToolUse(id, name, _) =>
          calls := calls + [Item(ToolKind, OfCall(id), name, Arguments(m.content[i]), IsCompleted)];
        case OtherBlock =>
      }
    }
    assert m.content[..|m.content|] == m.content;
    output := [];
    if reasoning != "" { output := output + [Item(ThinkingKind, Numbered(ThinkingKind, m.id, 0), "", reasoning, IsCompleted)]; }
    if anyText { output := output + [Item(TextKind, Numbered(TextKind, m.id, 0), "", texts, IsCompleted)]; }
    output := output + calls;
  }

  class Reencoder {
    var respId: string
    var model: string
    var finished: bool
    var stopReason: string
    var sequence: nat
    var inputUsage: Usage
    var outputUsage: Usage
    var blocks: map<int, nat>
    var items: seq<Entry>
    var texts: nat
    var thoughts: nat
    var written: seq<Out>

    ghost function State(): Encoder
      reads this
    {
      Encoder(respId, model, finished, stopReason, sequence, inputUsage, outputUsage, blocks, items, texts, thoughts, written)
    }

    constructor ()
      ensures State() == FRESH
    {
      respId, model, finished, stopReason, sequence := "", "", false, "", 0;
      inputUsage, outputUsage, blocks, items, texts, thoughts, written := map[], map[], map[], [], 0, 0, [];
    }

    method Emit(body: Body)
      modifies this`written, this`sequence
      ensures State() == ResponsesSpec.Emit(old(State()), body)
    {
      written := written + [Out(sequence, body)];
      sequence := sequence + 1;
    }

    method Totalled() returns (usage: Totals)
      ensures usage == ResponsesUsage(MergeRaw(inputUsage, outputUsage))
    {
      var merged := MergeRawUsage(inputUsage, outputUsage);
      usage := ResponsesUsage(merged);
    }

    method BuildEnvelope(status: Status) returns (env: Envelope)
      ensures env == EnvelopeOf(State(), status)
    {
      var output := [];
      for k := 0 to |items|
        invariant |output| == k && forall j :: 0 <= j < k ==> output[j] == items[j].item
      {
        output := output + [items[k].item];
      }
      var usage := None;
      if status != InProgress {
        var totals := Totalled();
        usage := Some(totals);
      }
      env := Envelope("resp_" + respId, model, status, output, usage);
    }

    method OnMessageStart(m: Option<Start>)
      modifies this
      ensures State() == ResponsesSpec.OnMessageStart(old(State()), m)
    {
      respId, model, inputUsage := "unknown", "", map[];
      if m.Some? {
        if m.value.id != "" { respId := m.value.id; }
        model := m.value.model;
        if m.value.usage.Some? { inputUsage := m.value.usage.value; }
      }
      var env := BuildEnvelope(InProgress);
      Emit(Created(env));
      env := BuildEnvelope(InProgress);
      Emit(Started(env));
    }

    method AppendDelta(k: nat, text: string)
      requires k < |items|
      modifies this`written, this`sequence, this`items
      ensures State() == ResponsesSpec.AppendDelta(old(State()), k, text)
    {
      if text == "" { return; }
      var b := items[k];
      items := items[k := b.(item := b.item.(text := b.item.text + text), hasArgs := b.hasArgs || b.item.kind == ToolKind)];
      Emit(TextPart(k, b.item.id, text));
    }

    method AddItem(i: int, kind: Kind, id: ItemId, name: string, initialArgs: Json)
      modifies this
      ensures State() == ResponsesSpec.AddItem(old(State()), i, kind, id, name, initialArgs)
    {
      var k, item := |items|, Item(kind, id, name, "", InProgress);
      blocks := blocks[i := k];
      items := items + [Entry(item, initialArgs, false, false)];
      if kind == TextKind { texts := texts + 1; }
      if kind == ThinkingKind { thoughts := thoughts + 1; }
      Emit(ItemAdded(k, item));
      if kind != ToolKind { Emit(PartAdded(k, id, "")); }
    }

    method OpenText(i: int, kind: Kind) returns (k: nat)
      requires kind != ToolKind
      modifies this
      ensures State() == ResponsesSpec.OpenText(old(State()), i, kind)
      ensures k == |old(items)| < |items|
    {
      k := |items|;
      AddItem(i, kind, Numbered(kind, respId, if kind == TextKind then texts else thoughts), "", "");
    }

    method OnBlockStart(i: int, b: Block) returns (failure: Option<Failure>)
      modifies this
      ensures (State(), failure) == ResponsesSpec.OnBlockStart(old(State()), i, b)
    {
      failure := None;
      match b {
        case Text(t) =>
          var k := OpenText(i, TextKind);
          AppendDelta(k, t);
        case Thinking(t) =>
          var k := OpenText(i, ThinkingKind);
          AppendDelta(k, t);
        case ToolUse(id, name, input) =>
          if id == "" || name == "" {
            failure := Some(UnnamedTool);
          } else {
            AddItem(i, ToolKind, OfCall(id), name, if input.Some? then input.value else "{}");
          }
        case OtherBlock =>
      }
    }

    method OnBlockDelta(i: int, delta: Delta) returns (failure: Option<Failure>)
      modifies this
      ensures (State(), failure) == ResponsesSpec.OnBlockDelta(old(State()), i, delta)
    {
      failure := None;
      if delta.OtherDelta? || delta.text == "" { return; }
      var kind := DeltaKind(delta);
      if i in blocks && blocks[i] < |items| && items[blocks[i]].item.kind == kind {
        AppendDelta(blocks[i], delta.text);
      } else if kind == ToolKind {
        failure := Some(UndeclaredTool);
      } else {
        var k := OpenText(i, kind);
        AppendDelta(k, delta.text);
      }
    }

    method OnBlockStop(i: int)
      modifies this`items
      ensures State() == ResponsesSpec.OnBlockStop(old(State()), i)
    {
      if i in blocks && blocks[i] < |items| {
        items := items[blocks[i] := items[blocks[i]].(closed := true)];
      }
    }

    method FinishBlock(k: nat, status: Status)
      requires k < |items|
      modifies this`written, this`sequence, this`items
      ensures State() == ResponsesSpec.FinishBlock(old(State()), k, status)
    {
      items := items[k := items[k].(item := items[k].item.(status := status))];
      var id := items[k].item.id;
      if items[k].item.kind == ToolKind {
        if !items[k].hasArgs { AppendDelta(k, items[k].initialArgs); }
        Emit(ValueDone(k, id, items[k].item.text));
      } else {
        Emit(ValueDone(k, id, items[k].item.text));
        Emit(PartDone(k, id, items[k].item.text));
      }
      Emit(ItemDone(k, items[k].item));
    }

    method OnMessageStop()
      modifies this
      ensures State() == ResponsesSpec.OnMessageStop(old(State()))
    {
      var status := Completion(stopReason);
      for k := 0 to |items|
        invariant |items| == |old(items)| && stopReason == old(stopReason)
        invariant State() == FinishBlocks(old(State()), k)
      {
        FinishBlock(k, if status == Incomplete && k + 1 == |items| then Incomplete else IsCompleted);
      }
      finished := true;
      var env := BuildEnvelope(status);
      assert env == EnvelopeOf(FinishBlocks(old(State()), |items|), status);
      Emit(Finished(env));
    }

    method Dispatch(ev: Event) returns (failure: Option<Failure>)
      modifies this
      ensures (State(), failure) == ResponsesSpec.Dispatch(old(State()), ev)
    {
      failure := None;
      if finished { return; }
      match ev {
        case MessageStart(m) => OnMessageStart(m);
        case BlockStart(i, b) => failure := OnBlockStart(i, b);
        case BlockDelta(i, delta) => failure := OnBlockDelta(i, delta);
        case BlockStop(i) => OnBlockStop(i);
        case MessageDelta(reason, usage) =>
          if usage.Some? { outputUsage := MergeRawUsage(outputUsage, usage.value); }
          if reason != "" { stopReason := reason; }
        case MessageStop => OnMessageStop();
        case ErrorEvent => failure := Some(UpstreamError);
        case Malformed => failure := Some(BadJson);
        case Ping =>
      }
    }

    method CanFinishGracefully() returns (ok: bool)
      ensures ok <==> ResponsesSpec.CanFinishGracefully(State())
    {
      for k := 0 to |items|
        invariant forall j :: 0 <= j < k && items[j].item.kind == ToolKind ==> items[j].closed
      {
        if items[k].item.kind == ToolKind && !items[k].closed { return false; }
      }
      return true;
    }

    method MarkAllIncomplete()
      modifies this`items
      ensures items == MarkIncomplete(old(items))
    {
      for k := 0 to |items|
        invariant |items| == |old(items)|
        invariant forall j :: 0 <= j < k ==> items[j] == old(items)[j].(item := old(items)[j].item.(status := Incomplete))
        invariant forall j :: k <= j < |items| ==> items[j] == old(items)[j]
      {
        items := items[k := items[k].(item := items[k].item.(status := Incomplete))];
      }
    }

    method Fail(mode: Mode)
      modifies this
      ensures State() == ResponsesSpec.Fail(old(State()), mode)
    {
      if finished { return; }
      if mode == Abort {
        finished := true;
        return;
      }
      if respId == "" { OnMessageStart(None); }
      var graceful := CanFinishGracefully();
      if mode == Graceful && graceful {
        OnMessageStop();
      } else {
        MarkAllIncomplete();
        finished := true;
        var env := BuildEnvelope(IsFailed);
        Emit(Failed(env, if mode == Legacy then "server_error" else "overloaded_error"));
      }
    }

    /** Serves one response from a fresh encoder. */
    method ReencodeEvents(events: seq<Event>, mode: Mode) returns (failure: Option<Failure>)
      requires State() == FRESH
      modifies this
      ensures (State(), failure) == Reencode(events, mode)
    {
      failure := None;
      var n := 0;
      while n < |events| && failure.None?
        invariant n <= |events|
        invariant failure.None? ==> Feed(FRESH, events) == Feed(State(), events[n..])
        invariant failure.Some? ==> Feed(FRESH, events) == (State(), failure)
        decreases |events| - n, failure.None?
      {
        assert events[n..][1..] == events[n + 1..];
        failure := Dispatch(events[n]);
        n := n + 1;
      }
      if failure.Some? {
        Fail(mode);
      } else if !finished {
        failure := Some(EarlyEnd);
        Fail(mode);
      }
    }
  }
}
