// When the streaming form of Chat Completions fails, with what, and how the stream then ends.
module ChatFailures {
  import opened Common
  import opened TokenUsage
  import opened AnthropicMessages
  import opened ChatSpec

  /** A tool was opened at this index by one of the first `n` events. */
  predicate ToolOpened(events: seq<Event>, n: nat, i: int)
    requires n <= |events|
  {
    exists j :: 0 <= j < n && OpensTool(events[j], i)
  }

  predicate OpensTool(ev: Event, i: int) { ev.BlockStart? && ev.index == i && ev.block.ToolUse? }

  /** What is wrong with the n-th event, if anything. */
  function Fault(events: seq<Event>, n: nat): Option<Failure>
    requires n < |events|
  {
    match events[n]
    case ErrorEvent => Some(UpstreamError)
    case Malformed => Some(BadJson)
    case BlockDelta(i, InputJsonDelta(_)) => if ToolOpened(events, n, i) then None else Some(UndeclaredTool)
    case _ => None
  }

  /** Nothing is wrong with the first `n` events, and none of them ends the message. */
  predicate Clean(events: seq<Event>, n: nat)
    requires n <= |events|
  {
    forall k :: 0 <= k < n ==> Fault(events, k).None? && events[k] != MessageStop
  }

  /** The encoder has read these events: it is unfinished, and knows the tools they opened. */
  ghost predicate Reads(e: Encoder, events: seq<Event>) {
    && !e.finished && (forall i :: Known(e, i) <==> ToolOpened(events, |events|, i))
    && (forall i :: i in e.tools ==> e.tools[i] < |e.order|)
  }

  lemma ToolOpenedMore(events: seq<Event>, ev: Event, i: int)
    ensures ToolOpened(events + [ev], |events| + 1, i) <==> ToolOpened(events, |events|, i) || OpensTool(ev, i)
  {
    var more := events + [ev];
    assert forall j :: 0 <= j < |events| ==> more[j] == events[j];
    assert more[|events|] == ev;
  }

  lemma FlushKeepsTools(e: Encoder, n: nat)
    requires n <= |e.order|
    ensures var r := FlushTools(e, n);
            |r.order| == |e.order| && r.tools == e.tools && r.finished == e.finished && r.id == e.id && e.out <= r.out
            && forall k :: 0 <= k < |e.order| ==> r.order[k].closed == e.order[k].closed
  {}

  lemma FaultOfPrefix(events: seq<Event>, rest: seq<Event>, n: nat)
    requires n < |events|
    ensures Fault(events + rest, n) == Fault(events, n)
  {
    assert forall j :: 0 <= j < |events| ==> (events + rest)[j] == events[j];
  }

  lemma ReadsMore(e: Encoder, r: Encoder, events: seq<Event>, ev: Event)
    requires Reads(e, events) && !r.finished && (forall i :: Known(r, i) <==> Known(e, i) || OpensTool(ev, i))
    requires forall i :: i in r.tools ==> r.tools[i] < |r.order|
    ensures Reads(r, events + [ev])
  {
    hide Known;
    var more := events + [ev];
    forall i ensures Known(r, i) <==> ToolOpened(more, |more|, i) { ToolOpenedMore(events, ev, i); }
  }

  lemma FaultHere(e: Encoder, events: seq<Event>, ev: Event)
    requires Reads(e, events)
    ensures Fault(events + [ev], |events|) ==
              match ev
              case ErrorEvent => Some(UpstreamError)
              case Malformed => Some(BadJson)
              case BlockDelta(i, InputJsonDelta(_)) => if Known(e, i) then None else Some(UndeclaredTool)
              case _ => None
  {
    hide Known;
    var more := events + [ev];
    assert more[|events|] == ev;
    forall i ensures ToolOpened(more, |events|, i) <==> ToolOpened(events, |events|, i) {
      assert forall j :: 0 <= j < |events| ==> more[j] == events[j];
    }
  }

  lemma ReadsFlush(e: Encoder, q: Encoder, n: nat)
    requires q.tools == e.tools && q.order == e.order && q.finished == e.finished && e.out <= q.out && n <= |q.order|
    ensures var r := FlushTools(q, n);
            r.tools == e.tools && |r.order| == |e.order| && r.finished == e.finished && e.out <= r.out
  {
    FlushKeepsTools(q, n);
  }

  ghost predicate ToolsInRange(e: Encoder) { forall i :: i in e.tools ==> e.tools[i] < |e.order| }

  /** What an event does to the tools that are known. */
  ghost predicate Learns(e: Encoder, r: Encoder, ev: Event) {
    !r.finished && ToolsInRange(r) && forall i :: Known(r, i) <==> Known(e, i) || OpensTool(ev, i)
  }

  lemma SameTools(e: Encoder, r: Encoder, ev: Event)
    requires !r.finished && ToolsInRange(e) && r.tools == e.tools && |r.order| == |e.order| && forall i :: !OpensTool(ev, i)
    ensures Learns(e, r, ev)
  {}

  lemma StartLearns(e: Encoder, i: int, b: Block)
    requires !e.finished && ToolsInRange(e)
    ensures Learns(e, OnBlockStart(e, i, b), BlockStart(i, b)) && e.out <= OnBlockStart(e, i, b).out
  {}

  lemma DeltaLearns(e: Encoder, reason: string, usage: Option<Usage>)
    requires !e.finished && ToolsInRange(e)
    ensures var r := OnMessageDelta(e, reason, usage);
            Learns(e, r, MessageDelta(reason, usage)) && e.out <= r.out
  {
    hide FlushTools, MergeRaw, Learns, MapStopReason;
    var q := if usage.Some? then e.(outputUsage := MergeRaw(e.outputUsage, usage.value)) else e;
    ReadsFlush(e, q, |q.order|);
    SameTools(e, OnMessageDelta(e, reason, usage), MessageDelta(reason, usage));
  }

  lemma StopFinishes(e: Encoder)
    ensures OnMessageStop(e).finished && e.out <= OnMessageStop(e).out
  {
    ReadsFlush(e, e, |e.order|);
    hide FlushTools, MergeRaw;
  }

  lemma DispatchLearns(e: Encoder, ev: Event)
    requires !e.finished && ToolsInRange(e)
    ensures var (r, failure) := Dispatch(e, ev);
            && e.out <= r.out && (failure.Some? ==> r == e)
            && (failure.None? ==> (r.finished <==> ev == MessageStop))
            && (failure.None? && ev != MessageStop ==> Learns(e, r, ev))
  {
    hide FlushTools, Learns;
    var (r, failure) := Dispatch(e, ev);
    match ev
    case BlockStart(i, b) =>
      hide OnBlockStart;
      StartLearns(e, i, b);
      assert !r.finished by { StartUnfinished(e, i, b); }
    case MessageDelta(reason, usage) =>
      DeltaLearns(e, reason, usage);
      LearnsUnfinished(e, r, ev);
      hide OnMessageDelta;
    case MessageStop =>
      hide OnMessageStop;
      StopFinishes(e);
    case _ =>
      hide OnBlockStart, OnMessageDelta, OnMessageStop;
      BlocksSame(e, ev);
      hide OnBlockDelta, OnBlockStop, OnMessageStart;
      if failure.None? { SameTools(e, r, ev); }
  }

  /** The same tools, and more output. */
  predicate Continues(e: Encoder, r: Encoder) {
    r.tools == e.tools && |r.order| == |e.order| && r.finished == e.finished && e.out <= r.out
  }

  lemma BlocksSame(e: Encoder, ev: Event)
    ensures ev.BlockDelta? ==> Continues(e, OnBlockDelta(e, ev.index, ev.delta).0)
                               && (OnBlockDelta(e, ev.index, ev.delta).1.Some? ==> OnBlockDelta(e, ev.index, ev.delta).0 == e)
    ensures ev.BlockStop? ==> Continues(e, OnBlockStop(e, ev.index))
    ensures ev.MessageStart? && ev.message.Some? ==> Continues(e, OnMessageStart(e, ev.message.value))
  {
    hide OnBlockDelta, OnBlockStop, OnMessageStart, Continues;
    if ev.BlockDelta? { DeltaSame(e, ev.index, ev.delta); }
    if ev.BlockStop? { StopSame(e, ev.index); }
    if ev.MessageStart? && ev.message.Some? { StartSame(e, ev.message.value); }
  }

  lemma DeltaSame(e: Encoder, i: int, delta: Delta)
    ensures var (r, failure) := OnBlockDelta(e, i, delta);
            Continues(e, r) && (failure.Some? ==> r == e)
  {}

  lemma StopSame(e: Encoder, i: int)
    ensures Continues(e, OnBlockStop(e, i))
  {}

  lemma StartSame(e: Encoder, m: Start)
    ensures Continues(e, OnMessageStart(e, m))
  {}

  lemma StartUnfinished(e: Encoder, i: int, b: Block)
    ensures OnBlockStart(e, i, b).finished == e.finished
  {}

  lemma LearnsUnfinished(e: Encoder, r: Encoder, ev: Event)
    requires Learns(e, r, ev)
    ensures !r.finished
  {}

  /** One event: it fails exactly with its fault, and otherwise the encoder has read it. */
  lemma ReadsOne(e: Encoder, events: seq<Event>, ev: Event)
    requires Reads(e, events)
    ensures var (r, failure) := Dispatch(e, ev);
            && failure == Fault(events + [ev], |events|)
            && (failure.Some? ==> r == e)
            && (failure.None? ==> (r.finished <==> ev == MessageStop))
            && (failure.None? && ev != MessageStop ==> Reads(r, events + [ev]))
            && e.out <= r.out
  {
    FaultHere(e, events, ev);
    DispatchLearns(e, ev);
    var (r, failure) := Dispatch(e, ev);
    if failure.None? && ev != MessageStop {
      hide Dispatch;
      ReadsMore(e, r, events, ev);
    }
    hide FlushTools, ToolOpened, MergeRaw, Reads;
  }

  lemma CleanAll(events: seq<Event>)
    requires Clean(events, |events|)
    ensures FailsAs(events, false, None)
  {
    hide Fault;
  }

  /** The first event that is wrong or ends the message is the only one. */
  lemma DecidedAt(events: seq<Event>, n: nat)
    requires n < |events| && Clean(events, n) && (Fault(events, n).Some? || events[n] == MessageStop)
    ensures FailsAs(events, Fault(events, n).None?, Fault(events, n))
  {
    assert events[n] == MessageStop ==> Fault(events, n).None?;
    hide Fault;
    assert forall m :: 0 <= m < |events| && Clean(events, m) ==> m <= n;
    assert forall m :: 0 <= m < n ==> Fault(events, m).None? && events[m] != MessageStop;
  }

  lemma {:induction false} FeedReads(e: Encoder, before: seq<Event>, events: seq<Event>)
    requires Reads(e, before) && Clean(before, |before|)
    ensures var (r, failure) := Feed(e, events);
            && e.out <= r.out
            && FailsAs(before + events, r.finished, failure)
            && (!r.finished && failure.None? ==> Reads(r, before + events))
    decreases |events|
  {
    if events == [] {
      assert before + events == before;
      CleanAll(before);
      hide Fault;
    } else {
      var ev, all := events[0], before + events;
      ReadsOne(e, before, ev);
      var (r, failure) := Dispatch(e, ev);
      assert events == [ev] + events[1..] && all == (before + [ev]) + events[1..];
      forall k | 0 <= k <= |before| ensures Fault(all, k) == Fault(before + [ev], k) {
        FaultOfPrefix(before + [ev], events[1..], k);
      }
      CleanMore(before, ev, events[1..]);
      assert all[|before|] == ev;
      hide Dispatch, Reads, Fault, FailsAs;
      if failure.Some? || r.finished {
        DecidedAt(all, |before|);
        if r.finished { FeedStops(r, events[1..]); }
      } else {
        FeedReads(r, before + [ev], events[1..]);
      }
    }
  }

  lemma FeedStops(e: Encoder, events: seq<Event>)
    requires e.finished
    ensures Feed(e, events) == (e, None)
    decreases |events|
  {}

  lemma CleanMore(before: seq<Event>, ev: Event, rest: seq<Event>)
    requires Clean(before, |before|)
    ensures var all := before + ([ev] + rest);
            Clean(all, |before|) && (Fault(before + [ev], |before|).None? && ev != MessageStop ==> Clean(before + [ev], |before| + 1))
  {
    forall k | 0 <= k < |before|
      ensures Fault(before + ([ev] + rest), k) == Fault(before, k) && Fault(before + [ev], k) == Fault(before, k)
    {
      FaultOfPrefix(before, [ev] + rest, k);
      FaultOfPrefix(before, [ev], k);
    }
    hide Fault;
    assert (before + [ev])[|before|] == ev;
  }

  /** Whether the stream fails is decided by its first event that is wrong or ends the message. */
  ghost predicate FailsAs(events: seq<Event>, finished: bool, failure: Option<Failure>) {
    && (finished <==> exists n :: 0 <= n < |events| && Clean(events, n) && Fault(events, n).None? && events[n] == MessageStop)
    && (!finished && failure.None? <==> Clean(events, |events|))
    && (failure.Some? ==> !finished)
    && (forall f :: failure == Some(f) <==> exists n :: 0 <= n < |events| && Clean(events, n) && Fault(events, n) == Some(f))
  }

  // ---- which tools are closed -----------------------------------------------------------------

  /** Every tool opened by the first `n` events is stopped by a later one of them, before its index is opened anew. */
  predicate AllStopped(events: seq<Event>, n: nat)
    requires n <= |events|
  {
    forall j :: 0 <= j < n && events[j].BlockStart? && events[j].block.ToolUse? ==> Stopped(events, j, n)
  }

  predicate Stopped(events: seq<Event>, j: nat, n: nat)
    requires j < n <= |events| && events[j].BlockStart?
  {
    exists l :: j < l < n && events[l] == BlockStop(events[j].index) &&
                forall m :: j < m < l ==> !OpensTool(events[m], events[j].index)
  }

  predicate StartsTool(ev: Event) { ev.BlockStart? && ev.block.ToolUse? }

  /** `opens` lists the events that opened tools, in order, and `tools` finds the latest of them for each index. */
  ghost predicate Lists(tools: map<int, nat>, events: seq<Event>, opens: seq<nat>) {
    && (forall k, l :: 0 <= k < l < |opens| ==> opens[k] < opens[l])
    && (forall k :: 0 <= k < |opens| ==> opens[k] < |events| && StartsTool(events[opens[k]]))
    && (forall j :: 0 <= j < |events| && StartsTool(events[j]) ==> j in opens)
    && (forall i :: i in tools ==> tools[i] < |opens| && events[opens[tools[i]]].index == i)
    && (forall k :: 0 <= k < |opens| ==> events[opens[k]].index in tools && k <= tools[events[opens[k]].index])
  }

  ghost predicate Tracks(e: Encoder, events: seq<Event>, opens: seq<nat>) {
    && |opens| == |e.order| && Lists(e.tools, events, opens) && ClosedRight(e.order, events, opens)
    && (e.id != "" <==> Announced(events))
  }

  ghost predicate ClosedRight(order: seq<Tool>, events: seq<Event>, opens: seq<nat>) {
    |opens| == |order| && forall k :: 0 <= k < |opens| ==> Says(order[k], events, opens[k])
  }

  ghost predicate Says(tool: Tool, events: seq<Event>, j: nat) {
    j < |events| && events[j].BlockStart? && (tool.closed <==> Stopped(events, j, |events|))
  }

  lemma StoppedMore(events: seq<Event>, ev: Event, j: nat)
    requires j < |events| && events[j].BlockStart?
    ensures Stopped(events + [ev], j, |events| + 1) <==>
              || Stopped(events, j, |events|)
              || (ev == BlockStop(events[j].index) && forall m :: j < m < |events| ==> !OpensTool(events[m], events[j].index))
  {
    var more := events + [ev];
    assert forall k :: 0 <= k < |events| ==> more[k] == events[k];
    assert more[|events|] == ev;
  }

  ghost predicate Announced(events: seq<Event>) {
    exists j :: 0 <= j < |events| && events[j].MessageStart? && events[j].message.Some?
  }

  lemma AnnouncedMore(events: seq<Event>, ev: Event)
    ensures Announced(events + [ev]) <==> Announced(events) || (ev.MessageStart? && ev.message.Some?)
  {
    var more := events + [ev];
    assert forall j :: 0 <= j < |events| ==> more[j] == events[j];
    assert more[|events|] == ev;
  }

  /** The tools are as they were, but perhaps for their arguments. */
  predicate SameOrder(e: Encoder, r: Encoder) {
    r.tools == e.tools && |r.order| == |e.order| && forall k :: 0 <= k < |e.order| ==> r.order[k].closed == e.order[k].closed
  }

  lemma ListsSame(tools: map<int, nat>, events: seq<Event>, opens: seq<nat>, ev: Event)
    requires Lists(tools, events, opens) && !StartsTool(ev)
    ensures Lists(tools, events + [ev], opens)
  {
    var more := events + [ev];
    assert forall j :: 0 <= j < |events| ==> more[j] == events[j];
    assert more[|events|] == ev;
  }

  lemma ListsOpen(tools: map<int, nat>, events: seq<Event>, opens: seq<nat>, i: int, b: Block)
    requires Lists(tools, events, opens) && b.ToolUse?
    ensures Lists(tools[i := |opens|], events + [BlockStart(i, b)], opens + [|events|])
  {
    var ev := BlockStart(i, b);
    var more, all := events + [ev], opens + [|events|];
    assert forall j :: 0 <= j < |events| ==> more[j] == events[j];
    assert more[|events|] == ev && all[|opens|] == |events|;
    forall j | 0 <= j < |more| && StartsTool(more[j]) ensures j in all {
      if j < |events| { assert j in opens; }
    }
  }

  /** The tool a stop closes is the last one opened at its index, and nobody else becomes stopped. */
  lemma StopHits(tools: map<int, nat>, events: seq<Event>, opens: seq<nat>, k: nat, i: int)
    requires Lists(tools, events, opens) && k < |opens|
    ensures Stopped(events + [BlockStop(i)], opens[k], |events| + 1) <==>
              Stopped(events, opens[k], |events|) || (i in tools && k == tools[i])
  {
    var j := opens[k];
    StoppedMore(events, BlockStop(i), j);
    hide Stopped;
    if events[j].index == i {
      var n := tools[i];
      if k < n { assert OpensTool(events[opens[n]], i); }
      if k == n {
        forall m | j < m < |events| ensures !OpensTool(events[m], i) {
          if StartsTool(events[m]) {
            var l :| 0 <= l < |opens| && opens[l] == m;
            assert l > n;
          }
        }
      }
    }
  }

  lemma TracksSame(e: Encoder, r: Encoder, events: seq<Event>, opens: seq<nat>, ev: Event)
    requires Tracks(e, events, opens) && SameOrder(e, r) && !StartsTool(ev)
    requires ev.BlockStop? ==> ev.index !in e.tools
    requires r.id != "" <==> e.id != "" || (ev.MessageStart? && ev.message.Some?)
    ensures Tracks(r, events + [ev], opens)
  {
    AnnouncedMore(events, ev);
    ListsSame(e.tools, events, opens, ev);
    forall k | 0 <= k < |opens| ensures Says(r.order[k], events + [ev], opens[k]) {
      assert Says(e.order[k], events, opens[k]);
      StoppedMore(events, ev, opens[k]);
      if ev.BlockStop? { StopHits(e.tools, events, opens, k, ev.index); }
    }
    hide Says, Lists, Announced;
  }

  lemma TracksOpen(e: Encoder, r: Encoder, events: seq<Event>, opens: seq<nat>, i: int, b: Block)
    requires Tracks(e, events, opens) && b.ToolUse? && r.id == e.id && r.tools == e.tools[i := |e.order|]
    requires |r.order| == |e.order| + 1 && r.order[..|e.order|] == e.order && !r.order[|e.order|].closed
    ensures Tracks(r, events + [BlockStart(i, b)], opens + [|events|])
  {
    var ev := BlockStart(i, b);
    AnnouncedMore(events, ev);
    ListsOpen(e.tools, events, opens, i, b);
    var all := opens + [|events|];
    hide Lists, Announced;
    forall k | 0 <= k < |all| ensures Says(r.order[k], events + [ev], all[k]) {
      if k < |opens| {
        assert Says(e.order[k], events, opens[k]);
        StoppedMore(events, ev, opens[k]);
        assert r.order[k] == r.order[..|e.order|][k];
      } else {
        assert (events + [ev])[|events|] == ev;
      }
    }
    hide Says;
  }

  lemma TracksStop(e: Encoder, r: Encoder, events: seq<Event>, opens: seq<nat>, i: int)
    requires Tracks(e, events, opens) && i in e.tools && e.tools[i] < |e.order| && r.id == e.id && r.tools == e.tools
    requires |r.order| == |e.order|
    requires forall k :: 0 <= k < |e.order| ==> r.order[k].closed == (e.order[k].closed || k == e.tools[i])
    ensures Tracks(r, events + [BlockStop(i)], opens)
  {
    var ev := BlockStop(i);
    AnnouncedMore(events, ev);
    ListsSame(e.tools, events, opens, ev);
    forall k | 0 <= k < |opens| ensures Says(r.order[k], events + [ev], opens[k]) {
      assert Says(e.order[k], events, opens[k]);
      StopHits(e.tools, events, opens, k, i);
      assert (events + [ev])[opens[k]] == events[opens[k]];
    }
    hide Says, Lists, Announced;
  }

  lemma FlushSame(e: Encoder, q: Encoder, n: nat)
    requires q.tools == e.tools && q.order == e.order && n <= |q.order|
    ensures SameOrder(e, FlushTools(q, n)) && FlushTools(q, n).id == q.id
  {
    FlushKeepsTools(q, n);
  }

  lemma DispatchTracks(e: Encoder, events: seq<Event>, opens: seq<nat>, ev: Event) returns (more: seq<nat>)
    requires Tracks(e, events, opens) && !e.finished && Dispatch(e, ev).1.None? && ev != MessageStop && ToolsInRange(e)
    ensures Tracks(Dispatch(e, ev).0, events + [ev], more)
  {
    hide Tracks;
    var r := Dispatch(e, ev).0;
    more := opens;
    if StartsTool(ev) {
      more := opens + [|events|];
      TracksOpen(e, r, events, opens, ev.index, ev.block);
    } else if ev.BlockStop? && ev.index in e.tools {
      TracksStop(e, r, events, opens, ev.index);
    } else {
      DispatchSame(e, ev);
      hide Dispatch;
      TracksSame(e, r, events, opens, ev);
    }
  }

  lemma DispatchSame(e: Encoder, ev: Event)
    requires !e.finished && Dispatch(e, ev).1.None? && ev != MessageStop && !StartsTool(ev) && (ev.BlockStop? ==> ev.index !in e.tools)
    ensures var r := Dispatch(e, ev).0;
            SameOrder(e, r) && (r.id != "" <==> e.id != "" || (ev.MessageStart? && ev.message.Some?))
  {
    hide FlushTools, MergeRaw, FlushTool, EmitArgs, ChunkId;
    if ev.MessageDelta? {
      hide SameOrder;
      var q := if ev.usage.Some? then e.(outputUsage := MergeRaw(e.outputUsage, ev.usage.value)) else e;
      FlushSame(e, q, |q.order|);
      FlushedSame(e, FlushTools(q, |q.order|), ev.stopReason);
      FlushedSame(e, q, "");
    } else {
      DispatchOther(e, ev);
    }
  }

  lemma FlushedSame(e: Encoder, q: Encoder, reason: string)
    requires SameOrder(e, q) || (q.tools == e.tools && q.order == e.order)
    ensures SameOrder(e, q) && SameOrder(e, Emit(q, Nothing, Some(MapStopReason(reason))))
    ensures Emit(q, Nothing, Some(MapStopReason(reason))).id == q.id
  {}

  lemma DispatchOther(e: Encoder, ev: Event)
    requires !e.finished && Dispatch(e, ev).1.None? && ev != MessageStop && !StartsTool(ev) && (ev.BlockStop? ==> ev.index !in e.tools)
    requires !ev.MessageDelta?
    ensures var r := Dispatch(e, ev).0;
            SameOrder(e, r) && (r.id != "" <==> e.id != "" || (ev.MessageStart? && ev.message.Some?))
  {
    hide FlushTools, MergeRaw;
  }

  lemma {:induction false} FeedTracks(e: Encoder, before: seq<Event>, opens: seq<nat>, events: seq<Event>) returns (more: seq<nat>)
    requires Tracks(e, before, opens) && !e.finished && ToolsInRange(e)
    ensures var (r, failure) := Feed(e, events);
            failure.None? && !r.finished ==> Tracks(r, before + events, more)
    decreases |events|
  {
    more := opens;
    if events == [] {
      assert before + events == before;
    } else {
      var (r, failure) := Dispatch(e, events[0]);
      DispatchLearns(e, events[0]);
      if failure.None? && events[0] != MessageStop {
        more := DispatchTracks(e, before, opens, events[0]);
        assert before + events == (before + [events[0]]) + events[1..];
        hide Tracks, Dispatch;
        more := FeedTracks(r, before + [events[0]], more, events[1..]);
      } else if failure.None? {
        FeedStops(r, events[1..]);
      }
    }
  }

  lemma TracksDecides(e: Encoder, events: seq<Event>, opens: seq<nat>)
    requires Tracks(e, events, opens)
    ensures CanFinishGracefully(e) <==> Announced(events) && AllStopped(events, |events|)
  {
    hide Stopped, Announced;
    forall k | 0 <= k < |e.order| ensures e.order[k].closed <==> Stopped(events, opens[k], |events|) {
      assert Says(e.order[k], events, opens[k]);
    }
    if AllStopped(events, |events|) {
      forall k | 0 <= k < |e.order| ensures e.order[k].closed { assert StartsTool(events[opens[k]]); }
    }
    if forall k :: 0 <= k < |e.order| ==> e.order[k].closed {
      forall j | 0 <= j < |events| && events[j].BlockStart? && events[j].block.ToolUse? ensures Stopped(events, j, |events|) {
        assert StartsTool(events[j]);
        var k :| 0 <= k < |opens| && opens[k] == j;
      }
    }
  }

  // ---- main results ---------------------------------------------------------------------------

  lemma FreshReads(includeUsage: bool)
    ensures Reads(Fresh(includeUsage), []) && Clean([], 0) && Tracks(Fresh(includeUsage), [], []) && ToolsInRange(Fresh(includeUsage))
  {}

  lemma FeedFresh(events: seq<Event>, includeUsage: bool)
    ensures var (r, failure) := Feed(Fresh(includeUsage), events);
            FailsAs(events, r.finished, failure)
  {
    FreshReads(includeUsage);
    FeedReads(Fresh(includeUsage), [], events);
    assert [] + events == events;
  }

  /** A stream is translated without a failure exactly if its message ends before anything is wrong; otherwise the
      failure says what was wrong first, or that the message never ended. */
  lemma FailsExactly(events: seq<Event>, includeUsage: bool, mode: Mode)
    ensures var failure := Reencode(events, includeUsage, mode).1;
            && (failure == None <==> exists n :: 0 <= n < |events| && Clean(events, n) && events[n] == MessageStop)
            && (failure == Some(EarlyEnd) <==> Clean(events, |events|))
            && (forall f :: f != EarlyEnd ==>
                  (failure == Some(f) <==> exists n :: 0 <= n < |events| && Clean(events, n) && Fault(events, n) == Some(f)))
  {
    FeedFresh(events, includeUsage);
    assert forall n :: 0 <= n < |events| && events[n] == MessageStop ==> Fault(events, n).None?;
    hide Fault, Clean, Feed;
  }

  lemma {:induction false} FeedSplits(e: Encoder, a: seq<Event>, b: seq<Event>)
    requires Feed(e, a).1.None?
    ensures Feed(e, a + b) == Feed(Feed(e, a).0, b)
    decreases |a|
  {
    if a == [] {
      assert a + b == b;
    } else {
      assert (a + b)[0] == a[0] && (a + b)[1..] == a[1..] + b;
      hide Dispatch;
      FeedSplits(Dispatch(e, a[0]).0, a[1..], b);
    }
  }

  /** The stream stops at the n-th event: it is wrong, or there is none. */
  predicate StopsAt(events: seq<Event>, n: nat) {
    n <= |events| && Clean(events, n) && (n < |events| ==> Fault(events, n).Some?)
  }

  lemma PrefixClean(events: seq<Event>, n: nat)
    requires n <= |events| && Clean(events, n)
    ensures Clean(events[..n], n)
  {
    forall k | 0 <= k < n ensures Fault(events[..n], k) == Fault(events, k) {
      assert events == events[..n] + events[n..];
      FaultOfPrefix(events[..n], events[n..], k);
    }
    hide Fault;
  }

  /** The sound events leave an encoder that knows how it may end. */
  lemma SoundEnd(sound: seq<Event>, includeUsage: bool)
    requires Clean(sound, |sound|)
    ensures var (e, failure) := Feed(Fresh(includeUsage), sound);
            && failure.None? && !e.finished && Reads(e, sound)
            && (CanFinishGracefully(e) <==> Announced(sound) && AllStopped(sound, |sound|))
  {
    hide Fault, Feed, Clean, AllStopped, Announced, CanFinishGracefully, Reads, Tracks;
    FreshReads(includeUsage);
    FeedReads(Fresh(includeUsage), [], sound);
    assert [] + sound == sound;
    var (e, failure) := Feed(Fresh(includeUsage), sound);
    var opens := FeedTracks(Fresh(includeUsage), [], [], sound);
    TracksDecides(e, sound, opens);
  }

  /** What a failed stream looks like: everything its sound events gave, and then nothing if the connection is to be
      aborted, a proper ending if that is asked for and the message had started and all its tools were stopped, and
      otherwise one error chunk. */
  lemma EndsExactly(events: seq<Event>, includeUsage: bool, mode: Mode, n: nat)
    requires StopsAt(events, n)
    ensures var sound := events[..n];
            var (e, failure) := Feed(Fresh(includeUsage), sound);
            && failure.None?
            && Reencode(events, includeUsage, mode).0.out == e.out +
               (if mode == Abort then []
                else if mode == Graceful && Announced(sound) && AllStopped(sound, n) then [Choice(e.id, e.model, Nothing, Some("stop")), Done]
                else [ErrorChunk(if mode == Legacy then "upstream_stream_error" else "overloaded_error")])
  {
    hide Fault, Feed, Clean, AllStopped, Announced, CanFinishGracefully, Reads;
    var sound := events[..n];
    PrefixClean(events, n);
    SoundEnd(sound, includeUsage);
    var e := Feed(Fresh(includeUsage), sound).0;
    assert events == sound + events[n..];
    FeedSplits(Fresh(includeUsage), sound, events[n..]);
    if n < |events| { FaultyFeed(e, events, n); } else { FeedsNothing(e); }
  }

  lemma FeedsNothing(e: Encoder)
    ensures Feed(e, []) == (e, None)
  {}

  lemma FaultyFeed(e: Encoder, events: seq<Event>, n: nat)
    requires n < |events| && Reads(e, events[..n]) && Fault(events, n).Some?
    ensures Feed(e, events[n..]) == (e, Fault(events, n))
  {
    var sound, ev := events[..n], events[n];
    ReadsOne(e, sound, ev);
    assert events == (sound + [ev]) + events[n + 1..];
    FaultOfPrefix(sound + [ev], events[n + 1..], n);
    assert events[n..][0] == ev;
    hide Dispatch, Fault, Reads;
  }

  // ---- the one-shot form ----------------------------------------------------------------------

  /** The finish reason says whether the token limit, a tool use or a refusal ended the message; everything else is a
      plain stop.  Text and reasoning are there exactly if there is any. */
  lemma OneShotExactly(m: Message)
    ensures ConvertResponse(m).None? <==> m.id == ""
    ensures m.id != "" ==>
              var c := ConvertResponse(m).value;
              && c.id == "chatcmpl-" + m.id && c.model == m.model
              && (c.finish == "length" <==> m.stopReason == "max_tokens")
              && (c.finish == "tool_calls" <==> m.stopReason == "tool_use")
              && (c.finish == "content_filter" <==> m.stopReason == "refusal")
              && (c.finish == "stop" <==> m.stopReason !in {"max_tokens", "tool_use", "refusal"})
              && c.content == (if TextOf(m.content) == "" then None else Some(TextOf(m.content)))
              && c.reasoning == (if ThinkingOf(m.content) == "" then None else Some(ThinkingOf(m.content)))
              && (forall k :: 0 <= k < |m.content| && m.content[k].ToolUse? ==>
                    ToolCall(m.content[k].id, m.content[k].name, Arguments(m.content[k])) in c.tools)
  {
    ToolsAreCalled(m.content);
    if m.id != "" { ReasonsDiffer(m.stopReason); }
  }

  lemma ReasonsDiffer(reason: string)
    ensures var finish := MapStopReason(reason);
            && (finish == "length" <==> reason == "max_tokens") && (finish == "tool_calls" <==> reason == "tool_use")
            && (finish == "content_filter" <==> reason == "refusal")
            && (finish == "stop" <==> reason !in {"max_tokens", "tool_use", "refusal"})
  {
    assert "length"[0] == 'l' && "tool_calls"[0] == 't' && "content_filter"[0] == 'c' && "stop"[0] == 's';
    assert "max_tokens"[0] == 'm' && "tool_use"[0] == 't' && "refusal"[0] == 'r';
  }

  lemma {:induction false} ToolsAreCalled(bs: seq<Block>)
    ensures forall k :: 0 <= k < |bs| && bs[k].ToolUse? ==> ToolCall(bs[k].id, bs[k].name, Arguments(bs[k])) in ToolsOf(bs)
  {
    if bs != [] {
      ToolsAreCalled(bs[..|bs| - 1]);
      assert forall k :: 0 <= k < |bs| - 1 ==> bs[..|bs| - 1][k] == bs[k];
    }
  }

  // ---- the books ------------------------------------------------------------------------------

  /** What the encoder remembers of these events: the last start's usage that was given, and everything reported. */
  ghost predicate Told(e: Encoder, events: seq<Event>) {
    e.inputUsage == StartUsage(events) && e.outputUsage == UsageReported(events)
  }

  function StartUsage(events: seq<Event>): Usage {
    if events == [] then map[]
    else
      var ev := events[|events| - 1];
      if ev.MessageStart? && ev.message.Some? && ev.message.value.usage.Some? then ev.message.value.usage.value
      else StartUsage(events[..|events| - 1])
  }

  lemma {:induction false} FlushTold(e: Encoder, n: nat)
    requires n <= |e.order|
    ensures FlushTools(e, n).inputUsage == e.inputUsage && FlushTools(e, n).outputUsage == e.outputUsage
  {
    if n > 0 { FlushTold(e, n - 1); }
  }

  lemma DispatchTold(e: Encoder, before: seq<Event>, ev: Event)
    requires Told(e, before) && !e.finished && ev != MessageStop
    ensures Told(Dispatch(e, ev).0, before + [ev])
  {
    hide MergeRaw, FlushTools, ChunkId, MapStopReason;
    assert (before + [ev])[..|before|] == before;
    if ev.MessageDelta? {
      var q := if ev.usage.Some? then e.(outputUsage := MergeRaw(e.outputUsage, ev.usage.value)) else e;
      FlushTold(q, |q.order|);
    }
  }

  lemma {:induction false} FeedTold(e: Encoder, before: seq<Event>, events: seq<Event>)
    requires Told(e, before) && Reads(e, before)
    ensures var (r, failure) := Feed(e, events);
            failure.None? && !r.finished ==> Told(r, before + events)
    decreases |events|
  {
    hide Told, Dispatch, Reads, Fault;
    if events == [] {
      assert before + events == before;
    } else {
      var (r, failure) := Dispatch(e, events[0]);
      ReadsOne(e, before, events[0]);
      if failure.None? {
        if events[0] == MessageStop {
          FeedStops(r, events[1..]);
        } else {
          StillUnfinished(e, before);
          DispatchTold(e, before, events[0]);
          assert before + events == (before + [events[0]]) + events[1..];
          FeedTold(r, before + [events[0]], events[1..]);
        }
      }
    }
  }

  lemma StillUnfinished(e: Encoder, before: seq<Event>)
    requires Reads(e, before)
    ensures !e.finished
  {}

  lemma FreshTold(includeUsage: bool)
    ensures Told(Fresh(includeUsage), [])
  {}

  /** Whatever was read before something went wrong or the message ended, the encoder has kept its books. */
  lemma BooksAreTold(sound: seq<Event>, includeUsage: bool)
    requires Clean(sound, |sound|)
    ensures Told(Feed(Fresh(includeUsage), sound).0, sound)
  {
    FreshTold(includeUsage);
    hide Feed, Clean, Reads, AllStopped, Announced, CanFinishGracefully, Told, Tracks;
    SoundEnd(sound, includeUsage);
    FreshReads(includeUsage);
    FeedTold(Fresh(includeUsage), [], sound);
    assert [] + sound == sound;
  }
}
