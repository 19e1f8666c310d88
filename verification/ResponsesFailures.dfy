// When the streaming form of the Responses API fails, with what, and how the stream then ends.
module ResponsesFailures {
  import opened Common
  import opened AnthropicMessages
  import opened ResponsesSpec
  import opened TokenUsage

  /** The kind of the item that was opened last at this index by the first `n` events. */
  function LastOpen(events: seq<Event>, n: nat, i: int): Option<Kind>
    requires n <= |events|
    decreases n, 0
  {
    if n == 0 then None
    else if Opening(events, n - 1, i).Some? then Opening(events, n - 1, i) else LastOpen(events, n - 1, i)
  }

  /** The kind of the item that the n-th event opens at this index: a block start of a kind that is shown, or text
      that finds no item of its kind there. */
  function Opening(events: seq<Event>, n: nat, i: int): Option<Kind>
    requires n < |events|
    decreases n, 1
  {
    Opened(events[n], LastOpen(events, n, i), i)
  }

  function Opened(ev: Event, last: Option<Kind>, i: int): Option<Kind> {
    match ev
    case BlockStart(j, Text(_)) => if i == j then Some(TextKind) else None
    case BlockStart(j, Thinking(_)) => if i == j then Some(ThinkingKind) else None
    case BlockStart(j, ToolUse(id, name, _)) => if i == j && id != "" && name != "" then Some(ToolKind) else None
    case BlockDelta(j, TextDelta(text)) => if i == j && text != "" && last != Some(TextKind) then Some(TextKind) else None
    case BlockDelta(j, ThinkingDelta(text)) =>
      if i == j && text != "" && last != Some(ThinkingKind) then Some(ThinkingKind) else None
    case _ => None
  }

  /** What is wrong with the n-th event, if anything. */
  function Fault(events: seq<Event>, n: nat): Option<Failure>
    requires n < |events|
  {
    match events[n]
    case ErrorEvent => Some(UpstreamError)
    case Malformed => Some(BadJson)
    case BlockStart(_, ToolUse(id, name, _)) => if id == "" || name == "" then Some(UnnamedTool) else None
    case BlockDelta(i, InputJsonDelta(text)) =>
      if text != "" && LastOpen(events, n, i) != Some(ToolKind) then Some(UndeclaredTool) else None
    case _ => None
  }

  /** Nothing is wrong with the first `n` events, and none of them ends the message. */
  predicate Clean(events: seq<Event>, n: nat)
    requires n <= |events|
  {
    forall k :: 0 <= k < n ==> Fault(events, k).None? && events[k] != MessageStop
  }

  lemma {:induction false} LastOpenOfPrefix(events: seq<Event>, rest: seq<Event>, n: nat, i: int)
    requires n <= |events|
    ensures LastOpen(events + rest, n, i) == LastOpen(events, n, i)
    decreases n
  {
    if n > 0 { LastOpenOfPrefix(events, rest, n - 1, i); }
  }

  lemma FaultOfPrefix(events: seq<Event>, rest: seq<Event>, n: nat)
    requires n < |events|
    ensures Fault(events + rest, n) == Fault(events, n)
  {
    forall i ensures LastOpen(events + rest, n, i) == LastOpen(events, n, i) { LastOpenOfPrefix(events, rest, n, i); }
  }

  /** The kind of the item that the encoder has at this index. */
  function KindAt(e: Encoder, i: int): Option<Kind> {
    if Known(e, i) then Some(e.items[e.blocks[i]].item.kind) else None
  }

  ghost predicate InRange(e: Encoder) { forall i :: i in e.blocks ==> e.blocks[i] < |e.items| }

  /** The encoder has read these events: it is unfinished, and knows the items they opened. */
  ghost predicate Reads(e: Encoder, events: seq<Event>) {
    !e.finished && InRange(e) && forall i :: KindAt(e, i) == LastOpen(events, |events|, i)
  }

  /** What an event does to the items that are known. */
  ghost predicate Learns(e: Encoder, r: Encoder, ev: Event) {
    && !r.finished && InRange(r) && e.out <= r.out
    && forall i :: KindAt(r, i) == if Opened(ev, KindAt(e, i), i).Some? then Opened(ev, KindAt(e, i), i) else KindAt(e, i)
  }

  lemma ReadsMore(e: Encoder, r: Encoder, events: seq<Event>, ev: Event)
    requires Reads(e, events) && Learns(e, r, ev)
    ensures Reads(r, events + [ev])
  {
    hide KindAt, Opened;
    var more := events + [ev];
    assert more[|events|] == ev;
    forall i ensures KindAt(r, i) == LastOpen(more, |more|, i) { LastOpenOfPrefix(events, [ev], |events|, i); }
  }

  lemma FaultHere(e: Encoder, events: seq<Event>, ev: Event)
    requires Reads(e, events)
    ensures Fault(events + [ev], |events|) ==
              match ev
              case ErrorEvent => Some(UpstreamError)
              case Malformed => Some(BadJson)
              case BlockStart(_, ToolUse(id, name, _)) => if id == "" || name == "" then Some(UnnamedTool) else None
              case BlockDelta(i, InputJsonDelta(text)) =>
                if text != "" && KindAt(e, i) != Some(ToolKind) then Some(UndeclaredTool) else None
              case _ => None
  {
    hide KindAt;
    var more := events + [ev];
    assert more[|events|] == ev;
    forall i ensures LastOpen(more, |events|, i) == LastOpen(events, |events|, i) { LastOpenOfPrefix(events, [ev], |events|, i); }
  }

  // ---- what the encoder's moves do to its items -----------------------------------------------

  /** The same items, but perhaps for their text. */
  predicate SameItems(e: Encoder, r: Encoder) {
    && r.blocks == e.blocks && |r.items| == |e.items| && r.finished == e.finished && e.out <= r.out
    && forall k :: 0 <= k < |e.items| ==> SameItem(e.items[k], r.items[k])
  }

  predicate SameItem(b: Entry, c: Entry) { c.closed == b.closed && c.item.kind == b.item.kind }

  lemma AppendSame(e: Encoder, k: nat, text: string)
    requires k < |e.items|
    ensures SameItems(e, AppendDelta(e, k, text))
  {}

  /** One more item, of this kind and at this index. */
  predicate OneMore(e: Encoder, r: Encoder, i: int, kind: Kind) {
    && r.blocks == e.blocks[i := |e.items|] && |r.items| == |e.items| + 1 && r.finished == e.finished
    && e.out <= r.out
    && (forall k :: 0 <= k < |e.items| ==> SameItem(e.items[k], r.items[k]))
    && r.items[|e.items|].item.kind == kind && !r.items[|e.items|].closed
  }

  lemma AddOne(e: Encoder, i: int, kind: Kind, id: ItemId, name: string, initialArgs: Json)
    ensures OneMore(e, AddItem(e, i, kind, id, name, initialArgs), i, kind)
  {}

  lemma AppendOne(e: Encoder, r: Encoder, i: int, kind: Kind, text: string)
    requires OneMore(e, r, i, kind)
    ensures OneMore(e, AppendDelta(r, |e.items|, text), i, kind)
  {}

  lemma OneMoreLearns(e: Encoder, r: Encoder, ev: Event, i: int, kind: Kind)
    requires !e.finished && InRange(e) && OneMore(e, r, i, kind)
    requires forall j :: Opened(ev, KindAt(e, j), j) == if j == i then Some(kind) else None
    ensures Learns(e, r, ev)
  {
    hide Opened;
    forall j ensures KindAt(r, j) == if j == i then Some(kind) else KindAt(e, j) {}
    hide KindAt;
  }

  lemma SameLearns(e: Encoder, r: Encoder, ev: Event)
    requires !e.finished && InRange(e) && SameItems(e, r)
    requires forall j :: Opened(ev, KindAt(e, j), j).None?
    ensures Learns(e, r, ev)
  {
    hide Opened;
    forall j ensures KindAt(r, j) == KindAt(e, j) {}
    hide KindAt;
  }

  lemma StartLearns(e: Encoder, i: int, b: Block)
    requires !e.finished && InRange(e)
    ensures var (r, failure) := OnBlockStart(e, i, b);
            && (failure.Some? ==> r == e)
            && (failure.Some? <==> b.ToolUse? && (b.id == "" || b.name == "")) && (failure.Some? ==> failure == Some(UnnamedTool))
            && (failure.None? ==> Learns(e, r, BlockStart(i, b)))
  {
    hide AddItem, AppendDelta, Learns;
    var ev := BlockStart(i, b);
    match b
    case Text(t) =>
      var id := Numbered(TextKind, e.respId, e.texts);
      AddOne(e, i, TextKind, id, "", "");
      AppendOne(e, AddItem(e, i, TextKind, id, "", ""), i, TextKind, t);
      OneMoreLearns(e, OnBlockStart(e, i, b).0, ev, i, TextKind);
    case Thinking(t) =>
      var id := Numbered(ThinkingKind, e.respId, e.thoughts);
      AddOne(e, i, ThinkingKind, id, "", "");
      AppendOne(e, AddItem(e, i, ThinkingKind, id, "", ""), i, ThinkingKind, t);
      OneMoreLearns(e, OnBlockStart(e, i, b).0, ev, i, ThinkingKind);
    case ToolUse(id, name, input) =>
      if id != "" && name != "" {
        AddOne(e, i, ToolKind, OfCall(id), name, if input.Some? then input.value else "{}");
        OneMoreLearns(e, OnBlockStart(e, i, b).0, ev, i, ToolKind);
      }
    case OtherBlock => SameLearns(e, e, ev);
  }

  lemma DeltaLearns(e: Encoder, i: int, delta: Delta)
    requires !e.finished && InRange(e)
    ensures var (r, failure) := OnBlockDelta(e, i, delta);
            && (failure.Some? ==> r == e)
            && (failure.Some? <==> delta.InputJsonDelta? && delta.text != "" && KindAt(e, i) != Some(ToolKind))
            && (failure.Some? ==> failure == Some(UndeclaredTool))
            && (failure.None? ==> Learns(e, r, BlockDelta(i, delta)))
  {
    hide AddItem, AppendDelta, Learns;
    var ev := BlockDelta(i, delta);
    if delta.OtherDelta? || delta.text == "" {
      SameLearns(e, e, ev);
    } else {
      var kind := DeltaKind(delta);
      if KindAt(e, i) == Some(kind) {
        AppendSame(e, e.blocks[i], delta.text);
        SameLearns(e, OnBlockDelta(e, i, delta).0, ev);
      } else if kind != ToolKind {
        var id := Numbered(kind, e.respId, if kind == TextKind then e.texts else e.thoughts);
        AddOne(e, i, kind, id, "", "");
        AppendOne(e, AddItem(e, i, kind, id, "", ""), i, kind, delta.text);
        OneMoreLearns(e, OnBlockDelta(e, i, delta).0, ev, i, kind);
      }
    }
  }

  /** A stop closes the item at its index, if there is one. */
  lemma StopLearns(e: Encoder, i: int)
    requires !e.finished && InRange(e)
    ensures Learns(e, OnBlockStop(e, i), BlockStop(i))
  {
    var r := OnBlockStop(e, i);
    forall j ensures KindAt(r, j) == KindAt(e, j) {}
  }

  lemma QuietLearns(e: Encoder, ev: Event)
    requires !e.finished && InRange(e) && (ev.MessageStart? || ev.MessageDelta? || ev.Ping?)
    ensures var (r, failure) := Dispatch(e, ev);
            failure.None? && SameItems(e, r) && Learns(e, r, ev)
  {
    var r := Dispatch(e, ev).0;
    assert SameItems(e, r);
    hide Dispatch, Learns, SameItems;
    SameLearns(e, r, ev);
  }

  lemma {:induction false} FinishGrows(e: Encoder, n: nat)
    requires n <= |e.items|
    ensures e.out <= FinishBlocks(e, n).out
  {
    hide FinishBlock;
    if n > 0 {
      FinishGrows(e, n - 1);
      var p := FinishBlocks(e, n - 1);
      FinishOneGrows(p, n - 1, ItemStatus(p, n - 1));
    }
  }

  lemma FinishOneGrows(e: Encoder, k: nat, status: Status)
    requires k < |e.items|
    ensures e.out <= FinishBlock(e, k, status).out
  {}

  lemma StopFinishes(e: Encoder)
    ensures OnMessageStop(e).finished && e.out <= OnMessageStop(e).out
  {
    FinishGrows(e, |e.items|);
    hide FinishBlocks;
  }

  /** One event: it fails exactly with its fault, and otherwise the encoder has read it. */
  lemma ReadsOne(e: Encoder, events: seq<Event>, ev: Event)
    requires Reads(e, events)
    ensures var (r, failure) := Dispatch(e, ev);
            && failure == Fault(events + [ev], |events|)
            && (failure.Some? ==> r == e)
            && (failure.None? ==> (r.finished <==> ev == MessageStop))
            && (failure.None? && ev != MessageStop ==> Reads(r, events + [ev]))
            && e.out <= r.out
  {
    FaultHere(e, events, ev);
    var (r, failure) := Dispatch(e, ev);
    hide Fault, LastOpen, KindAt, Learns, OnBlockStart, OnBlockDelta, OnBlockStop, OnMessageStart, OnMessageStop, FinishBlocks;
    match ev {
      case BlockStart(i, b) => StartLearns(e, i, b);
      case BlockDelta(i, delta) => DeltaLearns(e, i, delta);
      case BlockStop(i) => StopLearns(e, i);
      case MessageStop => StopFinishes(e);
      case ErrorEvent =>
      case Malformed =>
      case _ => QuietLearns(e, ev);
    }
    if failure.None? && ev != MessageStop {
      hide Dispatch;
      ReadsMore(e, r, events, ev);
      LearnsGrows(e, r, ev);
    }
  }

  lemma LearnsGrows(e: Encoder, r: Encoder, ev: Event)
    requires Learns(e, r, ev)
    ensures !r.finished && e.out <= r.out
  {}

  /** Whether the stream fails is decided by its first event that is wrong or ends the message. */
  ghost predicate FailsAs(events: seq<Event>, finished: bool, failure: Option<Failure>) {
    && (finished <==> exists n :: 0 <= n < |events| && Clean(events, n) && Fault(events, n).None? && events[n] == MessageStop)
    && (!finished && failure.None? <==> Clean(events, |events|))
    && (failure.Some? ==> !finished)
    && (forall f :: failure == Some(f) <==> exists n :: 0 <= n < |events| && Clean(events, n) && Fault(events, n) == Some(f))
  }

  lemma CleanAll(events: seq<Event>)
    requires Clean(events, |events|)
    ensures FailsAs(events, false, None)
  {
    hide Fault;
  }

  /** The first event that is wrong or ends the message is the only one. */
  lemma DecidedAt(events: seq<Event>, n: nat)
    requires n < |events| && Clean(events, n) && (Fault(events, n).Some? || events[n] == MessageStop)
    ensures FailsAs(events, Fault(events, n).None?, Fault(events, n))
  {
    assert events[n] == MessageStop ==> Fault(events, n).None?;
    hide Fault;
    assert forall m :: 0 <= m < |events| && Clean(events, m) ==> m <= n;
    assert forall m :: 0 <= m < n ==> Fault(events, m).None? && events[m] != MessageStop;
  }

  lemma FeedStops(e: Encoder, events: seq<Event>)
    requires e.finished
    ensures Feed(e, events) == (e, None)
    decreases |events|
  {}

  lemma CleanMore(before: seq<Event>, ev: Event, rest: seq<Event>)
    requires Clean(before, |before|)
    ensures var all := before + ([ev] + rest);
            Clean(all, |before|) && (Fault(before + [ev], |before|).None? && ev != MessageStop ==> Clean(before + [ev], |before| + 1))
  {
    forall k | 0 <= k < |before|
      ensures Fault(before + ([ev] + rest), k) == Fault(before, k) && Fault(before + [ev], k) == Fault(before, k)
    {
      FaultOfPrefix(before, [ev] + rest, k);
      FaultOfPrefix(before, [ev], k);
    }
    hide Fault;
    assert (before + [ev])[|before|] == ev;
  }

  lemma {:induction false} FeedReads(e: Encoder, before: seq<Event>, events: seq<Event>)
    requires Reads(e, before) && Clean(before, |before|)
    ensures var (r, failure) := Feed(e, events);
            && e.out <= r.out
            && FailsAs(before + events, r.finished, failure)
            && (!r.finished && failure.None? ==> Reads(r, before + events))
    decreases |events|
  {
    if events == [] {
      assert before + events == before;
      CleanAll(before);
      hide Fault;
    } else {
      var ev, all := events[0], before + events;
      ReadsOne(e, before, ev);
      var (r, failure) := Dispatch(e, ev);
      assert events == [ev] + events[1..] && all == (before + [ev]) + events[1..];
      forall k | 0 <= k <= |before| ensures Fault(all, k) == Fault(before + [ev], k) {
        FaultOfPrefix(before + [ev], events[1..], k);
      }
      CleanMore(before, ev, events[1..]);
      assert all[|before|] == ev;
      hide Dispatch, Reads, Fault, FailsAs;
      if failure.Some? || r.finished {
        DecidedAt(all, |before|);
        if r.finished { FeedStops(r, events[1..]); }
      } else {
        FeedReads(r, before + [ev], events[1..]);
      }
    }
  }

  // ---- which calls are closed -----------------------------------------------------------------

  predicate OpensAt(events: seq<Event>, j: nat)
    requires j < |events|
  {
    (events[j].BlockStart? || events[j].BlockDelta?) && Opening(events, j, events[j].index).Some?
  }

  /** The item the j-th event opened is stopped by a later one of the first `n`, before its index is opened anew. */
  predicate Stopped(events: seq<Event>, j: nat, n: nat)
    requires j < n <= |events| && OpensAt(events, j)
  {
    exists l :: j < l < n && events[l] == BlockStop(events[j].index) && Untouched(events, j, l)
  }

  /** Between these two events nothing is opened at the index of the first. */
  predicate Untouched(events: seq<Event>, j: nat, l: nat)
    requires j < l <= |events| && OpensAt(events, j)
  {
    forall m :: j < m < l ==> Opening(events, m, events[j].index).None?
  }

  /** Every call opened by these events is stopped. */
  predicate AllStopped(events: seq<Event>) {
    forall j :: 0 <= j < |events| && OpensAt(events, j) && Opening(events, j, events[j].index) == Some(ToolKind) ==>
      Stopped(events, j, |events|)
  }

  /** `opens` lists the events that opened the items, in order, and `blocks` finds the latest of them for each index. */
  ghost predicate Lists(blocks: map<int, nat>, events: seq<Event>, opens: seq<nat>) {
    && (forall k, l :: 0 <= k < l < |opens| ==> opens[k] < opens[l])
    && (forall k :: 0 <= k < |opens| ==> opens[k] < |events| && OpensAt(events, opens[k]))
    && (forall j :: 0 <= j < |events| && OpensAt(events, j) ==> j in opens)
    && (forall i :: i in blocks ==> blocks[i] < |opens| && events[opens[blocks[i]]].index == i)
    && (forall k :: 0 <= k < |opens| ==> events[opens[k]].index in blocks && k <= blocks[events[opens[k]].index])
  }

  ghost predicate Says(b: Entry, events: seq<Event>, j: nat) {
    && j < |events| && OpensAt(events, j) && Opening(events, j, events[j].index) == Some(b.item.kind)
    && (b.closed <==> Stopped(events, j, |events|))
  }

  ghost predicate Tracks(e: Encoder, events: seq<Event>, opens: seq<nat>) {
    && |opens| == |e.items| && Lists(e.blocks, events, opens)
    && forall k :: 0 <= k < |opens| ==> Says(e.items[k], events, opens[k])
  }

  lemma OpeningOfPrefix(events: seq<Event>, rest: seq<Event>, n: nat, i: int)
    requires n < |events|
    ensures Opening(events + rest, n, i) == Opening(events, n, i)
  {
    LastOpenOfPrefix(events, rest, n, i);
  }

  lemma OpensOfPrefix(events: seq<Event>, ev: Event)
    ensures forall j :: 0 <= j < |events| ==> (events + [ev])[j] == events[j]
    ensures (events + [ev])[|events|] == ev
    ensures forall j, i :: 0 <= j < |events| ==> Opening(events + [ev], j, i) == Opening(events, j, i)
    ensures forall j :: 0 <= j < |events| ==> (OpensAt(events + [ev], j) <==> OpensAt(events, j))
  {
    forall j, i | 0 <= j < |events| ensures Opening(events + [ev], j, i) == Opening(events, j, i) {
      OpeningOfPrefix(events, [ev], j, i);
    }
    hide Opening;
  }

  lemma StoppedMore(events: seq<Event>, ev: Event, j: nat)
    requires j < |events| && OpensAt(events, j)
    ensures OpensAt(events + [ev], j)
    ensures Stopped(events + [ev], j, |events| + 1) <==>
              Stopped(events, j, |events|) || (ev == BlockStop(events[j].index) && Untouched(events, j, |events|))
  {
    OpensOfPrefix(events, ev);
    var more := events + [ev];
    forall l | j < l <= |events| ensures Untouched(more, j, l) <==> Untouched(events, j, l) { hide Opening, OpensAt; }
    hide Opening, Untouched;
  }

  /** An event that opens nothing, seen from the items opened before. */
  lemma ListsSame(blocks: map<int, nat>, events: seq<Event>, opens: seq<nat>, ev: Event)
    requires Lists(blocks, events, opens) && !OpensAt(events + [ev], |events|)
    ensures Lists(blocks, events + [ev], opens)
  {
    OpensOfPrefix(events, ev);
    hide Opening, OpensAt;
  }

  lemma ListsOpen(blocks: map<int, nat>, events: seq<Event>, opens: seq<nat>, ev: Event)
    requires Lists(blocks, events, opens) && OpensAt(events + [ev], |events|)
    ensures ev.BlockStart? || ev.BlockDelta?
    ensures Lists(blocks[ev.index := |opens|], events + [ev], opens + [|events|])
  {
    OpensOfPrefix(events, ev);
    hide Opening;
    assert ev.BlockStart? || ev.BlockDelta?;
    hide OpensAt;
    var more, all := events + [ev], opens + [|events|];
    assert all[|opens|] == |events|;
    forall j | 0 <= j < |more| && OpensAt(more, j) ensures j in all {
      if j < |events| { assert j in opens; }
    }
  }

  /** The item a stop closes is the last one opened at its index, and nobody else becomes stopped. */
  lemma StopHits(blocks: map<int, nat>, events: seq<Event>, opens: seq<nat>, k: nat, i: int)
    requires Lists(blocks, events, opens) && k < |opens|
    ensures OpensAt(events + [BlockStop(i)], opens[k])
    ensures Stopped(events + [BlockStop(i)], opens[k], |events| + 1) <==>
              Stopped(events, opens[k], |events|) || (i in blocks && k == blocks[i])
  {
    var j := opens[k];
    StoppedMore(events, BlockStop(i), j);
    if events[j].index == i {
      var n := blocks[i];
      if k < n { assert Opening(events, opens[n], i).Some?; }
      if k == n {
        forall m | j < m < |events| ensures Opening(events, m, i).None? {
          if OpensAt(events, m) {
            var l :| 0 <= l < |opens| && opens[l] == m;
            assert l > n;
          }
          OpensOwnIndex(events, m, i);
        }
      }
    }
    hide Opening, Stopped;
  }

  lemma OpensOwnIndex(events: seq<Event>, m: nat, i: int)
    requires m < |events|
    ensures Opening(events, m, i).Some? ==> OpensAt(events, m) && events[m].index == i
  {}

  lemma TracksSame(e: Encoder, r: Encoder, events: seq<Event>, opens: seq<nat>, ev: Event)
    requires Tracks(e, events, opens) && SameItems(e, r) && !OpensAt(events + [ev], |events|)
    requires ev.BlockStop? ==> ev.index !in e.blocks
    ensures Tracks(r, events + [ev], opens)
  {
    ListsSame(e.blocks, events, opens, ev);
    OpensOfPrefix(events, ev);
    hide Opening, OpensAt;
    forall k | 0 <= k < |opens| ensures Says(r.items[k], events + [ev], opens[k]) {
      assert Says(e.items[k], events, opens[k]) && SameItem(e.items[k], r.items[k]);
      StoppedMore(events, ev, opens[k]);
      if ev.BlockStop? { StopHits(e.blocks, events, opens, k, ev.index); }
      hide Stopped;
    }
    hide Says, Lists;
  }

  lemma TracksOpen(e: Encoder, r: Encoder, events: seq<Event>, opens: seq<nat>, ev: Event, kind: Kind)
    requires Tracks(e, events, opens) && (ev.BlockStart? || ev.BlockDelta?) && OneMore(e, r, ev.index, kind)
    requires Opening(events + [ev], |events|, ev.index) == Some(kind)
    ensures Tracks(r, events + [ev], opens + [|events|])
  {
    hide Opening, OpensAt, Lists, Says, LastOpen;
    var all := opens + [|events|];
    HereOpens(events, ev, kind);
    ListsOpen(e.blocks, events, opens, ev);
    SaysNew(r.items[|e.items|], events, ev);
    forall k | 0 <= k < |opens| ensures Says(r.items[k], events + [ev], all[k]) {
      assert SameItem(e.items[k], r.items[k]);
      SaysStill(e.items[k], r.items[k], events, opens[k], ev);
    }
    assert all[|opens|] == |events|;
  }

  lemma HereOpens(events: seq<Event>, ev: Event, kind: Kind)
    requires (ev.BlockStart? || ev.BlockDelta?) && Opening(events + [ev], |events|, ev.index) == Some(kind)
    ensures (events + [ev])[|events|] == ev && OpensAt(events + [ev], |events|)
  {
    hide Opening;
  }

  lemma SaysStill(b: Entry, c: Entry, events: seq<Event>, j: nat, ev: Event)
    requires Says(b, events, j) && SameItem(b, c) && !ev.BlockStop?
    ensures Says(c, events + [ev], j)
  {
    OpensOfPrefix(events, ev);
    hide Opening, OpensAt;
    StoppedMore(events, ev, j);
    hide Stopped;
  }

  lemma SaysNew(b: Entry, events: seq<Event>, ev: Event)
    requires (ev.BlockStart? || ev.BlockDelta?) && !b.closed
    requires (events + [ev])[|events|] == ev && Opening(events + [ev], |events|, ev.index) == Some(b.item.kind)
    ensures Says(b, events + [ev], |events|)
  {
    hide Opening;
  }

  lemma TracksStop(e: Encoder, r: Encoder, events: seq<Event>, opens: seq<nat>, i: int)
    requires Tracks(e, events, opens) && i in e.blocks && e.blocks[i] < |e.items| && r == OnBlockStop(e, i)
    ensures Tracks(r, events + [BlockStop(i)], opens)
  {
    var ev := BlockStop(i);
    OpensOfPrefix(events, ev);
    assert !OpensAt(events + [ev], |events|);
    ListsSame(e.blocks, events, opens, ev);
    hide Opening, OpensAt;
    forall k | 0 <= k < |opens| ensures Says(r.items[k], events + [ev], opens[k]) {
      assert Says(e.items[k], events, opens[k]);
      StopHits(e.blocks, events, opens, k, i);
      hide Stopped;
    }
    hide Says, Lists;
  }

  /** The encoder opens an item exactly when the events do, and of the kind they say. */
  ghost predicate Together(e: Encoder, r: Encoder, events: seq<Event>, ev: Event) {
    if OpensAt(events + [ev], |events|) then
      && (ev.BlockStart? || ev.BlockDelta?) && Opening(events + [ev], |events|, ev.index).Some?
      && OneMore(e, r, ev.index, Opening(events + [ev], |events|, ev.index).value)
    else ev.BlockStop? || SameItems(e, r)
  }

  lemma TogetherOne(e: Encoder, r: Encoder, events: seq<Event>, ev: Event, kind: Kind)
    requires (events + [ev])[|events|] == ev && (ev.BlockStart? || ev.BlockDelta?)
    requires Opening(events + [ev], |events|, ev.index) == Some(kind) && OneMore(e, r, ev.index, kind)
    ensures Together(e, r, events, ev)
  {
    hide Opening, OneMore, SameItems;
  }

  lemma TogetherSame(e: Encoder, r: Encoder, events: seq<Event>, ev: Event)
    requires (events + [ev])[|events|] == ev
    requires ev.BlockStart? || ev.BlockDelta? ==> Opening(events + [ev], |events|, ev.index).None?
    requires ev.BlockStop? || SameItems(e, r)
    ensures Together(e, r, events, ev)
  {
    hide Opening, OneMore, SameItems;
  }

  lemma OpensTogether(e: Encoder, events: seq<Event>, ev: Event)
    requires Reads(e, events) && Fault(events + [ev], |events|).None? && ev != MessageStop
    ensures Together(e, Dispatch(e, ev).0, events, ev)
  {
    OpensHere(e, events, ev);
    FaultHere(e, events, ev);
    StillUnread(e, events);
    hide Opening, LastOpen, Fault, SameItems, OneMore, KindAt, Reads, Together, OnBlockStart, OnBlockDelta, OnBlockStop,
         OnMessageStart, OnMessageStop;
    var r := Dispatch(e, ev).0;
    match ev
    case BlockStart(i, b) =>
      StartOpens(e, i, b);
      if Opened(ev, KindAt(e, i), i).Some? { TogetherOne(e, r, events, ev, Opened(ev, KindAt(e, i), i).value); }
      else { TogetherSame(e, r, events, ev); }
    case BlockDelta(i, delta) =>
      DeltaOpens(e, i, delta);
      if Opened(ev, KindAt(e, i), i).Some? { TogetherOne(e, r, events, ev, Opened(ev, KindAt(e, i), i).value); }
      else { TogetherSame(e, r, events, ev); }
    case BlockStop(i) => TogetherSame(e, r, events, ev);
    case _ =>
      QuietLearns(e, ev);
      TogetherSame(e, r, events, ev);
  }

  lemma OpensHere(e: Encoder, events: seq<Event>, ev: Event)
    requires Reads(e, events)
    ensures (events + [ev])[|events|] == ev
    ensures forall i :: Opening(events + [ev], |events|, i) == Opened(ev, KindAt(e, i), i)
  {
    hide KindAt, Opened;
    var more := events + [ev];
    assert more[|events|] == ev;
    forall i ensures Opening(more, |events|, i) == Opened(ev, KindAt(e, i), i) { LastOpenOfPrefix(events, [ev], |events|, i); }
  }

  lemma StillUnread(e: Encoder, events: seq<Event>)
    requires Reads(e, events)
    ensures !e.finished && InRange(e)
  {}

  lemma StartOpens(e: Encoder, i: int, b: Block)
    requires !(b.ToolUse? && (b.id == "" || b.name == ""))
    ensures var r, kind := OnBlockStart(e, i, b).0, Opened(BlockStart(i, b), None, i);
            if kind.Some? then OneMore(e, r, i, kind.value) else SameItems(e, r)
  {
    hide AddItem, AppendDelta, OneMore;
    match b
    case Text(t) =>
      var id := Numbered(TextKind, e.respId, e.texts);
      AddOne(e, i, TextKind, id, "", "");
      AppendOne(e, AddItem(e, i, TextKind, id, "", ""), i, TextKind, t);
    case Thinking(t) =>
      var id := Numbered(ThinkingKind, e.respId, e.thoughts);
      AddOne(e, i, ThinkingKind, id, "", "");
      AppendOne(e, AddItem(e, i, ThinkingKind, id, "", ""), i, ThinkingKind, t);
    case ToolUse(id, name, input) =>
      AddOne(e, i, ToolKind, OfCall(id), name, if input.Some? then input.value else "{}");
    case OtherBlock =>
  }

  lemma DeltaOpens(e: Encoder, i: int, delta: Delta)
    requires delta.InputJsonDelta? && delta.text != "" ==> KindAt(e, i) == Some(ToolKind)
    ensures var r, kind := OnBlockDelta(e, i, delta).0, Opened(BlockDelta(i, delta), KindAt(e, i), i);
            if kind.Some? then OneMore(e, r, i, kind.value) else SameItems(e, r)
  {
    hide AddItem, AppendDelta, OneMore;
    if !(delta.OtherDelta? || delta.text == "") {
      var kind := DeltaKind(delta);
      if KindAt(e, i) == Some(kind) {
        AppendSame(e, e.blocks[i], delta.text);
      } else if kind != ToolKind {
        var id := Numbered(kind, e.respId, if kind == TextKind then e.texts else e.thoughts);
        AddOne(e, i, kind, id, "", "");
        AppendOne(e, AddItem(e, i, kind, id, "", ""), i, kind, delta.text);
      }
    }
  }

  lemma DispatchTracks(e: Encoder, events: seq<Event>, opens: seq<nat>, ev: Event) returns (more: seq<nat>)
    requires Tracks(e, events, opens) && Reads(e, events) && Fault(events + [ev], |events|).None? && ev != MessageStop
    ensures Tracks(Dispatch(e, ev).0, events + [ev], more)
  {
    OpensTogether(e, events, ev);
    TrackedInRange(e, events, opens);
    StaysTogether(e, events, ev);
    hide Tracks, Opening, Reads, Fault, SameItems, OneMore, OpensAt;
    var r := Dispatch(e, ev).0;
    more := opens;
    if OpensAt(events + [ev], |events|) {
      more := opens + [|events|];
      TracksOpen(e, r, events, opens, ev, Opening(events + [ev], |events|, ev.index).value);
    } else if ev.BlockStop? {
      if ev.index in e.blocks {
        TracksStop(e, r, events, opens, ev.index);
      } else {
        NothingStops(e, ev.index);
        TracksSame(e, r, events, opens, ev);
      }
    } else {
      TracksSame(e, r, events, opens, ev);
    }
  }

  lemma StaysTogether(e: Encoder, events: seq<Event>, ev: Event)
    requires Together(e, Dispatch(e, ev).0, events, ev)
    ensures var r := Dispatch(e, ev).0;
            if OpensAt(events + [ev], |events|) then
              && (ev.BlockStart? || ev.BlockDelta?) && Opening(events + [ev], |events|, ev.index).Some?
              && OneMore(e, r, ev.index, Opening(events + [ev], |events|, ev.index).value)
            else ev.BlockStop? || SameItems(e, r)
  {
    hide Opening, OpensAt, OneMore, SameItems, Dispatch;
  }

  lemma TrackedInRange(e: Encoder, events: seq<Event>, opens: seq<nat>)
    requires Tracks(e, events, opens) && Reads(e, events)
    ensures !e.finished && forall i :: i in e.blocks ==> e.blocks[i] < |e.items|
  {}

  lemma NothingStops(e: Encoder, i: int)
    requires i !in e.blocks
    ensures SameItems(e, OnBlockStop(e, i))
  {}

  lemma {:induction false} FeedTracks(e: Encoder, before: seq<Event>, opens: seq<nat>, events: seq<Event>) returns (more: seq<nat>)
    requires Tracks(e, before, opens) && Reads(e, before)
    ensures var (r, failure) := Feed(e, events);
            failure.None? && !r.finished ==> Tracks(r, before + events, more)
    decreases |events|
  {
    more := opens;
    hide Tracks, Dispatch, Reads, Fault;
    if events == [] {
      assert before + events == before;
    } else {
      var (r, failure) := Dispatch(e, events[0]);
      ReadsOne(e, before, events[0]);
      if failure.None? {
        if events[0] == MessageStop {
          FeedStops(r, events[1..]);
        } else {
          more := DispatchTracks(e, before, opens, events[0]);
          assert before + events == (before + [events[0]]) + events[1..];
          more := FeedTracks(r, before + [events[0]], more, events[1..]);
        }
      }
    }
  }

  lemma TracksDecides(e: Encoder, events: seq<Event>, opens: seq<nat>)
    requires Tracks(e, events, opens)
    ensures CanFinishGracefully(e) <==> AllStopped(events)
  {
    hide Stopped, Opening;
    forall k | 0 <= k < |e.items|
      ensures OpensAt(events, opens[k]) && Opening(events, opens[k], events[opens[k]].index) == Some(e.items[k].item.kind)
      ensures e.items[k].closed <==> Stopped(events, opens[k], |events|)
    {
      assert Says(e.items[k], events, opens[k]);
    }
    if CanFinishGracefully(e) {
      forall j | 0 <= j < |events| && OpensAt(events, j) && Opening(events, j, events[j].index) == Some(ToolKind)
        ensures Stopped(events, j, |events|)
      {
        var k :| 0 <= k < |opens| && opens[k] == j;
      }
    }
  }

  // ---- main results ---------------------------------------------------------------------------

  lemma FreshReads()
    ensures Reads(FRESH, []) && Clean([], 0) && Tracks(FRESH, [], [])
  {}

  lemma FeedFresh(events: seq<Event>)
    ensures var (r, failure) := Feed(FRESH, events);
            FailsAs(events, r.finished, failure)
  {
    FreshReads();
    FeedReads(FRESH, [], events);
    assert [] + events == events;
  }

  /** A stream is translated without a failure exactly if its message ends before anything is wrong; otherwise the
      failure says what was wrong first, or that the message never ended. */
  lemma FailsExactly(events: seq<Event>, mode: Mode)
    ensures var failure := Reencode(events, mode).1;
            && (failure == None <==> exists n :: 0 <= n < |events| && Clean(events, n) && events[n] == MessageStop)
            && (failure == Some(EarlyEnd) <==> Clean(events, |events|))
            && (forall f :: f != EarlyEnd ==>
                  (failure == Some(f) <==> exists n :: 0 <= n < |events| && Clean(events, n) && Fault(events, n) == Some(f)))
  {
    FeedFresh(events);
    assert forall n :: 0 <= n < |events| && events[n] == MessageStop ==> Fault(events, n).None?;
    hide Fault, Clean, Feed;
  }

  lemma {:induction false} FeedSplits(e: Encoder, a: seq<Event>, b: seq<Event>)
    requires Feed(e, a).1.None?
    ensures Feed(e, a + b) == Feed(Feed(e, a).0, b)
    decreases |a|
  {
    if a == [] {
      assert a + b == b;
    } else {
      assert (a + b)[0] == a[0] && (a + b)[1..] == a[1..] + b;
      hide Dispatch;
      FeedSplits(Dispatch(e, a[0]).0, a[1..], b);
    }
  }

  /** The stream stops at the n-th event: it is wrong, or there is none. */
  predicate StopsAt(events: seq<Event>, n: nat) {
    n <= |events| && Clean(events, n) && (n < |events| ==> Fault(events, n).Some?)
  }

  lemma PrefixClean(events: seq<Event>, n: nat)
    requires n <= |events| && Clean(events, n)
    ensures Clean(events[..n], n)
  {
    forall k | 0 <= k < n ensures Fault(events[..n], k) == Fault(events, k) {
      assert events == events[..n] + events[n..];
      FaultOfPrefix(events[..n], events[n..], k);
    }
    hide Fault;
  }

  /** The sound events leave an encoder that knows how it may end. */
  lemma SoundEnd(sound: seq<Event>)
    requires Clean(sound, |sound|)
    ensures var (e, failure) := Feed(FRESH, sound);
            && failure.None? && !e.finished && Reads(e, sound) && (CanFinishGracefully(e) <==> AllStopped(sound))
  {
    hide Fault, Feed, Clean, AllStopped, CanFinishGracefully, Reads, Tracks;
    FreshReads();
    FeedReads(FRESH, [], sound);
    assert [] + sound == sound;
    var (e, failure) := Feed(FRESH, sound);
    var opens := FeedTracks(FRESH, [], [], sound);
    TracksDecides(e, sound, opens);
  }

  /** How a failed stream ends: with nothing more if the connection is to be aborted, as a finished response if that is
      asked for and every call was stopped, and otherwise as a failed one; what its sound events gave comes first. */
  lemma EndsExactly(events: seq<Event>, mode: Mode, n: nat)
    requires StopsAt(events, n)
    ensures var out, sound := Reencode(events, mode).0.out, Feed(FRESH, events[..n]).0.out;
            && sound <= out && (mode == Abort <==> out == sound)
            && (mode != Abort ==>
                  var last := out[|out| - 1].body;
                  if mode == Graceful && AllStopped(events[..n]) then last.Finished?
                  else last.Failed? && last.code == if mode == Legacy then "server_error" else "overloaded_error")
  {
    hide Fault, Feed, Clean, AllStopped, CanFinishGracefully, Reads;
    var sound := events[..n];
    PrefixClean(events, n);
    SoundEnd(sound);
    var e := Feed(FRESH, sound).0;
    assert events == sound + events[n..];
    FeedSplits(FRESH, sound, events[n..]);
    if n < |events| { FaultyFeed(e, events, n); } else { FeedsNothing(e); }
    FailEnds(e, mode);
  }

  lemma FailEnds(e: Encoder, mode: Mode)
    requires !e.finished
    ensures var out := Fail(e, mode).out;
            && e.out <= out && (mode == Abort <==> out == e.out)
            && (mode != Abort ==>
                  var last := out[|out| - 1].body;
                  if mode == Graceful && CanFinishGracefully(e) then last.Finished?
                  else last.Failed? && last.code == if mode == Legacy then "server_error" else "overloaded_error")
  {
    var s := if e.respId == "" then OnMessageStart(e, None) else e;
    assert e.out <= s.out && s.items == e.items && !s.finished;
    hide OnMessageStart;
    FinishGrows(s, |s.items|);
    hide FinishBlocks;
  }

  lemma FeedsNothing(e: Encoder)
    ensures Feed(e, []) == (e, None)
  {}

  lemma FaultyFeed(e: Encoder, events: seq<Event>, n: nat)
    requires n < |events| && Reads(e, events[..n]) && Fault(events, n).Some?
    ensures Feed(e, events[n..]) == (e, Fault(events, n))
  {
    var sound, ev := events[..n], events[n];
    ReadsOne(e, sound, ev);
    assert events == (sound + [ev]) + events[n + 1..];
    FaultOfPrefix(sound + [ev], events[n + 1..], n);
    assert events[n..][0] == ev;
    hide Dispatch, Fault, Reads;
  }

  // ---- usage ----------------------------------------------------------------------------------

  /** What n more tokens reported under a key add to each total. */
  function MoreTotals(key: string, n: real): Totals {
    match key
    case "input_tokens" => Totals(n, 0.0, n, 0.0, 0.0)
    case "cache_creation_input_tokens" => Totals(n, 0.0, n, 0.0, n)
    case "cache_read_input_tokens" => Totals(n, 0.0, n, n, 0.0)
    case "output_tokens" => Totals(0.0, n, n, 0.0, 0.0)
    case _ => Totals(0.0, 0.0, 0.0, 0.0, 0.0)
  }

  /** More output tokens add to the output and the total alone; more input, cache read and cache write tokens add to
      the input and the total, the cache ones to their own count as well; nothing else counts. */
  lemma EachTokenCountsOnce(u: Usage, key: string, n: real)
    ensures var was, now, more := ResponsesUsage(u), ResponsesUsage(u[key := Num(Count(u, key) + n)]), MoreTotals(key, n);
            && now.input == was.input + more.input && now.output == was.output + more.output
            && now.total == was.total + more.total && now.cached == was.cached + more.cached
            && now.cacheWrite == was.cacheWrite + more.cacheWrite
    ensures ResponsesUsage(map[]) == Totals(0.0, 0.0, 0.0, 0.0, 0.0)
  {
    var v := u[key := Num(Count(u, key) + n)];
    assert forall k :: Count(v, k) == if k == key then Count(u, key) + n else Count(u, k);
  }

  // ---- the one-shot form's statuses -----------------------------------------------------------

  /** A response is incomplete exactly if the token limit stopped it, and then its last item is the incomplete one. */
  lemma OneItemIncomplete(m: Message)
    requires ConvertResponse(m).Some?
    ensures var env := ConvertResponse(m).value;
            && env.status == (if m.stopReason == "max_tokens" then Incomplete else IsCompleted)
            && env.id == "resp_" + m.id && env.model == m.model
            && forall k :: 0 <= k < |env.output| ==>
                 env.output[k].status == if env.status == Incomplete && k == |env.output| - 1 then Incomplete else IsCompleted
  {
    CallsAreComplete(m.content);
  }

  lemma {:induction false} CallsAreComplete(bs: seq<Block>)
    ensures forall k :: 0 <= k < |CallsOf(bs)| ==> CallsOf(bs)[k].status == IsCompleted
  {
    if bs != [] { CallsAreComplete(bs[..|bs| - 1]); }
  }

  /** The reason the response goes by is the last one the message gave, and its usage the last start's together with
      everything reported since. */
  ghost predicate Told(e: Encoder, events: seq<Event>) {
    e.stopReason == LastReason(events) && e.inputUsage == StartUsage(events) && e.outputUsage == UsageReported(events)
  }

  function LastReason(events: seq<Event>): string {
    if events == [] then ""
    else
      var ev := events[|events| - 1];
      if ev.MessageDelta? && ev.stopReason != "" then ev.stopReason else LastReason(events[..|events| - 1])
  }

  function StartUsage(events: seq<Event>): Usage {
    if events == [] then map[]
    else
      var ev := events[|events| - 1];
      if !ev.MessageStart? then StartUsage(events[..|events| - 1])
      else if ev.message.Some? && ev.message.value.usage.Some? then ev.message.value.usage.value else map[]
  }

  predicate SameBooks(e: Encoder, r: Encoder) {
    r.stopReason == e.stopReason && r.inputUsage == e.inputUsage && r.outputUsage == e.outputUsage
  }

  lemma StartsTold(e: Encoder, i: int, b: Block)
    ensures SameBooks(e, OnBlockStart(e, i, b).0)
  {}

  lemma DeltasTold(e: Encoder, i: int, delta: Delta)
    ensures SameBooks(e, OnBlockDelta(e, i, delta).0)
  {}

  lemma DispatchTold(e: Encoder, before: seq<Event>, ev: Event)
    requires Told(e, before) && !e.finished && ev != MessageStop
    ensures Told(Dispatch(e, ev).0, before + [ev])
  {
    hide MergeRaw, EnvelopeOf, AppendDelta, AddItem, OnBlockStart, OnBlockDelta;
    assert (before + [ev])[..|before|] == before;
    if ev.BlockStart? { StartsTold(e, ev.index, ev.block); }
    if ev.BlockDelta? { DeltasTold(e, ev.index, ev.delta); }
  }

  lemma {:induction false} FeedTold(e: Encoder, before: seq<Event>, events: seq<Event>)
    requires Told(e, before) && Reads(e, before)
    ensures var (r, failure) := Feed(e, events);
            failure.None? && !r.finished ==> Told(r, before + events)
    decreases |events|
  {
    hide Told, Dispatch, Reads, Fault;
    if events == [] {
      assert before + events == before;
    } else {
      var (r, failure) := Dispatch(e, events[0]);
      ReadsOne(e, before, events[0]);
      if failure.None? {
        if events[0] == MessageStop {
          FeedStops(r, events[1..]);
        } else {
          StillUnfinished(e, before);
          DispatchTold(e, before, events[0]);
          assert before + events == (before + [events[0]]) + events[1..];
          FeedTold(r, before + [events[0]], events[1..]);
        }
      }
    }
  }

  lemma StillUnfinished(e: Encoder, before: seq<Event>)
    requires Reads(e, before)
    ensures !e.finished
  {}

  lemma FreshTold()
    ensures Told(FRESH, [])
  {}

  /** Whatever was read before something went wrong or the message ended, the encoder has kept its books. */
  lemma BooksAreTold(sound: seq<Event>)
    requires Clean(sound, |sound|)
    ensures Told(Feed(FRESH, sound).0, sound)
  {
    FreshTold();
    hide Feed, Clean, Reads, AllStopped, CanFinishGracefully, Told, Tracks;
    SoundEnd(sound);
    FreshReads();
    FeedTold(FRESH, [], sound);
    assert [] + sound == sound;
  }
}
