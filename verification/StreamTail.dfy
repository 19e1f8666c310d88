// What the gateway knows about a stream it has forwarded so far, and the ending it may add when the
// upstream is cut off.
module StreamTail {
  import opened Common
  import opened SseFraming

  datatype Part = TextPart | ThinkingPart | ArgumentsPart | OtherPart

  /** An event as the observer reads it; `usage` is a usage object's JSON text. */
  datatype Event =
    | MessageStart
    | BlockStart(index: int, blockType: string, hasText: bool)
    | BlockDelta(part: Part, hasText: bool)
    | BlockStop(index: int)
    | MessageDelta(usage: Option<string>, stopReason: string)
    | MessageStop
    | Other
    | Unparsable

  datatype Tail = Tail(started: bool, stopped: bool, dirty: bool, nextIndex: int, openIndex: int, openType: string,
                       openTool: bool, usage: Option<string>, content: bool)

  const FRESH := Tail(false, false, false, 0, 0, "", false, None, false)

  predicate IsTool(blockType: string) { blockType == "tool_use" || blockType == "server_tool_use" }

  function Observe(t: Tail, ev: Event): Tail {
    match ev
    case MessageStart => t.(started := true)
    case BlockStart(i, kind, hasText) =>
      t.(openIndex := i, openType := kind, openTool := IsTool(kind),
         nextIndex := if i >= t.nextIndex then i + 1 else t.nextIndex, content := t.content || hasText)
    case BlockDelta(part, hasText) => t.(content := t.content || (hasText && part != OtherPart))
    case BlockStop(i) => if i == t.openIndex then t.(openType := "", openTool := false) else t
    case MessageDelta(usage, _) => t.(usage := if usage.Some? then usage else t.usage)
    case MessageStop => t.(stopped := true)
    case Other => t
    case Unparsable => t.(dirty := true)
  }

  function ObserveAll(t: Tail, events: seq<Event>): Tail {
    if events == [] then t else Observe(ObserveAll(t, events[..|events| - 1]), events[|events| - 1])
  }

  /** The event gives the client something to see: text in a block's start, or in a delta of a known kind. */
  predicate Shows(ev: Event) {
    match ev
    case BlockStart(_, _, hasText) => hasText
    case BlockDelta(part, hasText) => hasText && part in {TextPart, ThinkingPart, ArgumentsPart}
    case _ => false
  }

  predicate ReportsUsage(ev: Event) { ev.MessageDelta? && ev.usage.Some? }

  predicate Showing(events: seq<Event>) { exists k :: 0 <= k < |events| && Shows(events[k]) }

  /** What the observer has marked: which events there were, and whether any of them showed the client something. */
  lemma {:induction false} TailMarks(events: seq<Event>)
    ensures var t := ObserveAll(FRESH, events);
            && (t.started <==> MessageStart in events) && (t.stopped <==> MessageStop in events)
            && (t.dirty <==> Unparsable in events) && (t.content <==> Showing(events))
  {
    if events != [] {
      var n := |events| - 1;
      var less, ev := events[..n], events[n];
      TailMarks(less);
      ShowingMore(less, ev);
      assert events == less + [ev];
      hide Showing, Shows;
      ObserveMarks(ObserveAll(FRESH, less), ev);
      hide Observe;
    }
  }

  lemma ShowingMore(less: seq<Event>, ev: Event)
    ensures Showing(less + [ev]) <==> Showing(less) || Shows(ev)
  {
    var events := less + [ev];
    assert forall k :: 0 <= k < |less| ==> events[k] == less[k];
    assert events[|less|] == ev;
  }

  lemma ObserveMarks(t: Tail, ev: Event)
    ensures var u := Observe(t, ev);
            && (u.started <==> t.started || ev == MessageStart) && (u.stopped <==> t.stopped || ev == MessageStop)
            && (u.dirty <==> t.dirty || ev == Unparsable) && (u.content <==> t.content || Shows(ev))
  {}

  predicate LastReport(events: seq<Event>, usage: Option<string>) {
    match usage
    case None => forall k :: 0 <= k < |events| ==> !ReportsUsage(events[k])
    case Some(_) => exists k :: 0 <= k < |events| && ReportsUsage(events[k]) && events[k].usage == usage
                                && forall l :: k < l < |events| ==> !ReportsUsage(events[l])
  }

  /** The usage the ending repeats is the last one the upstream reported. */
  lemma {:induction false} TailUsage(events: seq<Event>)
    ensures LastReport(events, ObserveAll(FRESH, events).usage)
  {
    if events != [] {
      var n := |events| - 1;
      var less := events[..n];
      TailUsage(less);
      var usage := ObserveAll(FRESH, less).usage;
      LastReportMore(less, events[n], usage);
      assert events == less + [events[n]];
      hide LastReport;
    }
  }

  lemma LastReportMore(less: seq<Event>, ev: Event, usage: Option<string>)
    requires LastReport(less, usage)
    ensures LastReport(less + [ev], if ReportsUsage(ev) then ev.usage else usage)
  {
    var events := less + [ev];
    assert forall k :: 0 <= k < |less| ==> events[k] == less[k];
    if ReportsUsage(ev) {
      assert events[|less|] == ev;
    } else if usage.Some? {
      var k :| 0 <= k < |less| && ReportsUsage(less[k]) && less[k].usage == usage && forall l :: k < l < |less| ==> !ReportsUsage(less[l]);
      assert ReportsUsage(events[k]);
    }
  }

  /** The notice's index is above all the upstream's, and no higher than needed. */
  lemma {:induction false} TailIndex(events: seq<Event>)
    ensures var n := ObserveAll(FRESH, events).nextIndex;
            && (forall k :: 0 <= k < |events| && events[k].BlockStart? ==> events[k].index < n) && 0 <= n
            && (n > 0 ==> exists k :: 0 <= k < |events| && events[k].BlockStart? && events[k].index == n - 1)
  {
    if events != [] {
      var last := |events| - 1;
      var less := events[..last];
      TailIndex(less);
      assert forall k :: 0 <= k < last ==> less[k] == events[k];
      var n := ObserveAll(FRESH, less).nextIndex;
      if n > 0 {
        var k :| 0 <= k < last && less[k].BlockStart? && less[k].index == n - 1;
        assert events[k].BlockStart?;
      }
    }
  }

  /** The frames that end the message properly, or none if that cannot be done honestly. */
  function GracefulFrames(t: Tail, notice: string): Option<seq<Event>> {
    if !t.started || t.stopped || t.dirty || t.openTool then None
    else
      var close := if t.openType != "" then [BlockStop(t.openIndex)] else [];
      var tell := if notice == "" then []
                  else [BlockStart(t.nextIndex, "text", false), BlockDelta(TextPart, true), BlockStop(t.nextIndex)];
      Some(close + tell + [MessageDelta(t.usage, "end_turn"), MessageStop])
  }

  // ---- the protocol as a client checks it ------------------------------------------------------

  datatype Block = Block(index: int, blockType: string)

  /** `used` holds every block index so far, `stops` the indices of the blocks stopped, in order, and
      `closings` counts the deltas that carried a stop reason. */
  datatype Client = Client(started: bool, open: Option<Block>, used: set<int>, stops: seq<int>, closings: nat, done: bool)

  const WAITING := Client(false, None, {}, [], 0, false)

  /** One message, its blocks typed, numbered apart and open one at a time, closed by a delta and a stop. */
  predicate Accepts(c: Client, ev: Event) {
    match ev
    case MessageStart => !c.started
    case BlockStart(i, kind, _) => c.started && !c.done && c.open.None? && i !in c.used && kind != ""
    case BlockDelta(_, _) => c.started && !c.done && c.open.Some?
    case BlockStop(i) => c.started && !c.done && c.open.Some? && c.open.value.index == i
    case MessageDelta(_, reason) => c.started && !c.done && (reason != "" ==> c.open.None?)
    case MessageStop => c.started && !c.done && c.open.None? && c.closings > 0
    case Other => true
    case Unparsable => false
  }

  function Take(c: Client, ev: Event): Client {
    match ev
    case MessageStart => c.(started := true)
    case BlockStart(i, kind, _) => c.(open := Some(Block(i, kind)), used := c.used + {i})
    case BlockStop(i) => c.(open := None, stops := c.stops + [i])
    case MessageDelta(_, reason) => c.(closings := if reason != "" then c.closings + 1 else c.closings)
    case MessageStop => c.(done := true)
    case _ => c
  }

  predicate AcceptsAll(c: Client, events: seq<Event>) {
    events == [] || (var n := |events| - 1;
                     AcceptsAll(c, events[..n]) && Accepts(TakeAll(c, events[..n]), events[n]))
  }

  function TakeAll(c: Client, events: seq<Event>): Client {
    if events == [] then c else Take(TakeAll(c, events[..|events| - 1]), events[|events| - 1])
  }

  /** A finished message: every block was stopped exactly once, in the order opened. */
  ghost predicate Complete(c: Client) {
    && c.started && c.done && c.open.None? && (forall i :: i in c.used <==> i in c.stops)
    && (forall a, b :: 0 <= a < b < |c.stops| ==> c.stops[a] != c.stops[b])
  }

  /** What the observer and a client that accepted the same events agree on. */
  ghost predicate Agree(t: Tail, c: Client) {
    && t.started == c.started && t.stopped == c.done && !t.dirty
    && (forall i :: i in c.used ==> i < t.nextIndex)
    && (match c.open
        case Some(b) => t.openIndex == b.index && t.openType == b.blockType != "" && t.openTool == IsTool(b.blockType)
        case None => t.openType == "" && !t.openTool)
    && (forall i :: i in c.used <==> i in c.stops || (c.open.Some? && c.open.value.index == i))
    && (c.open.Some? ==> c.open.value.index in c.used && c.open.value.index !in c.stops)
    && (forall a, b :: 0 <= a < b < |c.stops| ==> c.stops[a] != c.stops[b])
  }

  lemma AgreeStep(t: Tail, c: Client, ev: Event)
    requires Agree(t, c) && Accepts(c, ev)
    ensures Agree(Observe(t, ev), Take(c, ev))
  {
    match ev
    case BlockStop(i) =>
      var s := c.stops + [i];
      assert forall j :: j in s <==> j in c.stops || j == i;
    case _ =>
  }

  lemma {:induction false} AgreeAll(events: seq<Event>)
    requires AcceptsAll(WAITING, events)
    ensures Agree(ObserveAll(FRESH, events), TakeAll(WAITING, events))
  {
    if events != [] {
      var n := |events| - 1;
      AgreeAll(events[..n]);
      hide Agree;
      AgreeStep(ObserveAll(FRESH, events[..n]), TakeAll(WAITING, events[..n]), events[n]);
    }
  }

  lemma TakeMore(c: Client, events: seq<Event>, ev: Event)
    requires AcceptsAll(c, events) && Accepts(TakeAll(c, events), ev)
    ensures AcceptsAll(c, events + [ev]) && TakeAll(c, events + [ev]) == Take(TakeAll(c, events), ev)
  {
    assert (events + [ev])[..|events|] == events;
  }

  /** Whenever the observer agrees to end a forwarded message, prefix and ending together are a complete
      message; it announces its end once more than the upstream had, so just once exactly if that had not. */
  lemma GracefulIsLegal(prefix: seq<Event>, notice: string)
    requires AcceptsAll(WAITING, prefix) && GracefulFrames(ObserveAll(FRESH, prefix), notice).Some?
    ensures var all := prefix + GracefulFrames(ObserveAll(FRESH, prefix), notice).value;
            && AcceptsAll(WAITING, all) && Complete(TakeAll(WAITING, all))
            && TakeAll(WAITING, all).closings == TakeAll(WAITING, prefix).closings + 1
  {
    AgreeAll(prefix);
    hide AcceptsAll, TakeAll, ObserveAll, Complete;
    var t, c := ObserveAll(FRESH, prefix), TakeAll(WAITING, prefix);
    var close := if t.openType != "" then [BlockStop(t.openIndex)] else [];
    var tell := if notice == "" then []
                else [BlockStart(t.nextIndex, "text", false), BlockDelta(TextPart, true), BlockStop(t.nextIndex)];
    Closed(prefix);
    Told(prefix + close, notice, t.nextIndex);
    Ended(prefix + close + tell, t.usage);
    Joined(prefix, close, tell, MessageDelta(t.usage, "end_turn"), MessageStop);
    hide Agree, Quiet;
  }

  /** The second announcement is real: cut off between its closing delta and its message_stop, a message that
      announced its end is ended all the same, and announces it twice. */
  lemma ClosingTwice(usage: Option<string>, reason: string, notice: string)
    requires reason != ""
    ensures var prefix := [MessageStart, MessageDelta(usage, reason)];
            && AcceptsAll(WAITING, prefix) && GracefulFrames(ObserveAll(FRESH, prefix), notice).Some?
            && TakeAll(WAITING, prefix + GracefulFrames(ObserveAll(FRESH, prefix), notice).value).closings == 2
  {
    var start, delta := [MessageStart], MessageDelta(usage, reason);
    assert [] + [MessageStart] == start && start + [delta] == [MessageStart, delta];
    TakeMore(WAITING, [], MessageStart);
    TakeMore(WAITING, start, delta);
    AnnouncedTail(usage, reason);
    assert GracefulFrames(ObserveAll(FRESH, [MessageStart, delta]), notice).Some? by { hide ObserveAll; }
    hide GracefulFrames, ObserveAll, AcceptsAll;
    GracefulIsLegal([MessageStart, delta], notice);
  }

  lemma AnnouncedTail(usage: Option<string>, reason: string)
    ensures ObserveAll(FRESH, [MessageStart, MessageDelta(usage, reason)]) == FRESH.(started := true, usage := usage)
  {
    var events := [MessageStart, MessageDelta(usage, reason)];
    assert events[..1] == [MessageStart] && [MessageStart][..0] == [];
    assert ObserveAll(FRESH, [MessageStart]) == Observe(ObserveAll(FRESH, []), MessageStart);
  }

  lemma Joined<T>(a: seq<T>, b: seq<T>, c: seq<T>, x: T, y: T)
    ensures a + b + c + [x] + [y] == a + (b + c + [x, y])
  {}

  /** Nothing is open any more, and all indices are below `next`. */
  predicate Quiet(events: seq<Event>, next: int, closings: nat) {
    && AcceptsAll(WAITING, events)
    && var c := TakeAll(WAITING, events);
       c.started && !c.done && c.open.None? && (forall i :: i in c.used ==> i < next) && c.closings == closings
  }

  lemma Closed(prefix: seq<Event>)
    requires AcceptsAll(WAITING, prefix)
    requires var t, c := ObserveAll(FRESH, prefix), TakeAll(WAITING, prefix);
             Agree(t, c) && t.started && !t.stopped
    ensures var t := ObserveAll(FRESH, prefix);
            var close := if t.openType != "" then [BlockStop(t.openIndex)] else [];
            Quiet(prefix + close, t.nextIndex, TakeAll(WAITING, prefix).closings)
  {
    var t := ObserveAll(FRESH, prefix);
    if t.openType != "" {
      TakeMore(WAITING, prefix, BlockStop(t.openIndex));
    } else {
      assert prefix + [] == prefix;
    }
  }

  lemma Told(events: seq<Event>, notice: string, index: int)
    requires Quiet(events, index, TakeAll(WAITING, events).closings)
    ensures var tell := if notice == "" then []
                        else [BlockStart(index, "text", false), BlockDelta(TextPart, true), BlockStop(index)];
            Quiet(events + tell, index + 1, TakeAll(WAITING, events).closings)
  {
    if notice == "" {
      assert events + [] == events;
    } else {
      var a, b, z := BlockStart(index, "text", false), BlockDelta(TextPart, true), BlockStop(index);
      assert index !in TakeAll(WAITING, events).used;
      TakeMore(WAITING, events, a);
      TakeMore(WAITING, events + [a], b);
      TakeMore(WAITING, events + [a] + [b], z);
      assert events + [a] + [b] + [z] == events + [a, b, z];
    }
  }

  lemma Ended(events: seq<Event>, usage: Option<string>)
    requires exists next :: Quiet(events, next, TakeAll(WAITING, events).closings)
    ensures var all := events + [MessageDelta(usage, "end_turn")] + [MessageStop];
            && AcceptsAll(WAITING, all) && Complete(TakeAll(WAITING, all))
            && TakeAll(WAITING, all).closings == TakeAll(WAITING, events).closings + 1
  {
    TakeMore(WAITING, events, MessageDelta(usage, "end_turn"));
    TakeMore(WAITING, events + [MessageDelta(usage, "end_turn")], MessageStop);
    AgreeAll(events + [MessageDelta(usage, "end_turn")] + [MessageStop]);
  }

  /** What the ending contains: one message_stop, last; a notice under an index never used; and a stop for
      an open block only if that block is no tool. */
  lemma GracefulIsHonest(prefix: seq<Event>, notice: string)
    requires AcceptsAll(WAITING, prefix)
    requires GracefulFrames(ObserveAll(FRESH, prefix), notice).Some?
    ensures var frames, c := GracefulFrames(ObserveAll(FRESH, prefix), notice).value, TakeAll(WAITING, prefix);
            && frames != [] && frames[|frames| - 1] == MessageStop
            && (forall k :: 0 <= k < |frames| - 1 ==> frames[k] != MessageStop)
            && (forall k :: 0 <= k < |frames| && frames[k].BlockStart? ==> frames[k].index !in c.used && frames[k].blockType == "text")
            && (c.open.Some? ==> !IsTool(c.open.value.blockType) && frames[0] == BlockStop(c.open.value.index))
            && (forall k :: 0 <= k < |frames| && frames[k].BlockStop? && frames[k].index in c.used ==>
                  k == 0 && c.open.Some? && frames[k].index == c.open.value.index)
  {
    AgreeAll(prefix);
  }

  /** The observer refuses exactly for a message not begun or already over, or a tool call half told. */
  lemma GracefulRefusesExactly(prefix: seq<Event>, notice: string)
    requires AcceptsAll(WAITING, prefix)
    ensures var c := TakeAll(WAITING, prefix);
            GracefulFrames(ObserveAll(FRESH, prefix), notice).Some? <==>
              c.started && !c.done && !(c.open.Some? && IsTool(c.open.value.blockType))
  {
    AgreeAll(prefix);
  }

  // ---- the same on bytes -----------------------------------------------------------------------

  /** How a frame reads, and how an event prints: printing stays on one line and reads back. */
  ghost predicate Faithful(read: Frame -> Event, write: Event -> Frame) {
    forall ev :: OneLine(write(ev).name) && OneLine(write(ev).data) && read(write(ev)) == ev
  }

  function Printed(events: seq<Event>, write: Event -> Frame): seq<Frame> {
    if events == [] then [] else [write(events[0])] + Printed(events[1..], write)
  }

  function ReadEvents(frames: seq<Frame>, read: Frame -> Event): (events: seq<Event>)
    ensures |events| == |frames|
  {
    seq(|frames|, i requires 0 <= i < |frames| => read(frames[i]))
  }

  lemma {:induction false} PrintedReads(events: seq<Event>, read: Frame -> Event, write: Event -> Frame)
    requires Faithful(read, write)
    ensures var frames := Printed(events, write);
            && ReadEvents(frames, read) == events
            && forall i :: 0 <= i < |frames| ==> OneLine(frames[i].name) && OneLine(frames[i].data)
  {
    if events != [] {
      PrintedReads(events[1..], read, write);
      var rest := Printed(events[1..], write);
      assert ReadEvents([write(events[0])] + rest, read) == [read(write(events[0]))] + ReadEvents(rest, read);
    }
  }

  lemma ReadAppend(a: seq<Frame>, b: seq<Frame>, read: Frame -> Event)
    ensures ReadEvents(a + b, read) == ReadEvents(a, read) + ReadEvents(b, read)
  {}

  /** Appended to bytes that ended on an event boundary, the printed ending is read as itself. */
  lemma EndingIsRead(bytes: string, events: seq<Event>, read: Frame -> Event, write: Event -> Frame)
    requires Faithful(read, write) && Feed(SseFraming.START, bytes).0 == SseFraming.START
    ensures ReadEvents(Frames(bytes + PrintAll(Printed(events, write))), read)
         == ReadEvents(Frames(bytes), read) + events
  {
    var frames := Printed(events, write);
    PrintedReads(events, read, write);
    hide Faithful, Feed, Frames, PrintAll, Printed, OneLine;
    PrintedAfter(bytes, frames);
    ReadAppend(Frames(bytes), frames, read);
  }
}
