// The stream observer as the program runs it: bytes in, in any chunks, and the tail's state updated in place.
module TailObserver {
  import opened Common
  import opened SseFraming
  import opened StreamTail
  import UsageCollector

  /** The tail after more frames. */
  function Watch(t: Tail, frames: seq<Frame>, read: Frame -> Event): Tail
    decreases |frames|
  {
    if frames == [] then t else Watch(Observe(t, read(frames[0])), frames[1..], read)
  }

  lemma {:induction false} WatchMore(t: Tail, a: seq<Frame>, b: seq<Frame>, read: Frame -> Event)
    ensures Watch(t, a + b, read) == Watch(Watch(t, a, read), b, read)
    decreases |a|
  {
    hide Observe;
    if a == [] {
      assert a + b == b;
    } else {
      WatchMore(Observe(t, read(a[0])), a[1..], b, read);
      assert (a + b)[1..] == a[1..] + b;
    }
  }

  /** Watching frame by frame is observing the events they read as. */
  lemma {:induction false} WatchObserves(frames: seq<Frame>, read: Frame -> Event)
    ensures Watch(FRESH, frames, read) == ObserveAll(FRESH, ReadEvents(frames, read))
  {
    hide Observe;
    if frames != [] {
      var n := |frames| - 1;
      WatchObserves(frames[..n], read);
      assert frames == frames[..n] + [frames[n]];
      WatchMore(FRESH, frames[..n], [frames[n]], read);
      var t := Watch(FRESH, frames[..n], read);
      assert Watch(t, [frames[n]], read) == Watch(Observe(t, read(frames[n])), [], read);
      assert ReadEvents(frames, read)[..n] == ReadEvents(frames[..n], read);
    }
  }

  /** Framer and tail once every complete line is taken. */
  ghost function Settle(f: Framer, t: Tail, read: Frame -> Event): (Framer, Tail) {
    var (g, frames) := Drain(f);
    (g, Watch(t, frames, read))
  }

  lemma SettleLine(f: Framer, t: Tail, line: string, rest: string, read: Frame -> Event)
    requires '\n' !in line && f.pending == line + ("\n" + rest)
    ensures var (d, event) := FeedLine(f.decoder, line);
            Settle(Framer(d, rest), Watch(t, Listed(event), read), read) == Settle(f, t, read)
  {
    hide Drain, FeedLine, Watch;
    var (d, event) := FeedLine(f.decoder, line);
    NextLine(f, line, rest);
    WatchMore(t, Listed(event), Drain(Framer(d, rest)).1, read);
  }

  class SseTail {
    const decoder: UsageCollector.LineDecoder
    var pending: string
    var started: bool
    var stopped: bool
    var dirty: bool
    var nextIndex: int
    var openIndex: int
    var openType: string
    var openTool: bool
    var usage: Option<string>
    var content: bool

    ghost function State(): Tail
      reads this
    {
      Tail(started, stopped, dirty, nextIndex, openIndex, openType, openTool, usage, content)
    }

    ghost function Framing(): Framer
      reads this, decoder
    {
      Framer(decoder.State(), pending)
    }

    constructor ()
      ensures State() == FRESH && Framing() == SseFraming.START && fresh(decoder)
    {
      decoder := new UsageCollector.LineDecoder();
      pending, started, stopped, dirty, nextIndex, openIndex := "", false, false, false, 0, 0;
      openType, openTool, usage, content := "", false, None, false;
    }

    method ObserveEvent(ev: Event)
      modifies this`started, this`stopped, this`dirty, this`nextIndex, this`openIndex, this`openType, this`openTool,
               this`usage, this`content
      ensures State() == Observe(old(State()), ev)
    {
      match ev {
        case MessageStart => started := true;
        case BlockStart(i, kind, hasText) =>
          openIndex, openType, openTool := i, kind, IsTool(kind);
          if i >= nextIndex { nextIndex := i + 1; }
          if hasText { content := true; }
        case BlockDelta(part, hasText) => if part != OtherPart && hasText { content := true; }
        case BlockStop(i) => if i == openIndex { openType, openTool := "", false; }
        case MessageDelta(u, _) => if u.Some? { usage := u; }
        case MessageStop => stopped := true;
        case Other =>
        case Unparsable => dirty := true;
      }
    }

    method ObserveFrame(frame: Option<Frame>, read: Frame -> Event)
      modifies this`started, this`stopped, this`dirty, this`nextIndex, this`openIndex, this`openType, this`openTool,
               this`usage, this`content
      ensures State() == Watch(old(State()), Listed(frame), read)
    {
      hide Observe;
      ghost var t := State();
      if frame.Some? {
        ObserveEvent(read(frame.value));
        assert Watch(t, [frame.value], read) == Watch(Observe(t, read(frame.value)), [], read);
      }
    }

    /** Cutting does not matter: the frames are those of the bytes fed so far. */
    method Feed(chunk: string, read: Frame -> Event)
      modifies this, decoder
      ensures var (g, frames) := SseFraming.Feed(old(Framing()), chunk);
              Framing() == g && State() == Watch(old(State()), frames, read)
    {
      hide Watch, FeedLine, Drain;
      pending := pending + chunk;
      ghost var f, t := Framing(), State();
      var n := IndexOf(pending, '\n');
      while n < |pending|
        invariant n == IndexOf(pending, '\n')
        invariant Settle(Framing(), State(), read) == Settle(f, t, read)
        decreases |pending|
      {
        ghost var before, seen := Framing(), State();
        var line := pending[..n];
        pending := pending[n + 1..];
        assert before.pending == line + ("\n" + pending);
        SettleLine(before, seen, line, pending, read);
        var event := decoder.Feed(line);
        ObserveFrame(event, read);
        n := IndexOf(pending, '\n');
      }
      NoLine(Framing());
      WatchNothing(State(), read);
    }

    method Finish(read: Frame -> Event)
      modifies this, decoder
      ensures var (g, frames) := SseFraming.Finish(old(Framing()));
              Framing() == g && State() == Watch(old(State()), frames, read)
    {
      hide Watch, FeedLine;
      ghost var f, t := Framing(), State();
      ghost var (d, first) := if pending == "" then (f.decoder, None) else FeedLine(f.decoder, pending);
      WatchMore(t, Listed(first), Listed(Flush(d).1), read);
      WatchNothing(t, read);
      if pending != "" {
        var event := decoder.Feed(pending);
        ObserveFrame(event, read);
      }
      pending := "";
      var last := decoder.FinishEvent();
      ObserveFrame(last, read);
    }

    method Graceful(notice: string) returns (frames: Option<seq<Event>>)
      ensures frames == GracefulFrames(State(), notice)
    {
      if !started || stopped || dirty || openTool { return None; }
      var close, tell := [], [];
      if openType != "" { close := [BlockStop(openIndex)]; }
      if notice != "" {
        tell := [BlockStart(nextIndex, "text", false), BlockDelta(TextPart, true), BlockStop(nextIndex)];
      }
      return Some(close + tell + [MessageDelta(usage, "end_turn"), MessageStop]);
    }
  }

  lemma WatchNothing(t: Tail, read: Frame -> Event)
    ensures Watch(t, [], read) == t
  {}
}
