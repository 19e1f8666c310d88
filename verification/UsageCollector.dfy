// The decoder and the usage collector as objects that each line, chunk and event changes in place.
module UsageCollector {
  import opened Common
  import opened SseFraming
  import opened UsageSpec
  import opened UsageTheorems

  class LineDecoder {
    var name: string
    var data: string
    var hasData: bool

    ghost function State(): Decoder
      reads this
    {
      Decoder(name, data, hasData)
    }

    constructor ()
      ensures State() == EMPTY
    {
      name, data, hasData := "", "", false;
    }

    method FinishEvent() returns (event: Option<Frame>)
      modifies this
      ensures (State(), event) == Flush(old(State()))
    {
      event := if hasData then Some(Frame(name, data)) else None;
      name, data, hasData := "", "", false;
    }

    method Feed(raw: string) returns (event: Option<Frame>)
      modifies this
      ensures (State(), event) == FeedLine(old(State()), raw)
    {
      var line := TrimCr(raw);
      event := None;
      if line == "" {
        event := FinishEvent();
        return;
      }
      var field, value := Field(line), Value(line);
      if field == "event" {
        name := value;
      } else if field == "data" {
        if hasData { data := data + "\n"; }
        data := data + value;
        hasData := true;
      }
    }
  }

  /** The collector once every complete line in its buffer is taken. */
  ghost function Settle(u: Collector, parse: Json): Collector {
    var (f, frames) := Drain(u.framer);
    ObserveAll(u.(framer := f), frames, parse)
  }

  lemma FeedSettles(u: Collector, chunk: string, parse: Json)
    requires u.isSse
    ensures FeedChunk(u, chunk, parse) == Settle(u.(framer := u.framer.(pending := u.framer.pending + chunk)), parse)
  {}

  /** Taking one line settles nothing differently. */
  lemma SettleLine(u: Collector, line: string, rest: string, parse: Json)
    requires '\n' !in line && u.framer.pending == line + ("\n" + rest)
    ensures var (d, event) := FeedLine(u.framer.decoder, line);
            Settle(ObserveAll(u.(framer := Framer(d, rest)), Listed(event), parse), parse) == Settle(u, parse)
  {
    hide Drain, FeedLine, ObserveAll;
    var (d, event) := FeedLine(u.framer.decoder, line);
    var v := u.(framer := Framer(d, rest));
    NextLine(u.framer, line, rest);
    var (g, frames) := Drain(v.framer);
    ObserveFrames(v, Listed(event), parse, g);
    ObserveAppend(u.(framer := g), Listed(event), frames, parse);
  }

  lemma Settled(u: Collector, parse: Json)
    requires '\n' !in u.framer.pending
    ensures Settle(u, parse) == u
  {
    NoLine(u.framer);
  }

  /** Counters and end state are observed apart. */
  lemma ObserveParts(u: Collector, v: Collector, frame: Frame, parse: Json)
    requires v == u.(stopped := v.stopped, error := v.error)
    ensures Observe(v, frame, parse).counts == Observe(u, frame, parse).counts
    ensures Observe(v, frame, parse).final == Observe(u, frame, parse).final
    ensures var w := Observe(u, frame, parse);
            w == u.(stopped := w.stopped, error := w.error, counts := w.counts, final := w.final)
  {
    hide Trim, MaxCounts;
  }

  lemma ObserveOne(u: Collector, event: Option<Frame>, parse: Json)
    ensures ObserveAll(u, Listed(event), parse) == if event.Some? then Observe(u, event.value, parse) else u
  {
    hide Observe;
    if event.Some? { assert ObserveAll(Observe(u, event.value, parse), [], parse) == Observe(u, event.value, parse); }
  }

  /** The last line and the last event, one after the other, are the end of input. */
  lemma FinishInSteps(u: Collector, parse: Json)
    requires u.isSse
    ensures var f := u.framer;
            var (d, first) := if f.pending == "" then (f.decoder, None) else FeedLine(f.decoder, f.pending);
            var last := Flush(d).1;
            var v := ObserveAll(u.(framer := Framer(d, f.pending)), Listed(first), parse);
            ObserveAll(v.(framer := START), Listed(last), parse) == FinishAll(u, parse)
  {
    hide FeedLine, ObserveAll;
    var f := u.framer;
    var (d, first) := if f.pending == "" then (f.decoder, None) else FeedLine(f.decoder, f.pending);
    ObserveFrames(u.(framer := Framer(d, f.pending)), Listed(first), parse, START);
    ObserveAppend(u.(framer := START), Listed(first), Listed(Flush(d).1), parse);
  }

  class Usage {
    const isSse: bool
    const decoder: LineDecoder
    var buf: string
    var counts: Counts
    var final: bool
    var jsonMessage: bool
    var stopped: bool
    var error: Option<StreamError>

    ghost function State(): Collector
      reads this, decoder
    {
      Collector(isSse, Framer(decoder.State(), buf), counts, final, jsonMessage, stopped, error)
    }

    constructor (isSse: bool)
      ensures State() == Fresh(isSse) && fresh(decoder)
    {
      this.isSse := isSse;
      decoder := new LineDecoder();
      buf, counts, final, jsonMessage, stopped, error := "", ZERO, false, false, false, None;
    }

    /** The protocol's end state: first error, and whether message_stop came. */
    method ObserveEvent(frame: Frame, parse: Json)
      modifies this`stopped, this`error
      ensures stopped == Observe(old(State()), frame, parse).stopped
      ensures error == Observe(old(State()), frame, parse).error
    {
      var event, data := Trim(frame.name), Trim(frame.data);
      if data == "" || data == "[DONE]" { return; }
      var payload := parse(data);
      if payload.None? {
        if error.None? { error := Some(NotJson); }
        return;
      }
      if event == "" { event := payload.value.kind; }
      if event == "message_stop" {
        stopped := true;
      } else if event == "error" && error.None? {
        error := Some(UpstreamError);
      }
    }

    /** The counters, and whether the upstream has given final usage. */
    method ObserveUsage(frame: Frame, parse: Json)
      modifies this`counts, this`final
      ensures counts == Observe(old(State()), frame, parse).counts
      ensures final == Observe(old(State()), frame, parse).final
    {
      var data := Trim(frame.data);
      if data == "" || data == "[DONE]" { return; }
      var payload := parse(data);
      if payload.None? { return; }
      var event := Trim(frame.name);
      if event == "" { event := payload.value.kind; }
      if event == "message_start" {
        counts := MaxCounts(counts, if payload.value.messageUsage.Some? then payload.value.messageUsage.value else ZERO);
      } else if event == "message_delta" {
        var usage := payload.value.usage;
        counts := MaxCounts(counts, if usage.Some? then usage.value.counts else ZERO);
        if usage.Some? && payload.value.stopReason != "" && usage.value.hasOutput { final := true; }
      }
    }

    method ObserveBoth(event: Option<Frame>, parse: Json)
      modifies this`stopped, this`error, this`counts, this`final
      ensures State() == ObserveAll(old(State()), Listed(event), parse)
    {
      hide Observe, ObserveAll;
      ghost var u := State();
      ObserveOne(u, event, parse);
      if event.Some? {
        ObserveEvent(event.value, parse);
        ObserveParts(u, State(), event.value, parse);
        ObserveUsage(event.value, parse);
      }
    }

    method FeedOneLine(line: string, parse: Json)
      modifies this`stopped, this`error, this`counts, this`final, decoder
      ensures var (d, event) := FeedLine(old(State()).framer.decoder, line);
              State() == ObserveAll(old(State()).(framer := Framer(d, old(buf))), Listed(event), parse)
    {
      hide ObserveAll, FeedLine;
      ghost var u := State();
      var event := decoder.Feed(line);
      assert State() == u.(framer := Framer(FeedLine(u.framer.decoder, line).0, buf));
      ObserveBoth(event, parse);
    }

    /** Appends a chunk and takes every complete line out of the buffer. */
    method FeedBytes(chunk: string, parse: Json)
      modifies this, decoder
      ensures State() == FeedChunk(old(State()), chunk, parse)
    {
      hide ObserveAll, FeedLine, Settle;
      ghost var u := State();
      buf := buf + chunk;
      if !isSse { return; }
      ghost var start := State();
      FeedSettles(u, chunk, parse);
      var n := IndexOf(buf, '\n');
      while n < |buf|
        invariant n == IndexOf(buf, '\n')
        invariant Settle(State(), parse) == Settle(start, parse)
        decreases |buf|
      {
        ghost var before := State();
        var line := buf[..n];
        buf := buf[n + 1..];
        assert before.framer.pending == line + ("\n" + buf);
        SettleLine(before, line, buf, parse);
        FeedOneLine(line, parse);
        n := IndexOf(buf, '\n');
      }
      Settled(State(), parse);
    }

    method FinishStream(parse: Json)
      requires isSse
      modifies this, decoder
      ensures State() == FinishAll(old(State()), parse)
    {
      hide ObserveAll, FeedLine, FinishAll;
      ghost var u := State();
      FinishInSteps(u, parse);
      ghost var (d, first) := if buf == "" then (u.framer.decoder, None) else FeedLine(u.framer.decoder, buf);
      ghost var u2 := u.(framer := Framer(d, u.framer.pending));
      if buf != "" {
        FeedOneLine(buf, parse);
      } else {
        assert u2 == u && Listed(first) == [];
        NothingObserved(u, parse);
      }
      assert State() == ObserveAll(u2, Listed(first), parse);
      ObserveFrames(u2, Listed(first), parse, START);
      ghost var v := State();
      buf := "";
      var last := decoder.FinishEvent();
      assert State() == v.(framer := START);
      ObserveBoth(last, parse);
    }

    method FinishBody(parse: Json)
      modifies this, decoder
      ensures State() == FinishAll(old(State()), parse)
    {
      if isSse {
        FinishStream(parse);
      } else {
        var payload := parse(buf);
        buf := "";
        if payload.Some? {
          jsonMessage := payload.value.complete;
          if payload.value.usage.Some? {
            counts := MaxCounts(counts, payload.value.usage.value.counts);
            final := true;
          }
        }
      }
    }

    method StreamError() returns (e: Option<UsageSpec.StreamError>)
      ensures e == StreamResult(State())
    {
      e := if !isSse then None else if error.Some? then error else if !stopped then Some(NoMessageStop) else None;
    }

    method Complete() returns (ok: bool)
      ensures ok <==> ResponseComplete(State())
    {
      if !final { return false; }
      if isSse {
        var e := StreamError();
        return e.None?;
      }
      return jsonMessage;
    }
  }
}
