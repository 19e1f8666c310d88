// Delivering one upstream body byte for byte: gate, observer, and the ending when the body breaks off.
module Passthrough {
  import opened Common
  import opened SseFraming
  import opened StreamTail
  import opened TailObserver
  import Gate = PrebufferGate

  datatype End = More | Eof | ErrorEvent | Cut

  /** One read of the body: its bytes, and how the body went on. */
  datatype Read = Read(data: string, end: End)

  datatype Outcome =
    | Delivered         // the whole body
    | SaidError         // the upstream's own error event, passed on
    | BodyFailed        // a plain body broke off
    | Unseen            // nothing reached the client: another account may try
    | Interrupted       // the stream broke off and the ending was written
    | Aborted           // the stream broke off and the connection is dropped
    | WriteFailed       // the client is gone

  /** A body as it is read: only the last read ends it. */
  type Body = body: seq<Read> | Ends(body) witness [Read("", Eof)]

  /** A response that can be passed on, and the world it meets: `fires` and `ok` say, for each point of the run,
      whether the timer's callback takes the lock there and whether the client's connection accepts a write. */
  datatype Delivery = Delivery(status: int, isSse: bool, body: Body, errorFrame: string, fires: nat -> bool, ok: nat -> bool)

  /** What the gateway is configured to do, and how events are written as frames. */
  datatype Terms = Terms(budget: int, maxBytes: int, mode: Mode, notice: string, read: Frame -> Event, write: Event -> Frame)

  function AllData(body: seq<Read>): string {
    if body == [] then "" else AllData(body[..|body| - 1]) + body[|body| - 1].data
  }

  /** Only the last read ends the body. */
  predicate Ends(body: seq<Read>) {
    && body != [] && body[|body| - 1].end != More
    && forall i :: 0 <= i < |body| - 1 ==> body[i].end == More
  }

  /** The tail after a whole body. */
  function TailOf(bytes: string, read: Frame -> Event): Tail {
    Watch(StreamTail.FRESH, Frames(bytes), read)
  }

  /** What is written after a stream that broke off. */
  function Ending(t: Tail, mode: Mode, notice: string, errorFrame: string, write: Event -> Frame): string {
    var frames := GracefulFrames(t, notice);
    if mode == Graceful && frames.Some? then PrintAll(Printed(frames.value, write)) else errorFrame
  }

  ghost predicate Watching(tail: SseTail, bytes: string, read: Frame -> Event)
    reads tail, tail.decoder
  {
    var (f, frames) := Feed(SseFraming.START, bytes);
    tail.Framing() == f && tail.State() == Watch(StreamTail.FRESH, frames, read)
  }

  lemma FeedMore(bytes: string, more: string)
    ensures var (f, frames) := Feed(SseFraming.START, bytes);
            var (g, rest) := Feed(f, more);
            Feed(SseFraming.START, bytes + more) == (g, frames + rest)
  {
    DrainAppend(Framer(EMPTY, bytes), more);
    assert "" + bytes == bytes && "" + (bytes + more) == bytes + more;
  }

  /** The timer's callback may get the lock at any point between two steps of the reader. */
  method Tick(gate: Gate.ResponseGate, fires: bool, ok: bool)
    modifies gate
    ensures gate.State() == if old(gate.armed) && fires then Gate.CommitLocked(old(gate.State()), ok) else old(gate.State())
  {
    if gate.armed && fires {
      var _ := gate.DoCommitLocked(ok);
    }
  }

  /** An open gate that was given exactly `bytes`. */
  ghost predicate Open(gate: Gate.ResponseGate, bytes: string)
    reads gate
  {
    Gate.Inv(gate.State()) && !gate.abandoned && gate.supplied == bytes
  }

  lemma CommitOpen(g: Gate.Gate, ok: bool)
    requires Gate.Inv(g) && !g.abandoned
    ensures var r := Gate.CommitLocked(g, ok);
            && Gate.Inv(r) && !r.abandoned && r.supplied == g.supplied && r.committed && r.armed == g.armed
            && r.status == g.status && (g.broken ==> r.broken) && (ok && !g.broken ==> !r.broken)
  {
    Gate.CommitKeeps(g, ok);
  }

  lemma PushOpen(g: Gate.Gate, chunk: string, ok: bool)
    requires Gate.Inv(g) && !g.abandoned
    ensures var r := Gate.Push(g, chunk, ok);
            && Gate.Inv(r) && !r.abandoned && r.supplied == g.supplied + chunk && (g.broken ==> r.broken) && r.armed == g.armed
            && (r.committed <==> g.committed || Full(g.maxBytes, g.supplied + chunk))
  {
    Gate.PushKeeps(g, chunk, ok);
    if !g.committed {
      assert g.wire == [] && Gate.Sent([]) + g.pending == g.pending;
    }
  }

  /** The buffer has reached its limit. */
  predicate Full(maxBytes: int, bytes: string) { maxBytes > 0 && |bytes| >= maxBytes }

  lemma WriteOpen(g: Gate.Gate, chunk: string, ok: bool)
    requires Gate.Inv(g) && !g.abandoned
    ensures var r := Gate.Write(g, chunk, ok);
            && Gate.Inv(r) && !r.abandoned && r.supplied == g.supplied + chunk && r.committed && (g.broken ==> r.broken)
            && r.armed == g.armed
  {
    Gate.WriteOpKeeps(g, chunk, ok);
  }

  /** Commits and reports whether the client still takes bytes. */
  method Commit(gate: Gate.ResponseGate, ok: bool, ghost bytes: string) returns (failed: bool)
    requires Open(gate, bytes)
    modifies gate
    ensures Open(gate, bytes) && gate.committed && failed == gate.writeErr && gate.armed == old(gate.armed)
  {
    CommitOpen(gate.State(), ok);
    hide Gate.Inv, Gate.CommitLocked;
    failed := gate.DoCommitLocked(ok);
  }

  method TickOpen(gate: Gate.ResponseGate, fires: bool, ok: bool, ghost bytes: string)
    requires Open(gate, bytes)
    modifies gate
    ensures Open(gate, bytes) && gate.armed == old(gate.armed)
    ensures gate.committed <==> old(gate.committed) || (old(gate.armed) && fires)
  {
    CommitOpen(gate.State(), ok);
    hide Gate.Inv, Gate.CommitLocked;
    Tick(gate, fires, ok);
  }

  /** One read's bytes: held back or passed on, and committed once there is content. */
  method Forward(gate: Gate.ResponseGate, data: string, prebuffer: bool, content: bool, ok: bool, ghost bytes: string)
    returns (failed: bool)
    requires Open(gate, bytes) && !gate.writeErr && (!prebuffer ==> gate.committed)
    modifies gate
    ensures Open(gate, bytes + data) && failed == gate.writeErr && (!prebuffer ==> gate.committed)
    ensures gate.armed == old(gate.armed)
    ensures prebuffer && gate.committed ==> old(gate.committed) || Full(gate.maxBytes, bytes + data) || content
    ensures !failed && prebuffer && (old(gate.committed) || Full(gate.maxBytes, bytes + data) || content) ==> gate.committed
  {
    if prebuffer {
      PushOpen(gate.State(), data, ok);
      hide Gate.Inv, Gate.Push, Full;
      var commit;
      commit, failed := gate.PushChunk(data, ok);
      if failed { return; }
      if commit || content {
        failed := Commit(gate, ok, bytes + data);
      }
      failed := gate.writeErr;
    } else {
      WriteOpen(gate.State(), data, ok);
      hide Gate.Inv, Gate.Write;
      failed := gate.WriteChunk(data, ok);
      failed := gate.writeErr;
    }
  }

  lemma {:induction false} PrintedSnoc(events: seq<Event>, n: nat, write: Event -> Frame)
    requires n < |events|
    ensures PrintAll(Printed(events[..n + 1], write)) == PrintAll(Printed(events[..n], write)) + Print(write(events[n]))
    decreases n
  {
    hide Print;
    if n == 0 {
      assert events[..1] == [events[0]] && events[..1][1..] == [];
      assert Printed([events[0]], write) == [write(events[0])] + Printed([], write);
      assert Print(write(events[0])) + "" == Print(write(events[0])) && "" + Print(write(events[0])) == Print(write(events[0]));
    } else {
      var tail := events[1..];
      PrintedSnoc(tail, n - 1, write);
      assert events[..n + 1][1..] == tail[..n] && events[..n][1..] == tail[..n - 1];
    }
  }

  lemma {:induction false} PrintedPrefix(events: seq<Event>, n: nat, write: Event -> Frame)
    requires n <= |events|
    ensures PrintAll(Printed(events[..n], write)) <= PrintAll(Printed(events, write))
    decreases |events| - n
  {
    hide Print, PrintAll, Printed;
    if n == |events| {
      assert events[..n] == events;
    } else {
      PrintedSnoc(events, n, write);
      PrintedPrefix(events, n + 1, write);
    }
  }

  lemma PrefixAfter(bytes: string, a: string, b: string)
    requires a <= b
    ensures bytes + a <= bytes + b
  {}

  /** Writes the frames one after another. */
  method WriteFrames(gate: Gate.ResponseGate, frames: seq<Event>, write: Event -> Frame, ok: nat -> bool, ghost bytes: string)
    returns (failed: bool)
    requires Open(gate, bytes) && gate.committed && !gate.writeErr
    modifies gate
    ensures failed == gate.writeErr && !gate.abandoned && Gate.Inv(gate.State()) && gate.committed
    ensures !failed ==> Open(gate, bytes + PrintAll(Printed(frames, write)))
    ensures gate.supplied <= bytes + PrintAll(Printed(frames, write))
  {
    failed := false;
    assert frames[..0] == [] && bytes + "" == bytes;
    for n := 0 to |frames|
      invariant !failed && !gate.writeErr && gate.committed
      invariant Open(gate, bytes + PrintAll(Printed(frames[..n], write)))
    {
      var text := Print(write(frames[n]));
      var before := PrintAll(Printed(frames[..n], write));
      assert bytes + (before + text) == (bytes + before) + text;
      PrintedSnoc(frames, n, write);
      WriteOpen(gate.State(), text, ok(n));
      hide Gate.Inv, Gate.Write, PrintAll, Printed, Print;
      failed := gate.WriteChunk(text, ok(n));
      failed := gate.writeErr;
      if failed {
        PrintedPrefix(frames, n + 1, write);
        PrefixAfter(bytes, before + text, PrintAll(Printed(frames, write)));
        return;
      }
    }
    assert frames[..|frames|] == frames;
  }

  /** The ending of a stream that broke off after the client had seen some of it. */
  method WriteTerminal(gate: Gate.ResponseGate, tail: SseTail, mode: Mode, notice: string, errorFrame: string,
                       write: Event -> Frame, ok: nat -> bool, ghost bytes: string)
    returns (outcome: Outcome)
    requires Open(gate, bytes) && gate.committed && !gate.writeErr
    modifies gate
    ensures Gate.Inv(gate.State()) && !gate.abandoned && gate.committed && outcome in {Interrupted, Aborted, WriteFailed}
    ensures outcome == WriteFailed <==> gate.writeErr
    ensures outcome == Aborted <==> mode == Abort
    ensures outcome == Aborted ==> Open(gate, bytes)
    ensures gate.supplied <= bytes + Ending(tail.State(), mode, notice, errorFrame, write)
    ensures outcome == Interrupted ==> Open(gate, bytes + Ending(tail.State(), mode, notice, errorFrame, write))
  {
    if mode == Abort {
      assert bytes <= bytes + Ending(tail.State(), mode, notice, errorFrame, write);
      return Aborted;
    }
    hide Gate.Inv, PrintAll, Printed;
    var failed;
    if mode == Graceful {
      var frames := tail.Graceful(notice);
      if frames.Some? {
        failed := WriteFrames(gate, frames.value, write, ok, bytes);
        return if failed then WriteFailed else Interrupted;
      }
    }
    WriteOpen(gate.State(), errorFrame, ok(0));
    hide Gate.Write;
    failed := gate.WriteChunk(errorFrame, ok(0));
    return if gate.writeErr then WriteFailed else Interrupted;
  }

  /** The ending that belongs to a body. */
  function EndingOf(terms: Terms, d: Delivery): string {
    Ending(TailOf(AllData(d.body), terms.read), terms.mode, terms.notice, d.errorFrame, terms.write)
  }

  /** What the client has seen of a response, by outcome: nothing exactly if it counts as unseen, and otherwise
      its header first, and then nothing but its bytes and the ending that belongs to them. */
  ghost predicate Showed(terms: Terms, d: Delivery, outcome: Outcome, wire: seq<Gate.Wire>) {
    && (forall i :: 0 <= i < |wire| ==> (wire[i].Header? <==> i == 0))
    && (wire != [] ==> wire[0] == Gate.Header(d.status))
    && (outcome == Unseen <==> wire == [])
    && Gate.Sent(wire) <= AllData(d.body) + EndingOf(terms, d)
    && (outcome in {Delivered, SaidError, Aborted, BodyFailed} ==> Gate.Sent(wire) == AllData(d.body))
    && (outcome == Interrupted ==> Gate.Sent(wire) == AllData(d.body) + EndingOf(terms, d))
    && (outcome == Unseen <==> d.isSse && LastEnd(d.body) == Cut && !CalledFor(terms, d))
    && (outcome != WriteFailed ==> outcome == HowItEnds(terms.mode, d, wire == []))
  }

  // ---- when a response is committed ------------------------------------------------------------

  /** Some complete event of these bytes gives the client something to see. */
  ghost predicate ContentIn(bytes: string, read: Frame -> Event) {
    var frames := Feed(SseFraming.START, bytes).1;
    exists k :: 0 <= k < |frames| && StreamTail.Shows(read(frames[k]))
  }

  /** Within the first `n` reads the timer fired, content came, or the buffer was full. */
  ghost predicate Due(terms: Terms, d: Delivery, n: nat)
    requires n <= |d.body|
  {
    var bytes := AllData(d.body[..n]);
    (exists j :: 0 <= j < n && d.fires(j)) || ContentIn(bytes, terms.read) || Full(terms.maxBytes, bytes)
  }

  /** Something calls for showing the response before its body is over: nothing is to be held back at all, or
      content comes, or the buffer is full, or time is up. */
  ghost predicate CalledFor(terms: Terms, d: Delivery) {
    terms.budget <= 0 || Due(terms, d, |d.body|) || d.fires(|d.body|)
  }

  lemma ContentStays(bytes: string, more: string, read: Frame -> Event)
    ensures ContentIn(bytes, read) ==> ContentIn(bytes + more, read)
  {
    hide Drain;
    FeedMore(bytes, more);
    var (f, frames) := Feed(SseFraming.START, bytes);
    var all := frames + Feed(f, more).1;
    assert forall k :: 0 <= k < |frames| ==> all[k] == frames[k];
  }

  /** The observer's own mark says the same. */
  lemma ObserverSeesContent(bytes: string, read: Frame -> Event)
    ensures Watch(StreamTail.FRESH, Feed(SseFraming.START, bytes).1, read).content <==> ContentIn(bytes, read)
  {
    hide Drain, StreamTail.ObserveAll, Watch;
    var frames := Feed(SseFraming.START, bytes).1;
    var events := ReadEvents(frames, read);
    WatchObserves(frames, read);
    TailMarks(events);
    assert forall k :: 0 <= k < |frames| ==> events[k] == read(frames[k]);
  }

  lemma WatchedContent(tail: SseTail, bytes: string, read: Frame -> Event)
    requires Watching(tail, bytes, read)
    ensures tail.content <==> ContentIn(bytes, read)
  {
    hide Watch, Drain, ContentIn;
    ObserverSeesContent(bytes, read);
  }

  lemma NothingDue(terms: Terms, d: Delivery)
    ensures !Due(terms, d, 0)
  {
    NoLine(SseFraming.START);
    assert "" + "" == "" && AllData(d.body[..0]) == "";
  }

  /** One more read. */
  lemma DueNext(terms: Terms, d: Delivery, n: nat)
    requires n < |d.body|
    ensures var bytes := AllData(d.body[..n + 1]);
            Due(terms, d, n + 1) <==>
              Due(terms, d, n) || d.fires(n) ||
              (d.body[n].data != "" && (ContentIn(bytes, terms.read) || Full(terms.maxBytes, bytes)))
  {
    AllDataNext(d.body, n);
    ContentStays(AllData(d.body[..n]), d.body[n].data, terms.read);
    var bytes := AllData(d.body[..n]);
    if d.body[n].data == "" { assert bytes + "" == bytes; }
    hide ContentIn, AllData;
  }

  lemma {:induction false} DueStays(terms: Terms, d: Delivery, n: nat)
    requires n <= |d.body| && Due(terms, d, n)
    ensures Due(terms, d, |d.body|)
    decreases |d.body| - n
  {
    hide Due;
    if n < |d.body| {
      DueNext(terms, d, n);
      DueStays(terms, d, n + 1);
    }
  }

  function LastEnd(body: Body): End { body[|body| - 1].end }

  /** How a response ends for a client that takes every write, `unseen` meaning it was shown nothing. */
  function HowItEnds(mode: Mode, d: Delivery, unseen: bool): Outcome {
    match LastEnd(d.body)
    case Eof => Delivered
    case ErrorEvent => if d.isSse then SaidError else BodyFailed
    case _ => if !d.isSse then BodyFailed else if unseen then Unseen else if mode == Abort then Aborted else Interrupted
  }

  /** The client sees the response from the first byte on, or never.  An event stream that is cut before
      anything was committed is always unseen, and nothing else is. */
  method Deliver(gate: Gate.ResponseGate, tail: SseTail, terms: Terms, d: Delivery) returns (outcome: Outcome)
    requires gate.State() == Gate.Fresh(d.status, terms.maxBytes)
    requires tail.State() == StreamTail.FRESH && tail.Framing() == SseFraming.START
    modifies gate, tail, tail.decoder
    ensures gate.abandoned && Showed(terms, d, outcome, gate.wire)
  {
    WatchStart(tail, terms.read);
    assert Open(gate, "");
    hide Gate.Inv, Watch, AllData, Watching, Showed, EndingOf, Due;
    var prebuffer, failed := d.isSse && terms.budget > 0, false;
    if !prebuffer { failed := Commit(gate, d.ok(0), ""); }
    if failed {
      LeftBroken(gate, terms, d, AllData(d.body), EndingOf(terms, d));
      outcome := WriteFailed;
    } else {
      ArmOpen(gate, terms.budget, "");
      NothingDue(terms, d);
      outcome := Pump(gate, tail, terms, d, prebuffer);
    }
    Closing(gate, terms, d, outcome);
    gate.Shut();
  }

  /** A gate and an observer of its own for one response; `wire` is what reached the client. */
  method PassOn(terms: Terms, d: Delivery) returns (outcome: Outcome, wire: seq<Gate.Wire>)
    ensures Showed(terms, d, outcome, wire)
  {
    var gate := new Gate.ResponseGate(d.status, terms.maxBytes);
    var tail := new SseTail();
    outcome := Deliver(gate, tail, terms, d);
    wire := gate.wire;
  }

  /** The read loop. */
  method Pump(gate: Gate.ResponseGate, tail: SseTail, terms: Terms, d: Delivery, prebuffer: bool) returns (outcome: Outcome)
    requires Open(gate, "") && !gate.writeErr && (!prebuffer ==> gate.committed) && (!d.isSse ==> !prebuffer)
    requires gate.status == d.status && gate.maxBytes == terms.maxBytes
    requires prebuffer ==> gate.armed && !gate.committed && !Due(terms, d, 0)
    requires prebuffer <==> d.isSse && terms.budget > 0
    requires d.isSse ==> Watching(tail, "", terms.read)
    modifies gate, tail, tail.decoder
    ensures Left(gate, terms, d, outcome, AllData(d.body), EndingOf(terms, d))
  {
    var body: seq<Read> := d.body;
    assert AllData(body[..0]) == "";
    hide Open, Watching, Left, AllData, Ending, TailOf, Gate.Inv, Ends, Due, ContentIn, Full;
    LastRead(body, 0);
    var i := 0;
    while true
      invariant i < |body| && Open(gate, AllData(body[..i])) && !gate.writeErr && (!prebuffer ==> gate.committed)
      invariant d.isSse ==> Watching(tail, AllData(body[..i]), terms.read)
      invariant prebuffer ==> gate.armed && (gate.committed <==> Due(terms, d, i))
      decreases |body| - i
    {
      LastRead(body, i);
      var failed := ReadOne(gate, tail, terms, d, prebuffer, i);
      i := i + 1;
      if failed { return WriteFailed; }
      if body[i - 1].end != More {
        outcome := Ended(gate, tail, terms, d);
        return;
      }
    }
  }

  /** The i-th read, after which the gate is committed exactly if something called for it. */
  method ReadOne(gate: Gate.ResponseGate, tail: SseTail, terms: Terms, d: Delivery, prebuffer: bool, i: nat)
    returns (failed: bool)
    requires i < |d.body| && Open(gate, AllData(d.body[..i])) && !gate.writeErr && (!prebuffer ==> gate.committed)
    requires d.isSse ==> Watching(tail, AllData(d.body[..i]), terms.read)
    requires prebuffer ==> gate.armed && (gate.committed <==> Due(terms, d, i))
    requires (prebuffer <==> d.isSse && terms.budget > 0) && gate.maxBytes == terms.maxBytes
    modifies gate, tail, tail.decoder
    ensures failed ==> Left(gate, terms, d, WriteFailed, AllData(d.body), EndingOf(terms, d))
    ensures !failed ==> Open(gate, AllData(d.body[..i + 1])) && !gate.writeErr && (!prebuffer ==> gate.committed)
    ensures !failed && d.isSse ==> Watching(tail, AllData(d.body[..i + 1]), terms.read)
    ensures !failed && prebuffer ==> gate.armed && (gate.committed <==> Due(terms, d, i + 1))
  {
    hide Open, Watching, Left, AllData, Ending, EndingOf, TailOf, Gate.Inv, Due, ContentIn, Full;
    AllDataNext(d.body, i);
    AllDataPrefix(d.body, i + 1);
    DueNext(terms, d, i);
    failed := Take(gate, tail, d.isSse, prebuffer, d.body[i].data, terms.read, d.fires(i), d.ok(2 * i + 1),
                   d.ok(2 * i + 2), AllData(d.body[..i]));
    if failed {
      if prebuffer { DueStays(terms, d, i + 1); }
      LeftBroken(gate, terms, d, AllData(d.body), EndingOf(terms, d));
    }
  }

  lemma {:induction false} AllDataPrefix(body: seq<Read>, i: nat)
    requires i <= |body|
    ensures AllData(body[..i]) <= AllData(body)
    decreases |body| - i
  {
    if i == |body| {
      assert body[..i] == body;
    } else {
      AllDataNext(body, i);
      AllDataPrefix(body, i + 1);
    }
  }

  lemma LastRead(body: seq<Read>, i: nat)
    requires Ends(body) && i < |body|
    ensures body != [] && (body[i].end != More ==> i + 1 == |body| && body[..i + 1] == body)
    ensures body[i].end == More ==> i + 1 < |body|
  {}

  lemma LeftBroken(gate: Gate.ResponseGate, terms: Terms, d: Delivery, bytes: string, ending: string)
    requires Gate.Inv(gate.State()) && gate.writeErr && gate.supplied <= bytes
    requires d.isSse ==> CalledFor(terms, d)
    ensures Left(gate, terms, d, WriteFailed, bytes, ending)
  {
    assert bytes <= bytes + ending;
  }

  /** The gate as an outcome leaves it. */
  ghost predicate Left(gate: Gate.ResponseGate, terms: Terms, d: Delivery, outcome: Outcome, bytes: string, ending: string)
    reads gate
  {
    && Gate.Inv(gate.State()) && gate.supplied <= bytes + ending
    && (outcome == WriteFailed <==> gate.writeErr)
    && (outcome == Unseen ==> gate.wire == [])
    && (outcome in {Delivered, SaidError, Aborted, BodyFailed} ==> Open(gate, bytes))
    && (outcome == Interrupted ==> Open(gate, bytes + ending))
    && (outcome !in {Unseen, WriteFailed} ==> gate.committed)
    && (outcome != WriteFailed ==> outcome == HowItEnds(terms.mode, d, !gate.committed))
    && (d.isSse && LastEnd(d.body) == Cut ==> (gate.committed <==> CalledFor(terms, d)))
  }

  method ArmOpen(gate: Gate.ResponseGate, budget: int, ghost bytes: string)
    requires Open(gate, bytes)
    modifies gate
    ensures Open(gate, bytes) && gate.committed == old(gate.committed) && gate.writeErr == old(gate.writeErr)
    ensures budget > 0 && !old(gate.committed) && !old(gate.timer) ==> gate.armed
  {
    Armed(gate.State(), budget);
    hide Gate.Inv;
    gate.Arm(budget);
  }

  /** One read's bytes, observed and forwarded, with the timer perhaps between. */
  method Take(gate: Gate.ResponseGate, tail: SseTail, isSse: bool, prebuffer: bool, data: string, read: Frame -> Event,
              fires: bool, tickOk: bool, ok: bool, ghost bytes: string) returns (failed: bool)
    requires Open(gate, bytes) && !gate.writeErr && (!prebuffer ==> gate.committed)
    requires (isSse ==> Watching(tail, bytes, read)) && (prebuffer ==> isSse && gate.armed)
    modifies gate, tail, tail.decoder
    ensures Gate.Inv(gate.State()) && failed == gate.writeErr && gate.supplied <= bytes + data
    ensures prebuffer ==> gate.armed
    ensures prebuffer && gate.committed ==> old(gate.committed) || Calls(gate.maxBytes, bytes, data, read, fires)
    ensures !failed && prebuffer && (old(gate.committed) || Calls(gate.maxBytes, bytes, data, read, fires)) ==> gate.committed
    ensures failed ==> gate.committed
    ensures !failed ==> Open(gate, bytes + data) && (!prebuffer ==> gate.committed)
    ensures !failed && isSse ==> Watching(tail, bytes + data, read)
  {
    hide Gate.Inv, Watching, ContentIn, Full;
    TickOpen(gate, fires, tickOk, bytes);
    assert bytes <= bytes + data;
    if gate.writeErr {
      BrokenIsCommitted(gate);
      return true;
    }
    if data == "" {
      assert bytes + data == bytes;
      return false;
    }
    if isSse {
      FeedTail(tail, data, read, bytes);
      WatchedContent(tail, bytes + data, read);
    }
    failed := Forward(gate, data, prebuffer, tail.content, ok, bytes);
    if failed { BrokenIsCommitted(gate); }
  }

  /** This read, or the timer at it, calls for a commit. */
  ghost predicate Calls(maxBytes: int, bytes: string, data: string, read: Frame -> Event, fires: bool) {
    fires || (data != "" && (ContentIn(bytes + data, read) || Full(maxBytes, bytes + data)))
  }

  lemma BrokenIsCommitted(gate: Gate.ResponseGate)
    requires Gate.Inv(gate.State()) && gate.writeErr
    ensures gate.committed
  {}

  lemma Armed(g: Gate.Gate, budget: int)
    requires Gate.Inv(g)
    ensures Gate.Inv(Gate.StartTimer(g, budget))
  {}

  lemma WatchStart(tail: SseTail, read: Frame -> Event)
    requires tail.State() == StreamTail.FRESH && tail.Framing() == SseFraming.START
    ensures Watching(tail, "", read)
  {
    NoLine(SseFraming.START);
    assert "" + "" == "";
  }

  lemma AllDataNext(body: seq<Read>, i: nat)
    requires i < |body|
    ensures AllData(body[..i + 1]) == AllData(body[..i]) + body[i].data
  {
    assert body[..i + 1][..i] == body[..i];
  }

  method FeedTail(tail: SseTail, data: string, read: Frame -> Event, ghost bytes: string)
    requires Watching(tail, bytes, read)
    modifies tail, tail.decoder
    ensures Watching(tail, bytes + data, read)
  {
    hide Watch, Drain;
    FeedMore(bytes, data);
    ghost var (f, frames) := Feed(SseFraming.START, bytes);
    WatchMore(StreamTail.FRESH, frames, Feed(f, data).1, read);
    tail.Feed(data, read);
  }

  method FinishTail(tail: SseTail, read: Frame -> Event, ghost bytes: string)
    requires Watching(tail, bytes, read)
    modifies tail, tail.decoder
    ensures tail.State() == TailOf(bytes, read)
  {
    hide Watch, Drain;
    ghost var (f, frames) := Feed(SseFraming.START, bytes);
    WatchMore(StreamTail.FRESH, frames, SseFraming.Finish(f).1, read);
    tail.Finish(read);
  }

  /** The last read's end, with all bytes forwarded. */
  method Ended(gate: Gate.ResponseGate, tail: SseTail, terms: Terms, d: Delivery) returns (outcome: Outcome)
    requires Open(gate, AllData(d.body)) && !gate.writeErr && (!d.isSse || terms.budget <= 0 ==> gate.committed)
    requires d.isSse && terms.budget > 0 ==> gate.armed && (gate.committed <==> Due(terms, d, |d.body|))
    requires d.isSse ==> Watching(tail, AllData(d.body), terms.read)
    modifies gate, tail, tail.decoder
    ensures Left(gate, terms, d, outcome, AllData(d.body), EndingOf(terms, d))
  {
    ghost var bytes := AllData(d.body);
    var end := LastEnd(d.body);
    assert bytes <= bytes + EndingOf(terms, d);
    hide Gate.Inv, Watching, Ending, EndingOf, TailOf, AllData, Due;
    var n := 2 * |d.body|;
    TickOpen(gate, d.fires(|d.body|), d.ok(n + 1), bytes);
    if gate.writeErr {
      BrokenIsCommitted(gate);
      return WriteFailed;
    }
    if d.isSse { FinishTail(tail, terms.read, bytes); }
    if end == Eof {
      var failed := Commit(gate, d.ok(n + 2), bytes);
      return if failed then WriteFailed else Delivered;
    }
    if !d.isSse { return BodyFailed; }
    if end == ErrorEvent {
      var failed := Commit(gate, d.ok(n + 2), bytes);
      return if failed then WriteFailed else SaidError;
    }
    outcome := CutOff(gate, tail, terms, d);
  }

  /** An event stream was cut: unseen, or ended on the upstream's behalf. */
  method CutOff(gate: Gate.ResponseGate, tail: SseTail, terms: Terms, d: Delivery) returns (outcome: Outcome)
    requires Open(gate, AllData(d.body)) && !gate.writeErr && d.isSse && LastEnd(d.body) == Cut
    requires tail.State() == TailOf(AllData(d.body), terms.read) && (gate.committed <==> CalledFor(terms, d))
    modifies gate
    ensures Left(gate, terms, d, outcome, AllData(d.body), EndingOf(terms, d))
  {
    ghost var bytes := AllData(d.body);
    assert bytes <= bytes + EndingOf(terms, d);
    hide Gate.Inv, Ending, TailOf, AllData, CalledFor;
    var claimed := TryClaim(gate, bytes);
    if claimed { return Unseen; }
    var ok := (m: nat) => d.ok(2 * |d.body| + 3 + m);
    outcome := WriteTerminal(gate, tail, terms.mode, terms.notice, d.errorFrame, terms.write, ok, bytes);
  }

  method TryClaim(gate: Gate.ResponseGate, ghost bytes: string) returns (claimed: bool)
    requires Open(gate, bytes) && !gate.writeErr
    modifies gate
    ensures Gate.Inv(gate.State()) && !gate.writeErr
    ensures gate.supplied == old(gate.supplied)
    ensures gate.committed == old(gate.committed)
    ensures claimed ==> gate.wire == [] && !gate.committed
    ensures !claimed ==> Open(gate, bytes) && gate.committed
  {
    claimed := gate.ClaimUndelivered();
  }

  /** What the gate has sent when it is closed. */
  lemma Closing(gate: Gate.ResponseGate, terms: Terms, d: Delivery, outcome: Outcome)
    requires Left(gate, terms, d, outcome, AllData(d.body), EndingOf(terms, d)) && gate.status == d.status
    ensures Showed(terms, d, outcome, gate.wire)
  {
    hide AllData, EndingOf, CalledFor;
    assert Gate.Sent(gate.wire) + "" == Gate.Sent(gate.wire);
  }
}
