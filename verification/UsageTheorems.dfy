// The collector's result is a function of the bytes alone, and of their events as anyone would read them.
module UsageTheorems {
  import opened Common
  import opened SseFraming
  import opened UsageSpec

  function Collected(isSse: bool, chunks: seq<string>, parse: Json): Collector {
    FinishAll(FeedChunks(Fresh(isSse), chunks, parse), parse)
  }

  lemma {:induction false} ObserveAppend(u: Collector, a: seq<Frame>, b: seq<Frame>, parse: Json)
    ensures ObserveAll(u, a + b, parse) == ObserveAll(ObserveAll(u, a, parse), b, parse)
    decreases |a|
  {
    hide Observe;
    if a == [] {
      assert a + b == b;
    } else {
      ObserveAppend(Observe(u, a[0], parse), a[1..], b, parse);
      assert (a + b)[1..] == a[1..] + b;
    }
  }

  lemma ObserveFramer(u: Collector, frame: Frame, parse: Json, f: Framer)
    ensures Observe(u, frame, parse).isSse == u.isSse && Observe(u, frame, parse).framer == u.framer
    ensures Observe(u.(framer := f), frame, parse) == Observe(u, frame, parse).(framer := f)
  {
    hide Trim, MaxCounts;
  }

  /** Observing events leaves the framing alone. */
  lemma {:induction false} ObserveFrames(u: Collector, frames: seq<Frame>, parse: Json, f: Framer)
    ensures ObserveAll(u, frames, parse).isSse == u.isSse && ObserveAll(u, frames, parse).framer == u.framer
    ensures ObserveAll(u.(framer := f), frames, parse) == ObserveAll(u, frames, parse).(framer := f)
    decreases |frames|
  {
    hide Observe;
    if frames != [] {
      ObserveFramer(u, frames[0], parse, f);
      ObserveFrames(Observe(u, frames[0], parse), frames[1..], parse, f);
    }
  }

  lemma {:induction false} StreamedChunks(u: Collector, chunks: seq<string>, parse: Json)
    requires u.isSse
    ensures var (f, frames) := FeedAll(u.framer, chunks);
            FeedChunks(u, chunks, parse) == ObserveAll(u, frames, parse).(framer := f)
    decreases |chunks|
  {
    hide Observe, Feed, ObserveAll;
    if chunks == [] {
      NothingObserved(u, parse);
    } else {
      var (f, frames) := Feed(u.framer, chunks[0]);
      ObserveFrames(u, frames, parse, f);
      var v := FeedChunk(u, chunks[0], parse);
      assert v == ObserveAll(u, frames, parse).(framer := f);
      ObserveFrames(u.(framer := f), frames, parse, f);
      StreamedChunks(v, chunks[1..], parse);
      var (g, more) := FeedAll(f, chunks[1..]);
      ObserveAppend(u, frames, more, parse);
      ObserveFrames(ObserveAll(u, frames, parse), more, parse, f);
    }
  }

  lemma NothingObserved(u: Collector, parse: Json)
    ensures ObserveAll(u, [], parse) == u
  {}

  lemma {:induction false} BufferedChunks(u: Collector, chunks: seq<string>, parse: Json)
    requires !u.isSse
    ensures FeedChunks(u, chunks, parse) == u.(framer := u.framer.(pending := u.framer.pending + Concat(chunks)))
    decreases |chunks|
  {
    if chunks == [] {
      assert u.framer.pending + "" == u.framer.pending;
    } else {
      BufferedChunks(FeedChunk(u, chunks[0], parse), chunks[1..], parse);
      assert (u.framer.pending + chunks[0]) + Concat(chunks[1..]) == u.framer.pending + (chunks[0] + Concat(chunks[1..]));
    }
  }

  /** The whole result is that of the byte stream's events. */
  lemma CollectedEvents(chunks: seq<string>, parse: Json)
    ensures Collected(true, chunks, parse) == ObserveAll(Fresh(true), Frames(Concat(chunks)), parse)
  {
    hide Observe, ObserveAll, Feed;
    var u := Fresh(true);
    StreamedChunks(u, chunks, parse);
    CutsDoNotMatter(START, chunks);
    var (f, frames) := FeedAll(START, chunks);
    var (g, last) := Finish(f);
    ObserveFrames(ObserveAll(u, frames, parse), last, parse, g);
    ObserveFrames(ObserveAll(u, frames, parse), last, parse, f);
    ObserveAppend(u, frames, last, parse);
    FinishResets(f);
    ObserveFrames(u, frames + last, parse, START);
    ObserveFrames(ObserveAll(u, frames, parse).(framer := f), last, parse, g);
  }

  lemma FinishResets(f: Framer)
    ensures Finish(f).0 == START && Finish(START) == (START, [])
  {}

  /** Two ways of cutting the same bytes end alike: counters, finality and verdict. */
  lemma CutIndependence(isSse: bool, chunks: seq<string>, others: seq<string>, parse: Json)
    requires Concat(chunks) == Concat(others)
    ensures Collected(isSse, chunks, parse) == Collected(isSse, others, parse)
  {
    if isSse {
      CollectedEvents(chunks, parse);
      CollectedEvents(others, parse);
    } else {
      BufferedChunks(Fresh(false), chunks, parse);
      BufferedChunks(Fresh(false), others, parse);
    }
  }

  /** Finishing again changes nothing. */
  lemma FinishIsIdempotent(u: Collector, parse: Json)
    requires parse("").None?
    ensures FinishAll(FinishAll(u, parse), parse) == FinishAll(u, parse)
  {
    if u.isSse {
      var (f, frames) := Finish(u.framer);
      FinishResets(u.framer);
      ObserveFrames(u.(framer := f), frames, parse, f);
    }
  }

  // ---- the events' meaning -------------------------------------------------------------------

  /** There is data other than the OpenAI end marker. */
  predicate HasData(frame: Frame) { Trim(frame.data) !in {"", "[DONE]"} }

  predicate Unparsable(frame: Frame, parse: Json) { HasData(frame) && parse(Trim(frame.data)).None? }

  /** The event is of this kind: by its name, or by what its object says if it has none. */
  predicate Says(frame: Frame, kind: string, parse: Json) {
    && HasData(frame) && parse(Trim(frame.data)).Some?
    && kind == if Trim(frame.name) != "" then Trim(frame.name) else parse(Trim(frame.data)).value.kind
  }

  predicate Bad(frame: Frame, parse: Json) { Unparsable(frame, parse) || Says(frame, "error", parse) }

  /** The counters a frame reports, if it is one that reports any. */
  function Reported(frame: Frame, parse: Json): Option<Counts> {
    if Says(frame, "message_start", parse) then parse(Trim(frame.data)).value.messageUsage
    else if Says(frame, "message_delta", parse) && parse(Trim(frame.data)).value.usage.Some? then
      Some(parse(Trim(frame.data)).value.usage.value.counts)
    else None
  }

  predicate Final(frame: Frame, parse: Json) {
    && Says(frame, "message_delta", parse)
    && var p := parse(Trim(frame.data)).value;
       p.usage.Some? && p.usage.value.hasOutput && p.stopReason != ""
  }

  predicate AtMost(a: Counts, b: Counts) {
    a.input <= b.input && a.output <= b.output && a.cacheCreation <= b.cacheCreation && a.cacheRead <= b.cacheRead
  }

  predicate IsReported(frames: seq<Frame>, parse: Json, field: Counts -> int, v: int) {
    exists i :: 0 <= i < |frames| && Reported(frames[i], parse).Some? && field(Reported(frames[i], parse).value) == v
  }

  /** Each counter is the largest value reported for it, or 0 if none is larger. */
  predicate Peak(c: Counts, frames: seq<Frame>, parse: Json) {
    && AtMost(ZERO, c)
    && (forall i :: 0 <= i < |frames| && Reported(frames[i], parse).Some? ==> AtMost(Reported(frames[i], parse).value, c))
    && (c.input == 0 || IsReported(frames, parse, (k: Counts) => k.input, c.input))
    && (c.output == 0 || IsReported(frames, parse, (k: Counts) => k.output, c.output))
    && (c.cacheCreation == 0 || IsReported(frames, parse, (k: Counts) => k.cacheCreation, c.cacheCreation))
    && (c.cacheRead == 0 || IsReported(frames, parse, (k: Counts) => k.cacheRead, c.cacheRead))
  }

  /** The first error is the one kept. */
  function FirstError(frames: seq<Frame>, parse: Json): Option<StreamError> {
    if frames == [] then None
    else
      var before := FirstError(frames[..|frames| - 1], parse);
      if before.Some? then before
      else if Unparsable(frames[|frames| - 1], parse) then Some(NotJson)
      else if Says(frames[|frames| - 1], "error", parse) then Some(UpstreamError)
      else None
  }

  predicate HasBad(frames: seq<Frame>, parse: Json) { exists i :: 0 <= i < |frames| && Bad(frames[i], parse) }

  predicate HasStop(frames: seq<Frame>, parse: Json) {
    exists i :: 0 <= i < |frames| && Says(frames[i], "message_stop", parse)
  }

  predicate HasFinal(frames: seq<Frame>, parse: Json) { exists i :: 0 <= i < |frames| && Final(frames[i], parse) }

  predicate Means(u: Collector, frames: seq<Frame>, parse: Json) {
    && u.isSse && Peak(u.counts, frames, parse) && u.error == FirstError(frames, parse)
    && (u.error.Some? <==> HasBad(frames, parse))
    && (u.stopped <==> HasStop(frames, parse))
    && (u.final <==> HasFinal(frames, parse))
  }

  lemma HasMore(frames: seq<Frame>, frame: Frame, parse: Json)
    ensures HasBad(frames + [frame], parse) <==> HasBad(frames, parse) || Bad(frame, parse)
    ensures HasStop(frames + [frame], parse) <==> HasStop(frames, parse) || Says(frame, "message_stop", parse)
    ensures HasFinal(frames + [frame], parse) <==> HasFinal(frames, parse) || Final(frame, parse)
  {
    hide Bad, Says, Final;
    var more := frames + [frame];
    assert more[|frames|] == frame && forall i :: 0 <= i < |frames| ==> more[i] == frames[i];
  }

  lemma ReportedMore(frames: seq<Frame>, frame: Frame, parse: Json, field: Counts -> int, v: int)
    ensures IsReported(frames, parse, field, v) ==> IsReported(frames + [frame], parse, field, v)
    ensures Reported(frame, parse).Some? && field(Reported(frame, parse).value) == v ==> IsReported(frames + [frame], parse, field, v)
  {
    assert (frames + [frame])[|frames|] == frame;
    if IsReported(frames, parse, field, v) {
      var i :| 0 <= i < |frames| && Reported(frames[i], parse).Some? && field(Reported(frames[i], parse).value) == v;
      assert (frames + [frame])[i] == frames[i];
    }
  }

  /** The counters after one more frame. */
  function CountsAfter(c: Counts, frame: Frame, parse: Json): Counts {
    if Reported(frame, parse).Some? then MaxCounts(c, Reported(frame, parse).value) else c
  }

  lemma PeakStep(c: Counts, frames: seq<Frame>, frame: Frame, parse: Json)
    requires Peak(c, frames, parse)
    ensures Peak(CountsAfter(c, frame, parse), frames + [frame], parse)
  {
    hide Reported, IsReported;
    var d := CountsAfter(c, frame, parse);
    ReportedMore(frames, frame, parse, (k: Counts) => k.input, d.input);
    ReportedMore(frames, frame, parse, (k: Counts) => k.output, d.output);
    ReportedMore(frames, frame, parse, (k: Counts) => k.cacheCreation, d.cacheCreation);
    ReportedMore(frames, frame, parse, (k: Counts) => k.cacheRead, d.cacheRead);
    forall i | 0 <= i < |frames + [frame]| && Reported((frames + [frame])[i], parse).Some?
      ensures AtMost(Reported((frames + [frame])[i], parse).value, d)
    {
      if i < |frames| { assert (frames + [frame])[i] == frames[i]; }
    }
  }

  lemma NothingLarger(c: Counts)
    requires AtMost(ZERO, c)
    ensures MaxCounts(c, ZERO) == c
  {}

  /** One observation, in the same terms. */
  lemma Observed(u: Collector, frame: Frame, parse: Json)
    requires AtMost(ZERO, u.counts)
    ensures var v := Observe(u, frame, parse);
            && v.counts == CountsAfter(u.counts, frame, parse)
            && v.isSse == u.isSse && (v.stopped <==> u.stopped || Says(frame, "message_stop", parse))
            && (v.final <==> u.final || Final(frame, parse))
            && v.error == (if u.error.Some? then u.error
                           else if Unparsable(frame, parse) then Some(NotJson)
                           else if Says(frame, "error", parse) then Some(UpstreamError) else None)
  {
    hide Trim, MaxCounts;
    NothingLarger(u.counts);
  }

  lemma MeansStep(u: Collector, frames: seq<Frame>, frame: Frame, parse: Json)
    requires Means(u, frames, parse)
    ensures Means(Observe(u, frame, parse), frames + [frame], parse)
  {
    assert AtMost(ZERO, u.counts);
    Observed(u, frame, parse);
    PeakStep(u.counts, frames, frame, parse);
    HasMore(frames, frame, parse);
    FirstErrorMore(frames, frame, parse);
    hide Observe, Peak, HasBad, HasStop, HasFinal, Final, Says, Unparsable, CountsAfter, FirstError;
  }

  lemma FirstErrorMore(frames: seq<Frame>, frame: Frame, parse: Json)
    ensures FirstError(frames + [frame], parse)
         == (if FirstError(frames, parse).Some? then FirstError(frames, parse)
             else if Unparsable(frame, parse) then Some(NotJson)
             else if Says(frame, "error", parse) then Some(UpstreamError) else None)
  {
    assert (frames + [frame])[..|frames|] == frames;
  }

  lemma NothingMeans(parse: Json)
    ensures Means(Fresh(true), [], parse)
  {}

  lemma {:induction false} ObservedAll(u: Collector, frames: seq<Frame>, more: seq<Frame>, parse: Json)
    requires Means(u, frames, parse)
    ensures Means(ObserveAll(u, more, parse), frames + more, parse)
    decreases |more|
  {
    hide Means, Observe;
    if more == [] {
      assert frames + more == frames;
    } else {
      MeansStep(u, frames, more[0], parse);
      ObservedAll(Observe(u, more[0], parse), frames + [more[0]], more[1..], parse);
      assert (frames + [more[0]]) + more[1..] == frames + more;
    }
  }

  /** For every stream and every way of cutting it: each counter is the largest value any event reported
      (at least 0), usage is final exactly if a closing delta reported output, and the verdict is success
      exactly if some event is message_stop and none is an error or unparsable. */
  lemma CollectorIsCorrect(chunks: seq<string>, parse: Json)
    ensures var u, frames := Collected(true, chunks, parse), Frames(Concat(chunks));
            && Means(u, frames, parse)
            && (StreamResult(u).None? <==> HasStop(frames, parse) && !HasBad(frames, parse))
            && (ResponseComplete(u) <==> HasFinal(frames, parse) && HasStop(frames, parse) && !HasBad(frames, parse))
  {
    hide Peak, HasBad, HasStop, HasFinal, FirstError, Collected, FinishAll, Frames, ObserveAll;
    CollectedEvents(chunks, parse);
    NothingMeans(parse);
    ObservedAll(Fresh(true), [], Frames(Concat(chunks)), parse);
    assert [] + Frames(Concat(chunks)) == Frames(Concat(chunks));
  }

  /** For every JSON body, however it is cut: it is a finished message exactly if its object says so, its usage is
      final exactly if it has one, and then the counters are those of the object, at least 0. */
  lemma JsonBodyIsCorrect(chunks: seq<string>, parse: Json)
    ensures var u, p := Collected(false, chunks, parse), parse(Concat(chunks));
            && (u.jsonMessage <==> p.Some? && p.value.complete)
            && (u.final <==> p.Some? && p.value.usage.Some?)
            && u.counts == (if u.final then MaxCounts(ZERO, p.value.usage.value.counts) else ZERO)
            && StreamResult(u).None? && (ResponseComplete(u) <==> u.final && u.jsonMessage)
  {
    BufferedChunks(Fresh(false), chunks, parse);
    assert "" + Concat(chunks) == Concat(chunks);
  }

  lemma LargerOfEach(a: Counts, b: Counts)
    ensures var c := MaxCounts(a, b);
            AtMost(a, c) && AtMost(b, c) && c.input in {a.input, b.input} && c.output in {a.output, b.output}
            && c.cacheCreation in {a.cacheCreation, b.cacheCreation} && c.cacheRead in {a.cacheRead, b.cacheRead}
  {}

  lemma {:induction false} LeftTrimmed(s: string) returns (i: nat)
    ensures i <= |s| && TrimLeft(s) == s[i..] && (forall k :: 0 <= k < i ==> IsSpace(s[k])) && (i < |s| ==> !IsSpace(s[i]))
  {
    hide IsSpace;
    i := 0;
    if s != "" && IsSpace(s[0]) {
      var j := LeftTrimmed(s[1..]);
      i := j + 1;
      assert s[1..][j..] == s[i..];
      assert forall k :: 0 < k < i ==> s[k] == s[1..][k - 1];
    }
  }

  lemma {:induction false} RightTrimmed(s: string) returns (j: nat)
    ensures j <= |s| && TrimRight(s) == s[..j] && (forall k :: j <= k < |s| ==> IsSpace(s[k])) && (j > 0 ==> !IsSpace(s[j - 1]))
  {
    hide IsSpace;
    j := |s|;
    if s != "" && IsSpace(s[|s| - 1]) {
      j := RightTrimmed(s[..|s| - 1]);
      assert s[..|s| - 1][..j] == s[..j];
      assert forall k :: j <= k < |s| - 1 ==> s[k] == s[..|s| - 1][k];
    }
  }

  /** Trimming takes the spaces at both ends, all of them, and nothing else. */
  lemma TrimmedExactly(s: string) returns (i: nat, j: nat)
    ensures i <= j <= |s| && Trim(s) == s[i..j]
    ensures forall k :: 0 <= k < i || j <= k < |s| ==> IsSpace(s[k])
    ensures i < j ==> !IsSpace(s[i]) && !IsSpace(s[j - 1])
  {
    i := LeftTrimmed(s);
    var m := RightTrimmed(s[i..]);
    j := i + m;
    hide IsSpace, TrimLeft, TrimRight;
    assert s[i..][..m] == s[i..j];
    assert forall k :: i <= k < |s| ==> s[i..][k - i] == s[k];
    if i < j { assert s[i..][m - 1] == s[j - 1]; }
  }
}
