// Token usage and the protocol verdict of one upstream response, read from its bytes.
module UsageSpec {
  import opened Common
  import opened SseFraming

  datatype Counts = Counts(input: int, output: int, cacheCreation: int, cacheRead: int)

  const ZERO := Counts(0, 0, 0, 0)

  /** A usage object: its four counters, absent or unusable ones read as 0, and whether `output_tokens` is there. */
  datatype Report = Report(counts: Counts, hasOutput: bool)

  /** What matters of a JSON object; `complete` says it is a finished Messages response. */
  datatype Payload = Payload(kind: string, messageUsage: Option<Counts>, usage: Option<Report>, stopReason: string,
                             complete: bool)

  type Json = string -> Option<Payload>

  datatype StreamError = NotJson | UpstreamError | NoMessageStop

  datatype Collector = Collector(isSse: bool, framer: Framer, counts: Counts, final: bool, jsonMessage: bool,
                                 stopped: bool, error: Option<StreamError>)

  function Fresh(isSse: bool): Collector {
    Collector(isSse, START, ZERO, false, false, false, None)
  }

  predicate IsSpace(c: char) {
    || c in " \t\n\r\U{000B}\U{000C}\U{0085}\U{00A0}\U{1680}\U{2028}\U{2029}\U{202F}\U{205F}\U{3000}"
    || '\U{2000}' <= c <= '\U{200A}'
  }

  function TrimLeft(s: string): string {
    if s != "" && IsSpace(s[0]) then TrimLeft(s[1..]) else s
  }

  function TrimRight(s: string): string {
    if s != "" && IsSpace(s[|s| - 1]) then TrimRight(s[..|s| - 1]) else s
  }

  function Trim(s: string): string { TrimRight(TrimLeft(s)) }

  function MaxCounts(a: Counts, b: Counts): Counts {
    Counts(Max(a.input, b.input), Max(a.output, b.output), Max(a.cacheCreation, b.cacheCreation),
           Max(a.cacheRead, b.cacheRead))
  }

  /** Frames without data and the OpenAI end marker say nothing. */
  predicate Silent(frame: Frame) {
    Trim(frame.data) == "" || Trim(frame.data) == "[DONE]"
  }

  function KindOf(frame: Frame, p: Payload): string {
    if Trim(frame.name) == "" then p.kind else Trim(frame.name)
  }

  function Observe(u: Collector, frame: Frame, parse: Json): Collector {
    if Silent(frame) then u
    else
      match parse(Trim(frame.data))
      case None => u.(error := if u.error.None? then Some(NotJson) else u.error)
      case Some(p) =>
        var kind := KindOf(frame, p);
        if kind == "message_start" then
          u.(counts := MaxCounts(u.counts, if p.messageUsage.Some? then p.messageUsage.value else ZERO))
        else if kind == "message_delta" then
          u.(counts := MaxCounts(u.counts, if p.usage.Some? then p.usage.value.counts else ZERO),
             final := u.final || (p.usage.Some? && p.usage.value.hasOutput && p.stopReason != ""))
        else if kind == "message_stop" then u.(stopped := true)
        else if kind == "error" then u.(error := if u.error.None? then Some(UpstreamError) else u.error)
        else u
  }

  function ObserveAll(u: Collector, frames: seq<Frame>, parse: Json): Collector
    decreases |frames|
  {
    if frames == [] then u else ObserveAll(Observe(u, frames[0], parse), frames[1..], parse)
  }

  function FeedChunk(u: Collector, chunk: string, parse: Json): Collector {
    if u.isSse then
      var (f, frames) := Feed(u.framer, chunk);
      ObserveAll(u.(framer := f), frames, parse)
    else u.(framer := u.framer.(pending := u.framer.pending + chunk))
  }

  function FeedChunks(u: Collector, chunks: seq<string>, parse: Json): Collector
    decreases |chunks|
  {
    if chunks == [] then u else FeedChunks(FeedChunk(u, chunks[0], parse), chunks[1..], parse)
  }

  /** A body that is not a stream is parsed here in one piece. */
  function FinishAll(u: Collector, parse: Json): Collector {
    if u.isSse then
      var (f, frames) := Finish(u.framer);
      ObserveAll(u.(framer := f), frames, parse)
    else
      var v := u.(framer := u.framer.(pending := ""));
      match parse(u.framer.pending)
      case None => v
      case Some(p) =>
        var w := v.(jsonMessage := p.complete);
        if p.usage.Some? then w.(counts := MaxCounts(u.counts, p.usage.value.counts), final := true) else w
  }

  function StreamResult(u: Collector): Option<StreamError> {
    if !u.isSse then None
    else if u.error.Some? then u.error
    else if !u.stopped then Some(NoMessageStop)
    else None
  }

  predicate ResponseComplete(u: Collector) {
    u.final && (if u.isSse then StreamResult(u).None? else u.jsonMessage)
  }
}
