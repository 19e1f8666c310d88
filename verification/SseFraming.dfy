// Event stream framing: lines to events (section 9.2.6 of the WHATWG HTML standard, with the decoder's
// own flush at the end of input), and bytes to lines however they are cut.
module SseFraming {
  import opened Common

  datatype Frame = Frame(name: string, data: string)

  datatype Decoder = Decoder(name: string, data: string, hasData: bool)

  const EMPTY := Decoder("", "", false)

  /** The first occurrence of `c`, or the length. */
  function IndexOf(s: string, c: char): (n: nat)
    ensures n <= |s| && (n < |s| ==> s[n] == c) && forall k :: 0 <= k < n ==> s[k] != c
  {
    if s == "" then 0 else if s[0] == c then 0 else 1 + IndexOf(s[1..], c)
  }

  function TrimCr(line: string): string {
    if line != "" && line[|line| - 1] == '\r' then line[..|line| - 1] else line
  }

  function Field(line: string): string { line[..IndexOf(line, ':')] }

  /** What follows the colon, without one optional space. */
  function Value(line: string): string {
    var n := IndexOf(line, ':');
    var v := if n < |line| then line[n + 1..] else "";
    if v != "" && v[0] == ' ' then v[1..] else v
  }

  function Flush(d: Decoder): (Decoder, Option<Frame>) {
    (EMPTY, if d.hasData then Some(Frame(d.name, d.data)) else None)
  }

  function FeedLine(d: Decoder, raw: string): (Decoder, Option<Frame>) {
    var line := TrimCr(raw);
    if line == "" then Flush(d)
    else if Field(line) == "event" then (d.(name := Value(line)), None)
    else if Field(line) == "data" then
      (d.(data := if d.hasData then d.data + "\n" + Value(line) else d.data + Value(line), hasData := true), None)
    else (d, None)
  }

  function Listed(f: Option<Frame>): seq<Frame> {
    if f.Some? then [f.value] else []
  }

  /** A decoder in front of a byte stream: `pending` is the line not yet ended. */
  datatype Framer = Framer(decoder: Decoder, pending: string)

  const START := Framer(EMPTY, "")

  /** Takes every complete line out of `pending`. */
  function Drain(f: Framer): (r: (Framer, seq<Frame>))
    ensures '\n' !in r.0.pending
    decreases |f.pending|
  {
    var n := IndexOf(f.pending, '\n');
    if n == |f.pending| then (f, [])
    else
      var (d, frame) := FeedLine(f.decoder, f.pending[..n]);
      var (g, frames) := Drain(Framer(d, f.pending[n + 1..]));
      (g, Listed(frame) + frames)
  }

  function Feed(f: Framer, chunk: string): (Framer, seq<Frame>) {
    Drain(f.(pending := f.pending + chunk))
  }

  /** End of input: an unfinished line counts as a line, an unfinished event as an event. */
  function Finish(f: Framer): (Framer, seq<Frame>) {
    var (d, frame) := if f.pending == "" then (f.decoder, None) else FeedLine(f.decoder, f.pending);
    var (e, last) := Flush(d);
    (Framer(e, ""), Listed(frame) + Listed(last))
  }

  function Concat(chunks: seq<string>): string {
    if chunks == [] then "" else chunks[0] + Concat(chunks[1..])
  }

  function FeedAll(f: Framer, chunks: seq<string>): (Framer, seq<Frame>)
    decreases |chunks|
  {
    if chunks == [] then (f, [])
    else
      var (g, frames) := Feed(f, chunks[0]);
      var (h, more) := FeedAll(g, chunks[1..]);
      (h, frames + more)
  }

  // ---- cutting does not matter ---------------------------------------------------------------

  lemma IndexOfAppend(a: string, b: string, c: char)
    ensures c in a ==> IndexOf(a + b, c) == IndexOf(a, c) < |a|
    ensures c !in a ==> IndexOf(a, c) == |a| && IndexOf(a + b, c) == |a| + IndexOf(b, c)
  {
    if a == "" {
      assert a + b == b;
    } else {
      assert (a + b)[1..] == a[1..] + b;
      assert a == [a[0]] + a[1..];
      if a[0] != c { IndexOfAppend(a[1..], b, c); }
    }
  }

  lemma NoLine(f: Framer)
    requires '\n' !in f.pending
    ensures Drain(f) == (f, [])
  {
    IndexOfAppend(f.pending, "", '\n');
  }

  lemma FirstLine(pending: string, line: string, rest: string)
    requires '\n' !in line && pending == line + ("\n" + rest)
    ensures IndexOf(pending, '\n') == |line| < |pending| && pending[..|line|] == line && pending[|line| + 1..] == rest
  {
    IndexOfAppend(line, "\n" + rest, '\n');
    assert ("\n" + rest)[0] == '\n';
  }

  lemma NextLine(f: Framer, line: string, rest: string)
    requires '\n' !in line && f.pending == line + ("\n" + rest)
    ensures var (d, frame) := FeedLine(f.decoder, line);
            var (g, frames) := Drain(Framer(d, rest));
            Drain(f) == (g, Listed(frame) + frames)
  {
    hide FeedLine, IndexOf;
    FirstLine(f.pending, line, rest);
  }

  lemma SplitLine(pending: string) returns (line: string, rest: string)
    requires '\n' in pending
    ensures '\n' !in line && pending == line + ("\n" + rest)
  {
    var n := IndexOf(pending, '\n');
    IndexOfAppend(pending, "", '\n');
    line, rest := pending[..n], pending[n + 1..];
  }

  lemma {:induction false} DrainAppend(f: Framer, more: string)
    ensures var (g, frames) := Drain(f);
            var (h, rest) := Drain(g.(pending := g.pending + more));
            Drain(f.(pending := f.pending + more)) == (h, frames + rest)
    decreases |f.pending|
  {
    hide Drain, FeedLine, IndexOf;
    if '\n' in f.pending {
      var line, tail := SplitLine(f.pending);
      var (d, frame) := FeedLine(f.decoder, line);
      NextLine(f, line, tail);
      DrainAppend(Framer(d, tail), more);
      assert f.pending + more == line + ("\n" + (tail + more));
      NextLine(f.(pending := f.pending + more), line, tail + more);
      var (g, frames) := Drain(Framer(d, tail));
      var (h, rest) := Drain(g.(pending := g.pending + more));
      assert Listed(frame) + (frames + rest) == (Listed(frame) + frames) + rest;
    } else {
      NoLine(f);
      var (h, rest) := Drain(f.(pending := f.pending + more));
      assert [] + rest == rest;
    }
  }

  /** Feeding chunk after chunk gives the frames of feeding them joined. */
  lemma {:induction false} CutsDoNotMatter(f: Framer, chunks: seq<string>)
    requires '\n' !in f.pending
    ensures FeedAll(f, chunks) == Feed(f, Concat(chunks))
    decreases |chunks|
  {
    hide Drain;
    if chunks == [] {
      assert f.pending + "" == f.pending;
      NoLine(f);
    } else {
      var (g, frames) := Feed(f, chunks[0]);
      CutsDoNotMatter(g, chunks[1..]);
      DrainAppend(f.(pending := f.pending + chunks[0]), Concat(chunks[1..]));
      assert f.pending + (chunks[0] + Concat(chunks[1..])) == (f.pending + chunks[0]) + Concat(chunks[1..]);
    }
  }

  /** All events of a byte stream that ended. */
  function Frames(bytes: string): seq<Frame> {
    var (f, frames) := Feed(START, bytes);
    frames + Finish(f).1
  }

  /** A stream read in any chunks: its events are those of its bytes. */
  function ReadAll(chunks: seq<string>): seq<Frame> {
    var (f, frames) := FeedAll(START, chunks);
    frames + Finish(f).1
  }

  lemma ChunkIndependence(chunks: seq<string>)
    ensures ReadAll(chunks) == Frames(Concat(chunks))
  {
    CutsDoNotMatter(START, chunks);
  }

  // ---- printing and reading back -------------------------------------------------------------

  function Print(frame: Frame): string {
    "event: " + frame.name + "\ndata: " + frame.data + "\n\n"
  }

  function PrintAll(frames: seq<Frame>): string {
    if frames == [] then "" else Print(frames[0]) + PrintAll(frames[1..])
  }

  /** Text that stays on one line and does not end in a carriage return. */
  predicate OneLine(s: string) {
    '\n' !in s && (s == "" || s[|s| - 1] != '\r')
  }

  lemma FieldLine(field: string, value: string)
    requires ':' !in field && field != "" && OneLine(value)
    ensures var line := field + ": " + value;
            TrimCr(line) == line && Field(line) == field && Value(line) == value
  {
    hide IndexOf;
    var line := field + ": " + value;
    ColonAt(field, value);
    var n := |field|;
    assert line[..n] == field && line[n + 1..] == " " + value && (" " + value)[1..] == value;
    LastChar(field + ": ", value);
  }

  lemma LastChar(front: string, value: string)
    requires front != "" && front[|front| - 1] != '\r' && OneLine(value)
    ensures TrimCr(front + value) == front + value
  {
    var line := front + value;
    if value != "" { assert line[|line| - 1] == value[|value| - 1]; } else { assert line == front; }
  }

  lemma ColonAt(field: string, value: string)
    requires ':' !in field
    ensures IndexOf(field + ": " + value, ':') == |field|
  {
    var rest := ": " + value;
    assert field + ": " + value == field + rest;
    assert rest[0] == ':';
    IndexOfAppend(field, rest, ':');
  }

  lemma EventLine(d: Decoder, name: string)
    requires OneLine(name)
    ensures '\n' !in "event: " + name && FeedLine(d, "event: " + name) == (d.(name := name), None)
  {
    FieldLine("event", name);
    assert "event: " + name == "event" + ": " + name;
  }

  lemma DataLine(name: string, data: string)
    requires OneLine(data)
    ensures '\n' !in "data: " + data && FeedLine(Decoder(name, "", false), "data: " + data) == (Decoder(name, data, true), None)
  {
    FieldLine("data", data);
    assert "data: " + data == "data" + ": " + data;
    assert "" + data == data;
  }

  lemma PrintedLines(frame: Frame, rest: string)
    ensures Print(frame) + rest
         == ("event: " + frame.name) + ("\n" + (("data: " + frame.data) + ("\n" + ("" + ("\n" + rest)))))
  {
    var a, b := "event: " + frame.name, "data: " + frame.data;
    assert "\ndata: " == "\n" + "data: " && "\n\n" == "\n" + "\n";
    assert a + "\ndata: " + frame.data == a + "\n" + b;
    assert Print(frame) == a + "\n" + b + "\n" + "\n";
    assert "" + ("\n" + rest) == "\n" + rest;
    var t := "\n" + ("\n" + rest);
    assert (a + "\n" + b + "\n" + "\n") + rest == a + "\n" + b + t;
    assert a + "\n" + b + t == a + ("\n" + (b + t));
  }

  lemma EmptyLine(frame: Frame)
    ensures FeedLine(Decoder(frame.name, frame.data, true), "") == (EMPTY, Some(frame))
  {}

  lemma PrintedFrame(frame: Frame, rest: string)
    requires OneLine(frame.name) && OneLine(frame.data)
    ensures Drain(Framer(EMPTY, Print(frame) + rest)) == (Drain(Framer(EMPTY, rest)).0, [frame] + Drain(Framer(EMPTY, rest)).1)
  {
    var l1, l2 := "event: " + frame.name, "data: " + frame.data;
    var s3 := "" + ("\n" + rest);
    var s2 := l2 + ("\n" + s3);
    var s1 := l1 + ("\n" + s2);
    EmptyLine(frame);
    hide Drain, FeedLine, Print, OneLine;
    PrintedLines(frame, rest);
    EventLine(EMPTY, frame.name);
    DataLine(frame.name, frame.data);
    NextLine(Framer(EMPTY, s1), l1, s2);
    NextLine(Framer(Decoder(frame.name, "", false), s2), l2, s3);
    NextLine(Framer(Decoder(frame.name, frame.data, true), s3), "", rest);
    var tail := Drain(Framer(EMPTY, rest)).1;
    assert Listed(None) + (Listed(None) + (Listed(Some(frame)) + tail)) == [frame] + tail;
  }

  /** Reading printed frames, cut anywhere, gives the same frames, whatever their one-line content. */
  lemma {:induction false} RoundTrip(frames: seq<Frame>)
    requires forall i :: 0 <= i < |frames| ==> OneLine(frames[i].name) && OneLine(frames[i].data)
    ensures Frames(PrintAll(frames)) == frames && Drain(Framer(EMPTY, PrintAll(frames))) == (START, frames)
  {
    hide Drain, Print, Finish, OneLine, Frames;
    if frames == [] {
      NoLine(START);
    } else {
      RoundTrip(frames[1..]);
      PrintedFrame(frames[0], PrintAll(frames[1..]));
      assert frames == [frames[0]] + frames[1..];
    }
    assert "" + PrintAll(frames) == PrintAll(frames);
    NothingPending(PrintAll(frames));
  }

  lemma FinishStart()
    ensures Finish(START) == (START, [])
  {
    var none: Option<Frame> := None;
    assert Listed(none) + Listed(none) == [];
  }

  lemma NothingPending(bytes: string)
    requires Feed(START, bytes).0 == START
    ensures Frames(bytes) == Feed(START, bytes).1
  {
    FinishStart();
    hide Finish, Drain;
    assert Feed(START, bytes).1 + [] == Feed(START, bytes).1;
  }

  /** After bytes that end on an event boundary, printed frames are read as themselves. */
  lemma PrintedAfter(bytes: string, frames: seq<Frame>)
    requires Feed(START, bytes).0 == START
    requires forall i :: 0 <= i < |frames| ==> OneLine(frames[i].name) && OneLine(frames[i].data)
    ensures Frames(bytes + PrintAll(frames)) == Frames(bytes) + frames
  {
    hide Drain, Print, PrintAll, Finish, OneLine, Frames;
    RoundTrip(frames);
    FedAfter(bytes, PrintAll(frames), frames);
    NothingPending(bytes);
    NothingPending(bytes + PrintAll(frames));
  }

  lemma FedAfter(bytes: string, more: string, frames: seq<Frame>)
    requires Feed(START, bytes).0 == START && Drain(Framer(EMPTY, more)) == (START, frames)
    ensures Feed(START, bytes + more) == (START, Feed(START, bytes).1 + frames)
  {
    hide Drain;
    assert "" + bytes == bytes && "" + more == more && "" + (bytes + more) == bytes + more;
    DrainAppend(Framer(EMPTY, bytes), more);
  }

  // ---- events of many lines -------------------------------------------------------------------

  /** A line may end in a carriage return and a newline, or in a newline alone. */
  function Eol(cr: bool): string { if cr then "\r\n" else "\n" }

  /** The lines of an event without its empty one. */
  function EventLines(name: string, ds: seq<string>): seq<string> {
    ["event: " + name] + DataLines(ds)
  }

  function DataLines(ds: seq<string>): seq<string> {
    if ds == [] then [] else ["data: " + ds[0]] + DataLines(ds[1..])
  }

  function Lines(ls: seq<string>, cr: bool): string {
    if ls == [] then "" else ls[0] + (Eol(cr) + Lines(ls[1..], cr))
  }

  function Joined(ds: seq<string>): string {
    if ds == [] then "" else if |ds| == 1 then ds[0] else Joined(ds[..|ds| - 1]) + "\n" + ds[|ds| - 1]
  }

  lemma CrLine(d: Decoder, line: string)
    requires line == "" || line[|line| - 1] != '\r'
    ensures FeedLine(d, line + "\r") == FeedLine(d, line)
  {
    assert TrimCr(line + "\r") == line && TrimCr(line) == line;
    hide TrimCr, Field, Value;
  }

  /** A line is read the same with either ending. */
  lemma EitherEnding(d: Decoder, line: string, cr: bool, rest: string)
    requires OneLine(line)
    ensures var (e, frame) := FeedLine(d, line);
            var (g, frames) := Drain(Framer(e, rest));
            Drain(Framer(d, line + (Eol(cr) + rest))) == (g, Listed(frame) + frames)
  {
    hide Drain, FeedLine;
    if cr {
      CrLine(d, line);
      assert line + (Eol(true) + rest) == (line + "\r") + ("\n" + rest);
      NextLine(Framer(d, line + (Eol(true) + rest)), line + "\r", rest);
    } else {
      NextLine(Framer(d, line + (Eol(false) + rest)), line, rest);
    }
  }

  lemma MoreData(name: string, ds: seq<string>, data: string)
    requires OneLine(data)
    ensures OneLine("data: " + data)
    ensures FeedLine(Decoder(name, Joined(ds), ds != []), "data: " + data) == (Decoder(name, Joined(ds + [data]), true), None)
  {
    FieldLine("data", data);
    assert "data: " + data == "data" + ": " + data;
    assert "" + data == data;
    assert (ds + [data])[..|ds|] == ds;
    assert data != "" ==> ("data: " + data)[|"data: " + data| - 1] == data[|data| - 1];
  }

  lemma FirstOfLines(line: string, ls: seq<string>, cr: bool, rest: string)
    ensures Lines([line] + ls, cr) + rest == line + (Eol(cr) + (Lines(ls, cr) + rest))
  {
    assert ([line] + ls)[1..] == ls;
    hide Eol;
  }

  lemma NoneListed(r: (Framer, seq<Frame>))
    ensures (r.0, Listed(None) + r.1) == r
  {
    var none: Option<Frame> := None;
    assert Listed(none) + r.1 == r.1;
  }

  lemma {:induction false} DataRead(name: string, done: seq<string>, ds: seq<string>, cr: bool, rest: string)
    requires forall i :: 0 <= i < |ds| ==> OneLine(ds[i])
    ensures Drain(Framer(Decoder(name, Joined(done), done != []), Lines(DataLines(ds), cr) + rest)) ==
              Drain(Framer(Decoder(name, Joined(done + ds), done + ds != []), rest))
    decreases |ds|
  {
    hide Drain, FeedLine, Joined, OneLine, Lines, Eol, Listed;
    if ds == [] {
      NoLines(cr, rest);
      assert done + ds == done;
    } else {
      MoreData(name, done, ds[0]);
      FirstOfLines("data: " + ds[0], DataLines(ds[1..]), cr, rest);
      EitherEnding(Decoder(name, Joined(done), done != []), "data: " + ds[0], cr, Lines(DataLines(ds[1..]), cr) + rest);
      DataRead(name, done + [ds[0]], ds[1..], cr, rest);
      assert (done + [ds[0]]) + ds[1..] == done + ds;
      NoneListed(Drain(Framer(Decoder(name, Joined(done + ds), true), rest)));
    }
  }

  lemma NoLines(cr: bool, rest: string)
    ensures Lines([], cr) + rest == rest
  {}

  lemma EventRead(name: string, ds: seq<string>, cr: bool, rest: string)
    requires OneLine(name) && forall i :: 0 <= i < |ds| ==> OneLine(ds[i])
    ensures Drain(Framer(EMPTY, Lines(EventLines(name, ds), cr) + rest)) ==
              Drain(Framer(Decoder(name, Joined(ds), ds != []), rest))
  {
    EventLine(EMPTY, name);
    assert OneLine("event: " + name) by {
      assert name != "" ==> ("event: " + name)[|"event: " + name| - 1] == name[|name| - 1];
    }
    hide Drain, FeedLine, OneLine, Lines, DataLines, Eol, Listed;
    FirstOfLines("event: " + name, DataLines(ds), cr, rest);
    EitherEnding(EMPTY, "event: " + name, cr, Lines(DataLines(ds), cr) + rest);
    DataRead(name, [], ds, cr, rest);
    assert [] + ds == ds;
    NoneListed(Drain(Framer(Decoder(name, Joined(ds), ds != []), rest)));
  }

  /** An event's data lines are joined by newlines, whichever way its lines end. */
  lemma ManyLinesRead(name: string, ds: seq<string>, cr: bool, rest: string)
    requires OneLine(name) && ds != [] && forall i :: 0 <= i < |ds| ==> OneLine(ds[i])
    ensures var (g, frames) := Drain(Framer(EMPTY, rest));
            Drain(Framer(EMPTY, Lines(EventLines(name, ds), cr) + (Eol(cr) + rest))) == (g, [Frame(name, Joined(ds))] + frames)
  {
    EventRead(name, ds, cr, Eol(cr) + rest);
    var d := Decoder(name, Joined(ds), true);
    assert FeedLine(d, "") == (EMPTY, Some(Frame(name, Joined(ds))));
    assert "" + (Eol(cr) + rest) == Eol(cr) + rest;
    hide Drain, FeedLine, Lines, EventLines;
    EitherEnding(d, "", cr, rest);
  }

  /** An event that the end of the stream cuts short is read all the same: without its empty line. */
  lemma UnendedEventIsRead(name: string, ds: seq<string>, cr: bool)
    requires OneLine(name) && ds != [] && forall i :: 0 <= i < |ds| ==> OneLine(ds[i])
    ensures Frames(Lines(EventLines(name, ds), cr)) == [Frame(name, Joined(ds))]
  {
    hide *;
    EventRead(name, ds, cr, "");
    LeftOver(Lines(EventLines(name, ds), cr), "", Decoder(name, Joined(ds), true));
    FinishedAtOnce(Decoder(name, Joined(ds), true));
  }

  /** And without the end of its last line. */
  lemma UnendedLineIsRead(name: string, ds: seq<string>, data: string, cr: bool)
    requires OneLine(name) && OneLine(data) && forall i :: 0 <= i < |ds| ==> OneLine(ds[i])
    ensures Frames(Lines(EventLines(name, ds), cr) + ("data: " + data)) == [Frame(name, Joined(ds + [data]))]
  {
    FinishedData(name, ds, data);
    hide *;
    EventRead(name, ds, cr, "data: " + data);
    LeftOver(Lines(EventLines(name, ds), cr), "data: " + data, Decoder(name, Joined(ds), ds != []));
  }

  /** Bytes whose lines leave the decoder here, and what is left of them is no whole line. */
  lemma LeftOver(lines: string, rest: string, d: Decoder)
    requires Drain(Framer(EMPTY, lines + rest)) == Drain(Framer(d, rest)) && '\n' !in rest
    ensures Frames(lines + rest) == Finish(Framer(d, rest)).1
    ensures rest == "" ==> Frames(lines) == Finish(Framer(d, "")).1
  {
    hide Drain, Finish;
    NoLine(Framer(d, rest));
    assert "" + (lines + rest) == lines + rest;
    assert rest == "" ==> lines + rest == lines;
    assert [] + Finish(Framer(d, rest)).1 == Finish(Framer(d, rest)).1;
  }

  lemma FinishedAtOnce(d: Decoder)
    requires d.hasData
    ensures Finish(Framer(d, "")).1 == [Frame(d.name, d.data)]
  {
    var none: Option<Frame> := None;
    assert Listed(none) + [Frame(d.name, d.data)] == [Frame(d.name, d.data)];
  }

  lemma FinishedData(name: string, ds: seq<string>, data: string)
    requires OneLine(data)
    ensures '\n' !in "data: " + data
    ensures Finish(Framer(Decoder(name, Joined(ds), ds != []), "data: " + data)).1 == [Frame(name, Joined(ds + [data]))]
  {
    MoreData(name, ds, data);
    hide FeedLine, Joined;
    var none: Option<Frame> := None;
    assert Listed(none) + [Frame(name, Joined(ds + [data]))] == [Frame(name, Joined(ds + [data]))];
  }
}
