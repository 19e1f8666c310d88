// The gate in front of a client: bytes are held back until content shows, the buffer is full or time is
// up, so that a failure before that can be retried elsewhere without the client noticing.
module PrebufferGate {

  /** What has reached the client: the header with its status, then bytes. */
  datatype Wire = Header(status: int) | Bytes(data: string)

  /** `supplied` records the bytes given to the gate while it was open; `armed` says a timer callback exists
      that may still run, even after the timer was stopped. */
  datatype Gate = Gate(status: int, maxBytes: int, pending: string, committed: bool, abandoned: bool, broken: bool,
                       timer: bool, armed: bool, wire: seq<Wire>, supplied: string)

  function Fresh(status: int, maxBytes: int): Gate {
    Gate(status, maxBytes, "", false, false, false, false, false, [], "")
  }

  /** `ok` says whether the client's connection takes this write; the first failure is final. */
  function WriteLocked(g: Gate, data: string, ok: bool): Gate {
    if g.broken then g
    else if !ok then g.(broken := true)
    else g.(wire := g.wire + [Bytes(data)])
  }

  function CommitLocked(g: Gate, ok: bool): Gate {
    if g.committed || g.abandoned then g
    else
      var h := g.(committed := true, timer := false, wire := g.wire + [Header(g.status)]);
      if h.pending == "" then h else WriteLocked(h.(pending := ""), h.pending, ok)
  }

  function Push(g: Gate, chunk: string, ok: bool): Gate {
    if g.abandoned then g
    else
      var s := g.(supplied := g.supplied + chunk);
      if g.committed then WriteLocked(s, chunk, ok)
      else
        var p := s.(pending := s.pending + chunk);
        if p.maxBytes > 0 && |p.pending| >= p.maxBytes then CommitLocked(p, ok) else p
  }

  function Write(g: Gate, chunk: string, ok: bool): Gate {
    if g.abandoned then g
    else
      var s := g.(supplied := g.supplied + chunk);
      var c := CommitLocked(s, ok);
      if !g.committed && c.broken then c else WriteLocked(c, chunk, ok)
  }

  function StartTimer(g: Gate, budget: int): Gate {
    if budget <= 0 || g.committed || g.abandoned || g.timer then g else g.(timer := true, armed := true)
  }

  function Claim(g: Gate): (Gate, bool) {
    var s := g.(timer := false);
    if g.committed then (s, false) else (s.(abandoned := true), true)
  }

  function Close(g: Gate): Gate {
    g.(timer := false, abandoned := true, pending := "")
  }

  datatype Op =
    | DoPush(chunk: string, ok: bool)
    | DoWrite(chunk: string, ok: bool)
    | DoCommit(ok: bool)
    | DoTimer(ok: bool)
    | DoStartTimer(budget: int)
    | DoClaim
    | DoClose

  /** The timer's callback may run at any time after the timer was started. */
  predicate Enabled(g: Gate, op: Op) { op.DoTimer? ==> g.armed }

  function Next(g: Gate, op: Op): Gate {
    match op
    case DoPush(chunk, ok) => Push(g, chunk, ok)
    case DoWrite(chunk, ok) => Write(g, chunk, ok)
    case DoCommit(ok) => CommitLocked(g, ok)
    case DoTimer(ok) => CommitLocked(g, ok)
    case DoStartTimer(budget) => StartTimer(g, budget)
    case DoClaim => Claim(g).0
    case DoClose => Close(g)
  }

  predicate CanRun(g: Gate, ops: seq<Op>)
    decreases |ops|
  {
    ops == [] || (Enabled(g, ops[0]) && CanRun(Next(g, ops[0]), ops[1..]))
  }

  function Run(g: Gate, ops: seq<Op>): Gate
    decreases |ops|
  {
    if ops == [] then g else Run(Next(g, ops[0]), ops[1..])
  }

  // ---- what every interleaving keeps -----------------------------------------------------------

  function Sent(wire: seq<Wire>): string {
    if wire == [] then ""
    else Sent(wire[..|wire| - 1]) + (if wire[|wire| - 1].Bytes? then wire[|wire| - 1].data else "")
  }

  /** Header once and first, then bytes only; nothing at all before a commit. */
  predicate WireOk(g: Gate) {
    && (g.committed <==> g.wire != [])
    && (forall i :: 0 <= i < |g.wire| ==> (g.wire[i].Header? <==> i == 0))
    && (g.wire != [] ==> g.wire[0] == Header(g.status))
  }

  /** While open and undisturbed, sent bytes followed by held bytes are the bytes supplied. */
  predicate BytesOk(g: Gate) {
    && (!g.abandoned && !g.broken ==> Sent(g.wire) + g.pending == g.supplied)
    && (g.committed ==> g.pending == "")
    && Sent(g.wire) <= g.supplied
  }

  predicate Inv(g: Gate) { WireOk(g) && BytesOk(g) && (g.broken ==> g.committed) }

  lemma SentMore(wire: seq<Wire>, w: Wire)
    ensures Sent(wire + [w]) == Sent(wire) + (if w.Bytes? then w.data else "")
  {
    assert (wire + [w])[..|wire|] == wire;
  }

  lemma WriteKeeps(g: Gate, data: string, ok: bool)
    requires WireOk(g) && g.committed && (g.broken ==> Sent(g.wire) <= g.supplied)
    requires !g.broken ==> Sent(g.wire) + data <= g.supplied && (!g.abandoned ==> Sent(g.wire) + data == g.supplied)
    requires g.pending == ""
    ensures Inv(WriteLocked(g, data, ok))
  {
    hide Sent;
    SentMore(g.wire, Bytes(data));
    var t := Sent(g.wire) + data;
    assert t + "" == t;
    assert Sent(g.wire) <= t;
  }

  lemma CommitKeeps(g: Gate, ok: bool)
    requires Inv(g)
    ensures Inv(CommitLocked(g, ok))
  {
    if !g.committed && !g.abandoned {
      var h := g.(committed := true, timer := false, wire := g.wire + [Header(g.status)]);
      SentMore(g.wire, Header(g.status));
      assert Sent(g.wire) == "" && Sent(h.wire) == "";
      hide Sent;
      assert "" + g.pending == g.pending;
      if h.pending != "" { WriteKeeps(h.(pending := ""), h.pending, ok); }
    }
  }

  lemma PushKeeps(g: Gate, chunk: string, ok: bool)
    requires Inv(g)
    ensures Inv(Push(g, chunk, ok))
  {
    if !g.abandoned {
      var s := g.(supplied := g.supplied + chunk);
      assert g.supplied <= s.supplied;
      if g.committed {
        assert !g.broken ==> Sent(g.wire) + "" == Sent(g.wire);
        WriteKeeps(s, chunk, ok);
      } else {
        var p := s.(pending := s.pending + chunk);
        assert (Sent(g.wire) + g.pending) + chunk == Sent(g.wire) + (g.pending + chunk);
        CommitKeeps(p, ok);
      }
    }
  }

  lemma CommitSupplied(g: Gate, supplied: string, ok: bool)
    ensures CommitLocked(g.(supplied := supplied), ok) == CommitLocked(g, ok).(supplied := supplied)
    ensures CommitLocked(g, ok).supplied == g.supplied && (!g.abandoned ==> CommitLocked(g, ok).committed)
    ensures CommitLocked(g, ok).abandoned == g.abandoned
  {}

  /** A write supplies its bytes last: everything held goes out first. */
  lemma WriteOpKeeps(g: Gate, chunk: string, ok: bool)
    requires Inv(g)
    ensures Inv(Write(g, chunk, ok))
  {
    if !g.abandoned {
      CommitKeeps(g, ok);
      CommitSupplied(g, g.supplied + chunk, ok);
      var before := CommitLocked(g, ok);
      WrittenAfter(before, chunk, ok);
      hide CommitLocked, Inv;
    }
  }

  lemma WrittenAfter(before: Gate, chunk: string, ok: bool)
    requires Inv(before) && before.committed && !before.abandoned
    ensures Inv(WriteLocked(before.(supplied := before.supplied + chunk), chunk, ok))
    ensures Inv(before.(supplied := before.supplied + chunk)) || !before.broken
  {
    hide Sent;
    var c := before.(supplied := before.supplied + chunk);
    assert before.supplied <= c.supplied;
    assert Sent(before.wire) + "" == Sent(before.wire);
    WriteKeeps(c, chunk, ok);
  }

  lemma StepKeeps(g: Gate, op: Op)
    requires Inv(g)
    ensures Inv(Next(g, op))
  {
    match op
    case DoPush(chunk, ok) => PushKeeps(g, chunk, ok);
    case DoWrite(chunk, ok) => WriteOpKeeps(g, chunk, ok);
    case DoCommit(ok) => CommitKeeps(g, ok);
    case DoTimer(ok) => CommitKeeps(g, ok);
    case _ =>
  }

  /** For every interleaving of reader, timer, claim and close. */
  lemma {:induction false} RunKeeps(g: Gate, ops: seq<Op>)
    requires Inv(g) && CanRun(g, ops)
    ensures Inv(Run(g, ops))
    decreases |ops|
  {
    hide Inv, Next;
    if ops != [] {
      StepKeeps(g, ops[0]);
      RunKeeps(Next(g, ops[0]), ops[1..]);
    }
  }

  lemma GateIsFaithful(status: int, maxBytes: int, ops: seq<Op>)
    requires CanRun(Fresh(status, maxBytes), ops)
    ensures var g := Run(Fresh(status, maxBytes), ops);
            && (forall i :: 0 <= i < |g.wire| ==> (g.wire[i].Header? <==> i == 0))
            && (g.wire != [] ==> g.wire[0] == Header(status))
            && (!g.abandoned && !g.broken ==> Sent(g.wire) + g.pending == g.supplied)
            && Sent(g.wire) <= g.supplied
  {
    RunKeeps(Fresh(status, maxBytes), ops);
    StatusStays(Fresh(status, maxBytes), ops);
  }

  lemma {:induction false} StatusStays(g: Gate, ops: seq<Op>)
    ensures Run(g, ops).status == g.status
    decreases |ops|
  {
    hide Sent;
    if ops != [] { StatusStays(Next(g, ops[0]), ops[1..]); }
  }

  /** After a successful claim or a close nothing reaches the client any more, whatever still runs. */
  lemma {:induction false} AbandonedIsSilent(g: Gate, ops: seq<Op>)
    requires g.abandoned && CanRun(g, ops)
    ensures Run(g, ops).wire == g.wire && Run(g, ops).abandoned
    decreases |ops|
  {
    if ops != [] { AbandonedIsSilent(Next(g, ops[0]), ops[1..]); }
  }

  /** A closed gate holds nothing back any more, and nothing is ever held in it again. */
  lemma {:induction false} ClosedHoldsNothing(g: Gate, ops: seq<Op>)
    requires g.abandoned && g.pending == "" && CanRun(g, ops)
    ensures Run(g, ops).pending == "" && Run(g, ops).abandoned
    decreases |ops|
  {
    if ops != [] { ClosedHoldsNothing(Next(g, ops[0]), ops[1..]); }
  }

  lemma CloseLetsGo(g: Gate, ops: seq<Op>)
    requires CanRun(Next(g, DoClose), ops)
    ensures Run(Next(g, DoClose), ops).pending == "" && Run(Next(g, DoClose), ops).wire == g.wire
  {
    ClosedHoldsNothing(Next(g, DoClose), ops);
    AbandonedIsSilent(Next(g, DoClose), ops);
  }

  /** A claim succeeds exactly if the client has seen nothing, and then it never will. */
  lemma ClaimMeansUnseen(status: int, maxBytes: int, ops: seq<Op>, more: seq<Op>)
    requires CanRun(Fresh(status, maxBytes), ops)
    requires CanRun(Claim(Run(Fresh(status, maxBytes), ops)).0, more)
    ensures var g := Run(Fresh(status, maxBytes), ops);
            var (c, claimed) := Claim(g);
            && (claimed <==> g.wire == [])
            && (claimed ==> Run(c, more).wire == [])
  {
    var g := Run(Fresh(status, maxBytes), ops);
    RunKeeps(Fresh(status, maxBytes), ops);
    var (c, claimed) := Claim(g);
    if claimed { AbandonedIsSilent(c, more); }
  }

  // ---- the gate as an object -------------------------------------------------------------------

  class ResponseGate {
    const status: int
    const maxBytes: int
    var pending: string
    var committed: bool
    var abandoned: bool
    var writeErr: bool
    var timer: bool
    var armed: bool
    var wire: seq<Wire>
    ghost var supplied: string

    ghost function State(): Gate
      reads this
    {
      Gate(status, maxBytes, pending, committed, abandoned, writeErr, timer, armed, wire, supplied)
    }

    constructor (status: int, maxBytes: int)
      ensures State() == Fresh(status, maxBytes)
    {
      this.status, this.maxBytes := status, maxBytes;
      pending, committed, abandoned, writeErr, timer, armed := "", false, false, false, false, false;
      wire, supplied := [], "";
    }

    method DoWriteLocked(chunk: string, ok: bool) returns (failed: bool)
      modifies this`writeErr, this`wire
      ensures State() == WriteLocked(old(State()), chunk, ok) && failed == writeErr
    {
      if !writeErr {
        if ok { wire := wire + [Bytes(chunk)]; } else { writeErr := true; }
      }
      failed := writeErr;
    }

    method DoCommitLocked(ok: bool) returns (failed: bool)
      modifies this`pending, this`committed, this`timer, this`writeErr, this`wire
      ensures State() == CommitLocked(old(State()), ok) && failed == writeErr
    {
      if committed || abandoned { return writeErr; }
      committed, timer := true, false;
      wire := wire + [Header(status)];
      if pending != "" {
        var held := pending;
        pending := "";
        var _ := DoWriteLocked(held, ok);
      }
      failed := writeErr;
    }

    /** Whether the caller should commit now. */
    method PushChunk(chunk: string, ok: bool) returns (commit: bool, failed: bool)
      modifies this
      ensures State() == Push(old(State()), chunk, ok)
      ensures failed ==> writeErr
      ensures !old(abandoned) ==> (commit <==> committed) && (commit ==> failed == writeErr)
    {
      if abandoned { return true, false; }
      supplied := supplied + chunk;
      if committed {
        failed := DoWriteLocked(chunk, ok);
        return true, failed;
      }
      pending := pending + chunk;
      if maxBytes > 0 && |pending| >= maxBytes {
        failed := DoCommitLocked(ok);
        return true, failed;
      }
      return false, false;
    }

    method WriteChunk(chunk: string, ok: bool) returns (failed: bool)
      modifies this
      ensures State() == Write(old(State()), chunk, ok)
    {
      if abandoned { return false; }
      supplied := supplied + chunk;
      if !committed {
        failed := DoCommitLocked(ok);
        if failed { return true; }
      }
      failed := DoWriteLocked(chunk, ok);
    }

    method Arm(budget: int)
      modifies this`timer, this`armed
      ensures State() == StartTimer(old(State()), budget)
    {
      if budget <= 0 || committed || abandoned || timer { return; }
      timer, armed := true, true;
    }

    method ClaimUndelivered() returns (claimed: bool)
      modifies this`timer, this`abandoned
      ensures (State(), claimed) == Claim(old(State()))
    {
      timer := false;
      if committed { return false; }
      abandoned := true;
      return true;
    }

    method Shut()
      modifies this`timer, this`abandoned, this`pending
      ensures State() == Close(old(State()))
    {
      timer, abandoned, pending := false, true, "";
    }
  }
}
