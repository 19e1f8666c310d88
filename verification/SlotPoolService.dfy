// What a caller of the slot pool can count on: nobody is turned away or gives up without a reason, and a result
// that is there is returned.
module SlotPoolService {
  import opened Common
  import opened SlotPoolSpec
  import opened SlotPoolProofs
  import opened SlotPoolTheorems

  // ---- nobody is turned away ------------------------------------------------------------------

  /** The pool is started and nobody has begun to close it. */
  predicate Open(p: Pool) { p.launch == Up && !p.closed }

  predicate NoClose(steps: seq<Step>) {
    forall k :: 0 <= k < |steps| ==> steps[k] != DoClose
  }

  /** A caller is under way: unless a slot has its request, it waits for one, holds one or gives one back.  If it
      was refused, it is because of time, its own wish or the close. */
  predicate UnderWay(k: Call) {
    && k.phase != Finished(Fail(NotStarted))
    && (k.home.None? && !k.phase.Finished? ==> k.phase.Queueing? || k.phase.Holding? || k.phase.Returning?)
  }

  lemma NobodyWaitsStep(p: Pool, s: Step, n: nat)
    requires Inv(p) && StartOk(p) && Open(p) && Enabled(p, s) && s != DoClose
    requires n <= |p.calls| && forall c :: n <= c < |p.calls| ==> UnderWay(p.calls[c])
    ensures Open(Next(p, s)) && n <= |Next(p, s).calls|
    ensures forall c :: n <= c < |Next(p, s).calls| ==> UnderWay(Next(p, s).calls[c])
  {
    assert forall c :: 0 <= c < |p.calls| ==> PhaseOk(p.calls[c]);
    hide Inv, StartOk, SlotNext, CallNext;
    match s
    case OfSlot(i, slot) => SlotLeavesPhases(p, i, slot);
    case OfCall(c, call) => CallUnderWay(p, c, call);
    case DoArrive => assert p.started && Current(p) by { StartedIsCurrent(p); }
    case _ =>
  }

  lemma StartedIsCurrent(p: Pool)
    requires StartOk(p) && Open(p)
    ensures p.started && Current(p)
  {}

  lemma SlotLeavesPhases(p: Pool, i: nat, s: SlotStep)
    requires SlotEnabled(p, i, s)
    ensures var q := SlotNext(p, i, s);
            forall c :: 0 <= c < |p.calls| ==> q.calls[c].phase == p.calls[c].phase && q.calls[c].home == p.calls[c].home
  {}

  lemma CallUnderWay(p: Pool, c: nat, s: CallStep)
    requires CallEnabled(p, c, s) && PhaseOk(p.calls[c])
    ensures var q := CallNext(p, c, s);
            && UnderWay(q.calls[c])
            && forall d :: 0 <= d < |p.calls| && d != c ==> q.calls[d] == p.calls[d]
  {}

  /** In a started pool that nobody closes, no caller is told that the pool is not started, however busy the slots
      are: it waits for a slot. */
  lemma {:induction false} NobodyIsTurnedAway(size: nat, p: Pool, steps: seq<Step>, n: nat)
    requires size > 0 && Reachable(size, p) && Open(p) && CanRun(p, steps) && NoClose(steps)
    requires n <= |p.calls| && forall c :: n <= c < |p.calls| ==> UnderWay(p.calls[c])
    ensures Open(Run(p, steps)) && n <= |Run(p, steps).calls|
    ensures forall c :: n <= c < |Run(p, steps).calls| ==> UnderWay(Run(p, steps).calls[c])
    decreases |steps|
  {
    ReachableInv(size, p);
    hide Inv, StartOk, Reachable, UnderWay, Next, Enabled;
    if steps != [] {
      NobodyWaitsStep(p, steps[0], n);
      ReachableStep(size, p, steps[0]);
      NobodyIsTurnedAway(size, Next(p, steps[0]), steps[1..], n);
    }
  }

  lemma OneCallMoves(p: Pool, c: nat, s: CallStep)
    requires CallEnabled(p, c, s)
    ensures forall d :: 0 <= d < |p.calls| && d != c ==> CallNext(p, c, s).calls[d] == p.calls[d]
  {}

  lemma WaitingCall(p: Pool, c: nat, s: CallStep)
    requires CallEnabled(p, c, s) && p.calls[c].phase.Queueing?
    ensures var q := CallNext(p, c, s);
            || (p.idle != [] && q.calls[c].phase == Holding(p.idle[0]) && q.idle == p.idle[1..])
            || q.calls[c].phase == Finished(Fail(QueueTimeout)) || q.calls[c].phase == Finished(Fail(Cancelled))
            || (p.closed && q.calls[c].phase == Finished(Fail(Closed)))
  {}

  /** A caller that waits goes on waiting until it takes the slot that has been idle longest, or until time, its own
      wish or the close ends it. */
  lemma WaitingEnds(p: Pool, s: Step, c: nat)
    requires Enabled(p, s) && c < |p.calls| && p.calls[c].phase.Queueing?
    ensures var q := Next(p, s);
            || q.calls[c].phase.Queueing?
            || (p.idle != [] && q.calls[c].phase == Holding(p.idle[0]) && q.idle == p.idle[1..])
            || q.calls[c].phase == Finished(Fail(QueueTimeout)) || q.calls[c].phase == Finished(Fail(Cancelled))
            || (p.closed && q.calls[c].phase == Finished(Fail(Closed)))
  {
    hide SlotNext, CallNext, CallEnabled, SlotEnabled;
    match s
    case OfSlot(i, slot) => SlotLeavesPhases(p, i, slot);
    case OfCall(d, call) => if d == c { WaitingCall(p, c, call); } else { OneCallMoves(p, d, call); }
    case _ =>
  }

  // ---- results --------------------------------------------------------------------------------

  /** A result that has arrived is what an awaiting caller returns, also if its timer or the close comes first;
      only its own cancellation can win. */
  lemma ResultWins(p: Pool, s: Step, c: nat)
    requires Enabled(p, s) && c < |p.calls| && p.calls[c].phase.Awaiting? && p.calls[c].done.Some?
    ensures var q := Next(p, s);
            || q.calls[c].phase == Finished(Answer(p.calls[c].done.value))
            || (q.calls[c].phase.Awaiting? && !(s.OfCall? && s.c == c))
            || (s == OfCall(c, Cancel) && q.calls[c].phase == Abandoning(Cancelled))
  {
    hide SlotNext, CallNext, CallEnabled, SlotEnabled;
    match s
    case OfSlot(i, slot) => SlotLeavesPhases(p, i, slot);
    case OfCall(d, call) => if d == c { WhyExactly(p, c, call); AwaitingMoves(p, c, call); } else { OneCallMoves(p, d, call); }
    case _ =>
  }

  lemma AwaitingMoves(p: Pool, c: nat, s: CallStep)
    requires CallEnabled(p, c, s) && p.calls[c].phase.Awaiting?
    ensures s in {Read, Expire, Cancel, SeeSettled}
  {}

  /** A worker's result reaches the caller that still wants it, and nobody else. */
  lemma ResultArrives(p: Pool, i: nat, c: nat)
    requires Enabled(p, OfSlot(i, Deliver)) && c < |p.calls|
    ensures var q := Next(p, OfSlot(i, Deliver));
            q.calls[c].done == if c == p.slots[i].r && !p.calls[c].abandoned then Some(p.slots[i].result) else p.calls[c].done
  {}

  /** Why a caller that awaits its result stops awaiting it. */
  lemma WhyExactly(p: Pool, c: nat, s: CallStep)
    requires CallEnabled(p, c, s) && p.calls[c].phase.Awaiting?
    ensures var phase, there := CallNext(p, c, s).calls[c].phase, p.calls[c].done.Some?;
            && (phase.Finished? <==> s == Read || (there && (s == Expire || s == SeeSettled)))
            && (phase.Expiring? <==> s == Expire && !there)
            && (phase == Abandoning(Cancelled) <==> s == Cancel)
            && (phase == Abandoning(Closed) <==> s == SeeSettled && !there)
            && (phase.Finished? ==> phase.outcome == Answer(p.calls[c].done.value))
  {}

  /** A caller that lets go of a slot or of its request without an answer marks the request abandoned. */
  lemma LeavingIsMarked(p: Pool, c: nat, s: CallStep)
    requires CallEnabled(p, c, s)
    ensures var k, l := p.calls[c], CallNext(p, c, s).calls[c];
            && (k.phase.Holding? && l.phase.Returning? ==> l.abandoned)
            && (k.phase.Abandoning? && l.phase.Finished? ==> l.abandoned && l.phase.outcome == Fail(k.phase.why))
  {}

  /** Only a caller whose timer fired condemns its worker, and no mark is ever taken back. */
  lemma CondemnedExactly(p: Pool, c: nat, s: CallStep)
    requires CallEnabled(p, c, s)
    ensures CallNext(p, c, s).calls[c].condemned <==> p.calls[c].condemned || s == Doom
  {}

  lemma AbandonedExactly(p: Pool, c: nat, s: CallStep)
    requires CallEnabled(p, c, s)
    ensures CallNext(p, c, s).calls[c].abandoned <==> p.calls[c].abandoned || s == Forget || s.StopPassing?
  {}

  /** What the statistics count. */
  lemma StatsCount(p: Pool, s: Step)
    requires Enabled(p, s)
    ensures var was, now := p.stats, Next(p, s).stats;
            && now.requests == was.requests + (if s.OfCall? && s.call == TakeSlot then 1 else 0)
            && now.timeouts == was.timeouts
                               + (if s.OfCall? && s.call == Forget && p.calls[s.c].phase.why == TimedOut then 1 else 0)
            && now.discarded == was.discarded
                                + (if s.OfSlot? && s.slot == Deliver && p.calls[p.slots[s.i].r].abandoned then 1 else 0)
            && now.restarts == was.restarts
                               + (if s.OfSlot? && s.slot.Decide? && Next(p, s).slots[s.i].Building? then 1 else 0)
            && now.failures == was.failures
                               + (if s.OfSlot? && s.slot.Decide? && p.slots[s.i].result.Failure? &&
                                     !p.calls[p.slots[s.i].r].condemned && !p.calls[p.slots[s.i].r].abandoned then 1 else 0)
  {
    match s
    case OfSlot(i, slot) => SlotStats(p, i, slot);
    case OfCall(c, call) => CallStats(p, c, call);
    case _ =>
  }

  lemma SlotStats(p: Pool, i: nat, s: SlotStep)
    requires SlotEnabled(p, i, s)
    ensures var was, now := p.stats, SlotNext(p, i, s).stats;
            && now.requests == was.requests && now.timeouts == was.timeouts
            && now.discarded == was.discarded + (if s == Deliver && p.calls[p.slots[i].r].abandoned then 1 else 0)
            && now.restarts == was.restarts + (if s.Decide? && SlotNext(p, i, s).slots[i].Building? then 1 else 0)
            && now.failures == was.failures
                               + (if s.Decide? && p.slots[i].result.Failure? && !p.calls[p.slots[i].r].condemned &&
                                     !p.calls[p.slots[i].r].abandoned then 1 else 0)
  {}

  lemma CallStats(p: Pool, c: nat, s: CallStep)
    requires CallEnabled(p, c, s)
    ensures var was, now := p.stats, CallNext(p, c, s).stats;
            && now.requests == was.requests + (if s == TakeSlot then 1 else 0)
            && now.timeouts == was.timeouts + (if s == Forget && p.calls[c].phase.why == TimedOut then 1 else 0)
            && now.discarded == was.discarded && now.restarts == was.restarts && now.failures == was.failures
  {}

  // ---- start and stop -------------------------------------------------------------------------

  /** Start succeeds exactly if every slot has become ready, whatever the time, unless a slot failed or the pool was
      stopped meanwhile; it gives up exactly for these reasons or when its time is up, and then the pool is closed. */
  lemma StartDecides(p: Pool, late: bool)
    requires p.launch == Starting && (p.settled ==> p.closed)
    ensures var q := Next(p, DoStartCheck(late));
            && (q.launch == Up <==> !p.settled && !p.startFailed && p.ready >= |p.slots|)
            && (q.launch == Down <==> p.settled || p.startFailed || (late && p.ready < |p.slots|))
            && (q.launch == Up ==> q.started) && (q.launch == Down ==> q.closed)
            && (q.closed && !p.closed ==> q.launch == Down && !q.started)
            && q.slots == p.slots && q.calls == p.calls && q.idle == p.idle
  {}

  /** A close takes callers no more, and touches no slot and no caller. */
  lemma CloseStops(p: Pool)
    requires !p.closed
    ensures var q := Next(p, DoClose);
            && q == p.(closed := true, started := false)
            && var r := Next(q, DoArrive);
               |r.calls| == |p.calls| + 1 && r.calls[|p.calls|].phase == Finished(Fail(NotStarted)) && r.calls[..|p.calls|] == p.calls
  {}

  // ---- workers --------------------------------------------------------------------------------

  /** After a request a worker is replaced exactly if it was condemned, is dead or is due for recycling. */
  lemma ReplacedExactly(p: Pool, i: nat, recycle: bool)
    requires Enabled(p, OfSlot(i, Decide(recycle)))
    ensures var t, u := p.slots[i], Next(p, OfSlot(i, Decide(recycle))).slots[i];
            if p.calls[t.r].condemned || t.result.Dead? || recycle then u.Building? else u == Ready(t.w)
  {
    SlotBecomes(p, i, Decide(recycle));
  }

  /** Whoever has worker `w` knows already that it is dead. */
  predicate Dying(p: Pool, w: nat) {
    w < p.workers && forall i :: 0 <= i < |p.slots| && HasWorker(p.slots[i]) && p.slots[i].w == w ==>
                       (p.slots[i].Solved? || p.slots[i].Posted?) && p.slots[i].result.Dead?
  }

  lemma DyingStep(p: Pool, s: Step, w: nat)
    requires Dying(p, w) && Enabled(p, s)
    ensures Dying(Next(p, s), w)
  {
    hide SlotNext;
    match s
    case OfSlot(i, slot) =>
      OneSlotMoves(p, i, slot);
      SlotBecomes(p, i, slot);
    case OfCall(c, call) => HandOverOnly(p, c, call);
    case _ =>
  }

  lemma HandOverOnly(p: Pool, c: nat, s: CallStep)
    requires CallEnabled(p, c, s)
    ensures var q := CallNext(p, c, s);
            && q.workers == p.workers
            && forall i :: 0 <= i < |p.slots| && q.slots[i] != p.slots[i] ==>
                 p.slots[i].Waiting? && q.slots[i] == Solving(p.slots[i].w, c)
  {}

  /** A worker that died in a request never serves another. */
  lemma {:induction false} DeadNeverServesAgain(p: Pool, steps: seq<Step>, w: nat)
    requires Dying(p, w) && CanRun(p, steps)
    ensures Dying(Run(p, steps), w)
    decreases |steps|
  {
    hide Dying, Next, Enabled;
    if steps != [] {
      DyingStep(p, steps[0], w);
      DeadNeverServesAgain(Next(p, steps[0]), steps[1..], w);
    }
  }

  /** Dying begins with the dead result: workers are told apart. */
  lemma DyingStarts(size: nat, p: Pool, i: nat)
    requires size > 0 && Reachable(size, p) && Enabled(p, OfSlot(i, Return(Dead)))
    ensures Dying(Next(p, OfSlot(i, Return(Dead))), p.slots[i].w)
  {
    ReachableInv(size, p);
  }
}
