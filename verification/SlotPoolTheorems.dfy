// Main results about the browser slot pool, over every run.
module SlotPoolTheorems {
  import opened Common
  import opened SlotPoolSpec
  import opened SlotPoolProofs

  ghost predicate Reachable(size: nat, p: Pool) {
    exists steps :: CanRun(Opened(size), steps) && Run(Opened(size), steps) == p
  }

  lemma {:induction false} RunKeeps(p: Pool, steps: seq<Step>)
    requires Inv(p) && StartOk(p) && CanRun(p, steps)
    ensures Inv(Run(p, steps)) && StartOk(Run(p, steps))
    decreases |steps|
  {
    hide Inv, StartOk, Next, Enabled;
    if steps != [] {
      StepKeeps(p, steps[0]);
      StartKeeps(p, steps[0]);
      RunKeeps(Next(p, steps[0]), steps[1..]);
    }
  }

  lemma ReachableInv(size: nat, p: Pool)
    requires size > 0 && Reachable(size, p)
    ensures Inv(p) && StartOk(p)
  {
    hide Inv, StartOk;
    var steps :| CanRun(Opened(size), steps) && Run(Opened(size), steps) == p;
    OpenedInv(size);
    RunKeeps(Opened(size), steps);
  }

  lemma {:induction false} RunAppend(p: Pool, steps: seq<Step>, s: Step)
    requires CanRun(p, steps) && Enabled(Run(p, steps), s)
    ensures CanRun(p, steps + [s]) && Run(p, steps + [s]) == Next(Run(p, steps), s)
    decreases |steps|
  {
    hide Enabled, Next;
    if steps == [] {
      assert [s][1..] == [];
    } else {
      RunAppend(Next(p, steps[0]), steps[1..], s);
      assert (steps + [s])[1..] == steps[1..] + [s];
    }
  }

  lemma ReachableStep(size: nat, p: Pool, s: Step)
    requires Reachable(size, p) && Enabled(p, s)
    ensures Reachable(size, Next(p, s))
  {
    var steps :| CanRun(Opened(size), steps) && Run(Opened(size), steps) == p;
    RunAppend(Opened(size), steps, s);
  }

  lemma ReachableOpened(size: nat)
    ensures Reachable(size, Opened(size))
  {
    assert CanRun(Opened(size), []) && Run(Opened(size), []) == Opened(size);
  }

  // ---- capacity ------------------------------------------------------------------------------

  /** A slot that wants to enqueue and a caller that gives a slot back never wait for room. */
  lemma SendsNeverBlock(size: nat, p: Pool)
    requires size > 0 && Reachable(size, p)
    ensures |p.idle| <= |p.slots|
    ensures forall i: nat :: i < |p.slots| && p.slots[i].Ready? ==> SlotEnabled(p, i, Queue)
    ensures forall c: nat :: c < |p.calls| && p.calls[c].phase.Returning? ==> CallEnabled(p, c, PutBack)
  {
    ReachableInv(size, p);
    Pigeonhole(p.idle, |p.slots|);
    forall i: nat | i < |p.slots| && p.slots[i].Ready? ensures SlotEnabled(p, i, Queue) {
      RoomFor(p.idle, i, |p.slots|);
    }
    forall c: nat | c < |p.calls| && p.calls[c].phase.Returning? ensures CallEnabled(p, c, PutBack) {
      assert Holds(p.calls[c]);
      RoomFor(p.idle, p.calls[c].phase.slot, |p.slots|);
    }
  }

  /** Until the generation closes no slot is lost: each is building or about to enqueue, once in the
      queue, held by one caller, or serving one request. */
  lemma SlotsAreConserved(size: nat, p: Pool, i: nat)
    requires size > 0 && Reachable(size, p) && i < |p.slots| && !p.closed && !p.startFailed
    ensures !p.slots[i].Gone?
    ensures (i in p.idle || HeldBySomeone(p, i)) <==> p.slots[i].Waiting?
    ensures !(i in p.idle && HeldBySomeone(p, i))
    ensures Distinct(p.idle)
    ensures forall c, d :: 0 <= c < d < |p.calls| && Holds(p.calls[c]) && Holds(p.calls[d]) ==>
              !(p.calls[c].phase.slot == i && p.calls[d].phase.slot == i)
    ensures Serves(p.slots[i]) ==> forall j :: 0 <= j < |p.slots| && Serves(p.slots[j]) && p.slots[j].r == p.slots[i].r ==> j == i
  {
    ReachableInv(size, p);
    OnePlace(p, i);
    if Serves(p.slots[i]) {
      forall j | 0 <= j < |p.slots| && Serves(p.slots[j]) && p.slots[j].r == p.slots[i].r ensures j == i {
        assert AtWork(i, p.slots[i], p.calls, p.answers) && AtWork(j, p.slots[j], p.calls, p.answers);
      }
    }
  }

  /** However many callers cancelled, timed out or failed before: once nobody holds a slot and no slot is
      working, the whole capacity is free again. */
  lemma QuietPoolIsFull(size: nat, p: Pool)
    requires size > 0 && Reachable(size, p)
    requires forall i :: 0 <= i < |p.slots| ==> p.slots[i].Waiting?
    requires forall c :: 0 <= c < |p.calls| ==> !Holds(p.calls[c])
    ensures |p.idle| == |p.slots| && forall i :: 0 <= i < |p.slots| ==> i in p.idle
  {
    ReachableInv(size, p);
    Pigeonhole(p.idle, |p.slots|);
    AllInside(p.idle, |p.slots|);
  }

  lemma {:induction false} AllInside(s: seq<nat>, n: nat)
    requires forall i :: 0 <= i < n ==> i in s
    ensures |s| >= n
    decreases n
  {
    if n > 0 {
      assert n - 1 in s;
      var a :| 0 <= a < |s| && s[a] == n - 1;
      var t := s[..a] + s[a + 1..];
      forall i | 0 <= i < n - 1 ensures i in t {
        assert i in s;
        var b :| 0 <= b < |s| && s[b] == i;
        assert t[if b < a then b else b - 1] == i;
      }
      AllInside(t, n - 1);
    }
  }

  // ---- answers -------------------------------------------------------------------------------

  lemma AnswersStay(p: Pool, s: Step, c: nat)
    requires Inv(p) && Enabled(p, s) && c in p.answers
    ensures c in Next(p, s).answers && Next(p, s).answers[c] == p.answers[c]
  {
    if s.OfSlot? && s.slot.Return? { assert AtWork(s.i, p.slots[s.i], p.calls, p.answers); }
  }

  lemma {:induction false} AnswersStayRun(p: Pool, steps: seq<Step>, c: nat)
    requires Inv(p) && CanRun(p, steps) && c in p.answers
    ensures c in Run(p, steps).answers && Run(p, steps).answers[c] == p.answers[c]
    decreases |steps|
  {
    hide Inv, Next, Enabled;
    if steps != [] {
      StepKeeps(p, steps[0]);
      AnswersStay(p, steps[0], c);
      AnswersStayRun(Next(p, steps[0]), steps[1..], c);
    }
  }

  /** At step `k` the slot that had taken request `c` returned `v`. */
  ghost predicate WorkerReturned(p: Pool, steps: seq<Step>, k: nat, c: nat, v: Result) {
    && k < |steps| && CanRun(p, steps[..k])
    && var q := Run(p, steps[..k]);
       && steps[k].OfSlot? && steps[k].slot == Return(v) && steps[k].i < |q.slots|
       && q.slots[steps[k].i].Solving? && q.slots[steps[k].i].r == c
  }

  lemma AnswerStep(p: Pool, s: Step, c: nat)
    requires Enabled(p, s) && c !in p.answers && c in Next(p, s).answers
    ensures WorkerReturned(p, [s], 0, c, Next(p, s).answers[c])
  {
    if s.OfSlot? && s.slot.Return? { assert [s][..0] == []; }
  }

  lemma {:induction false} AnswerIsReturned(p: Pool, steps: seq<Step>, c: nat)
    requires Inv(p) && CanRun(p, steps) && c !in p.answers && c in Run(p, steps).answers
    ensures exists k: nat :: WorkerReturned(p, steps, k, c, Run(p, steps).answers[c])
    decreases |steps|
  {
    hide Inv, Next, Enabled;
    if steps == [] {
    } else {
      var q := Next(p, steps[0]);
      var v := Run(p, steps).answers[c];
      StepKeeps(p, steps[0]);
      if c in q.answers {
        AnswersStayRun(q, steps[1..], c);
        AnswerStep(p, steps[0], c);
        assert steps[..0] == [] == [steps[0]][..0];
        assert WorkerReturned(p, steps, 0, c, v);
      } else {
        AnswerIsReturned(q, steps[1..], c);
        var k: nat :| WorkerReturned(q, steps[1..], k, c, v);
        assert steps[..k + 1][1..] == steps[1..][..k];
        assert WorkerReturned(p, steps, k + 1, c, v);
      }
    }
  }

  /** What Solve returns to a caller is what a worker returned for that caller's own request. */
  lemma OwnAnswer(size: nat, steps: seq<Step>, c: nat)
    requires size > 0 && CanRun(Opened(size), steps)
    requires var p := Run(Opened(size), steps);
             c < |p.calls| && p.calls[c].phase.Finished? && p.calls[c].phase.outcome.Answer?
    ensures exists k: nat :: WorkerReturned(Opened(size), steps, k, c, Run(Opened(size), steps).calls[c].phase.outcome.result)
  {
    var p := Run(Opened(size), steps);
    OpenedInv(size);
    RunKeeps(Opened(size), steps);
    assert CallOk(c, p.calls[c], p.answers);
    AnswerIsReturned(Opened(size), steps, c);
  }

  /** A caller that still waits is never forgotten: its result is there to read, or its slot's next step
      brings it closer. */
  lemma AwaitedComes(size: nat, p: Pool, c: nat, result: Result)
    requires size > 0 && Reachable(size, p) && c < |p.calls| && p.calls[c].phase.Awaiting?
    ensures CallEnabled(p, c, Read) ||
            exists i :: 0 <= i < |p.slots| && Serves(p.slots[i]) && p.slots[i].r == c &&
              (SlotEnabled(p, i, Return(result)) || SlotEnabled(p, i, Deliver))
  {
    ReachableInv(size, p);
    if p.calls[c].done.None? {
      assert InSlot(c, p.calls[c], p.slots);
      var i := p.calls[c].home.value;
      assert Serves(p.slots[i]) && p.slots[i].r == c;
    }
  }

  // ---- timed-out workers ---------------------------------------------------------------------

  /** Worker `w` has nothing left to do but the condemned request `c`. */
  predicate Doomed(p: Pool, w: nat, c: nat) {
    && w < p.workers && c < |p.calls| && p.calls[c].condemned
    && forall i :: 0 <= i < |p.slots| && HasWorker(p.slots[i]) && p.slots[i].w == w ==>
         Serves(p.slots[i]) && p.slots[i].r == c
  }

  /** A slot's step changes that slot only, and of the calls neither their flags nor their homes. */
  lemma OneSlotMoves(p: Pool, i: nat, s: SlotStep)
    requires SlotEnabled(p, i, s)
    ensures var q := SlotNext(p, i, s);
            && q.slots == p.slots[i := q.slots[i]]
            && forall d :: 0 <= d < |p.calls| ==> q.calls[d].condemned == p.calls[d].condemned && q.calls[d].home == p.calls[d].home
  {
    hide Built, FactoryFailed;
    match s
    case Build => BuildMoves(p, i);
    case FailBuild => BuildMoves(p, i);
    case _ =>
  }

  lemma BuildMoves(p: Pool, i: nat)
    requires i < |p.slots|
    ensures Built(p, i).slots == p.slots[i := Built(p, i).slots[i]] && Built(p, i).calls == p.calls
    ensures FactoryFailed(p, i).slots == p.slots[i := FactoryFailed(p, i).slots[i]] && FactoryFailed(p, i).calls == p.calls
  {}

  /** What becomes of the slot itself. */
  function SlotAfter(p: Pool, i: nat, s: SlotStep): Slot
    requires SlotEnabled(p, i, s)
  {
    var t := p.slots[i];
    match s
    case Build => if p.closed then Gone else Ready(p.workers)
    case FailBuild => if p.closed || !p.started then Gone else t
    case Queue => Waiting(t.w)
    case Quit => Gone
    case Return(result) => Solved(t.w, t.r, result)
    case Deliver => Posted(t.w, t.r, t.result)
    case Decide(recycle) => if p.calls[t.r].condemned || t.result.Dead? || recycle then Building else Ready(t.w)
  }

  lemma SlotBecomes(p: Pool, i: nat, s: SlotStep)
    requires SlotEnabled(p, i, s)
    ensures SlotNext(p, i, s).slots[i] == SlotAfter(p, i, s)
  {}

  /** It keeps its worker or gets a new one, starts serving nobody, and lets no condemned worker go on. */
  lemma WorkerAfter(p: Pool, i: nat, s: SlotStep)
    requires SlotEnabled(p, i, s)
    ensures var t, u := p.slots[i], SlotNext(p, i, s).slots[i];
            && (HasWorker(u) ==> u.w == p.workers || (HasWorker(t) && u.w == t.w))
            && (Serves(u) ==> Serves(t) && u.r == t.r)
            && (Serves(t) && HasWorker(u) && !Serves(u) ==> t.r < |p.calls| && !p.calls[t.r].condemned)
  {
    SlotBecomes(p, i, s);
    hide SlotNext;
  }

  lemma DoomedSlotStep(p: Pool, i: nat, s: SlotStep, w: nat, c: nat)
    requires Doomed(p, w, c) && SlotEnabled(p, i, s)
    ensures Doomed(SlotNext(p, i, s), w, c)
  {
    OneSlotMoves(p, i, s);
    WorkerAfter(p, i, s);
    hide SlotNext;
  }

  lemma DoomedCallStep(p: Pool, d: nat, s: CallStep, w: nat, c: nat)
    requires Doomed(p, w, c) && CallEnabled(p, d, s) && PhaseOk(p.calls[c])
    ensures Doomed(CallNext(p, d, s), w, c)
  {}

  lemma {:induction false} DoomedRun(p: Pool, steps: seq<Step>, w: nat, c: nat)
    requires Inv(p) && Doomed(p, w, c) && CanRun(p, steps)
    ensures Doomed(Run(p, steps), w, c)
    decreases |steps|
  {
    hide SlotNext, CallNext, SlotEnabled, CallEnabled;
    if steps != [] {
      var s := steps[0];
      StepKeeps(p, s);
      assert CallOk(c, p.calls[c], p.answers);
      hide Inv;
      match s {
        case OfSlot(i, slot) => DoomedSlotStep(p, i, slot, w, c);
        case OfCall(d, call) => DoomedCallStep(p, d, call, w, c);
        case _ =>
      }
      DoomedRun(Next(p, s), steps[1..], w, c);
    }
  }

  /** A worker condemned while it still serves the request that timed out never serves another one. */
  lemma CondemnedNeverServesAgain(size: nat, p: Pool, i: nat, steps: seq<Step>)
    requires size > 0 && Reachable(size, p) && CanRun(p, steps)
    requires i < |p.slots| && Serves(p.slots[i]) && p.slots[i].r < |p.calls| && p.calls[p.slots[i].r].condemned
    ensures var q := Run(p, steps);
            forall j :: 0 <= j < |q.slots| && HasWorker(q.slots[j]) && q.slots[j].w == p.slots[i].w ==>
              Serves(q.slots[j]) && q.slots[j].r == p.slots[i].r
  {
    ReachableInv(size, p);
    DoomedRun(p, steps, p.slots[i].w, p.slots[i].r);
  }

  predicate NobodyServes(p: Pool, c: nat) {
    && c < |p.calls| && p.calls[c].home.Some?
    && forall i :: 0 <= i < |p.slots| && Serves(p.slots[i]) ==> p.slots[i].r != c
  }

  lemma NobodySlotStep(p: Pool, i: nat, s: SlotStep, c: nat)
    requires NobodyServes(p, c) && SlotEnabled(p, i, s)
    ensures NobodyServes(SlotNext(p, i, s), c)
  {
    OneSlotMoves(p, i, s);
    WorkerAfter(p, i, s);
    hide SlotNext;
  }

  lemma NobodyCallStep(p: Pool, d: nat, s: CallStep, c: nat)
    requires NobodyServes(p, c) && CallEnabled(p, d, s) && PhaseOk(p.calls[c])
    ensures NobodyServes(CallNext(p, d, s), c)
  {}

  lemma NobodyServesStep(p: Pool, s: Step, c: nat)
    requires Inv(p) && NobodyServes(p, c) && Enabled(p, s)
    ensures NobodyServes(Next(p, s), c)
  {
    assert CallOk(c, p.calls[c], p.answers);
    hide Inv, SlotNext, CallNext, SlotEnabled, CallEnabled;
    match s
    case OfSlot(i, slot) => NobodySlotStep(p, i, slot, c);
    case OfCall(d, call) => NobodyCallStep(p, d, call, c);
    case _ =>
  }

  /** Condemned too late: once no slot serves the request, no slot ever consults its flag again. */
  lemma {:induction false} LateFlagIsNeverRead(p: Pool, steps: seq<Step>, c: nat)
    requires Inv(p) && NobodyServes(p, c) && CanRun(p, steps)
    ensures NobodyServes(Run(p, steps), c)
    decreases |steps|
  {
    hide Inv, Next, Enabled, NobodyServes;
    if steps != [] {
      StepKeeps(p, steps[0]);
      NobodyServesStep(p, steps[0], c);
      LateFlagIsNeverRead(Next(p, steps[0]), steps[1..], c);
    }
  }

  /** The window is real: a caller is told that its worker timed out and was replaced, no worker was
      ever replaced, and the same worker serves the next caller. */
  lemma LateCondemnKeepsWorker()
    ensures exists p :: Reachable(1, p) && |p.calls| == 2
              && p.calls[0].phase == Finished(Fail(TimedOut)) && p.calls[0].condemned && p.answers == map[0 := Token("t")]
              && p.slots == [Solving(0, 1)] && p.workers == 1 && p.stats.restarts == 0 && p.stats.timeouts == 1
  {
    LateReturn();
    hide Reachable;
    var told := Run1(LATE, OfSlot(0, Deliver), OfSlot(0, Decide(false)), OfCall(0, Doom), OfCall(0, Forget));
    assert told == TOLD;
    var again := Run1(TOLD, OfSlot(0, Queue), DoArrive, OfCall(1, TakeSlot), OfCall(1, PassOn));
    assert again.slots == [Solving(0, 1)];
  }

  /** Caller 0 found its timer expired just before its worker returned. */
  const LATE := Pool([Solved(0, 0, Token("t"))], [], [Call(Expiring, Some(0), false, false, None)], false, false, true,
                     Up, false, 1, 1, map[0 := Token("t")], Stats(1, 0, 0, 0, 0))

  const TOLD := Pool([Ready(0)], [], [Call(Finished(Fail(TimedOut)), Some(0), true, true, Some(Token("t")))], false, false,
                     true, Up, false, 1, 1, map[0 := Token("t")], Stats(1, 1, 0, 0, 0))

  lemma LateReturn()
    ensures Reachable(1, LATE)
  {
    ReachableOpened(1);
    hide Reachable;
    var up := Run1(Opened(1), OfSlot(0, Build), DoStartCheck(false), OfSlot(0, Queue), DoArrive);
    assert up == Pool([Waiting(0)], [0], [Call(Queueing, None, false, false, None)], false, false, true, Up, false, 1, 1,
                      map[], Stats(0, 0, 0, 0, 0));
    var late := Run1(up, OfCall(0, TakeSlot), OfCall(0, PassOn), OfCall(0, Expire), OfSlot(0, Return(Token("t"))));
    assert late == LATE;
  }

  lemma Run1(p: Pool, a: Step, b: Step, c: Step, d: Step) returns (q: Pool)
    requires Reachable(1, p) && Enabled(p, a) && Enabled(Next(p, a), b)
    requires Enabled(Next(Next(p, a), b), c) && Enabled(Next(Next(Next(p, a), b), c), d)
    ensures q == Next(Next(Next(Next(p, a), b), c), d) && Reachable(1, q)
  {
    hide Next, Enabled;
    ReachableStep(1, p, a);
    ReachableStep(1, Next(p, a), b);
    ReachableStep(1, Next(Next(p, a), b), c);
    ReachableStep(1, Next(Next(Next(p, a), b), c), d);
    q := Next(Next(Next(Next(p, a), b), c), d);
  }

  // ---- starting ------------------------------------------------------------------------------

  /** Unless a stop has begun, Start succeeds only with a live worker in every slot. */
  lemma StartMeansAllReady(size: nat, p: Pool, late: bool)
    requires size > 0 && Reachable(size, p) && p.launch == Starting && !p.closed
    ensures StartCheck(p, late).launch == Up ==>
              !p.startFailed && forall i :: 0 <= i < |p.slots| ==> p.slots[i].Ready? || p.slots[i].Waiting?
  {
    ReachableInv(size, p);
    if StartCheck(p, late).launch == Up {
      CountAll(p.slots);
      forall i | 0 <= i < |p.slots| ensures p.slots[i].Ready? || p.slots[i].Waiting? { NoneServes(p, i); }
    }
  }

  /** Start and Stop overlapped: the pool says it is started and has no generation. */
  predicate Stranded(p: Pool) { p.started && p.settled && p.closed && p.launch == Up }

  /** Start returns at once without doing anything, and so does Stop. */
  predicate StartIgnored(p: Pool) { p.started || Current(p) }

  predicate StopIgnored(p: Pool) { !Current(p) }

  /** Such a pool serves nobody ever again, and neither Start nor Stop gets it out of this state. */
  lemma {:induction false} StrandedForever(p: Pool, steps: seq<Step>)
    requires Stranded(p) && CanRun(p, steps)
    ensures var q := Run(p, steps);
            && Stranded(q) && StartIgnored(q) && StopIgnored(q) && |q.calls| >= |p.calls|
            && forall c :: |p.calls| <= c < |q.calls| ==> q.calls[c].phase == Finished(Fail(NotStarted))
    decreases |steps|
  {
    if steps != [] {
      var q := Next(p, steps[0]);
      hide SlotNext, CallNext;
      assert Stranded(q);
      StrandedForever(q, steps[1..]);
      hide Next, Enabled;
      RefusedStays(q, steps[1..]);
    }
  }

  lemma RefusedStep(p: Pool, s: Step, c: nat)
    requires c < |p.calls| && p.calls[c].phase == Finished(Fail(NotStarted)) && Enabled(p, s)
    ensures c < |Next(p, s).calls| && Next(p, s).calls[c].phase == p.calls[c].phase
  {
    match s
    case OfSlot(i, slot) => assert SlotNext(p, i, slot).calls[c].phase == p.calls[c].phase;
    case OfCall(d, call) => assert CallNext(p, d, call).calls[c] == p.calls[c];
    case _ =>
  }

  lemma {:induction false} RefusedStays(p: Pool, steps: seq<Step>)
    requires CanRun(p, steps)
    ensures forall c :: 0 <= c < |p.calls| && p.calls[c].phase == Finished(Fail(NotStarted)) ==>
              c < |Run(p, steps).calls| && Run(p, steps).calls[c].phase == p.calls[c].phase
    decreases |steps|
  {
    hide Next, Enabled;
    if steps != [] {
      forall c | 0 <= c < |p.calls| && p.calls[c].phase == Finished(Fail(NotStarted))
        ensures c < |Next(p, steps[0]).calls| && Next(p, steps[0]).calls[c].phase == p.calls[c].phase
      {
        RefusedStep(p, steps[0], c);
      }
      RefusedStays(Next(p, steps[0]), steps[1..]);
    }
  }

  /** A Stop that closes the generation just before Start sees its last ready signal strands the pool. */
  lemma StopDuringStartStrands()
    ensures exists p :: Reachable(1, p) && Stranded(p)
  {
    ReachableOpened(1);
    var q := Run1(Opened(1), OfSlot(0, Build), DoClose, DoStartCheck(false), DoSettle);
    assert Stranded(q);
  }

  /** Exactly then: a pool is stranded if and only if Start succeeded on a generation whose close had begun. */
  lemma StrandedOnlyByOverlap(size: nat, p: Pool, late: bool)
    requires size > 0 && Reachable(size, p) && p.launch == Starting
    requires StartCheck(p, late).launch == Up
    ensures var q := StartCheck(p, late);
            p.closed <==> (Enabled(q, DoSettle) && Stranded(Settle(q)))
  {
    ReachableInv(size, p);
  }
}
