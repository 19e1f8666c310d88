// The browser slot pool, one generation of it: slot loops, callers and the channels between them, one
// atomic section per step.
module SlotPoolSpec {
  import opened Common

  /** What a worker's solve returns; `Dead` means its browser is gone. */
  datatype Result = Token(param: string) | Failure | Dead

  datatype Why = NotStarted | QueueTimeout | Cancelled | Closed | TimedOut

  datatype Outcome = Answer(result: Result) | Fail(why: Why)

  /** Where a caller is inside Solve. */
  datatype Phase =
    | Queueing                            // waiting for an idle slot
    | Holding(slot: nat)                  // took a slot from `idle`, about to hand the request over
    | Returning(slot: nat, why: Why)      // gave up during the hand-over, about to put the slot back
    | Awaiting                            // waiting for the result
    | Expiring                            // its timer fired and no result was there
    | Abandoning(why: Why)                // about to mark its request abandoned
    | Finished(outcome: Outcome)

  /** A caller and its request: `home` is the slot that accepted it, `done` its one-place channel. */
  datatype Call = Call(phase: Phase, home: Option<nat>, abandoned: bool, condemned: bool, done: Option<Result>)

  /** Where a slot's loop is; `w` identifies its worker, `r` the request (the index of its caller). */
  datatype Slot =
    | Building
    | Ready(w: nat)                           // about to enqueue itself
    | Waiting(w: nat)                         // enqueued or held; receiving on its request channel
    | Solving(w: nat, r: nat)
    | Solved(w: nat, r: nat, result: Result)  // the worker returned, nothing delivered yet
    | Posted(w: nat, r: nat, result: Result)  // delivered or discarded, fate of the worker open
    | Gone

  datatype Launch = Starting | Up | Down

  datatype Stats = Stats(requests: nat, timeouts: nat, failures: nat, restarts: nat, discarded: nat)

  /** `answers` records what the worker of each request returned; nothing reads it. */
  datatype Pool = Pool(slots: seq<Slot>, idle: seq<nat>, calls: seq<Call>, closed: bool, settled: bool,
                       started: bool, launch: Launch, startFailed: bool, ready: nat, workers: nat,
                       answers: map<nat, Result>, stats: Stats)

  function Opened(size: nat): Pool {
    Pool(seq(size, _ => Building), [], [], false, false, false, Starting, false, 0, 0, map[], Stats(0, 0, 0, 0, 0))
  }

  predicate Serves(slot: Slot) { slot.Solving? || slot.Solved? || slot.Posted? }

  predicate HasWorker(slot: Slot) { slot.Ready? || slot.Waiting? || Serves(slot) }

  predicate Holds(c: Call) { c.phase.Holding? || c.phase.Returning? }

  /** The pool's own reference to the generation is dropped when the close settles. */
  predicate Current(p: Pool) { !p.settled }

  function SetSlot(p: Pool, i: nat, slot: Slot): Pool
    requires i < |p.slots|
  {
    p.(slots := p.slots[i := slot])
  }

  function SetCall(p: Pool, c: nat, call: Call): Pool
    requires c < |p.calls|
  {
    p.(calls := p.calls[c := call])
  }

  function SetPhase(p: Pool, c: nat, phase: Phase): Pool
    requires c < |p.calls|
  {
    SetCall(p, c, p.calls[c].(phase := phase))
  }

  // ---- slot loop -----------------------------------------------------------------------------

  /** The factory made a worker; a closed generation does not want it. */
  function Built(p: Pool, i: nat): Pool
    requires i < |p.slots|
  {
    if p.closed then SetSlot(p, i, Gone)
    else SetSlot(p, i, Ready(p.workers)).(workers := p.workers + 1, ready := p.ready + 1)
  }

  /** Before the pool is up the first failure fails the start; afterwards the slot retries. */
  function FactoryFailed(p: Pool, i: nat): Pool
    requires i < |p.slots|
  {
    if p.closed then SetSlot(p, i, Gone)
    else if !p.started then SetSlot(p, i, Gone).(startFailed := true)
    else p
  }

  function Enqueue(p: Pool, i: nat): Pool
    requires i < |p.slots| && p.slots[i].Ready?
  {
    SetSlot(p, i, Waiting(p.slots[i].w)).(idle := p.idle + [i])
  }

  function Leave(p: Pool, i: nat): Pool
    requires i < |p.slots|
  {
    SetSlot(p, i, Gone)
  }

  function SolveReturns(p: Pool, i: nat, result: Result): Pool
    requires i < |p.slots| && p.slots[i].Solving?
  {
    var s := p.slots[i];
    SetSlot(p, i, Solved(s.w, s.r, result)).(answers := p.answers[s.r := result])
  }

  /** Results of abandoned requests are dropped. */
  function Post(p: Pool, i: nat): Pool
    requires i < |p.slots| && p.slots[i].Solved? && p.slots[i].r < |p.calls|
  {
    var s := p.slots[i];
    var q := SetSlot(p, i, Posted(s.w, s.r, s.result));
    var c := p.calls[s.r];
    if c.abandoned then q.(stats := p.stats.(discarded := p.stats.discarded + 1))
    else SetCall(q, s.r, c.(done := Some(s.result)))
  }

  /** Keep the worker, or rebuild it: condemned, dead, or due for recycling. */
  function Judge(p: Pool, i: nat, recycle: bool): Pool
    requires i < |p.slots| && p.slots[i].Posted? && p.slots[i].r < |p.calls|
  {
    var s := p.slots[i];
    var c := p.calls[s.r];
    var doomed := c.condemned || s.result.Dead?;
    var failures := if !doomed && s.result.Failure? && !c.abandoned then p.stats.failures + 1 else p.stats.failures;
    if doomed || recycle then
      SetSlot(p, i, Building).(stats := p.stats.(failures := failures, restarts := p.stats.restarts + 1))
    else SetSlot(p, i, Ready(s.w)).(stats := p.stats.(failures := failures))
  }

  // ---- callers -------------------------------------------------------------------------------

  function Arrive(p: Pool): Pool {
    p.(calls := p.calls + [Call(if p.started && Current(p) then Queueing else Finished(Fail(NotStarted)),
                                None, false, false, None)])
  }

  function Acquire(p: Pool, c: nat): Pool
    requires c < |p.calls| && p.idle != []
  {
    SetPhase(p, c, Holding(p.idle[0])).(idle := p.idle[1..], stats := p.stats.(requests := p.stats.requests + 1))
  }

  function GiveUpQueueing(p: Pool, c: nat, why: Why): Pool
    requires c < |p.calls|
  {
    SetPhase(p, c, Finished(Fail(why)))
  }

  function HandOver(p: Pool, c: nat): Pool
    requires c < |p.calls| && p.calls[c].phase.Holding?
    requires p.calls[c].phase.slot < |p.slots| && p.slots[p.calls[c].phase.slot].Waiting?
  {
    var i := p.calls[c].phase.slot;
    SetCall(SetSlot(p, i, Solving(p.slots[i].w, c)), c, p.calls[c].(phase := Awaiting, home := Some(i)))
  }

  function HandOverFails(p: Pool, c: nat, why: Why): Pool
    requires c < |p.calls| && p.calls[c].phase.Holding?
  {
    SetCall(p, c, p.calls[c].(phase := Returning(p.calls[c].phase.slot, why), abandoned := true))
  }

  function GiveBack(p: Pool, c: nat): Pool
    requires c < |p.calls| && p.calls[c].phase.Returning?
  {
    SetPhase(p, c, Finished(Fail(p.calls[c].phase.why))).(idle := p.idle + [p.calls[c].phase.slot])
  }

  function Receive(p: Pool, c: nat): Pool
    requires c < |p.calls| && p.calls[c].done.Some?
  {
    SetPhase(p, c, Finished(Answer(p.calls[c].done.value)))
  }

  /** A result that is there wins over the timer. */
  function TimerFires(p: Pool, c: nat): Pool
    requires c < |p.calls|
  {
    if p.calls[c].done.Some? then Receive(p, c) else SetPhase(p, c, Expiring)
  }

  function Condemn(p: Pool, c: nat): Pool
    requires c < |p.calls|
  {
    SetCall(p, c, p.calls[c].(phase := Abandoning(TimedOut), condemned := true))
  }

  function CallerCancels(p: Pool, c: nat): Pool
    requires c < |p.calls|
  {
    SetPhase(p, c, Abandoning(Cancelled))
  }

  /** A result that is there wins over the close. */
  function SettleSeen(p: Pool, c: nat): Pool
    requires c < |p.calls|
  {
    if p.calls[c].done.Some? then Receive(p, c) else SetPhase(p, c, Abandoning(Closed))
  }

  function Abandon(p: Pool, c: nat): Pool
    requires c < |p.calls| && p.calls[c].phase.Abandoning?
  {
    var why := p.calls[c].phase.why;
    SetCall(p, c, p.calls[c].(phase := Finished(Fail(why)), abandoned := true))
      .(stats := if why == TimedOut then p.stats.(timeouts := p.stats.timeouts + 1) else p.stats)
  }

  // ---- start and stop ------------------------------------------------------------------------

  function CloseDone(p: Pool): Pool {
    p.(closed := true, started := false)
  }

  function Settle(p: Pool): Pool {
    p.(settled := true)
  }

  /** One turn of Start's polling loop; `late` says its deadline has passed. */
  function StartCheck(p: Pool, late: bool): Pool {
    if !Current(p) then p.(launch := Down)
    else if p.startFailed then (if p.closed then p else CloseDone(p)).(launch := Down)
    else if p.ready >= |p.slots| then p.(launch := Up, started := true)
    else if late then (if p.closed then p else CloseDone(p)).(launch := Down)
    else p
  }

  // ---- steps ---------------------------------------------------------------------------------

  datatype SlotStep = Build | FailBuild | Queue | Quit | Return(result: Result) | Deliver | Decide(recycle: bool)

  datatype CallStep =
    | TakeSlot | StopQueueing(why: Why) | PassOn | StopPassing(why: Why) | PutBack | Read | Expire | Doom | Cancel
    | SeeSettled | Forget

  datatype Step =
    | OfSlot(i: nat, slot: SlotStep)
    | OfCall(c: nat, call: CallStep)
    | DoArrive | DoClose | DoSettle | DoStartCheck(late: bool)

  /** Which step can run now.  A send on `idle` needs room in its buffer of one place per slot. */
  predicate SlotEnabled(p: Pool, i: nat, s: SlotStep) {
    && i < |p.slots|
    && match s
       case Build => p.slots[i].Building?
       case FailBuild => p.slots[i].Building?
       case Queue => p.slots[i].Ready? && |p.idle| < |p.slots|
       case Quit => p.closed && (p.slots[i].Building? || p.slots[i].Ready? || p.slots[i].Waiting?)
       case Return(_) => p.slots[i].Solving?
       case Deliver => p.slots[i].Solved? && p.slots[i].r < |p.calls|
       case Decide(_) => p.slots[i].Posted? && p.slots[i].r < |p.calls|
  }

  predicate CallEnabled(p: Pool, c: nat, s: CallStep) {
    && c < |p.calls|
    && var phase := p.calls[c].phase;
       match s
       case TakeSlot => phase.Queueing? && p.idle != []
       case StopQueueing(why) =>
         phase.Queueing? && (why == QueueTimeout || why == Cancelled || (why == Closed && p.closed))
       case PassOn => phase.Holding? && phase.slot < |p.slots| && p.slots[phase.slot].Waiting?
       case StopPassing(why) => phase.Holding? && (why == Cancelled || (why == Closed && p.closed))
       case PutBack => phase.Returning? && |p.idle| < |p.slots|
       case Read => phase.Awaiting? && p.calls[c].done.Some?
       case Expire => phase.Awaiting?
       case Doom => phase.Expiring?
       case Cancel => phase.Awaiting?
       case SeeSettled => phase.Awaiting? && p.settled
       case Forget => phase.Abandoning?
  }

  predicate Enabled(p: Pool, s: Step) {
    match s
    case OfSlot(i, slot) => SlotEnabled(p, i, slot)
    case OfCall(c, call) => CallEnabled(p, c, call)
    case DoArrive => true
    case DoClose => !p.closed
    case DoSettle => p.closed && !p.settled
    case DoStartCheck(_) => p.launch == Starting
  }

  /** The start and stop flags, which no slot and no caller moves. */
  function Flags(p: Pool): (Launch, bool, bool, bool) { (p.launch, p.closed, p.settled, p.started) }

  function SlotNext(p: Pool, i: nat, s: SlotStep): (q: Pool)
    requires SlotEnabled(p, i, s)
    ensures Flags(q) == Flags(p) && |q.slots| == |p.slots| && |q.calls| == |p.calls| && q.workers >= p.workers
  {
    match s
    case Build => Built(p, i)
    case FailBuild => FactoryFailed(p, i)
    case Queue => Enqueue(p, i)
    case Quit => Leave(p, i)
    case Return(result) => SolveReturns(p, i, result)
    case Deliver => Post(p, i)
    case Decide(recycle) => Judge(p, i, recycle)
  }

  function CallNext(p: Pool, c: nat, s: CallStep): (q: Pool)
    requires CallEnabled(p, c, s)
    ensures Flags(q) == Flags(p) && |q.slots| == |p.slots| && |q.calls| == |p.calls| && q.workers == p.workers
    ensures q.answers == p.answers && q.startFailed == p.startFailed
    ensures s.PassOn? || q.slots == p.slots
  {
    match s
    case TakeSlot => Acquire(p, c)
    case StopQueueing(why) => GiveUpQueueing(p, c, why)
    case PassOn => HandOver(p, c)
    case StopPassing(why) => HandOverFails(p, c, why)
    case PutBack => GiveBack(p, c)
    case Read => Receive(p, c)
    case Expire => TimerFires(p, c)
    case Doom => Condemn(p, c)
    case Cancel => CallerCancels(p, c)
    case SeeSettled => SettleSeen(p, c)
    case Forget => Abandon(p, c)
  }

  function Next(p: Pool, s: Step): Pool
    requires Enabled(p, s)
  {
    match s
    case OfSlot(i, slot) => SlotNext(p, i, slot)
    case OfCall(c, call) => CallNext(p, c, call)
    case DoArrive => Arrive(p)
    case DoClose => CloseDone(p)
    case DoSettle => Settle(p)
    case DoStartCheck(late) => StartCheck(p, late)
  }

  predicate CanRun(p: Pool, steps: seq<Step>)
    decreases |steps|
  {
    steps == [] || (Enabled(p, steps[0]) && CanRun(Next(p, steps[0]), steps[1..]))
  }

  function Run(p: Pool, steps: seq<Step>): Pool
    requires CanRun(p, steps)
    decreases |steps|
  {
    if steps == [] then p else Run(Next(p, steps[0]), steps[1..])
  }
}
