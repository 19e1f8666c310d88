// What every step of the slot pool keeps.
module SlotPoolProofs {
  import opened Common
  import opened SlotPoolSpec

  /** A slot that is queued or held waits for a request, or left after the close. */
  predicate Parked(slots: seq<Slot>, i: nat) {
    i < |slots| && (slots[i].Waiting? || slots[i].Gone?)
  }

  predicate IdleOk(p: Pool) {
    Distinct(p.idle) && forall a :: 0 <= a < |p.idle| ==> Parked(p.slots, p.idle[a])
  }

  predicate HeldOk(p: Pool) {
    && (forall c :: 0 <= c < |p.calls| && Holds(p.calls[c]) ==>
          Parked(p.slots, p.calls[c].phase.slot) && p.calls[c].phase.slot !in p.idle)
    && (forall c, d :: 0 <= c < |p.calls| && 0 <= d < |p.calls| && Holds(p.calls[c]) && Holds(p.calls[d]) && c != d ==>
          p.calls[c].phase.slot != p.calls[d].phase.slot)
  }

  predicate HeldBySomeone(p: Pool, i: nat) {
    exists c :: 0 <= c < |p.calls| && Holds(p.calls[c]) && p.calls[c].phase.slot == i
  }

  predicate Homed(p: Pool) {
    forall i :: 0 <= i < |p.slots| && p.slots[i].Waiting? ==> i in p.idle || HeldBySomeone(p, i)
  }

  /** A slot at work and its request know each other. */
  predicate AtWork(i: nat, s: Slot, calls: seq<Call>, answers: map<nat, Result>)
    requires Serves(s)
  {
    && s.r < |calls| && calls[s.r].home == Some(i)
    && (s.Solving? ==> s.r !in answers && calls[s.r].done.None?)
    && (!s.Solving? ==> s.r in answers && answers[s.r] == s.result)
    && (s.Solved? ==> calls[s.r].done.None?)
  }

  predicate WorkOk(p: Pool) {
    forall i :: 0 <= i < |p.slots| && Serves(p.slots[i]) ==> AtWork(i, p.slots[i], p.calls, p.answers)
  }

  /** Which flags and channels a caller can have in each phase. */
  predicate PhaseOk(k: Call) {
    && (k.home.Some? ==> !k.phase.Queueing? && !Holds(k) && k.phase != Finished(Fail(NotStarted)))
    && (k.home.None? ==> k.done.None? && !k.phase.Awaiting? && !k.phase.Expiring? && !k.phase.Abandoning? && !k.condemned)
    && (k.phase.Queueing? || k.phase.Holding? || k.phase.Awaiting? || k.phase.Expiring? ==> !k.abandoned && !k.condemned)
    && (k.phase.Returning? ==> k.phase.why == Cancelled || k.phase.why == Closed)
    && (k.phase.Abandoning? ==> k.phase.why != NotStarted)
    && (k.condemned <==> k.phase == Abandoning(TimedOut) || k.phase == Finished(Fail(TimedOut)))
  }

  /** An answer in a caller's channel, or returned by it, is the one its own request was given. */
  predicate CallOk(c: nat, k: Call, answers: map<nat, Result>) {
    && PhaseOk(k)
    && (c in answers ==> k.home.Some?)
    && (k.done.Some? ==> c in answers && answers[c] == k.done.value)
    && (k.phase.Finished? && k.phase.outcome.Answer? ==> k.done == Some(k.phase.outcome.result))
  }

  predicate CallsOk(p: Pool) {
    && (forall c :: 0 <= c < |p.calls| ==> CallOk(c, p.calls[c], p.answers))
    && (forall c :: c in p.answers ==> c < |p.calls|)
  }

  /** The request is with its slot and no result has been delivered. */
  predicate InSlot(c: nat, k: Call, slots: seq<Slot>) {
    && k.home.Some? && k.home.value < |slots|
    && (slots[k.home.value].Solving? || slots[k.home.value].Solved?) && slots[k.home.value].r == c
  }

  /** Whoever awaits a result can still get one. */
  predicate AwaitedOk(p: Pool) {
    forall c :: 0 <= c < |p.calls| && p.calls[c].phase.Awaiting? && p.calls[c].done.None? ==>
      InSlot(c, p.calls[c], p.slots)
  }

  predicate WorkersOk(p: Pool) {
    && (forall i :: 0 <= i < |p.slots| && HasWorker(p.slots[i]) ==> p.slots[i].w < p.workers)
    && (forall i, j :: 0 <= i < |p.slots| && 0 <= j < |p.slots| && i != j && HasWorker(p.slots[i]) && HasWorker(p.slots[j]) ==>
          p.slots[i].w != p.slots[j].w)
  }

  function CountReady(slots: seq<Slot>): nat {
    if slots == [] then 0
    else CountReady(slots[..|slots| - 1]) + (if HasWorker(slots[|slots| - 1]) then 1 else 0)
  }

  /** While the pool starts nobody is let in, and every ready signal is a slot with its worker. */
  predicate Launching(p: Pool) {
    && !p.started && (!p.closed ==> p.ready == CountReady(p.slots))
    && forall c :: 0 <= c < |p.calls| ==> p.calls[c].phase == Finished(Fail(NotStarted))
  }

  /** A slot leaves for good only on a close or a failed start. */
  predicate GoneOk(slots: seq<Slot>, over: bool) {
    over || forall i :: 0 <= i < |slots| ==> !slots[i].Gone?
  }

  predicate StartOk(p: Pool) {
    && (p.launch == Starting ==> Launching(p))
    && (p.started ==> p.launch == Up)
    && (p.launch == Up && !p.closed ==> p.started && !p.startFailed)
    && (p.launch == Down ==> p.closed)
    && (p.settled ==> p.closed)
    && GoneOk(p.slots, p.closed || p.startFailed)
  }

  predicate Inv(p: Pool) {
    && |p.slots| > 0 && IdleOk(p) && HeldOk(p) && Homed(p) && WorkOk(p) && CallsOk(p) && AwaitedOk(p) && WorkersOk(p)
  }

  /** Exactly one place: building or ready to enqueue, once in the queue, held by one caller, or serving. */
  lemma OnePlace(p: Pool, i: nat)
    requires Inv(p) && i < |p.slots| && !p.slots[i].Gone?
    ensures (i in p.idle || HeldBySomeone(p, i)) <==> p.slots[i].Waiting?
    ensures !(i in p.idle && HeldBySomeone(p, i))
    ensures forall a, b :: 0 <= a < b < |p.idle| ==> !(p.idle[a] == i && p.idle[b] == i)
    ensures forall c, d :: 0 <= c < d < |p.calls| && Holds(p.calls[c]) && Holds(p.calls[d]) ==>
              !(p.calls[c].phase.slot == i && p.calls[d].phase.slot == i)
  {}

  lemma OpenedInv(size: nat)
    requires size > 0
    ensures Inv(Opened(size)) && StartOk(Opened(size))
  {
    NoneReady(Opened(size).slots);
  }

  lemma {:induction false} NoneReady(slots: seq<Slot>)
    requires forall i :: 0 <= i < |slots| ==> !HasWorker(slots[i])
    ensures CountReady(slots) == 0
  {
    if slots != [] { NoneReady(slots[..|slots| - 1]); }
  }

  lemma {:induction false} CountUpdate(slots: seq<Slot>, i: nat, s: Slot)
    requires i < |slots|
    ensures CountReady(slots[i := s])
         == CountReady(slots) + (if HasWorker(s) then 1 else 0) - (if HasWorker(slots[i]) then 1 else 0)
  {
    var last := |slots| - 1;
    if i < last {
      CountUpdate(slots[..last], i, s);
      assert slots[i := s][..last] == slots[..last][i := s];
    } else {
      assert slots[i := s][..last] == slots[..last];
    }
  }

  /** As many ready slots as slots: all of them. */
  lemma {:induction false} CountAll(slots: seq<Slot>)
    ensures CountReady(slots) <= |slots|
    ensures CountReady(slots) == |slots| ==> forall i :: 0 <= i < |slots| ==> HasWorker(slots[i])
  {
    if slots != [] { CountAll(slots[..|slots| - 1]); }
  }

  // ---- room in the idle channel --------------------------------------------------------------

  lemma {:induction false} Pigeonhole(s: seq<nat>, n: nat)
    requires Distinct(s) && forall a :: 0 <= a < |s| ==> s[a] < n
    ensures |s| <= n
    decreases n
  {
    if n == 0 {
    } else if n - 1 in s {
      var a :| 0 <= a < |s| && s[a] == n - 1;
      var t := s[..a] + s[a + 1..];
      assert forall b :: 0 <= b < |t| ==> t[b] == (if b < a then s[b] else s[b + 1]);
      Pigeonhole(t, n - 1);
    } else {
      Pigeonhole(s, n - 1);
    }
  }

  /** A slot that is not in the queue has a place in it. */
  lemma RoomFor(s: seq<nat>, i: nat, n: nat)
    requires Distinct(s) && (forall a :: 0 <= a < |s| ==> s[a] < n) && i < n && i !in s
    ensures |s| < n
  {
    Pigeonhole(s + [i], n);
  }

  // ---- steps of a slot -----------------------------------------------------------------------

  /** Whoever held a slot still does when the callers that hold are untouched. */
  lemma HoldersStay(p: Pool, q: Pool)
    requires |p.calls| <= |q.calls|
    requires forall c :: 0 <= c < |p.calls| && Holds(p.calls[c]) ==> q.calls[c].phase == p.calls[c].phase
    ensures forall j :: HeldBySomeone(p, j) ==> HeldBySomeone(q, j)
  {
    forall j | HeldBySomeone(p, j) ensures HeldBySomeone(q, j) {
      var c :| 0 <= c < |p.calls| && Holds(p.calls[c]) && p.calls[c].phase.slot == j;
      assert Holds(q.calls[c]);
    }
  }

  /** A slot moves between states in which it neither waits nor serves, or out of its last service step;
      a worker it gets is new. */
  lemma SlotMoves(p: Pool, i: nat, s: Slot, q: Pool)
    requires Inv(p) && i < |p.slots| && q.slots == p.slots[i := s] && q.idle == p.idle && q.calls == p.calls
    requires q.answers == p.answers && q.workers >= p.workers
    requires !s.Waiting? && !Serves(s) && (Parked(p.slots, i) ==> s.Gone?)
    requires Serves(p.slots[i]) ==> p.slots[i].Posted?
    requires HasWorker(s) ==> (HasWorker(p.slots[i]) && s.w == p.slots[i].w) || p.workers <= s.w < q.workers
    ensures Inv(q)
  {
    hide CallOk, AtWork;
    HoldersStay(p, q);
  }

  lemma EnqueueKeeps(p: Pool, i: nat)
    requires Inv(p) && SlotEnabled(p, i, Queue)
    ensures Inv(Enqueue(p, i))
  {
    hide CallOk, AtWork;
    var q := Enqueue(p, i);
    HoldersStay(p, q);
    assert i in q.idle by { assert q.idle[|p.idle|] == i; }
    forall j | j in p.idle ensures j in q.idle {
      var a :| 0 <= a < |p.idle| && p.idle[a] == j;
      assert q.idle[a] == j;
    }
  }

  lemma SolveReturnsKeeps(p: Pool, i: nat, result: Result)
    requires Inv(p) && SlotEnabled(p, i, Return(result))
    ensures Inv(SolveReturns(p, i, result))
  {
    hide PhaseOk;
    var q := SolveReturns(p, i, result);
    HoldersStay(p, q);
    assert AtWork(i, p.slots[i], p.calls, p.answers);
    assert WorkOk(q) && CallsOk(q);
  }

  lemma PostKeeps(p: Pool, i: nat)
    requires Inv(p) && SlotEnabled(p, i, Deliver)
    ensures Inv(Post(p, i))
  {
    hide IdleOk, HeldOk, Homed, WorkOk, CallsOk, AwaitedOk, WorkersOk;
    PostWork(p, i);
    PostCalls(p, i);
    PostHeld(p, i);
    PostWorkers(p, i);
  }

  lemma PostWorkers(p: Pool, i: nat)
    requires WorkersOk(p) && AwaitedOk(p) && CallsOk(p) && SlotEnabled(p, i, Deliver)
    ensures WorkersOk(Post(p, i)) && AwaitedOk(Post(p, i))
  {
    assert CallOk(p.slots[i].r, p.calls[p.slots[i].r], p.answers);
    hide CallsOk, CallOk;
  }

  /** Delivering changes no caller's phase. */
  lemma PostHeld(p: Pool, i: nat)
    requires IdleOk(p) && HeldOk(p) && Homed(p) && SlotEnabled(p, i, Deliver)
    ensures IdleOk(Post(p, i)) && HeldOk(Post(p, i)) && Homed(Post(p, i))
  {
    var q := Post(p, i);
    assert forall j :: Parked(p.slots, j) ==> Parked(q.slots, j);
    assert forall c :: 0 <= c < |p.calls| ==> q.calls[c].phase == p.calls[c].phase;
    hide Parked;
    HoldersStay(p, q);
  }

  lemma PostCalls(p: Pool, i: nat)
    requires CallsOk(p) && WorkOk(p) && SlotEnabled(p, i, Deliver)
    ensures CallsOk(Post(p, i))
  {
    var r := p.slots[i].r;
    assert AtWork(i, p.slots[i], p.calls, p.answers);
    assert CallOk(r, p.calls[r], p.answers) && CallOk(r, Post(p, i).calls[r], p.answers);
    hide CallOk;
  }

  lemma PostWork(p: Pool, i: nat)
    requires WorkOk(p) && SlotEnabled(p, i, Deliver)
    ensures WorkOk(Post(p, i))
  {
    var q := Post(p, i);
    assert AtWork(i, p.slots[i], p.calls, p.answers);
    forall j | 0 <= j < |q.slots| && Serves(q.slots[j]) ensures AtWork(j, q.slots[j], q.calls, q.answers) {
      assert AtWork(j, p.slots[j], p.calls, p.answers);
    }
  }

  /** The request a slot serves was let in and handed over. */
  lemma ServedCall(p: Pool, i: nat)
    requires WorkOk(p) && CallsOk(p) && i < |p.slots| && Serves(p.slots[i])
    ensures var r := p.slots[i].r;
            && r < |p.calls| && p.calls[r].home == Some(i) && PhaseOk(p.calls[r])
  {
    assert AtWork(i, p.slots[i], p.calls, p.answers);
    assert CallOk(p.slots[i].r, p.calls[p.slots[i].r], p.answers);
  }

  // ---- steps of a caller ---------------------------------------------------------------------

  /** Calls change in phase and flags only: the slots' side of the bargain stays. */
  lemma WorkStays(p: Pool, q: Pool)
    requires WorkOk(p) && q.slots == p.slots && q.answers == p.answers && |q.calls| >= |p.calls|
    requires forall c :: 0 <= c < |p.calls| ==> q.calls[c].home == p.calls[c].home && q.calls[c].done == p.calls[c].done
    ensures WorkOk(q)
  {
    forall j | 0 <= j < |q.slots| && Serves(q.slots[j]) ensures AtWork(j, q.slots[j], q.calls, q.answers) {
      assert AtWork(j, p.slots[j], p.calls, p.answers);
    }
  }

  lemma ArriveKeeps(p: Pool)
    requires Inv(p)
    ensures Inv(Arrive(p))
  {
    var q := Arrive(p);
    HoldersStay(p, q);
    WorkStays(p, q);
    assert CallOk(|p.calls|, q.calls[|p.calls|], q.answers);
    hide CallOk, AtWork, WorkOk;
    assert CallsOk(q) && AwaitedOk(q);
  }

  lemma AcquireKeeps(p: Pool, c: nat)
    requires Inv(p) && CallEnabled(p, c, TakeSlot)
    ensures Inv(Acquire(p, c))
  {
    var q := Acquire(p, c);
    assert CallOk(c, p.calls[c], p.answers) && CallOk(c, q.calls[c], p.answers);
    hide CallOk, AtWork;
    HoldersStay(p, q);
    WorkStays(p, q);
    hide WorkOk;
    assert Holds(q.calls[c]);
    assert HeldBySomeone(q, p.idle[0]);
    forall j | j in p.idle && j != p.idle[0] ensures j in q.idle {
      var a :| 0 <= a < |p.idle| && p.idle[a] == j;
      assert q.idle[a - 1] == j;
    }
    assert CallsOk(q) && AwaitedOk(q);
  }

  lemma HandOverKeeps(p: Pool, c: nat)
    requires Inv(p) && CallEnabled(p, c, PassOn)
    ensures Inv(HandOver(p, c))
  {
    var q := HandOver(p, c);
    var i := p.calls[c].phase.slot;
    assert Holds(p.calls[c]) && CallOk(c, p.calls[c], p.answers) && CallOk(c, q.calls[c], p.answers);
    assert AtWork(i, q.slots[i], q.calls, q.answers);
    hide PhaseOk;
    assert WorkOk(q);
    hide CallOk, AtWork, WorkOk;
    assert IdleOk(q) && HeldOk(q) && WorkersOk(q);
    assert CallsOk(q) && AwaitedOk(q);
    HoldersButOne(p, c, q);
    assert forall d :: 0 <= d < |p.calls| && d != c && Holds(p.calls[d]) ==> p.calls[d].phase.slot != i;
  }

  /** Whoever else held a slot still does. */
  lemma HoldersButOne(p: Pool, c: nat, q: Pool)
    requires c < |p.calls| == |q.calls| && Holds(p.calls[c])
    requires forall d :: 0 <= d < |p.calls| && d != c ==> q.calls[d] == p.calls[d]
    ensures forall j :: HeldBySomeone(p, j) && j != p.calls[c].phase.slot ==> HeldBySomeone(q, j)
  {
    forall j | HeldBySomeone(p, j) && j != p.calls[c].phase.slot ensures HeldBySomeone(q, j) {
      var d :| 0 <= d < |p.calls| && Holds(p.calls[d]) && p.calls[d].phase.slot == j;
      assert Holds(q.calls[d]);
    }
  }

  lemma GiveBackKeeps(p: Pool, c: nat)
    requires Inv(p) && CallEnabled(p, c, PutBack)
    ensures Inv(GiveBack(p, c))
  {
    var q := GiveBack(p, c);
    var i := p.calls[c].phase.slot;
    assert Holds(p.calls[c]) && CallOk(c, p.calls[c], p.answers) && CallOk(c, q.calls[c], p.answers);
    hide CallOk, AtWork;
    WorkStays(p, q);
    hide WorkOk;
    HoldersButOne(p, c, q);
    assert i in q.idle by { assert q.idle[|p.idle|] == i; }
    forall j | j in p.idle ensures j in q.idle {
      var a :| 0 <= a < |p.idle| && p.idle[a] == j;
      assert q.idle[a] == j;
    }
    assert CallsOk(q) && AwaitedOk(q);
  }

  /** A caller changes its own state only, without taking or dropping a slot. */
  lemma CallMoves(p: Pool, c: nat, k: Call, q: Pool)
    requires Inv(p) && c < |p.calls| && q.calls == p.calls[c := k]
    requires q.slots == p.slots && q.idle == p.idle && q.answers == p.answers && q.workers == p.workers
    requires (Holds(k) <==> Holds(p.calls[c])) && (k.phase.Awaiting? ==> p.calls[c].phase.Awaiting?)
    requires Holds(k) ==> k.phase.slot == p.calls[c].phase.slot
    requires k.home == p.calls[c].home && k.done == p.calls[c].done && CallOk(c, k, q.answers)
    ensures Inv(q)
  {
    hide CallOk, AtWork;
    forall j | HeldBySomeone(p, j) ensures HeldBySomeone(q, j) {
      var d :| 0 <= d < |p.calls| && Holds(p.calls[d]) && p.calls[d].phase.slot == j;
      assert Holds(q.calls[d]);
    }
    WorkStays(p, q);
  }

  // ---- every step ----------------------------------------------------------------------------

  lemma JudgeKeeps(p: Pool, i: nat, recycle: bool)
    requires Inv(p) && SlotEnabled(p, i, Decide(recycle))
    ensures Inv(Judge(p, i, recycle))
  {
    hide Inv;
    SlotMoves(p, i, Judge(p, i, recycle).slots[i], Judge(p, i, recycle));
  }

  lemma BuiltKeeps(p: Pool, i: nat)
    requires Inv(p) && SlotEnabled(p, i, Build)
    ensures Inv(Built(p, i)) && Inv(FactoryFailed(p, i))
  {
    hide Inv;
    SlotMoves(p, i, Built(p, i).slots[i], Built(p, i));
    if FactoryFailed(p, i) != p { SlotMoves(p, i, Gone, FactoryFailed(p, i)); }
  }

  lemma CallStepKeeps(p: Pool, c: nat, s: CallStep)
    requires Inv(p) && CallEnabled(p, c, s) && !s.TakeSlot? && !s.PassOn? && !s.PutBack?
    ensures Inv(CallNext(p, c, s))
  {
    assert CallOk(c, p.calls[c], p.answers);
    hide Inv;
    CallStepOk(p, c, s);
    hide CallOk;
    CallMoves(p, c, CallNext(p, c, s).calls[c], CallNext(p, c, s));
  }

  lemma CallStepOk(p: Pool, c: nat, s: CallStep)
    requires CallEnabled(p, c, s) && !s.TakeSlot? && !s.PassOn? && !s.PutBack?
    requires CallOk(c, p.calls[c], p.answers)
    ensures CallOk(c, CallNext(p, c, s).calls[c], p.answers)
  {}

  lemma FlagsFree(p: Pool, q: Pool)
    requires Inv(p) && q.slots == p.slots && q.idle == p.idle && q.calls == p.calls && q.answers == p.answers
    requires q.workers == p.workers
    ensures Inv(q)
  {
    hide CallOk, AtWork;
    assert forall i :: HeldBySomeone(p, i) ==> HeldBySomeone(q, i);
  }

  lemma SlotStepKeeps(p: Pool, i: nat, s: SlotStep)
    requires Inv(p) && SlotEnabled(p, i, s)
    ensures Inv(SlotNext(p, i, s))
  {
    hide Inv, Built, FactoryFailed, Judge, Enqueue, SolveReturns, Post;
    match s
    case Build => BuiltKeeps(p, i);
    case FailBuild => BuiltKeeps(p, i);
    case Queue => EnqueueKeeps(p, i);
    case Quit => SlotMoves(p, i, Gone, Leave(p, i));
    case Return(result) => SolveReturnsKeeps(p, i, result);
    case Deliver => PostKeeps(p, i);
    case Decide(recycle) => JudgeKeeps(p, i, recycle);
  }

  lemma StepKeeps(p: Pool, s: Step)
    requires Inv(p) && Enabled(p, s)
    ensures Inv(Next(p, s))
  {
    hide Inv, Built, FactoryFailed, Judge, Enqueue, SolveReturns, Post, Arrive, Acquire, HandOver, GiveBack;
    match s
    case OfSlot(i, slot) =>
      SlotStepKeeps(p, i, slot);
    case OfCall(c, call) =>
      if call.TakeSlot? { AcquireKeeps(p, c); }
      else if call.PassOn? { HandOverKeeps(p, c); }
      else if call.PutBack? { GiveBackKeeps(p, c); }
      else { CallStepKeeps(p, c, call); }
    case DoArrive => ArriveKeeps(p);
    case DoClose => FlagsFree(p, CloseDone(p));
    case DoSettle => FlagsFree(p, Settle(p));
    case DoStartCheck(late) => FlagsFree(p, StartCheck(p, late));
  }

  // ---- starting ------------------------------------------------------------------------------

  lemma GoneStays(p: Pool, i: nat, s: SlotStep)
    requires GoneOk(p.slots, p.closed || p.startFailed) && SlotEnabled(p, i, s)
    requires p.launch == Up && !p.closed ==> p.started && !p.startFailed
    ensures var q := SlotNext(p, i, s);
            && GoneOk(q.slots, q.closed || q.startFailed)
            && (q.startFailed != p.startFailed ==> !p.started && !p.closed)
  {}

  /** While the pool starts, no slot serves: nobody was let in. */
  lemma NoneServes(p: Pool, i: nat)
    requires Inv(p) && Launching(p) && i < |p.slots|
    ensures !Serves(p.slots[i])
  {
    if Serves(p.slots[i]) { ServedCall(p, i); }
  }

  lemma LaunchingSlot(p: Pool, i: nat, s: SlotStep)
    requires Inv(p) && Launching(p) && SlotEnabled(p, i, s)
    ensures Launching(SlotNext(p, i, s))
  {
    NoneServes(p, i);
    hide Inv, CountReady;
    CountUpdate(p.slots, i, SlotNext(p, i, s).slots[i]);
  }

  lemma LaunchingCall(p: Pool, c: nat, s: CallStep)
    requires Launching(p)
    ensures !CallEnabled(p, c, s)
  {}

  lemma StartKeeps(p: Pool, s: Step)
    requires Inv(p) && StartOk(p) && Enabled(p, s)
    ensures StartOk(Next(p, s))
  {
    hide Inv, Launching, GoneOk, SlotNext, CallNext;
    match s
    case OfSlot(i, slot) =>
      GoneStays(p, i, slot);
      if p.launch == Starting { LaunchingSlot(p, i, slot); }
    case OfCall(c, call) =>
      if p.launch == Starting { LaunchingCall(p, c, call); }
      else { CallLeavesSlots(p, c, call); }
    case _ => LifeKeeps(p, s);
  }

  lemma CallLeavesSlots(p: Pool, c: nat, s: CallStep)
    requires CallEnabled(p, c, s) && GoneOk(p.slots, p.closed || p.startFailed)
    ensures GoneOk(CallNext(p, c, s).slots, p.closed || p.startFailed)
  {}

  lemma LifeKeeps(p: Pool, s: Step)
    requires StartOk(p) && Enabled(p, s) && !s.OfSlot? && !s.OfCall?
    ensures StartOk(Next(p, s))
  {}
}
