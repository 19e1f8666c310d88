// The promises of the token pool, over whole runs from a fresh pool.
module TokenPoolTheorems {
  import opened Common
  import opened TokenPoolSpec
  import opened TokenPoolProofs

  ghost predicate Legal(p: Pool, steps: seq<Step>)
    decreases |steps|
  {
    Range(p) && (steps != [] ==> Enabled(p, steps[0]) && Legal(Next(p, steps[0]), steps[1..]))
  }

  ghost function Run(p: Pool, steps: seq<Step>): Pool
    requires Legal(p, steps)
    decreases |steps|
  {
    if steps == [] then p else Run(Next(p, steps[0]), steps[1..])
  }

  ghost predicate Reachable(p: Pool) {
    exists opts, solverSet, start, steps ::
      Normalized(opts) && Legal(Init(opts, solverSet, start), steps) && p == Run(Init(opts, solverSet, start), steps)
  }

  lemma {:induction false} RunKeeps(p: Pool, steps: seq<Step>)
    requires Inv(p) && Legal(p, steps)
    ensures Inv(Run(p, steps))
    decreases |steps|
  {
    hide Inv;
    if steps != [] {
      NextKeeps(p, steps[0]);
      RunKeeps(Next(p, steps[0]), steps[1..]);
    }
  }

  lemma ReachableInv(p: Pool)
    requires Reachable(p)
    ensures Inv(p)
  {
    hide Inv;
    var opts, solverSet, start, steps :|
      Normalized(opts) && Legal(Init(opts, solverSet, start), steps) && p == Run(Init(opts, solverSet, start), steps);
    InitKeeps(opts, solverSet, start);
    RunKeeps(Init(opts, solverSet, start), steps);
  }

  // ---- one owner per token --------------------------------------------------------------------

  /** Where a token can be: in a bucket, or with a Take call (in its channel or returned by it). */
  datatype Place = InBucket(key: Key, index: nat) | WithCall(call: nat)

  ghost predicate Holds(p: Pool, place: Place, solve: nat) {
    match place
    case InBucket(k, i) => k in p.buckets && i < |p.buckets[k]| && p.buckets[k][i].solve == solve
    case WithCall(c) => c < |p.calls| && Held(p.calls[c]).Some? && Held(p.calls[c]).value.solve == solve
  }

  /** Each solver result is in at most one place, so at most one Take ever returns it. */
  lemma OneOwner(p: Pool, a: Place, b: Place, solve: nat)
    requires Reachable(p) && Holds(p, a, solve) && Holds(p, b, solve)
    ensures a == b
  {
    ReachableInv(p);
    if a.InBucket? { assert p.buckets[a.key] != [] && a.key == p.config.key; }
    if b.InBucket? { assert p.buckets[b.key] != [] && b.key == p.config.key; }
  }

  /** What a Take returned stays returned: no later step changes or re-delivers it. */
  lemma {:induction false} ReturnsAreFinal(p: Pool, steps: seq<Step>, c: nat)
    requires Inv(p) && Legal(p, steps) && c < |p.calls| && (p.calls[c].Got? || p.calls[c].Failed?)
    ensures c < |Run(p, steps).calls| && Run(p, steps).calls[c] == p.calls[c]
    decreases |steps|
  {
    hide Inv;
    if steps != [] {
      InvQueue(p);
      NextKeeps(p, steps[0]);
      hide QueueOk;
      StepLeavesFinished(p, steps[0], c);
      ReturnsAreFinal(Next(p, steps[0]), steps[1..], c);
    }
  }

  ghost predicate Finished(c: Call) { c.Got? || c.Failed? }

  ghost predicate SameFinished(p: Pool, q: Pool) {
    |p.calls| <= |q.calls| && forall c :: 0 <= c < |p.calls| && Finished(p.calls[c]) ==> q.calls[c] == p.calls[c]
  }

  lemma SendLeavesFinished(p: Pool, r: Reply)
    requires QueueOk(p) && p.waiters != []
    ensures var q := Send(p.(waiters := p.waiters[1..]), p.waiters[0], r);
            SameFinished(p, q) && QueueOk(q) && |q.waiters| < |p.waiters|
  {
    SendKeepsQueue(p, r);
  }

  lemma SameFinishedChain(p: Pool, q: Pool, r: Pool)
    requires SameFinished(p, q) && SameFinished(q, r)
    ensures SameFinished(p, r)
  {}

  lemma PopLeavesQueue(p: Pool, now: int)
    requires QueueOk(p)
    ensures var q := Pop(p, now).0;
            QueueOk(q) && q.waiters == p.waiters && q.calls == p.calls && SameFinished(p, q)
  {
    SameQueue(p, Pop(p, now).0);
    hide QueueOk;
  }

  lemma {:induction false} DeliverLeavesFinished(p: Pool, now: int)
    requires QueueOk(p)
    ensures SameFinished(p, Deliver(p, now).0) && QueueOk(Deliver(p, now).0)
    decreases |p.waiters|
  {
    InvQueueRange(p);
    PopLeavesQueue(p, now);
    hide QueueOk, Pop, SameFinished, Send;
    var (q, token) := Pop(p, now);
    if p.waiters == [] {
      NothingChanged(p);
    } else if token.Some? {
      InvQueueRange(q);
      SendLeavesFinished(q, Delivered(token.value));
      var served := Send(q.(waiters := q.waiters[1..]), q.waiters[0], Delivered(token.value));
      DeliverLeavesFinished(served, now);
      SameFinishedChain(p, q, served);
      SameFinishedChain(p, served, Deliver(p, now).0);
    }
  }

  lemma NothingChanged(p: Pool)
    ensures SameFinished(p, p)
  {}

  lemma InvQueueRange(p: Pool)
    requires QueueOk(p)
    ensures Range(p)
  {}

  lemma EnsureMintsLeavesFinished(p: Pool, now: int)
    requires QueueOk(p)
    ensures SameFinished(p, EnsureMints(p, now))
  {
    DeliverLeavesFinished(p, now);
    FailWaitersKeepsQueue(p, Unavailable);
  }

  lemma TakeLeavesFinished(p: Pool, config: Config, now: int)
    requires Range(p) && QueueOk(p)
    ensures SameFinished(p, Take(p, config, now))
  {
    if !p.closed && p.active && p.config.key == config.key && p.solverSet {
      var (r, token) := Pop(Arrive(p, now), now);
      if token.None? {
        hide QueueOk, EnsureMints;
        SameQueue(p, r);
        EnqueueKeepsQueue(r, now);
        EnsureMintsLeavesFinished(Enqueue(r, config.key, now), now);
      }
    }
  }

  lemma AcceptKeepsQueue(p: Pool, t: Token, now: int)
    requires Range(p) && QueueOk(p)
    ensures QueueOk(Accept(p, t, now)) && SameFinished(p, Accept(p, t, now))
  {
    if p.waiters != [] {
      SendKeepsQueue(Record(p, t, now), Delivered(t));
    }
  }

  lemma SettleLeavesFinished(p: Pool, config: Config, result: SolveResult, at: int, now: int)
    requires Range(p) && QueueOk(p)
    ensures QueueOk(Settle(p, config, result, at, now)) && SameFinished(p, Settle(p, config, result, at, now))
  {
    hide QueueOk, Accept;
    var counted := p.(solved := p.solved + 1);
    SameQueue(p, MintFailed(p));
    SameQueue(p, counted);
    SameQueue(p, MintFailed(counted));
    if result.Solved? {
      AcceptKeepsQueue(counted, Token(p.solved, config, result.dedupe, at, at + p.opts.ttl), now);
    }
  }

  lemma MintLeavesFinished(p: Pool, config: Config, result: SolveResult, at: int, now: int)
    requires Range(p) && QueueOk(p)
    ensures SameFinished(p, MintDone(p, config, result, at, now))
  {
    hide QueueOk;
    var q := Landed(p, config.key);
    SameQueue(p, q);
    SettleLeavesFinished(q, config, result, at, now);
    hide Settle, EnsureMints;
    EnsureMintsLeavesFinished(Settle(q, config, result, at, now), now);
  }

  lemma FailLeavesFinished(p: Pool, e: TakeError)
    requires Range(p) && QueueOk(p)
    ensures QueueOk(FailWaiters(p, e)) && SameFinished(p, FailWaiters(p, e))
  {
    FailWaitersKeepsQueue(p, e);
  }

  lemma SetConfigLeavesFinished(p: Pool, config: Config, verified: bool, at: int)
    requires Range(p) && QueueOk(p)
    ensures SameFinished(p, SetConfig(p, config, verified, at))
  {
    hide QueueOk, FailWaiters;
    if !p.closed {
      var f := Restart(Forget(p), at);
      SameQueue(p, f);
      FailLeavesFinished(f, Unavailable);
      var q := if p.config.key == config.key then p else FailWaiters(f, Unavailable);
      var r := q.(config := config, active := verified && config.enabled);
      SameQueue(q, Forget(r));
      FailLeavesFinished(Forget(r), Unavailable);
    }
  }

  lemma RefillLeavesFinished(p: Pool, at: int, divisor: int, now: int)
    requires Range(p) && QueueOk(p) && divisor > 0
    ensures SameFinished(p, Refill(p, at, divisor, now))
  {
    hide QueueOk, EnsureMints;
    SameQueue(p, Prune(p, at));
    EnsureMintsLeavesFinished(Prune(p, at), now);
  }

  lemma CloseLeavesFinished(p: Pool)
    requires Range(p) && QueueOk(p)
    ensures SameFinished(p, Close(p))
  {
    hide QueueOk, FailWaiters;
    SameQueue(p, Forget(p).(closed := true, active := false));
    FailLeavesFinished(Forget(p).(closed := true, active := false), PoolClosed);
  }

  lemma CancelLeavesFinished(p: Pool, c: nat, e: TakeError)
    requires c < |p.calls| && (p.calls[c].Queued? || p.calls[c].Sent?)
    ensures SameFinished(p, Cancel(p, c, e))
  {
  }

  lemma StepLeavesFinished(p: Pool, s: Step, c: nat)
    requires Range(p) && QueueOk(p) && Enabled(p, s) && c < |p.calls| && Finished(p.calls[c])
    ensures c < |Next(p, s).calls| && Next(p, s).calls[c] == p.calls[c]
  {
    hide QueueOk, Take, Cancel, MintDone, SetConfig, Refill, Close;
    var q := p.(clock := s.now);
    SameQueue(p, q);
    match s.op
    case OpTake(config) => TakeLeavesFinished(q, config, s.now);
    case OpCancel(d, e) => CancelLeavesFinished(q, d, e);
    case OpMint(config, result, at) => MintLeavesFinished(q, config, result, at, s.now);
    case OpSetConfig(config, verified, at) => SetConfigLeavesFinished(q, config, verified, at);
    case OpRefill(at, divisor) => RefillLeavesFinished(q, at, divisor, s.now);
    case OpClose => CloseLeavesFinished(q);
    case _ =>
  }

  // ---- configurations and de-duplication ------------------------------------------------------

  /** A Take only ever gets a token minted for the key it asked for, and only the current, active
      key has tokens or waiters. */
  lemma OwnKeyOnly(p: Pool, c: nat)
    requires Reachable(p) && c < |p.calls|
    ensures p.calls[c].Got? ==> p.calls[c].token.config.key == p.calls[c].key
    ensures c in p.waiters <==> p.calls[c].Queued?
    ensures c in p.waiters ==> p.active && !p.closed && p.calls[c].key == p.config.key
    ensures forall k :: k in p.buckets && p.buckets[k] != [] ==> k == p.config.key && p.active && !p.closed
  {
    ReachableInv(p);
    assert p.calls[c].Got? ==> Held(p.calls[c]) == Some(p.calls[c].token);
  }

  lemma {:induction false} DeliverNeverReturns(p: Pool, now: int)
    requires QueueOk(p)
    ensures forall c :: 0 <= c < |p.calls| && !p.calls[c].Got? ==> !Deliver(p, now).0.calls[c].Got?
    decreases |p.waiters|
  {
    if p.waiters != [] {
      var (q, token) := Pop(p, now);
      if token.Some? {
        SendKeepsQueue(q, Delivered(token.value));
        DeliverNeverReturns(Send(q.(waiters := q.waiters[1..]), q.waiters[0], Delivered(token.value)), now);
      }
    }
  }

  lemma FreshCallBlocks(p: Pool, now: int)
    requires QueueOk(p)
    ensures |EnsureMints(p, now).calls| == |p.calls|
    ensures forall c :: 0 <= c < |p.calls| && !p.calls[c].Got? ==> !EnsureMints(p, now).calls[c].Got?
  {
    DeliverNeverReturns(p, now);
  }

  lemma TakeIsLive(p: Pool, config: Config, now: int)
    requires Range(p) && QueueOk(p)
    ensures var q := Take(p, config, now);
            |p.calls| < |q.calls| && (q.calls[|p.calls|].Got? ==> now < q.calls[|p.calls|].token.expiresAt)
  {
    hide QueueOk, EnsureMints;
    if !p.closed && p.active && p.config.key == config.key && p.solverSet {
      var (r, token) := Pop(Arrive(p, now), now);
      if token.None? {
        SameQueue(p, r);
        EnqueueKeepsQueue(r, now);
        FreshCallBlocks(Enqueue(r, config.key, now), now);
      }
    }
  }

  /** A Take served from the bucket gets a live token. */
  lemma FastTakeIsLive(p: Pool, config: Config, now: int)
    requires Reachable(p) && p.clock <= now
    ensures Range(p)
    ensures var q := Next(p, Step(now, OpTake(config)));
            |p.calls| < |q.calls| && (q.calls[|p.calls|].Got? ==> now < q.calls[|p.calls|].token.expiresAt)
  {
    ReachableInv(p);
    InvQueue(p);
    hide Inv, QueueOk, Take;
    SameQueue(p, p.(clock := now));
    TakeIsLive(p.(clock := now), config, now);
  }

  /** Two mints accepted with the same dedupe key, with no clear between them, are at least ttl plus
      a minute apart: the second is accepted only after the first has expired. */
  lemma DuplicatesNeverBothLive(p: Pool, i: nat, j: nat)
    requires Reachable(p) && i < j < |p.accepted|
    requires p.accepted[i].token.dedupe == p.accepted[j].token.dedupe
    ensures p.accepted[j].clock >= p.accepted[i].token.mintedAt + p.opts.ttl + MINUTE
    ensures p.accepted[i].token.expiresAt < p.accepted[j].clock
  {
    ReachableInv(p);
  }

  /** Buckets and in-flight solves stay bounded, and the in-flight counter counts the goroutines. */
  lemma Bounded(p: Pool, k: Key)
    requires Reachable(p)
    ensures |Bucket(p, k)| <= p.opts.max
    ensures p.solving[k] == Inflight(p, k) <= Max(p.opts.max, p.opts.emptySolve)
  {
    ReachableInv(p);
  }

  /** A refill of a deeply idle pool without waiters starts no solve. */
  lemma DeepIdleStartsNothing(p: Pool, at: int, divisor: int, now: int)
    requires Reachable(p) && Enabled(p, Step(now, OpRefill(at, divisor)))
    requires p.waiters == [] && at - p.lastTake > p.opts.idleStop
    ensures Range(p) && Next(p, Step(now, OpRefill(at, divisor))).solving == p.solving
  {
    ReachableInv(p);
  }

  // ---- nobody waits without a solve under way -------------------------------------------------

  /** Waiters face an empty bucket and a running solve. */
  ghost predicate Busy(p: Pool) {
    p.waiters != [] ==> Inflight(p, p.config.key) > 0 && Bucket(p, p.config.key) == []
  }

  /** A caller gives up after a token was sent to it, so the token goes back into the bucket. */
  ghost predicate HandsBack(p: Pool, s: Step) {
    s.op.OpCancel? && s.op.call < |p.calls| && p.calls[s.op.call].Sent? && p.calls[s.op.call].reply.Delivered?
  }

  /** Completions of current-key solves after which the oldest waiter is certainly answered. */
  ghost function Left(p: Pool): nat {
    var n := Inflight(p, p.config.key);
    if p.mintFailStreak + n >= p.opts.emptySolve then n else n + p.opts.emptySolve
  }

  ghost function Completes(s: Step, key: Key): nat {
    if s.op.OpMint? && s.op.config.key == key then 1 else 0
  }

  /** No call is queued again, and the oldest waiter is answered in q or `spent` completions nearer. */
  ghost predicate Nearer(p: Pool, q: Pool, spent: nat) {
    && |p.calls| <= |q.calls|
    && (forall w :: w in q.waiters ==> w in p.waiters || w >= |p.calls|)
    && (p.waiters != [] && p.waiters[0] in q.waiters ==>
      q.waiters[0] == p.waiters[0] && q.config.key == p.config.key && Left(q) + spent <= Left(p))
  }

  lemma DeliverFromEmpty(p: Pool, now: int)
    requires Range(p) && Bucket(p, p.config.key) == []
    ensures !Deliver(p, now).1
    ensures Deliver(p, now).0.(buckets := p.buckets) == p
    ensures Bucket(Deliver(p, now).0, p.config.key) == []
  {
  }

  lemma EnsureMintsBusy(p: Pool, now: int)
    requires Inv(p) && Range(p) && now == p.clock && Bucket(p, p.config.key) == []
    ensures Busy(EnsureMints(p, now))
  {
    hide Inv;
    DeliverFromEmpty(p, now);
    BusyOptions(p);
  }

  lemma BusyOptions(p: Pool)
    requires Inv(p)
    ensures p.opts.emptySolve >= 1 && (p.waiters != [] ==> p.active && !p.closed)
    ensures forall i :: 0 <= i < |p.waiters| ==> p.calls[p.waiters[i]].Queued?
    ensures forall i, j :: 0 <= i < j < |p.waiters| ==> p.waiters[i] < p.waiters[j]
    ensures forall k :: p.solving[k] == Inflight(p, k)
  {
  }

  lemma PruneBusy(p: Pool, at: int)
    requires Inv(p) && at <= p.clock && Busy(p)
    ensures Busy(Prune(p, at))
    ensures Bucket(p, p.config.key) == [] ==> Bucket(Prune(p, at), p.config.key) == []
  {
    PruneKeeps(p, at);
  }

  /** Everybody was answered, or the same waiters go on with the solves in flight or with new ones. */
  ghost predicate Continued(p: Pool, q: Pool) {
    && |q.calls| == |p.calls|
    && (q.waiters == [] || (q.waiters == p.waiters && q.config == p.config && q.opts == p.opts &&
          q.mintFailStreak == p.mintFailStreak &&
          (Inflight(p, p.config.key) > 0 ==> q == p) &&
          (Inflight(p, p.config.key) == 0 ==> p.mintFailStreak < p.opts.emptySolve &&
                                              Inflight(q, p.config.key) == p.opts.emptySolve)))
  }

  /** The oldest waiter under EnsureMints: nothing already in flight is lost. */
  lemma EnsureMintsNearer(p: Pool, now: int)
    requires Inv(p) && Range(p) && now == p.clock && Bucket(p, p.config.key) == [] && p.waiters != []
    ensures Busy(EnsureMints(p, now)) && Continued(p, EnsureMints(p, now))
  {
    hide Inv;
    EnsureMintsBusy(p, now);
    DeliverFromEmpty(p, now);
  }

  lemma TakeNearer(p: Pool, config: Config, now: int)
    requires Inv(p) && Range(p) && now == p.clock && Busy(p)
    ensures Busy(Take(p, config, now)) && Nearer(p, Take(p, config, now), 0)
  {
    hide Inv;
    PruneBusy(p, now);
    if !p.closed && p.active && p.config.key == config.key && p.solverSet {
      ArriveKeeps(p, now);
      PopKeeps(Arrive(p, now), now);
      var (q, token) := Pop(Arrive(p, now), now);
      if token.None? {
        EnqueueKeeps(q, now);
        hide EnsureMints;
        EnsureMintsNearer(Enqueue(q, config.key, now), now);
      } else {
        hide Stale;
        assert p.waiters == [];
      }
    }
  }

  lemma CancelNearer(p: Pool, c: nat, e: TakeError)
    requires Inv(p) && Busy(p) && c < |p.calls| && (p.calls[c].Queued? || p.calls[c].Sent?)
    requires !(p.calls[c].Sent? && p.calls[c].reply.Delivered?)
    ensures Busy(Cancel(p, c, e)) && Nearer(p, Cancel(p, c, e), 0)
  {
    BusyOptions(p);
    hide Inv;
    WithoutOf(p.waiters, c);
    if c in p.waiters && p.waiters[0] != c {
      assert Without(p.waiters, c)[0] == p.waiters[0];
    }
  }

  /** What a finished solve leaves: the oldest waiter served, or the failure counted. */
  ghost predicate Settled(p: Pool, r: Pool, current: bool) {
    && r.config == p.config && r.opts == p.opts && r.clock == p.clock
    && r.inflight == p.inflight && |r.calls| == |p.calls|
    && (r.waiters == [] || Bucket(r, r.config.key) == [])
    && ((p.waiters != [] && r.waiters == p.waiters[1..]) ||
        (r.waiters == p.waiters && (p.waiters != [] ==>
           p.mintFailStreak + (if current then 1 else 0) <= r.mintFailStreak <= p.mintFailStreak + 1)))
  }

  lemma AcceptSettles(p: Pool, t: Token, now: int)
    requires Range(p) && (p.waiters == [] || Bucket(p, p.config.key) == [])
    ensures Settled(p, Accept(p, t, now), true)
  {
  }

  lemma SettleSettles(p: Pool, config: Config, result: SolveResult, at: int, now: int)
    requires Range(p) && (p.waiters == [] || Bucket(p, p.config.key) == [])
    requires p.waiters != [] ==> p.active
    ensures Settled(p, Settle(p, config, result, at, now), config.key == p.config.key)
  {
    hide Accept;
    if result.Solved? {
      AcceptSettles(p.(solved := p.solved + 1), Token(p.solved, config, result.dedupe, at, at + p.opts.ttl), now);
    }
  }

  lemma LandedSettles(p: Pool, config: Config, result: SolveResult, at: int, now: int)
    requires Inv(p) && Range(p) && Busy(p)
    ensures Settled(Landed(p, config.key), Settle(Landed(p, config.key), config, result, at, now),
                    config.key == p.config.key)
    ensures Increasing(p.waiters)
  {
    hide Settle;
    BusyOptions(p);
    SettleSettles(Landed(p, config.key), config, result, at, now);
  }

  lemma MintNearer(p: Pool, config: Config, result: SolveResult, at: int, now: int)
    requires Inv(p) && Range(p) && Busy(p) && config.key in p.solving && now == p.clock && at <= now
    ensures var q := MintDone(p, config, result, at, now);
            Busy(q) && Nearer(p, q, if config.key == p.config.key then 1 else 0)
  {
    hide Inv, Settle, EnsureMints, Continued, Busy, Nearer, Range;
    LandedSettles(p, config, result, at, now);
    var landed := Landed(p, config.key);
    LandedKeeps(p, config.key);
    InvRange(landed);
    SettleKeeps(landed, config, result, at, now);
    var r := Settle(landed, config, result, at, now);
    InvRange(r);
    if r.waiters != [] {
      EnsureMintsNearer(r, now);
      LandedNearer(p, r, EnsureMints(r, now), config.key);
    } else {
      DeliverNobody(r, now);
      NobodyNearer(p, EnsureMints(r, now), if config.key == p.config.key then 1 else 0);
    }
  }

  lemma NobodyNearer(p: Pool, q: Pool, spent: nat)
    requires q.waiters == [] && |p.calls| <= |q.calls|
    ensures Busy(q) && Nearer(p, q, spent)
  {
  }

  /** The counting of one completion: `r` is the pool after it, `q` after new solves were started. */
  lemma LandedNearer(p: Pool, r: Pool, q: Pool, key: Key)
    requires Busy(p) && Settled(Landed(p, key), r, key == p.config.key) && r.waiters != []
    requires Increasing(p.waiters)
    requires Continued(r, q)
    ensures Nearer(p, q, if key == p.config.key then 1 else 0)
  {
    var n := Inflight(p, p.config.key);
    assert Inflight(r, p.config.key) == if key == p.config.key then n - 1 else n;
    if r.waiters == p.waiters[1..] {
      assert forall i :: 0 <= i < |r.waiters| ==> r.waiters[i] == p.waiters[i + 1];
    }
  }

  lemma DeliverNobody(p: Pool, now: int)
    requires Range(p) && p.waiters == []
    ensures EnsureMints(p, now).waiters == [] && |EnsureMints(p, now).calls| == |p.calls|
  {
  }

  lemma SetConfigNearer(p: Pool, config: Config, verified: bool, at: int)
    requires Range(p) && Busy(p)
    ensures Busy(SetConfig(p, config, verified, at)) && Nearer(p, SetConfig(p, config, verified, at), 0)
  {
  }

  lemma RefillNearer(p: Pool, at: int, divisor: int, now: int)
    requires Inv(p) && Range(p) && Busy(p) && at <= p.clock && divisor > 0
    ensures Busy(Refill(p, at, divisor, now)) && Nearer(p, Refill(p, at, divisor, now), 0)
  {
    PruneBusy(p, at);
  }

  lemma WarmNearer(p: Pool, now: int)
    requires Inv(p) && Busy(p) && now == p.clock
    ensures Busy(Warm(p, now)) && Nearer(p, Warm(p, now), 0)
  {
    PruneBusy(p, now);
  }

  lemma ClockBusy(p: Pool, now: int)
    requires Inv(p) && p.clock <= now && Busy(p)
    ensures Inv(p.(clock := now)) && Busy(p.(clock := now))
  {
    TickKeeps(p, now);
  }

  /** StepNearer with the clock already advanced. */
  lemma TimedNearer(p: Pool, s: Step)
    requires Inv(p) && Range(p) && Enabled(p, s) && Busy(p) && !HandsBack(p, s) && p.clock == s.now
    ensures Busy(Next(p, s)) && Nearer(p, Next(p, s), Completes(s, p.config.key))
  {
    assert p.(clock := s.now) == p;
    hide Inv, Busy, Nearer, Take, Cancel, MintDone, SetConfig, Refill, Warm;
    match s.op
    case OpTake(config) => TakeNearer(p, config, s.now);
    case OpCancel(c, e) => CancelNearer(p, c, e);
    case OpMint(config, result, at) => MintNearer(p, config, result, at, s.now);
    case OpSetConfig(config, verified, at) => SetConfigNearer(p, config, verified, at);
    case OpRefill(at, divisor) => RefillNearer(p, at, divisor, s.now);
    case OpWarm => WarmNearer(p, s.now);
    case _ => QuietNearer(p, s);
  }

  /** No step but a handed-back token leaves waiters without a solve under way, and every completion
      for the current key brings the oldest waiter nearer to its answer. */
  lemma StepNearer(p: Pool, s: Step)
    requires Inv(p) && Range(p) && Enabled(p, s) && Busy(p) && !HandsBack(p, s)
    ensures Busy(Next(p, s)) && Nearer(p, Next(p, s), Completes(s, p.config.key))
  {
    ClockBusy(p, s.now);
    hide Inv, Busy;
    var q := p.(clock := s.now);
    TimedNearer(q, s);
    hide Next;
    assert Next(q, s) == Next(p, s) by { NextClock(p, s); }
  }

  lemma NextClock(p: Pool, s: Step)
    requires Range(p) && Enabled(p, s)
    ensures Range(p.(clock := s.now)) && Enabled(p.(clock := s.now), s)
    ensures Next(p.(clock := s.now), s) == Next(p, s)
  {
    hide Take, Receive, Cancel, MintDone, SetConfig, Forget, Warm, Refill, Prune, Close;
  }

  lemma QuietNearer(p: Pool, s: Step)
    requires Inv(p) && Range(p) && Enabled(p, s) && Busy(p) && p.clock == s.now
    requires s.op.OpReceive? || s.op.OpSetSolver? || s.op.OpClear? || s.op.OpObserve? || s.op.OpClose?
    ensures Busy(Next(p, s)) && Nearer(p, Next(p, s), 0)
  {
    PruneBusy(p, s.now);
  }

  ghost function Completions(key: Key, steps: seq<Step>): nat {
    if steps == [] then 0 else Completes(steps[0], key) + Completions(key, steps[1..])
  }

  ghost predicate NoHandBacks(p: Pool, steps: seq<Step>)
    requires Legal(p, steps)
    decreases |steps|
  {
    steps != [] ==> !HandsBack(p, steps[0]) && NoHandBacks(Next(p, steps[0]), steps[1..])
  }

  /** The oldest waiter is answered (a token, an error or its own cancellation) before
      in-flight + emptySolve solves for the current key have completed. */
  lemma {:induction false} OldestAnsweredInTime(p: Pool, steps: seq<Step>)
    requires Inv(p) && Legal(p, steps) && NoHandBacks(p, steps) && Busy(p) && p.waiters != []
    ensures Busy(Run(p, steps))
    ensures Completions(p.config.key, steps) >= Inflight(p, p.config.key) + p.opts.emptySolve ==>
              p.waiters[0] < |Run(p, steps).calls| && !Run(p, steps).calls[p.waiters[0]].Queued?
  {
    WaitingCostsCompletions(p, steps, p.waiters[0]);
    RunKeeps(p, steps);
    InvQueue(p);
    InvQueue(Run(p, steps));
  }

  /** While `w` is still queued, the completions so far have used up part of its allowance. */
  lemma {:induction false} WaitingCostsCompletions(p: Pool, steps: seq<Step>, w: nat)
    requires Inv(p) && Legal(p, steps) && NoHandBacks(p, steps) && Busy(p)
    requires w < |p.calls| && (w in p.waiters ==> w == p.waiters[0])
    ensures Busy(Run(p, steps)) && |p.calls| <= |Run(p, steps).calls|
    ensures w in Run(p, steps).waiters ==>
              w in p.waiters && Completions(p.config.key, steps) + Left(Run(p, steps)) <= Left(p) &&
              Left(Run(p, steps)) > 0
    decreases |steps|
  {
    hide Inv;
    if steps != [] {
      var s := steps[0];
      NextKeeps(p, s);
      StepNearer(p, s);
      hide Next;
      WaitingCostsCompletions(Next(p, s), steps[1..], w);
    }
  }

  lemma {:induction false} RunThenStep(p: Pool, steps: seq<Step>, s: Step)
    requires Legal(p, steps) && Range(Run(p, steps)) && Enabled(Run(p, steps), s)
    requires Range(Next(Run(p, steps), s))
    ensures Legal(p, steps + [s]) && Run(p, steps + [s]) == Next(Run(p, steps), s)
    decreases |steps|
  {
    if steps == [] {
      assert [] + [s] == [s];
    } else {
      assert (steps + [s])[1..] == steps[1..] + [s];
      RunThenStep(Next(p, steps[0]), steps[1..], s);
    }
  }

  lemma ReachableStep(p: Pool, s: Step)
    requires Reachable(p) && Range(p) && Enabled(p, s)
    ensures Reachable(Next(p, s)) && Range(Next(p, s))
  {
    ReachableInv(p);
    NextKeeps(p, s);
    hide Inv;
    var opts, solverSet, start, steps :|
      Normalized(opts) && Legal(Init(opts, solverSet, start), steps) && p == Run(Init(opts, solverSet, start), steps);
    RunThenStep(Init(opts, solverSet, start), steps, s);
    assert Legal(Init(opts, solverSet, start), steps + [s]);
  }
}
