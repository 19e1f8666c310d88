// When a queue of waiters can lose its last solve, and how refill ticks give it one again.
module TokenPoolStranding {
  import opened Common
  import opened TokenPoolSpec
  import opened TokenPoolProofs
  import opened TokenPoolTheorems

  /** Somebody waits and no solve is under way. */
  ghost predicate Stranded(p: Pool) {
    p.waiters != [] && Inflight(p, p.config.key) == 0
  }

  /** A queue without a solve has at least used up the bucket. */
  ghost predicate Dry(p: Pool) {
    Stranded(p) ==> Bucket(p, p.config.key) == []
  }

  /** The unexpired tokens of the current key. */
  ghost function Stock(p: Pool, now: int): nat {
    |Live(Bucket(p, p.config.key), now)|
  }

  // ---- how far a bucket goes ------------------------------------------------------------------

  /** Dropping the expired head drops nothing that is live. */
  lemma {:induction false} LiveAfterStale(ts: seq<Token>, now: int)
    ensures var n := Stale(ts, now);
            if n == |ts| then Live(ts, now) == [] else Live(ts, now) == [ts[n]] + Live(ts[n + 1..], now)
  {
    if ts != [] && ts[0].expiresAt <= now {
      LiveAfterStale(ts[1..], now);
      var n := Stale(ts[1..], now);
      if n < |ts| - 1 { assert ts[1..][n + 1..] == ts[n + 2..]; }
    }
  }

  lemma {:induction false} LiveTwice(ts: seq<Token>, at: int, now: int)
    requires at <= now
    ensures Live(Live(ts, at), now) == Live(ts, now)
  {
    if ts != [] {
      LiveTwice(ts[1..], at, now);
      if at < ts[0].expiresAt { assert ([ts[0]] + Live(ts[1..], at))[1..] == Live(ts[1..], at); }
    }
  }

  /** Pop takes one live token if there is one, and otherwise empties the bucket. */
  lemma PopStock(p: Pool, now: int)
    ensures var (q, token) := Pop(p, now);
            && q == p.(buckets := q.buckets, issued := q.issued)
            && (token.Some? ==> Stock(p, now) == Stock(q, now) + 1)
            && (token.None? ==> Stock(p, now) == 0 && Bucket(q, q.config.key) == [])
  {
    LiveAfterStale(Bucket(p, p.config.key), now);
    hide Live, Stale;
  }

  /** What Deliver leaves alone. */
  ghost predicate SameMints(p: Pool, q: Pool) {
    q.config == p.config && q.inflight == p.inflight && q.mintFailStreak == p.mintFailStreak && q.opts == p.opts &&
    q.solverSet == p.solverSet && q.closed == p.closed && q.active == p.active
  }

  /** The bucket serves as many waiters as it has live tokens, oldest first. */
  lemma {:induction false} DeliverServes(p: Pool, now: int)
    requires Range(p)
    ensures var (q, delivered) := Deliver(p, now);
            var n := Min(Stock(p, now), |p.waiters|);
            && SameMints(p, q) && q.waiters == p.waiters[n..] && (delivered <==> n > 0)
            && (q.waiters != [] ==> Bucket(q, q.config.key) == [])
    decreases |p.waiters|
  {
    hide Stock, Pop, Range;
    if p.waiters != [] {
      PopStock(p, now);
      PopRange(p, now);
      var (q, token) := Pop(p, now);
      if token.Some? {
        SendStock(q, token.value, now);
        var served := Send(q.(waiters := q.waiters[1..]), q.waiters[0], Delivered(token.value));
        hide Send;
        DeliverServes(served, now);
        Dropped(p.waiters, Min(Stock(served, now), |served.waiters|));
      }
    }
  }

  lemma Dropped(ws: seq<nat>, m: nat)
    requires ws != [] && m < |ws|
    ensures ws[1..][m..] == ws[m + 1..]
  {}

  lemma PopRange(p: Pool, now: int)
    requires Range(p)
    ensures Range(Pop(p, now).0)
  {}

  lemma SendStock(q: Pool, t: Token, now: int)
    requires Range(q) && q.waiters != []
    ensures var served := Send(q.(waiters := q.waiters[1..]), q.waiters[0], Delivered(t));
            && Range(served) && Stock(served, now) == Stock(q, now) && SameMints(q, served) && served.waiters == q.waiters[1..]
  {}

  /** EnsureMints leaves a queue without a solve exactly if the bucket serves some of it, not all. */
  lemma EnsureMintsStrands(p: Pool, now: int)
    requires Inv(p) && Range(p) && p.solverSet
    ensures var q := EnsureMints(p, now);
            && (Stranded(q) <==> Stranded(p) && 0 < Stock(p, now) < |p.waiters|)
            && (Stranded(q) ==> Bucket(q, q.config.key) == [])
  {
    BusyOptions(p);
    hide Inv, Stock, Range;
    if p.waiters == [] || Inflight(p, p.config.key) > 0 {
    } else {
      StrandedMints(p, now);
    }
  }

  lemma StrandedMints(p: Pool, now: int)
    requires Range(p) && Stranded(p) && p.solverSet && p.active && !p.closed && p.opts.emptySolve >= 1
    ensures var q := EnsureMints(p, now);
            && (Stranded(q) <==> 0 < Stock(p, now) < |p.waiters|)
            && (Stranded(q) ==> Bucket(q, q.config.key) == [])
  {
    hide Deliver, Stock, FailCalls;
    DeliverServes(p, now);
    var (q, delivered) := Deliver(p, now);
    if !delivered { LaunchedIsMoving(q); }
  }

  lemma LaunchedIsMoving(p: Pool)
    requires p.solverSet && !p.closed && p.opts.emptySolve >= 1
    ensures !Stranded(Launch(p, p.opts.emptySolve))
  {}

  lemma EnsureMintsDry(p: Pool, now: int)
    requires Inv(p) && Range(p)
    ensures Dry(EnsureMints(p, now))
  {
    hide Inv, Stock;
    if p.solverSet {
      EnsureMintsStrands(p, now);
    }
  }

  // ---- what each step does to the queue -------------------------------------------------------

  /** A cancelled call's token goes back into the bucket: the guard of the append in removeWaiter. */
  ghost predicate Returns(p: Pool, s: Step) {
    HandsBack(p, s) && p.active && p.config.key == p.calls[s.op.call].key
  }

  /** A finished solve is accepted: it was for the current key, and its dedupe key was free. */
  predicate Accepted(p: Pool, result: SolveResult, at: int) {
    result.Solved? && !(result.dedupe in p.issued && at < p.issued[result.dedupe])
  }

  /** The last solve for the queue ends, and the bucket serves some of the waiters left, not all. */
  ghost predicate LastSolveEnds(p: Pool, s: Step) {
    && s.op.OpMint? && s.op.config.key == p.config.key && p.solverSet && Inflight(p, p.config.key) == 1
    && 0 < Stock(p, s.now) < |p.waiters| - (if Accepted(p, s.op.result, s.op.at) then 1 else 0)
  }

  lemma CancelSets(p: Pool, c: nat, e: TakeError)
    requires Inv(p) && c < |p.calls| && (p.calls[c].Queued? || p.calls[c].Sent?)
    ensures var q := Cancel(p, c, e);
            var back := Returns(p, Step(p.clock, OpCancel(c, e)));
            && q.config == p.config && q.inflight == p.inflight && (q.waiters != [] ==> p.waiters != [])
            && (back ==> q.waiters == p.waiters && Bucket(q, q.config.key) != [])
            && (!back ==> q.buckets == p.buckets)
  {
    QueueOnly(p);
    hide Inv, QueueOk;
    if c in p.waiters {
      WithoutOf(p.waiters, c);
      hide Without;
      if Without(p.waiters, c) != [] { assert Without(p.waiters, c)[0] in p.waiters; }
    }
  }

  lemma QueueOnly(p: Pool)
    requires Inv(p)
    ensures QueueOk(p) && Increasing(p.waiters) && p.opts.max >= 1
    ensures forall c :: 0 <= c < |p.calls| && p.calls[c].Sent? ==> c !in p.waiters
  {}

  lemma SettledStock(p: Pool, config: Config, result: SolveResult, at: int, now: int)
    requires Range(p) && p.waiters != [] && p.active
    ensures var r := Settle(p, config, result, at, now);
            && r.config == p.config && r.inflight == p.inflight && r.buckets == p.buckets && r.solverSet == p.solverSet
            && |r.waiters| == |p.waiters| - (if config.key == p.config.key && Accepted(p, result, at) then 1 else 0)
  {
    hide Accept;
    if result.Solved? {
      AcceptedStock(p.(solved := p.solved + 1), Token(p.solved, config, result.dedupe, at, at + p.opts.ttl), now);
    }
  }

  lemma AcceptedStock(p: Pool, t: Token, now: int)
    requires Range(p) && p.waiters != []
    ensures var r := Accept(p, t, now);
            && r.config == p.config && r.inflight == p.inflight && r.buckets == p.buckets && r.solverSet == p.solverSet
            && |r.waiters| == |p.waiters| - 1
  {}

  lemma NobodySettled(p: Pool, config: Config, result: SolveResult, at: int, now: int)
    requires Range(p) && p.waiters == []
    ensures Settle(p, config, result, at, now).waiters == []
  {
    hide Accept;
    if result.Solved? {
      NobodyAccepts(p.(solved := p.solved + 1), Token(p.solved, config, result.dedupe, at, at + p.opts.ttl), now);
    }
  }

  lemma NobodyAccepts(p: Pool, t: Token, now: int)
    requires Range(p) && p.waiters == []
    ensures Accept(p, t, now).waiters == []
  {}

  lemma LandedFlight(p: Pool, key: Key)
    requires Inv(p) && key in p.solving
    ensures var q := Landed(p, key);
            && Inv(q) && Range(q) && q == p.(inflight := q.inflight, solving := q.solving)
            && Inflight(q, p.config.key) == Inflight(p, p.config.key) - (if key == p.config.key then 1 else 0)
  {
    LandedKeeps(p, key);
    assert Inflight(p, key) == p.solving[key];
  }

  /** The pool after a finished solve was booked and its token, if any, went to the oldest waiter. */
  lemma Booked(p: Pool, config: Config, result: SolveResult, at: int, now: int)
    requires Inv(p) && Range(p) && config.key in p.solving && at <= now && p.clock == now
    ensures Range(Landed(p, config.key))
    ensures var r := Settle(Landed(p, config.key), config, result, at, now);
            && Inv(r) && Range(r)
            && (p.waiters == [] ==> r.waiters == [])
            && (p.waiters != [] ==>
                 && r.config == p.config && r.buckets == p.buckets && r.solverSet == p.solverSet
                 && Inflight(r, r.config.key) == Inflight(p, p.config.key) - (if config.key == p.config.key then 1 else 0)
                 && |r.waiters| == |p.waiters| - (if config.key == p.config.key && Accepted(p, result, at) then 1 else 0))
  {
    BusyOptions(p);
    LandedFlight(p, config.key);
    hide Inv, Range, Landed;
    var landed := Landed(p, config.key);
    SettleKeeps(landed, config, result, at, now);
    InvRange(Settle(landed, config, result, at, now));
    hide Settle;
    if p.waiters == [] {
      NobodySettled(landed, config, result, at, now);
    } else {
      SettledStock(landed, config, result, at, now);
    }
  }

  /** A completion strands the queue exactly if it was the last solve and the bucket does not go round. */
  lemma MintStrands(p: Pool, config: Config, result: SolveResult, at: int, now: int)
    requires Inv(p) && Range(p) && config.key in p.solving && at <= now && p.clock == now && p.solverSet && !Stranded(p)
    ensures Stranded(MintDone(p, config, result, at, now)) <==> LastSolveEnds(p, Step(now, OpMint(config, result, at)))
  {
    Booked(p, config, result, at, now);
    hide Inv, Range, Landed, Settle, EnsureMints, Live, Accepted;
    var r := Settle(Landed(p, config.key), config, result, at, now);
    if p.waiters == [] {
      DeliverNobody(r, now);
    } else {
      EnsureMintsStrands(r, now);
    }
  }

  /** Nothing is stranded by the step, and a queue without a solve still has nothing in the bucket. */
  ghost predicate Calm(p: Pool, q: Pool) {
    (!Stranded(p) ==> !Stranded(q)) && (Dry(p) ==> Dry(q))
  }

  lemma PruneCalm(p: Pool, at: int)
    ensures Calm(p, Prune(p, at)) && (Bucket(p, p.config.key) == [] ==> Bucket(Prune(p, at), p.config.key) == [])
    ensures Stranded(Prune(p, at)) <==> Stranded(p)
  {}

  lemma EnqueuedCalm(p: Pool, now: int)
    requires Inv(p) && Range(p)
    requires p.waiters != [] && Bucket(p, p.config.key) == []
    ensures !Stranded(EnsureMints(p, now)) || !p.solverSet
    ensures !p.solverSet ==> EnsureMints(p, now).waiters == []
  {
    BusyOptions(p);
    hide Inv, EnsureMints, FailCalls;
    if p.solverSet {
      EnsureMintsStrands(p, now);
    } else {
      NoSolver(p, now);
    }
  }

  lemma NoSolver(p: Pool, now: int)
    requires Range(p) && !p.solverSet
    ensures EnsureMints(p, now).waiters == []
  {}

  lemma TakeCalm(p: Pool, config: Config, now: int)
    requires Inv(p) && Range(p) && now == p.clock
    ensures Calm(p, Take(p, config, now))
  {
    PruneCalm(p, now);
    if !p.closed && p.active && p.config.key == config.key && p.solverSet {
      ArriveKeeps(p, now);
      PopKeeps(Arrive(p, now), now);
      hide Inv, Prune;
      var (q, token) := Pop(Arrive(p, now), now);
      if token.None? {
        EnqueueKeeps(q, now);
        hide EnsureMints;
        InvRange(Enqueue(q, config.key, now));
        EnqueuedCalm(Enqueue(q, config.key, now), now);
      } else {
        PoppedCalm(Arrive(p, now), now);
        PruneCalm(q.(calls := q.calls + [Got(config.key, token.value)]), now);
      }
    }
  }

  lemma PoppedCalm(p: Pool, now: int)
    ensures var q := Pop(p, now).0;
            q.waiters == p.waiters && q.inflight == p.inflight && q.config == p.config && Calm(p, q)
  {}

  lemma SetConfigCalm(p: Pool, config: Config, verified: bool, at: int)
    requires Range(p)
    ensures Calm(p, SetConfig(p, config, verified, at))
  {
    hide FailCalls;
  }

  lemma WarmCalm(p: Pool, now: int)
    ensures Calm(p, Warm(p, now))
  {
    PruneCalm(p, now);
    hide Prune;
  }

  /** A tick with a solver leaves a queue without a solve exactly if the bucket serves some of it, not all;
      and then the bucket is empty. */
  lemma RefillStrands(p: Pool, at: int, divisor: int, now: int)
    requires Inv(p) && Range(p) && at <= now && now == p.clock && divisor > 0 && p.solverSet
    ensures var q := Refill(p, at, divisor, now);
            && (Stranded(q) <==> Stranded(p) && 0 < Stock(p, now) < |p.waiters|)
            && Dry(q)
  {
    BusyOptions(p);
    PruneCalm(p, at);
    PruneKeeps(p, at);
    var q := Prune(p, at);
    assert Stock(q, now) == Stock(p, now) by { LiveTwice(Bucket(p, p.config.key), at, now); }
    hide Inv, Live, Stock, EnsureMints, FailCalls, Bucket;
    if q.waiters != [] && !q.closed {
      hide Prune, Range;
      InvRange(q);
      EnsureMintsStrands(q, now);
    }
  }

  lemma RefillCalm(p: Pool, at: int, divisor: int, now: int)
    requires Inv(p) && Range(p) && at <= now && now == p.clock && divisor > 0
    ensures Calm(p, Refill(p, at, divisor, now))
  {
    if p.solverSet {
      hide Inv, Refill, Stock;
      RefillStrands(p, at, divisor, now);
    }
  }

  /** What a step does to the queue. */
  ghost predicate Strands(p: Pool, s: Step, q: Pool) {
    && (!Stranded(p) ==> (Stranded(q) <==> LastSolveEnds(p, s)))
    && (Dry(p) ==> (Dry(q) <==> !(Returns(p, s) && Stranded(p))))
  }

  lemma CalmStrands(p: Pool, s: Step, q: Pool)
    requires Calm(p, q) && !s.op.OpMint? && !s.op.OpCancel?
    ensures Strands(p, s, q)
  {}

  lemma CancelStrands(p: Pool, c: nat, e: TakeError)
    requires Inv(p) && c < |p.calls| && (p.calls[c].Queued? || p.calls[c].Sent?)
    ensures Strands(p, Step(p.clock, OpCancel(c, e)), Cancel(p, c, e))
  {
    hide Inv, Cancel;
    CancelSets(p, c, e);
  }

  /** Every step, with the clock already advanced. */
  lemma TimedStrands(p: Pool, s: Step)
    requires Inv(p) && Range(p) && Enabled(p, s) && p.clock == s.now
    ensures Strands(p, s, Next(p, s))
  {
    assert p.(clock := s.now) == p;
    hide Inv, Take, MintDone, SetConfig, Refill, Warm, Cancel, Prune, Strands, Calm;
    match s.op
    case OpTake(config) => TakeCalm(p, config, s.now); CalmStrands(p, s, Next(p, s));
    case OpCancel(c, e) => CancelStrands(p, c, e);
    case OpMint(config, result, at) => MintStrandsOrNot(p, config, result, at, s.now);
    case OpSetConfig(config, verified, at) => SetConfigCalm(p, config, verified, at); CalmStrands(p, s, Next(p, s));
    case OpRefill(at, divisor) => RefillCalm(p, at, divisor, s.now); CalmStrands(p, s, Next(p, s));
    case OpWarm => WarmCalm(p, s.now); CalmStrands(p, s, Next(p, s));
    case OpObserve => PruneCalm(p, s.now); CalmStrands(p, s, Next(p, s));
    case _ => QuietCalm(p, s); CalmStrands(p, s, Next(p, s));
  }

  lemma MintStrandsOrNot(p: Pool, config: Config, result: SolveResult, at: int, now: int)
    requires Inv(p) && Range(p) && config.key in p.solving && at <= now && p.clock == now
    ensures Strands(p, Step(now, OpMint(config, result, at)), MintDone(p, config, result, at, now))
  {
    hide Inv, MintDone, Stock;
    MintDry(p, config, result, at, now);
    if p.solverSet && !Stranded(p) { MintStrands(p, config, result, at, now); }
  }

  lemma QuietCalm(p: Pool, s: Step)
    requires Range(p) && Enabled(p, s) && p.clock == s.now
    requires s.op.OpReceive? || s.op.OpSetSolver? || s.op.OpClear? || s.op.OpClose?
    ensures Calm(p, Next(p, s))
  {
    hide FailCalls;
  }

  lemma MintDry(p: Pool, config: Config, result: SolveResult, at: int, now: int)
    requires Inv(p) && Range(p) && config.key in p.solving && at <= now && p.clock == now
    ensures Dry(MintDone(p, config, result, at, now))
    ensures !p.solverSet ==> MintDone(p, config, result, at, now).waiters == []
  {
    Booked(p, config, result, at, now);
    var r := Settle(Landed(p, config.key), config, result, at, now);
    hide Inv, Range, EnsureMints, Settle, Landed, Accepted;
    EnsureMintsDry(r, now);
    if p.waiters == [] { DeliverNobody(r, now); } else if !p.solverSet { NoSolver(r, now); }
  }

  /** A queue loses its last solve exactly when that solve completes while the bucket holds live tokens,
      but fewer than there are waiters left. */
  lemma StrandsExactly(p: Pool, s: Step)
    requires Reachable(p) && Range(p) && Enabled(p, s) && !Stranded(p)
    ensures Stranded(Next(p, s)) <==> LastSolveEnds(p, s)
  {
    ReachableInv(p);
    TickKeeps(p, s.now);
    NextClock(p, s);
    hide Inv, Reachable, Next;
    TimedStrands(p.(clock := s.now), s);
  }

  /** Waiters face an empty bucket and a running solve, until a cancelled call's token comes back to them. */
  lemma BusyExactly(p: Pool, s: Step)
    requires Reachable(p) && Range(p) && Enabled(p, s) && Busy(p)
    ensures Busy(Next(p, s)) <==> !(Returns(p, s) && p.waiters != [])
  {
    ReachableInv(p);
    hide Reachable;
    if HandsBack(p, s) {
      TickKeeps(p, s.now);
      hide Inv;
      CancelSets(p.(clock := s.now), s.op.call, s.op.error);
    } else {
      hide Inv, Next, Busy;
      StepNearer(p, s);
    }
  }

  /** A queue without a solve keeps facing an empty bucket, until a token comes back to it. */
  lemma DryExactly(p: Pool, s: Step)
    requires Reachable(p) && Range(p) && Enabled(p, s) && Dry(p)
    ensures Dry(Next(p, s)) <==> !(Returns(p, s) && Stranded(p))
  {
    ReachableInv(p);
    TickKeeps(p, s.now);
    NextClock(p, s);
    hide Inv, Reachable, Next;
    TimedStrands(p.(clock := s.now), s);
  }

  // ---- refill ticks ---------------------------------------------------------------------------

  /** One tick is enough for the whole queue exactly if the bucket serves nobody or everybody; in any case it
      leaves no token beside waiters without a solve. */
  lemma OneTick(p: Pool, at: int, divisor: int, now: int)
    requires Reachable(p) && Range(p) && Enabled(p, Step(now, OpRefill(at, divisor))) && p.solverSet
    ensures var q := Next(p, Step(now, OpRefill(at, divisor)));
            && (Stranded(q) <==> Stranded(p) && 0 < Stock(p, now) < |p.waiters|)
            && Dry(q)
  {
    ReachableInv(p);
    TickKeeps(p, now);
    hide Inv, Reachable, Refill;
    RefillStrands(p.(clock := now), at, divisor, now);
  }

  /** No token comes back to a queue while it has no solve. */
  ghost predicate NoneReturned(p: Pool, steps: seq<Step>)
    requires Legal(p, steps)
    decreases |steps|
  {
    steps != [] ==> !(Returns(p, steps[0]) && Stranded(p)) && NoneReturned(Next(p, steps[0]), steps[1..])
  }

  lemma {:induction false} RunStaysDry(p: Pool, steps: seq<Step>)
    requires Reachable(p) && Legal(p, steps) && Dry(p) && NoneReturned(p, steps)
    ensures Dry(Run(p, steps)) && Reachable(Run(p, steps)) && Range(Run(p, steps))
    decreases |steps|
  {
    hide Reachable, Dry, Stranded, Returns, Next;
    if steps != [] {
      DryExactly(p, steps[0]);
      ReachableStep(p, steps[0]);
      RunStaysDry(Next(p, steps[0]), steps[1..]);
    }
  }

  /** Two refill ticks, with any run between them that returns no token to a queue without a solve: nobody
      waits any more, or a solve is under way for the whole queue. */
  lemma TwoTicks(p: Pool, first: Step, between: seq<Step>, second: Step)
    requires Reachable(p) && Range(p) && p.solverSet && first.op.OpRefill? && second.op.OpRefill?
    requires Enabled(p, first) && Legal(Next(p, first), between) && NoneReturned(Next(p, first), between)
    requires var q := Run(Next(p, first), between); Range(q) && q.solverSet && Enabled(q, second)
    ensures !Stranded(Next(Run(Next(p, first), between), second))
  {
    hide Reachable, Next, Legal;
    OneTick(p, first.op.at, first.op.divisor, first.now);
    ReachableStep(p, first);
    RunStaysDry(Next(p, first), between);
    var q := Run(Next(p, first), between);
    hide Run;
    OneTick(q, second.op.at, second.op.divisor, second.now);
  }

  // ---- runs that no number of ticks ends ------------------------------------------------------

  /** A scene at time 0 with one solve lane and room for one token. */
  ghost predicate Scene(p: Pool, c: Config, waiters: seq<nat>, flight: nat, stock: nat) {
    && p.opts == Options(100, 1, 1, 1, 1, 2) && p.config == c && p.clock == 0
    && p.active && !p.closed && p.solverSet
    && p.waiters == waiters && (forall w :: w in waiters ==> w < |p.calls| && p.calls[w] == Queued(c.key))
    && Inflight(p, c.key) == flight && p.solving[c.key] == flight
    && |Bucket(p, c.key)| == stock && (stock > 0 ==> Bucket(p, c.key)[0].expiresAt == 100)
  }

  /** A call that has a live token in its channel. */
  ghost predicate Served(p: Pool, c: Config, call: nat) {
    && call < |p.calls| && p.calls[call].Sent? && p.calls[call].key == c.key
    && p.calls[call].reply.Delivered? && p.calls[call].reply.token.expiresAt == 100
  }

  lemma SceneStart(c: Config) returns (p: Pool)
    requires c.enabled
    ensures Reachable(p) && Range(p) && Scene(p, c, [], 0, 0) && |p.calls| == 0 && p.issued == map[]
  {
    var p0 := Init(Options(100, 1, 1, 1, 1, 2), true, 0);
    assert Legal(p0, []) && Run(p0, []) == p0;
    var s := Step(0, OpSetConfig(c, true, 0));
    ReachableStep(p0, s);
    p := Next(p0, s);
  }

  lemma SceneTake(p: Pool, c: Config, waiters: seq<nat>, flight: nat)
    requires Scene(p, c, waiters, flight, 0) && Range(p) && (waiters == [] || flight == 1) && flight <= 1
    ensures var q := Next(p, Step(0, OpTake(c)));
            && Scene(q, c, waiters + [|p.calls|], 1, 0) && |q.calls| == |p.calls| + 1
            && (p.issued == map[] ==> q.issued == map[])
  {
    var arrived := Arrive(p, 0);
    assert Bucket(arrived, c.key) == [];
    assert Pop(arrived, 0).1 == None;
    var q := Enqueue(Pop(arrived, 0).0, c.key, 0);
    assert Bucket(q, c.key) == [];
    DeliverFromEmpty(q, 0);
  }

  lemma SceneTakes(p: Pool, c: Config, waiters: seq<nat>)
    requires Reachable(p) && Range(p) && Scene(p, c, waiters, if waiters == [] then 0 else 1, 0)
    requires |p.calls| == |waiters| && p.issued == map[]
    ensures Enabled(p, Step(0, OpTake(c)))
    ensures var q := Next(p, Step(0, OpTake(c)));
            && Reachable(q) && Range(q) && Scene(q, c, waiters + [|waiters|], 1, 0)
            && |q.calls| == |waiters| + 1 && q.issued == map[]
  {
    SceneTake(p, c, waiters, if waiters == [] then 0 else 1);
    ReachableStep(p, Step(0, OpTake(c)));
  }

  /** The calls from `a` to `b`. */
  function Span(a: nat, b: nat): seq<nat>
    requires a <= b
  {
    seq(b - a, i requires 0 <= i < b - a => a + i)
  }

  /** `m` callers in a row: the first starts a solve, and all of them wait. */
  lemma {:induction false} SceneQueue(c: Config, m: nat) returns (p: Pool)
    requires c.enabled && m > 0
    ensures Reachable(p) && Range(p) && Scene(p, c, Span(0, m), 1, 0) && |p.calls| == m && p.issued == map[]
    decreases m
  {
    hide Next, Reachable, Scene, Range;
    var before;
    if m == 1 { before := SceneStart(c); } else { before := SceneQueue(c, m - 1); }
    assert Span(0, 0) == [] && Span(0, m) == Span(0, m - 1) + [m - 1];
    SceneTakes(before, c, Span(0, m - 1));
    p := Next(before, Step(0, OpTake(c)));
  }

  /** The solve ends: the first caller is served, and the next solve starts. */
  lemma SceneSolved(p: Pool, c: Config, m: nat)
    requires m > 1 && Scene(p, c, Span(0, m), 1, 0) && Range(p) && p.issued == map[]
    ensures Enabled(p, Step(0, OpMint(c, Solved("x"), 0)))
    ensures var q := Next(p, Step(0, OpMint(c, Solved("x"), 0)));
            Scene(q, c, Span(1, m), 1, 0) && Served(q, c, 0)
  {
    var landed := Landed(p, c.key);
    assert Bucket(landed, c.key) == [] && landed.waiters[0] == 0;
    var r := Settle(landed, c, Solved("x"), 0, 0);
    assert r == Accept(landed.(solved := landed.solved + 1), Token(landed.solved, c, "x", 0, 100), 0);
    assert p.(clock := 0) == p;
    SceneAccepts(landed.(solved := landed.solved + 1), c, m);
    hide Scene, EnsureMints, Settle, Served, Accept;
    SceneLaunches(r, c, m);
  }

  lemma SceneAccepts(p: Pool, c: Config, m: nat)
    requires m > 1 && Scene(p, c, Span(0, m), 0, 0) && Range(p) && p.solved > 0
    ensures var r := Accept(p, Token(p.solved - 1, c, "x", 0, 100), 0);
            Scene(r, c, Span(1, m), 0, 0) && Served(r, c, 0) && r.mintFailStreak == 0
  {
    assert p.waiters[0] == 0 && p.waiters[1..] == Span(1, m);
    assert forall w :: w in Span(1, m) ==> w in Span(0, m) && w != 0;
  }

  lemma SceneLaunches(r: Pool, c: Config, m: nat)
    requires m > 1 && Scene(r, c, Span(1, m), 0, 0) && Served(r, c, 0) && Range(r) && r.mintFailStreak == 0
    ensures Scene(EnsureMints(r, 0), c, Span(1, m), 1, 0) && Served(EnsureMints(r, 0), c, 0)
  {
    DeliverFromEmpty(r, 0);
  }

  /** A served caller gives its token back. */
  lemma SceneGivesBack(p: Pool, c: Config, call: nat, waiters: seq<nat>, flight: nat)
    requires Scene(p, c, waiters, flight, 0) && Served(p, c, call)
    ensures Enabled(p, Step(0, OpCancel(call, Canceled)))
    ensures Range(p) ==> Scene(Next(p, Step(0, OpCancel(call, Canceled))), c, waiters, flight, 1)
  {
    assert call !in p.waiters;
  }

  lemma SceneEmptied(p: Pool, q: Pool, c: Config, waiters: seq<nat>, call: nat)
    requires Scene(p, c, waiters, 0, 0) && Served(p, c, call)
    requires q.(buckets := p.buckets) == p && Bucket(q, c.key) == []
    ensures Scene(q, c, waiters, 0, 0) && Served(q, c, call)
  {}

  lemma SceneSends(r: Pool, c: Config, k: nat, m: nat)
    requires k + 1 < m && Scene(r, c, Span(k, m), 0, 1) && Range(r)
    ensures k < |r.calls|
    ensures var served := Send(Pop(r, 0).0.(waiters := Span(k + 1, m)), k, Delivered(Bucket(r, c.key)[0]));
            && Scene(served, c, Span(k + 1, m), 0, 0) && Served(served, c, k) && Range(served)
            && Deliver(r, 0) == (Deliver(served, 0).0, true)
  {
    var ts := Bucket(r, c.key);
    assert r.waiters[0] == k;
    assert Stale(ts, 0) == 0 && r.waiters[1..] == Span(k + 1, m);
    assert forall w :: w in Span(k + 1, m) ==> w in Span(k, m) && w != k;
    var served := Send(Pop(r, 0).0.(waiters := Span(k + 1, m)), k, Delivered(ts[0]));
    assert Bucket(served, c.key) == [] && Range(served);
  }

  /** The bucket's one token goes to the oldest of several callers, and nothing starts for the others. */
  lemma SceneServes(r: Pool, c: Config, k: nat, m: nat)
    requires k + 1 < m && Scene(r, c, Span(k, m), 0, 1) && Range(r)
    ensures Scene(EnsureMints(r, 0), c, Span(k + 1, m), 0, 0) && Served(EnsureMints(r, 0), c, k)
  {
    SceneSends(r, c, k, m);
    var served := Send(Pop(r, 0).0.(waiters := Span(k + 1, m)), k, Delivered(Bucket(r, c.key)[0]));
    assert Bucket(served, served.config.key) == [] && served.config == c && Range(served);
    DeliverFromEmpty(served, 0);
    hide Served, Pop, Send, Deliver, FailCalls, Launch;
    assert r.waiters != [] && EnsureMints(r, 0) == Deliver(r, 0).0;
    hide EnsureMints, Scene;
    SceneEmptied(served, Deliver(served, 0).0, c, Span(k + 1, m), k);
  }

  /** The only solve fails, so the token in the bucket serves the next caller. */
  lemma SceneFailed(p: Pool, c: Config, k: nat, m: nat)
    requires k + 1 < m && Scene(p, c, Span(k, m), 1, 1) && Range(p)
    ensures Enabled(p, Step(0, OpMint(c, SolveFailed, 0)))
    ensures var q := Next(p, Step(0, OpMint(c, SolveFailed, 0)));
            Scene(q, c, Span(k + 1, m), 0, 0) && Served(q, c, k)
  {
    var r := Settle(Landed(p, c.key), c, SolveFailed, 0, 0);
    assert Scene(r, c, Span(k, m), 0, 1) && Range(r);
    assert p.(clock := 0) == p;
    hide Scene, EnsureMints;
    SceneServes(r, c, k, m);
  }

  /** A tick does the same. */
  lemma SceneTick(p: Pool, c: Config, k: nat, m: nat)
    requires k + 1 < m && Scene(p, c, Span(k, m), 0, 1) && Range(p)
    ensures Enabled(p, Step(0, OpRefill(0, 1))) && p.solverSet && Stranded(p)
    ensures var q := Next(p, Step(0, OpRefill(0, 1)));
            Scene(q, c, Span(k + 1, m), 0, 0) && Served(q, c, k) && Stranded(q) && q.solverSet
  {
    var r := Prune(p, 0);
    var ts := Bucket(p, c.key);
    assert ts == [ts[0]] && ts[1..] == [];
    assert Live(ts, 0) == [ts[0]] + Live([], 0) == ts;
    assert Bucket(r, c.key) == ts;
    assert p.(clock := 0) == p;
    assert Scene(r, c, Span(k, m), 0, 1) && Range(r);
    assert Span(k, m)[0] == k && Span(k + 1, m)[0] == k + 1;
    hide EnsureMints, Live;
    SceneServes(r, c, k, m);
  }

  // ---- ticks that are not enough --------------------------------------------------------------

  /** `n` times over: a tick serves the oldest caller with the one token, and that caller gives it back. */
  function Rounds(k: nat, n: nat): seq<Step>
    decreases n
  {
    if n == 0 then [] else [Step(0, OpRefill(0, 1)), Step(0, OpCancel(k, Canceled))] + Rounds(k + 1, n - 1)
  }

  function Ticks(steps: seq<Step>): nat {
    if steps == [] then 0 else (if steps[0].op.OpRefill? then 1 else 0) + Ticks(steps[1..])
  }

  /** With a solver all the time, there are always waiters, and never a solve for them. */
  ghost predicate NeverRescued(p: Pool, steps: seq<Step>)
    requires Legal(p, steps)
    decreases |steps|
  {
    p.solverSet && Stranded(p) && (steps != [] ==> NeverRescued(Next(p, steps[0]), steps[1..]))
  }

  lemma {:induction false} RoundsTick(k: nat, n: nat)
    ensures Ticks(Rounds(k, n)) == n
    decreases n
  {
    if n > 0 {
      RoundsTick(k + 1, n - 1);
      var steps := Rounds(k, n);
      assert steps[1..][1..] == Rounds(k + 1, n - 1);
      assert Ticks(steps) == 1 + Ticks(steps[1..]);
    }
  }

  lemma SceneStranded(p: Pool, c: Config, k: nat, m: nat, stock: nat)
    requires k < m && Scene(p, c, Span(k, m), 0, stock)
    ensures p.solverSet && Stranded(p)
  {
    assert Span(k, m)[0] == k;
  }

  lemma {:induction false} RoundsStrand(p: Pool, c: Config, k: nat, m: nat, n: nat)
    requires k + n < m && Reachable(p) && Range(p) && Scene(p, c, Span(k, m), 0, 1)
    ensures Legal(p, Rounds(k, n)) && NeverRescued(p, Rounds(k, n))
    decreases n
  {
    hide Next, Reachable, Scene, Served, Range, Stranded;
    SceneStranded(p, c, k, m, 1);
    if n > 0 {
      var tick, back := Step(0, OpRefill(0, 1)), Step(0, OpCancel(k, Canceled));
      SceneTick(p, c, k, m);
      ReachableStep(p, tick);
      var q := Next(p, tick);
      SceneGivesBack(q, c, k, Span(k + 1, m), 0);
      ReachableStep(q, back);
      var r := Next(q, back);
      RoundsStrand(r, c, k + 1, m, n - 1);
      var steps := Rounds(k, n);
      assert steps[0] == tick && steps[1..][0] == back && steps[1..][1..] == Rounds(k + 1, n - 1);
      assert Legal(q, steps[1..]);
    }
  }

  /** No number of ticks is enough for every queue if tokens keep coming back to it.  With n + 3 callers waiting,
      the first gets a token and gives it back; the next solve fails, so the token serves the second, and nothing
      is under way for the rest.  From then on each caller served gives the token back, so each tick only serves
      the next one with it. */
  lemma HandBackStrands(c: Config, n: nat)
    requires c.enabled
    ensures exists p, steps :: Reachable(p) && Legal(p, steps) && Ticks(steps) == n && NeverRescued(p, steps)
  {
    hide Next, Reachable, Scene, Served, Range, NeverRescued, Legal;
    var m := n + 3;
    var p := SceneQueue(c, m);
    SceneSolved(p, c, m);
    var solve, fail := Step(0, OpMint(c, Solved("x"), 0)), Step(0, OpMint(c, SolveFailed, 0));
    ReachableStep(p, solve);
    var q := Next(p, solve);
    SceneGivesBack(q, c, 0, Span(1, m), 1);
    ReachableStep(q, Step(0, OpCancel(0, Canceled)));
    var r := Next(q, Step(0, OpCancel(0, Canceled)));
    SceneFailed(r, c, 1, m);
    ReachableStep(r, fail);
    var s := Next(r, fail);
    SceneGivesBack(s, c, 1, Span(2, m), 0);
    ReachableStep(s, Step(0, OpCancel(1, Canceled)));
    var t := Next(s, Step(0, OpCancel(1, Canceled)));
    RoundsStrand(t, c, 2, m, n);
    RoundsTick(2, n);
    assert Reachable(t) && Legal(t, Rounds(2, n)) && NeverRescued(t, Rounds(2, n));
  }
}
