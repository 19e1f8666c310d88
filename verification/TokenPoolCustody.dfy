// Nothing accepted is lost: where a token goes in every step, and the only ways it can leave the pool.
module TokenPoolCustody {
  import opened Common
  import opened TokenPoolSpec
  import opened TokenPoolProofs
  import opened TokenPoolTheorems
  import opened TokenPoolStranding

  /** The token is in the bucket of the current key, or with a call: in its channel or returned by it. */
  ghost predicate Has(p: Pool, t: Token) {
    t in Bucket(p, p.config.key) || exists c :: WithCall(p, c, t)
  }

  ghost predicate WithCall(p: Pool, c: nat, t: Token) {
    c < |p.calls| && Held(p.calls[c]) == Some(t)
  }

  /** The solve's result is one the pool takes: for the current key of an active pool, with a free dedupe key. */
  predicate Welcome(p: Pool, s: Step) {
    && s.op.OpMint? && s.op.result.Solved? && s.op.config.key == p.config.key && p.active
    && !(s.op.result.dedupe in p.issued && s.op.at < p.issued[s.op.result.dedupe])
  }

  /** The only ways out of the pool. */
  ghost predicate Loses(p: Pool, s: Step, t: Token) {
    || t.expiresAt <= s.now
    || Evicts(p, s, t)
    || s.op.OpClear? || s.op.OpClose?
    || (s.op.OpSetConfig? && !(s.op.config.key == p.config.key && s.op.verified && s.op.config.enabled))
    || (s.op.OpCancel? && WithCall(p, s.op.call, t) && !Returns(p, s))
  }

  /** A full bucket takes one more token, and this is its oldest. */
  ghost predicate Evicts(p: Pool, s: Step, t: Token) {
    var ts := Bucket(p, p.config.key);
    ts != [] && ts[0] == t && |ts| == p.opts.max && ((Welcome(p, s) && p.waiters == []) || Returns(p, s))
  }

  // ---- the pool's own moves -------------------------------------------------------------------

  lemma {:induction false} LiveHas(ts: seq<Token>, t: Token, now: int)
    requires t in ts && now < t.expiresAt
    ensures t in Live(ts, now)
  {
    if ts[0] != t {
      assert ts == [ts[0]] + ts[1..];
      LiveHas(ts[1..], t, now);
    }
  }

  lemma PruneHas(p: Pool, t: Token, at: int)
    requires Has(p, t) && at < t.expiresAt
    ensures Has(Prune(p, at), t)
  {
    var q := Prune(p, at);
    if t in Bucket(p, p.config.key) {
      LiveHas(Bucket(p, p.config.key), t, at);
      assert Bucket(q, q.config.key) == Live(Bucket(p, p.config.key), at);
    } else {
      var c :| WithCall(p, c, t);
      assert WithCall(q, c, t);
    }
  }

  /** Only expired tokens are skipped. */
  lemma {:induction false} StaleSkips(ts: seq<Token>, now: int)
    ensures forall i :: 0 <= i < Stale(ts, now) ==> ts[i].expiresAt <= now
  {
    if ts != [] && ts[0].expiresAt <= now { StaleSkips(ts[1..], now); }
  }

  lemma PopHas(p: Pool, t: Token, now: int)
    requires Has(p, t) && now < t.expiresAt
    ensures Has(Pop(p, now).0, t) || Pop(p, now).1 == Some(t)
  {
    var (q, token) := Pop(p, now);
    var ts := Bucket(p, p.config.key);
    if t in ts {
      StaleSkips(ts, now);
      var i :| 0 <= i < |ts| && ts[i] == t;
      var n := Stale(ts, now);
      assert i >= n;
      if i > n { assert ts[n + 1..][i - n - 1] == t; }
    } else {
      var c :| WithCall(p, c, t);
      assert WithCall(q, c, t);
    }
  }

  lemma SendHas(p: Pool, given: Token, t: Token)
    requires QueueOk(p) && p.waiters != [] && (Has(p, t) || t == given)
    ensures Has(Send(p.(waiters := p.waiters[1..]), p.waiters[0], Delivered(given)), t)
  {
    var q := Send(p.(waiters := p.waiters[1..]), p.waiters[0], Delivered(given));
    if t == given {
      assert WithCall(q, p.waiters[0], t);
    } else if t !in Bucket(p, p.config.key) {
      var c :| WithCall(p, c, t);
      assert WithCall(q, c, t);
    }
  }

  lemma {:induction false} DeliverHas(p: Pool, t: Token, now: int)
    requires QueueOk(p) && Has(p, t) && now < t.expiresAt
    ensures Has(Deliver(p, now).0, t)
    decreases |p.waiters|
  {
    InvQueueRange(p);
    PopLeavesQueue(p, now);
    PopHas(p, t, now);
    hide QueueOk, Pop, Has, Send;
    var (q, token) := Pop(p, now);
    if p.waiters != [] && token.Some? {
      InvQueueRange(q);
      SendLeavesFinished(q, Delivered(token.value));
      SendHas(q, token.value, t);
      DeliverHas(Send(q.(waiters := q.waiters[1..]), q.waiters[0], Delivered(token.value)), t, now);
    }
  }

  lemma FailHas(p: Pool, e: TakeError, t: Token)
    requires QueueOk(p) && Has(p, t)
    ensures Range(p) && Has(FailWaiters(p, e), t)
  {
    FailWaitersKeepsQueue(p, e);
    hide QueueOk, FailCalls;
    var q := FailWaiters(p, e);
    if t !in Bucket(p, p.config.key) {
      var c :| WithCall(p, c, t);
      assert WithCall(q, c, t);
    }
  }

  lemma SameHolders(p: Pool, q: Pool, t: Token)
    requires Has(p, t) && q.calls == p.calls && Bucket(q, q.config.key) == Bucket(p, p.config.key)
    ensures Has(q, t)
  {
    if t !in Bucket(p, p.config.key) {
      var c :| WithCall(p, c, t);
      assert WithCall(q, c, t);
    }
  }

  lemma EnsureMintsHas(p: Pool, t: Token, now: int)
    requires QueueOk(p) && Range(p) && Has(p, t) && now < t.expiresAt
    ensures Has(EnsureMints(p, now), t)
  {
    DeliverHas(p, t, now);
    DeliverLeavesFinished(p, now);
    FailHas(p, Unavailable, t);
    var q := Deliver(p, now).0;
    hide Deliver, Has, FailWaiters;
    if !(p.closed || !p.active || !p.solverSet || p.waiters == [] || Inflight(p, p.config.key) > 0) {
      FailHas(q, Unavailable, t);
      SameHolders(q, Launch(q, q.opts.emptySolve), t);
    }
  }

  /** A bucket drops its oldest token if it was full, and nothing else. */
  lemma AppendHas(p: Pool, given: Token, t: Token)
    requires p.opts.max >= 1 && |Bucket(p, p.config.key)| <= p.opts.max && (Has(p, t) || t == given)
    ensures Has(Append(p, given), t) ||
              (|Bucket(p, p.config.key)| == p.opts.max && Bucket(p, p.config.key)[0] == t)
  {
    var ts, q := Bucket(p, p.config.key), Append(p, given);
    var list := ts + [given];
    var kept := if |list| > p.opts.max then list[1..] else list;
    assert Bucket(q, q.config.key) == kept;
    if t == given {
      assert kept[|kept| - 1] == t;
    } else if t in ts {
      var i :| 0 <= i < |ts| && ts[i] == t;
      assert list[i] == t;
      if |list| > p.opts.max && i > 0 { assert kept[i - 1] == t; }
    } else {
      var c :| WithCall(p, c, t);
      assert WithCall(q, c, t);
    }
  }

  lemma MoreCallsHas(p: Pool, more: Call, t: Token)
    requires Has(p, t)
    ensures Has(p.(calls := p.calls + [more]), t)
  {
    var q := p.(calls := p.calls + [more]);
    if t !in Bucket(p, p.config.key) {
      var c :| WithCall(p, c, t);
      assert WithCall(q, c, t);
    }
  }

  lemma EnqueueHas(p: Pool, key: Key, t: Token, now: int)
    requires Range(p) && Has(p, t)
    ensures Has(Enqueue(p, key, now), t)
  {
    MoreCallsHas(p, Queued(key), t);
    SameHolders(p.(calls := p.calls + [Queued(key)]), Enqueue(p, key, now), t);
  }

  lemma TakeHas(p: Pool, config: Config, t: Token, now: int)
    requires Inv(p) && Range(p) && now == p.clock && Has(p, t) && now < t.expiresAt
    ensures Has(Take(p, config, now), t)
  {
    assert Prune(p, now).calls == p.calls && Arrive(p, now).clock == now;
    hide Inv, Has, WithCall, Prune, EnsureMints;
    PruneHas(p, t, now);
    if p.closed {
      MoreCallsHas(p, Failed(config.key, PoolClosed), t);
    } else if !p.active || p.config.key != config.key || !p.solverSet {
      MoreCallsHas(Prune(p, now), Failed(config.key, Unavailable), t);
    } else {
      ArriveKeeps(p, now);
      PopKeeps(Arrive(p, now), now);
      AcceptedTakeHas(p, config, t, now);
    }
  }

  lemma GotHas(p: Pool, key: Key, t: Token)
    ensures Has(p.(calls := p.calls + [Got(key, t)]), t)
  {
    assert WithCall(p.(calls := p.calls + [Got(key, t)]), |p.calls|, t);
  }

  lemma TakeParts(p: Pool, now: int)
    ensures var q := Pop(Arrive(p, now), now).0;
            && q.config == p.config && q.active == p.active && q.clock == p.clock && q.opts == p.opts
            && Arrive(p, now).calls == Prune(p, now).calls && Arrive(p, now).config == p.config
            && Bucket(Arrive(p, now), p.config.key) == Bucket(Prune(p, now), p.config.key)
  {}

  lemma AcceptedTakeHas(p: Pool, config: Config, t: Token, now: int)
    requires Inv(p) && Range(p) && now == p.clock && Has(Prune(p, now), t) && now < t.expiresAt
    requires !p.closed && p.active && p.config.key == config.key && p.solverSet
    requires Inv(Arrive(p, now)) && Inv(Pop(Arrive(p, now), now).0)
    ensures Has(Take(p, config, now), t)
  {
    hide Inv, Has, Prune, EnsureMints, Pop, WithCall, Range, QueueOk;
    assert Range(Pop(Arrive(p, now), now).0) by { InvRange(Pop(Arrive(p, now), now).0); }
    TakeParts(p, now);
    SameHolders(Prune(p, now), Arrive(p, now), t);
    PopHas(Arrive(p, now), t, now);
    var (q, token) := Pop(Arrive(p, now), now);
    if token.Some? {
      var got := q.(calls := q.calls + [Got(config.key, token.value)]);
      if token == Some(t) { GotHas(q, config.key, t); } else { MoreCallsHas(q, Got(config.key, token.value), t); }
      PruneHas(got, t, now);
    } else {
      InvRange(q);
      EnqueueHas(q, config.key, t, now);
      EnqueueKeeps(q, now);
      InvQueue(Enqueue(q, config.key, now));
      EnsureMintsHas(Enqueue(q, config.key, now), t, now);
    }
  }

  lemma ReceiveHas(p: Pool, c: nat, t: Token)
    requires c < |p.calls| && p.calls[c].Sent? && Has(p, t)
    ensures Has(Receive(p, c), t)
  {
    var q := Receive(p, c);
    if t !in Bucket(p, p.config.key) {
      var d :| WithCall(p, d, t);
      assert WithCall(q, d, t);
    }
  }

  lemma CancelHas(p: Pool, c: nat, e: TakeError, now: int, t: Token)
    requires Inv(p) && c < |p.calls| && (p.calls[c].Queued? || p.calls[c].Sent?) && Has(p, t)
    requires !Loses(p, Step(now, OpCancel(c, e)), t)
    ensures Has(Cancel(p, c, e), t)
  {
    QueueOnly(p);
    BucketFits(p);
    hide Inv;
    var k := p.calls[c];
    var left := p.(calls := p.calls[c := Failed(k.key, e)]);
    if t in Bucket(p, p.config.key) || !WithCall(p, c, t) {
      if t !in Bucket(p, p.config.key) {
        var d :| WithCall(p, d, t);
        assert WithCall(left, d, t);
      }
      assert Has(left, t);
    }
    if c in p.waiters {
      SameHolders(left, left.(waiters := Without(p.waiters, c)), t);
    } else if Returns(p, Step(now, OpCancel(c, e))) {
      hide Has;
      AppendHas(left, k.reply.token, t);
    }
  }

  lemma AcceptHas(p: Pool, given: Token, t: Token, now: int)
    requires Range(p) && QueueOk(p) && p.opts.max >= 1 && |Bucket(p, p.config.key)| <= p.opts.max
    requires Has(p, t) || t == given
    ensures Has(Accept(p, given, now), t) ||
              (p.waiters == [] && |Bucket(p, p.config.key)| == p.opts.max && Bucket(p, p.config.key)[0] == t)
  {
    var q := Record(p, given, now);
    if Has(p, t) { SameHolders(p, q, t); }
    hide Has, Append, Send;
    if q.waiters == [] { AppendHas(q, given, t); } else { SendHas(q, given, t); }
  }

  lemma SettleHas(p: Pool, config: Config, result: SolveResult, at: int, now: int, t: Token)
    requires Inv(p) && Range(p) && Has(p, t)
    ensures Has(Settle(p, config, result, at, now), t) ||
              (Welcome(p, Step(now, OpMint(config, result, at))) && p.waiters == []
               && |Bucket(p, p.config.key)| == p.opts.max && Bucket(p, p.config.key)[0] == t)
  {
    QueueOnly(p);
    BucketFits(p);
    hide Inv, Accept, Has, QueueOk, Fits, Range;
    var counted := p.(solved := p.solved + 1);
    if !result.Solved? {
      SameHolders(p, MintFailed(p), t);
    } else {
      SameHolders(p, counted, t);
      SameQueue(p, counted);
      if Welcome(p, Step(now, OpMint(config, result, at))) {
        AcceptHas(counted, Token(p.solved, config, result.dedupe, at, at + p.opts.ttl), t, now);
      } else {
        SameHolders(counted, MintFailed(counted), t);
      }
    }
  }

  lemma MintHas(p: Pool, config: Config, result: SolveResult, at: int, now: int, t: Token)
    requires Inv(p) && Range(p) && config.key in p.solving && at <= now && p.clock == now && Has(p, t)
    requires !Loses(p, Step(now, OpMint(config, result, at)), t)
    ensures Has(MintDone(p, config, result, at, now), t)
  {
    LandedFlight(p, config.key);
    var landed := Landed(p, config.key);
    SameHolders(p, landed, t);
    SettleHas(landed, config, result, at, now, t);
    SettleKeeps(landed, config, result, at, now);
    hide Inv, Has, Landed, Settle, EnsureMints, Bucket;
    var r := Settle(landed, config, result, at, now);
    InvQueue(r);
    EnsureMintsHas(r, t, now);
  }

  lemma SetConfigHas(p: Pool, config: Config, verified: bool, at: int, t: Token)
    requires Inv(p) && Range(p) && Has(p, t)
    requires config.key == p.config.key && verified && config.enabled
    ensures Has(SetConfig(p, config, verified, at), t)
  {
    hide Inv;
    if !p.closed { SameHolders(p, p.(config := config, active := true), t); }
  }

  lemma LaunchHas(p: Pool, n: int, t: Token)
    requires Has(p, t)
    ensures Has(Launch(p, n), t)
  {
    SameHolders(p, Launch(p, n), t);
  }

  lemma WarmHas(p: Pool, now: int, t: Token)
    requires Has(p, t) && now < t.expiresAt
    ensures Has(Warm(p, now), t)
  {
    PruneHas(p, t, now);
    hide Has, Prune;
    LaunchHas(Prune(p, now), 1, t);
  }

  lemma RefillHas(p: Pool, at: int, divisor: int, now: int, t: Token)
    requires Inv(p) && Range(p) && at <= now && now == p.clock && divisor > 0 && Has(p, t) && now < t.expiresAt
    ensures Has(Refill(p, at, divisor, now), t)
  {
    hide Inv, Has, Prune, EnsureMints, RefillNeed, Launch, Range;
    PruneHas(p, t, at);
    PruneKeeps(p, at);
    var q := Prune(p, at);
    InvQueue(q);
    InvRange(q);
    hide QueueOk;
    if q.waiters != [] {
      EnsureMintsHas(q, t, now);
    } else {
      LaunchHas(q, RefillNeed(q, at, divisor), t);
      var r := Launch(q, RefillNeed(q, at, divisor));
      SameHolders(r, Decay(r, at), t);
    }
  }

  /** Every step, with the clock already advanced. */
  lemma TimedHas(p: Pool, s: Step, t: Token)
    requires Inv(p) && Range(p) && Enabled(p, s) && p.clock == s.now && Has(p, t) && !Loses(p, s, t)
    ensures Has(Next(p, s), t)
  {
    assert p.(clock := s.now) == p;
    hide Inv, Has, Take, Receive, Cancel, MintDone, SetConfig, Warm, Refill, Prune, Evicts, WithCall;
    match s.op
    case OpTake(config) => TakeHas(p, config, t, s.now);
    case OpReceive(c) => ReceiveHas(p, c, t);
    case OpCancel(c, e) => CancelHas(p, c, e, s.now, t);
    case OpMint(config, result, at) => MintHas(p, config, result, at, s.now, t);
    case OpSetConfig(config, verified, at) => SetConfigHas(p, config, verified, at, t);
    case OpSetSolver(on) => SameHolders(p, p.(solverSet := on), t);
    case OpWarm => WarmHas(p, s.now, t);
    case OpRefill(at, divisor) => RefillHas(p, at, divisor, s.now, t);
    case OpObserve => PruneHas(p, t, s.now);
    case _ =>
  }

  // ---- main results ---------------------------------------------------------------------------

  /** A token leaves the pool only when it has expired, is the oldest of a full bucket that takes one more, is
      dropped by a clear, a close or another configuration, or its call gives up and may not return it. */
  lemma TokenStays(p: Pool, s: Step, t: Token)
    requires Reachable(p) && Range(p) && Enabled(p, s) && Has(p, t) && !Loses(p, s, t)
    ensures Has(Next(p, s), t)
  {
    ReachableInv(p);
    TickKeeps(p, s.now);
    NextClock(p, s);
    var q := p.(clock := s.now);
    SameHolders(p, q, t);
    LosesClock(p, s, t);
    hide Inv, Reachable, Next, Has, Loses;
    TimedHas(q, s, t);
  }

  lemma LosesClock(p: Pool, s: Step, t: Token)
    ensures Loses(p.(clock := s.now), s, t) <==> Loses(p, s, t)
  {}

  /** At some step of the run the token left. */
  ghost predicate LostOnTheWay(p: Pool, steps: seq<Step>, t: Token)
    requires Legal(p, steps)
    decreases |steps|
  {
    steps != [] && (Loses(p, steps[0], t) || LostOnTheWay(Next(p, steps[0]), steps[1..], t))
  }

  /** Over runs. */
  lemma {:induction false} TokenIsKept(p: Pool, steps: seq<Step>, t: Token)
    requires Reachable(p) && Legal(p, steps) && Has(p, t)
    ensures Has(Run(p, steps), t) || LostOnTheWay(p, steps, t)
    decreases |steps|
  {
    hide Reachable, Has, Loses, Next;
    if steps != [] && !Loses(p, steps[0], t) {
      TokenStays(p, steps[0], t);
      ReachableStep(p, steps[0]);
      TokenIsKept(Next(p, steps[0]), steps[1..], t);
    }
  }

  // ---- what is accepted -----------------------------------------------------------------------

  lemma {:induction false} DeliverHolds(p: Pool, c: nat, t: Token, now: int)
    requires QueueOk(p) && WithCall(p, c, t)
    ensures WithCall(Deliver(p, now).0, c, t) && Deliver(p, now).0.accepted == p.accepted
    decreases |p.waiters|
  {
    InvQueueRange(p);
    PopLeavesQueue(p, now);
    var (q, token) := Pop(p, now);
    assert q.accepted == p.accepted;
    if p.waiters != [] && token.Some? {
      assert q.calls[q.waiters[0]].Queued?;
      var served := Send(q.(waiters := q.waiters[1..]), q.waiters[0], Delivered(token.value));
      SendLeavesFinished(q, Delivered(token.value));
      assert WithCall(served, c, t);
      hide QueueOk, Pop, WithCall, Send;
      DeliverHolds(served, c, t, now);
    }
  }

  lemma EnsureMintsHolds(p: Pool, c: nat, t: Token, now: int)
    requires QueueOk(p) && Range(p) && WithCall(p, c, t)
    ensures WithCall(EnsureMints(p, now), c, t) && EnsureMints(p, now).accepted == p.accepted
  {
    DeliverHolds(p, c, t, now);
    DeliverLeavesFinished(p, now);
    FailHolds(p, Unavailable, c, t);
    InvQueueRange(Deliver(p, now).0);
    FailHolds(Deliver(p, now).0, Unavailable, c, t);
    hide Deliver, FailWaiters, QueueOk, SameFinished;
  }

  lemma FailHolds(p: Pool, e: TakeError, c: nat, t: Token)
    requires QueueOk(p) && WithCall(p, c, t)
    ensures Range(p) && WithCall(FailWaiters(p, e), c, t)
  {
    FailWaitersKeepsQueue(p, e);
  }

  lemma NobodyMints(p: Pool, now: int)
    requires Range(p) && p.waiters == []
    ensures EnsureMints(p, now).accepted == p.accepted && EnsureMints(p, now).calls == p.calls
    ensures EnsureMints(p, now).buckets == p.buckets && EnsureMints(p, now).config == p.config
  {
    FailNobody(p, Unavailable);
  }

  /** The token a solve's result would be. */
  function Minted(p: Pool, s: Step): Token
    requires s.op.OpMint? && s.op.result.Solved?
  {
    Token(p.solved, s.op.config, s.op.result.dedupe, s.op.at, s.op.at + p.opts.ttl)
  }

  /** What the result of a solve has led to before the pool looks for more solves. */
  ghost predicate Brings(p: Pool, s: Step, r: Pool) {
    if Welcome(p, s) then
      && r.accepted == p.accepted + [Acceptance(Minted(p, s), s.now)]
      && (if p.waiters == [] then r.waiters == [] && Has(r, Minted(p, s)) else WithCall(r, p.waiters[0], Minted(p, s)))
    else r.accepted == p.accepted
  }

  lemma SettledAccepts(p: Pool, config: Config, result: SolveResult, at: int, now: int)
    requires Inv(p) && Range(p) && config.key in p.solving && at <= now && p.clock == now
    ensures Range(Landed(p, config.key))
    ensures var r := Settle(Landed(p, config.key), config, result, at, now);
            Inv(r) && Range(r) && r.clock == now && Brings(p, Step(now, OpMint(config, result, at)), r)
  {
    hide Inv, Append, Fits, QueueOk, Range;
    LandedFlight(p, config.key);
    BucketFits(p);
    QueueOnly(p);
    var landed := Landed(p, config.key);
    InvRange(landed);
    SettleKeeps(landed, config, result, at, now);
    InvRange(Settle(landed, config, result, at, now));
    if Welcome(p, Step(now, OpMint(config, result, at))) {
      var t := Token(p.solved, config, result.dedupe, at, at + p.opts.ttl);
      var counted := landed.(solved := landed.solved + 1);
      if p.waiters == [] {
        AppendHas(Record(counted, t, now), t, t);
        AppendIsNew(Record(counted, t, now), t);
      }
    }
  }

  lemma AppendIsNew(p: Pool, t: Token)
    requires p.opts.max >= 1
    ensures Has(Append(p, t), t)
    ensures Append(p, t) == p.(buckets := Append(p, t).buckets)
  {
    var list := Bucket(p, p.config.key) + [t];
    var q := Append(p, t);
    assert Bucket(q, q.config.key)[|Bucket(q, q.config.key)| - 1] == t;
  }

  /** A good result is accepted, and its token is somewhere; another changes nothing in what is accepted. */
  ghost predicate AcceptsAndHolds(p: Pool, s: Step, q: Pool) {
    if Welcome(p, s) then
      && q.accepted == p.accepted + [Acceptance(Minted(p, s), s.now)]
      && Has(q, Minted(p, s)) && (p.waiters != [] ==> WithCall(q, p.waiters[0], Minted(p, s)))
    else q.accepted == p.accepted
  }

  /** A finished solve is accepted exactly if the pool takes its result, and then its token is somewhere: with the
      oldest waiter, or in the bucket if nobody waits. */
  lemma AcceptedIsHeld(p: Pool, s: Step)
    requires Reachable(p) && Range(p) && Enabled(p, s) && s.op.OpMint?
    ensures AcceptsAndHolds(p, s, Next(p, s))
  {
    ReachableInv(p);
    TickKeeps(p, s.now);
    hide Inv, Reachable, MintDone, AcceptsAndHolds, Range;
    WelcomeClock(p, s, Next(p, s));
    TimedAccepts(p.(clock := s.now), s.op.config, s.op.result, s.op.at, s.now);
  }

  lemma WelcomeClock(p: Pool, s: Step, q: Pool)
    requires Range(p)
    ensures Range(p.(clock := s.now)) && (AcceptsAndHolds(p.(clock := s.now), s, q) <==> AcceptsAndHolds(p, s, q))
  {
    hide Has, WithCall;
  }

  lemma TimedAccepts(p: Pool, config: Config, result: SolveResult, at: int, now: int)
    requires Inv(p) && Range(p) && config.key in p.solving && at <= now && p.clock == now
    ensures AcceptsAndHolds(p, Step(now, OpMint(config, result, at)), MintDone(p, config, result, at, now))
  {
    hide Inv, QueueOk, Settle, Landed, EnsureMints, AcceptsAndHolds, Brings, Range;
    SettledAccepts(p, config, result, at, now);
    var r := Settle(Landed(p, config.key), config, result, at, now);
    InvQueue(r);
    MintsAcceptNothing(r, now);
    StillHeld(p, Step(now, OpMint(config, result, at)), r);
  }

  lemma StillHeld(p: Pool, s: Step, r: Pool)
    requires QueueOk(r) && Range(r) && s.op.OpMint? && Brings(p, s, r)
    requires EnsureMints(r, s.now).accepted == r.accepted
    ensures AcceptsAndHolds(p, s, EnsureMints(r, s.now))
  {
    hide QueueOk, Has, WithCall, EnsureMints, Range;
    var q := EnsureMints(r, s.now);
    if Welcome(p, s) {
      var t := Minted(p, s);
      if p.waiters == [] {
        NobodyMints(r, s.now);
        SameHolders(r, q, t);
      } else {
        EnsureMintsHolds(r, p.waiters[0], t, s.now);
        HeldIsHad(q, p.waiters[0], t);
      }
    }
  }

  lemma HeldIsHad(p: Pool, c: nat, t: Token)
    requires WithCall(p, c, t)
    ensures Has(p, t)
  {}

  lemma MintsAcceptNothing(p: Pool, now: int)
    requires Inv(p) && Range(p) && now == p.clock
    ensures EnsureMints(p, now).accepted == p.accepted
  {
    DeliverKeeps(p, now);
    InvRange(Deliver(p, now).0);
    hide Inv, Deliver, FailCalls;
  }
}
