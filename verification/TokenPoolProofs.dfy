// What every run of the token pool keeps: who owns a token, which configuration it belongs to,
// when a certify id may be minted again, and that nobody waits without a solve under way.
module TokenPoolProofs {
  import opened Common
  import opened TokenPoolSpec

  ghost predicate SolvesDiffer(ts: seq<Token>) {
    forall i, j :: 0 <= i < j < |ts| ==> ts[i].solve != ts[j].solve
  }

  /** The token a call holds: undelivered in its channel, or already returned. */
  function Held(c: Call): Option<Token> {
    match c
    case Sent(_, Delivered(t)) => Some(t)
    case Got(_, t) => Some(t)
    case _ => None
  }

  ghost predicate Sized(p: Pool) {
    && Normalized(p.opts)
    && p.opts.min <= p.target <= p.opts.max
    && (forall k :: k in p.buckets ==> |p.buckets[k]| <= p.opts.max)
    && (forall k :: p.solving[k] == Inflight(p, k))
    && (forall k :: k in p.inflight ==> 0 < p.inflight[k] <= Max(p.opts.max, p.opts.emptySolve))
    && p.lastTake <= p.clock && p.lastDecay <= p.clock
  }

  /** The queue holds exactly the blocked calls without a reply, oldest first. */
  ghost predicate QueueOk(p: Pool) {
    && Range(p)
    && (forall i :: 0 <= i < |p.waiters| ==> p.calls[p.waiters[i]].Queued?)
    && (forall i, j :: 0 <= i < j < |p.waiters| ==> p.waiters[i] < p.waiters[j])
    && (forall c :: 0 <= c < |p.calls| && p.calls[c].Queued? ==> c in p.waiters)
  }

  /** Only the current configuration has waiters or tokens, and tokens answer their own key. */
  ghost predicate Separated(p: Pool) {
    && (p.closed ==> !p.active)
    && (p.waiters != [] ==> p.active)
    && (forall k :: k in p.buckets && p.buckets[k] != [] ==> k == p.config.key && p.active)
    && (forall k, i :: k in p.buckets && 0 <= i < |p.buckets[k]| ==> p.buckets[k][i].config.key == k)
    && (forall c :: 0 <= c < |p.calls| && p.calls[c].Queued? ==> p.calls[c].key == p.config.key)
    && (forall c :: 0 <= c < |p.calls| && Held(p.calls[c]).Some? ==>
          Held(p.calls[c]).value.config.key == p.calls[c].key)
  }

  /** No solver result is in two places. */
  ghost predicate Unique(p: Pool) {
    var bucket := Bucket(p, p.config.key);
    && SolvesDiffer(bucket)
    && (forall i :: 0 <= i < |bucket| ==> bucket[i].solve < p.solved)
    && (forall c :: 0 <= c < |p.calls| && Held(p.calls[c]).Some? ==> Held(p.calls[c]).value.solve < p.solved)
    && (forall c, d :: 0 <= c < d < |p.calls| && Held(p.calls[c]).Some? && Held(p.calls[d]).Some? ==>
          Held(p.calls[c]).value.solve != Held(p.calls[d]).value.solve)
    && (forall c, i :: 0 <= c < |p.calls| && Held(p.calls[c]).Some? && 0 <= i < |bucket| ==>
          Held(p.calls[c]).value.solve != bucket[i].solve)
  }

  /** The first moment an accepted token's dedupe key may be minted again. */
  function Reusable(p: Pool, t: Token): int { t.mintedAt + p.opts.ttl + MINUTE }

  ghost predicate Registered(p: Pool) {
    && (forall d :: d in p.issued ==> p.issued[d] <= p.clock + p.opts.ttl + MINUTE)
    && (forall i :: 0 <= i < |p.accepted| ==>
          && p.accepted[i].token.mintedAt <= p.accepted[i].clock <= p.clock
          && p.accepted[i].token.expiresAt == p.accepted[i].token.mintedAt + p.opts.ttl
          && (p.clock >= Reusable(p, p.accepted[i].token) ||
              (p.accepted[i].token.dedupe in p.issued &&
               p.issued[p.accepted[i].token.dedupe] >= Reusable(p, p.accepted[i].token))))
    && (forall i, j :: 0 <= i < j < |p.accepted| && p.accepted[i].token.dedupe == p.accepted[j].token.dedupe ==>
          p.accepted[j].clock >= Reusable(p, p.accepted[i].token))
  }

  ghost predicate Inv(p: Pool) {
    Sized(p) && QueueOk(p) && Separated(p) && Unique(p) && Registered(p)
  }

  /** A token that is in nobody's hands yet. */
  ghost predicate Loose(p: Pool, t: Token) {
    && p.active && !p.closed
    && t.config.key == p.config.key
    && t.solve < p.solved
    && (forall i :: 0 <= i < |Bucket(p, p.config.key)| ==> Bucket(p, p.config.key)[i].solve != t.solve)
    && (forall c :: 0 <= c < |p.calls| && Held(p.calls[c]).Some? ==> Held(p.calls[c]).value.solve != t.solve)
  }

  // ---- helpers keep the invariant -----------------------------------------------------------

  lemma {:induction false} LiveOf(ts: seq<Token>, now: int)
    ensures |Live(ts, now)| <= |ts|
    ensures forall i :: 0 <= i < |Live(ts, now)| ==> Live(ts, now)[i] in ts && now < Live(ts, now)[i].expiresAt
    ensures SolvesDiffer(ts) ==> SolvesDiffer(Live(ts, now))
  {
    if ts != [] {
      LiveOf(ts[1..], now);
      assert forall t :: t in ts[1..] ==> t in ts;
    }
  }

  lemma PruneKeeps(p: Pool, at: int)
    requires Inv(p) && at <= p.clock
    ensures Inv(Prune(p, at))
    ensures |Bucket(Prune(p, at), p.config.key)| <= |Bucket(p, p.config.key)|
  {
    var q := Prune(p, at);
    forall k | k in p.buckets
      ensures |Live(p.buckets[k], at)| <= |p.buckets[k]|
      ensures forall i :: 0 <= i < |Live(p.buckets[k], at)| ==> Live(p.buckets[k], at)[i] in p.buckets[k]
    {
      LiveOf(p.buckets[k], at);
    }
    LiveOf(Bucket(p, p.config.key), at);
    assert Bucket(q, p.config.key) == Live(Bucket(p, p.config.key), at);
  }

  /** `list` may be the current bucket. */
  ghost predicate Fits(p: Pool, list: seq<Token>) {
    && (list != [] ==> p.active)
    && SolvesDiffer(list)
    && (forall i :: 0 <= i < |list| ==> list[i].config.key == p.config.key && list[i].solve < p.solved)
    && (forall c, i :: 0 <= c < |p.calls| && Held(p.calls[c]).Some? && 0 <= i < |list| ==>
          Held(p.calls[c]).value.solve != list[i].solve)
  }

  lemma BucketFits(p: Pool)
    requires Inv(p)
    ensures Fits(p, Bucket(p, p.config.key)) && |Bucket(p, p.config.key)| <= p.opts.max
  {
  }

  lemma SuffixFits(p: Pool, list: seq<Token>, d: nat)
    requires Fits(p, list) && d <= |list|
    ensures Fits(p, list[d..])
  {
    var tail := list[d..];
    assert forall i :: 0 <= i < |tail| ==> tail[i] == list[d + i];
  }

  lemma AppendedFits(p: Pool, t: Token)
    requires Fits(p, Bucket(p, p.config.key)) && Loose(p, t)
    ensures Fits(p, Bucket(p, p.config.key) + [t])
  {
  }

  /** Changing the current bucket, and only raising dedupe windows, keeps the invariant. */
  lemma RebucketKeeps(p: Pool, list: seq<Token>, issued: map<string, int>)
    requires Inv(p) && Fits(p, list) && |list| <= p.opts.max
    requires forall d :: d in p.issued ==> d in issued && issued[d] >= p.issued[d]
    requires forall d :: d in issued ==> issued[d] <= p.clock + p.opts.ttl + MINUTE
    ensures Inv(p.(buckets := p.buckets[p.config.key := list], issued := issued))
  {
    var q := p.(buckets := p.buckets[p.config.key := list], issued := issued);
    assert Bucket(q, q.config.key) == list;
    assert Unique(q) by { hide Separated, Registered, QueueOk, Sized; }
    assert Separated(q) by { hide Unique, Registered, QueueOk, Sized; }
    assert Registered(q) by { hide Unique, Separated, QueueOk, Sized; }
  }

  lemma RefillBucketKeeps(p: Pool, list: seq<Token>)
    requires Inv(p) && Fits(p, list) && |list| <= p.opts.max
    ensures Inv(p.(buckets := p.buckets[p.config.key := list]))
  {
    RebucketKeeps(p, list, p.issued);
  }

  /** What Pop takes is in nobody's hands, and what it leaves keeps the invariant. */
  lemma PopSomeKeeps(p: Pool, d: nat, now: int)
    requires Inv(p) && now == p.clock && d < |Bucket(p, p.config.key)|
    ensures var ts := Bucket(p, p.config.key);
            var q := p.(buckets := p.buckets[p.config.key := ts[d + 1..]],
                        issued := p.issued[ts[d].dedupe := now + p.opts.ttl + MINUTE]);
            Inv(q) && Loose(q, ts[d])
  {
    var ts := Bucket(p, p.config.key);
    var tail := ts[d + 1..];
    var q := p.(buckets := p.buckets[p.config.key := tail],
                issued := p.issued[ts[d].dedupe := now + p.opts.ttl + MINUTE]);
    assert |ts| <= p.opts.max;
    BucketFits(p);
    SuffixFits(p, ts, d + 1);
    assert Loose(q, ts[d]) by {
      assert Bucket(q, q.config.key) == tail;
      assert forall i :: 0 <= i < |tail| ==> tail[i] == ts[d + 1 + i];
    }
    assert Inv(q) by {
      hide Fits, Unique, Separated, Sized, QueueOk, Loose;
      RebucketKeeps(p, tail, q.issued);
    }
  }

  lemma PopKeeps(p: Pool, now: int)
    requires Inv(p) && now == p.clock
    ensures Inv(Pop(p, now).0)
    ensures Pop(p, now).1.None? ==> Bucket(Pop(p, now).0, p.config.key) == []
    ensures Pop(p, now).1.Some? ==> Loose(Pop(p, now).0, Pop(p, now).1.value) && now < Pop(p, now).1.value.expiresAt
  {
    hide Inv, Loose, Fits;
    var ts := Bucket(p, p.config.key);
    var d := Stale(ts, now);
    if d == |ts| {
      BucketFits(p);
      SuffixFits(p, ts, |ts|);
      RefillBucketKeeps(p, []);
    } else {
      PopSomeKeeps(p, d, now);
    }
  }

  lemma AppendKeeps(p: Pool, t: Token)
    requires Inv(p) && Loose(p, t)
    ensures Inv(Append(p, t))
  {
    hide Inv, Loose, Fits;
    var list := Bucket(p, p.config.key) + [t];
    BucketFits(p);
    AppendedFits(p, t);
    if |list| > p.opts.max { SuffixFits(p, list, |list| - p.opts.max); }
    RefillBucketKeeps(p, if |list| > p.opts.max then list[|list| - p.opts.max..] else list);
  }

  lemma SendKeepsQueue(p: Pool, r: Reply)
    requires QueueOk(p) && p.waiters != []
    ensures QueueOk(Send(p.(waiters := p.waiters[1..]), p.waiters[0], r))
  {
    var q := Send(p.(waiters := p.waiters[1..]), p.waiters[0], r);
    forall c | 0 <= c < |q.calls| && q.calls[c].Queued? ensures c in q.waiters {
      var i :| 0 <= i < |p.waiters| && p.waiters[i] == c;
      assert q.waiters[i - 1] == c;
    }
  }

  lemma SendKeepsUnique(p: Pool, t: Token)
    requires Range(p) && Unique(p) && Loose(p, t) && p.waiters != []
    ensures Unique(Send(p.(waiters := p.waiters[1..]), p.waiters[0], Delivered(t)))
  {
  }

  /** Handing a loose token to the oldest waiter; its channel was empty, so the send cannot block. */
  lemma SendKeeps(p: Pool, t: Token)
    requires Inv(p) && Loose(p, t) && p.waiters != []
    ensures p.calls[p.waiters[0]].Queued?
    ensures Inv(Send(p.(waiters := p.waiters[1..]), p.waiters[0], Delivered(t)))
  {
    hide Unique;
    SendKeepsQueue(p, Delivered(t));
    SendKeepsUnique(p, t);
  }

  lemma FailWaitersKeepsQueue(p: Pool, e: TakeError)
    requires QueueOk(p)
    ensures QueueOk(FailWaiters(p, e))
    ensures forall c :: 0 <= c < |p.calls| ==> FailWaiters(p, e).calls[c].key == p.calls[c].key
    ensures forall c :: 0 <= c < |p.calls| ==> Held(FailWaiters(p, e).calls[c]) == Held(p.calls[c])
    ensures forall c :: 0 <= c < |p.calls| ==> !FailWaiters(p, e).calls[c].Queued?
  {
  }

  lemma FailWaitersKeepsUnique(p: Pool, e: TakeError)
    requires Unique(p) && QueueOk(p)
    ensures Unique(FailWaiters(p, e))
  {
    FailWaitersKeepsQueue(p, e);
    hide QueueOk, FailCalls;
    assert Bucket(FailWaiters(p, e), p.config.key) == Bucket(p, p.config.key);
  }

  lemma FailWaitersKeeps(p: Pool, e: TakeError)
    requires Inv(p)
    ensures Inv(FailWaiters(p, e))
  {
    FailWaitersKeepsQueue(p, e);
    hide QueueOk, FailCalls;
    FailWaitersKeepsUnique(p, e);
    FailWaitersKeepsSeparated(p, e);
    hide Unique, Sized, Separated, Registered;
    ClockworkStays(p, FailWaiters(p, e));
  }

  /** Sizes and the register do not depend on the callers. */
  lemma ClockworkStays(p: Pool, q: Pool)
    requires Sized(p) && Registered(p) && q == p.(calls := q.calls, waiters := q.waiters)
    ensures Sized(q) && Registered(q)
  {}

  lemma FailWaitersKeepsSeparated(p: Pool, e: TakeError)
    requires Separated(p) && QueueOk(p)
    ensures Separated(FailWaiters(p, e))
  {
    FailWaitersKeepsQueue(p, e);
    hide QueueOk, FailCalls;
  }


  lemma {:induction false} DeliverKeeps(p: Pool, now: int)
    requires Inv(p) && now == p.clock
    ensures Inv(Deliver(p, now).0)
    ensures Deliver(p, now).0.(calls := p.calls, waiters := p.waiters, buckets := p.buckets, issued := p.issued) == p
    ensures Deliver(p, now).0.waiters == [] || Bucket(Deliver(p, now).0, p.config.key) == []
    ensures !Deliver(p, now).1 ==> Deliver(p, now).0.waiters == p.waiters && Deliver(p, now).0.calls == p.calls
    ensures Deliver(p, now).1 ==> p.waiters != [] && p.waiters[0] !in Deliver(p, now).0.waiters
    ensures forall w :: w in Deliver(p, now).0.waiters ==> w in p.waiters
    decreases |p.waiters|
  {
    hide Unique, Registered, Separated, Sized, Loose;
    if p.waiters != [] {
      PopKeeps(p, now);
      var (q, token) := Pop(p, now);
      if token.Some? {
        SendKeeps(q, token.value);
        DeliverKeeps(Send(q.(waiters := q.waiters[1..]), q.waiters[0], Delivered(token.value)), now);
      }
    }
  }

  lemma LaunchKeeps(p: Pool, n: int)
    requires Inv(p)
    requires n > 0 ==> Inflight(p, p.config.key) + n <= Max(p.opts.max, p.opts.emptySolve)
    ensures Inv(Launch(p, n))
  {
  }

  lemma EnsureMintsKeeps(p: Pool, now: int)
    requires Inv(p) && now == p.clock
    ensures Inv(EnsureMints(p, now))
  {
    if p.closed || !p.active || !p.solverSet {
      FailWaitersKeeps(p, Unavailable);
    } else if p.waiters != [] && Inflight(p, p.config.key) == 0 {
      DeliverKeeps(p, now);
      var q := Deliver(p, now).0;
      if !Deliver(p, now).1 {
        if q.mintFailStreak >= q.opts.emptySolve {
          FailWaitersKeeps(q, Unavailable);
        } else {
          LaunchKeeps(q, q.opts.emptySolve);
        }
      }
    }
  }

  lemma SameQueue(p: Pool, q: Pool)
    requires QueueOk(p) && q.waiters == p.waiters && q.calls == p.calls
    ensures QueueOk(q) && Range(q)
  {
  }

  lemma InvQueue(p: Pool)
    requires Inv(p)
    ensures QueueOk(p) && Range(p)
  {
  }

  /** Starting solves one by one is starting them together. */
  lemma LaunchMore(p: Pool, n: nat)
    ensures Launch(Launch(p, n), 1) == Launch(p, n + 1)
  {
    var key := p.config.key;
    if n > 0 && p.solverSet && !p.closed {
      var f := Inflight(p, key);
      assert p.inflight[key := f + n][key := f + n + 1] == p.inflight[key := f + n + 1];
      assert p.solving[key := p.solving[key] + n][key := p.solving[key] + n + 1] == p.solving[key := p.solving[key] + n + 1];
    }
  }

  // ---- every step keeps the invariant --------------------------------------------------------

  lemma InitKeeps(opts: Options, solverSet: bool, now: int)
    requires Normalized(opts)
    ensures Inv(Init(opts, solverSet, now))
  {
  }

  /** Counters, the failure streak and the solver do not matter to the invariant. */
  lemma CountersKeep(p: Pool, q: Pool)
    requires Inv(p)
    requires p == q.(clock := p.clock, solverSet := p.solverSet, mintFailStreak := p.mintFailStreak,
                     target := p.target, lastTake := p.lastTake, lastEmpty := p.lastEmpty,
                     lastDecay := p.lastDecay, takeTotal := p.takeTotal,
                     emptyTakeTotal := p.emptyTakeTotal, mintFailTotal := p.mintFailTotal,
                     solved := p.solved)
    requires p.clock <= q.clock && p.solved <= q.solved
    requires p.opts.min <= p.target <= p.opts.max ==> p.opts.min <= q.target <= p.opts.max
    requires q.lastTake <= p.clock || q.lastTake == p.lastTake
    requires q.lastDecay <= p.clock || q.lastDecay == p.lastDecay
    ensures Inv(q)
  {
  }

  /** A new Take call that does not wait; a token it returns was in nobody's hands. */
  lemma NewCallKeeps(p: Pool, call: Call)
    requires Inv(p) && !call.Queued?
    requires Held(call).Some? ==> call.key == p.config.key && Loose(p, Held(call).value)
    ensures Inv(p.(calls := p.calls + [call]))
  {
    var q := p.(calls := p.calls + [call]);
    assert forall c :: 0 <= c < |p.calls| ==> q.calls[c] == p.calls[c];
    assert Bucket(q, q.config.key) == Bucket(p, p.config.key);
    assert QueueOk(q) by { hide Separated, Unique, Loose, Sized, Registered; }
    assert Separated(q) by { hide Unique, Registered, Sized, QueueOk; }
    assert Unique(q) by { hide Separated, Registered, Sized, QueueOk; }
    hide Sized, QueueOk, Separated, Unique, Registered, Loose;
    ClockworkStays(p, q);
  }

  lemma EnqueueKeepsQueue(p: Pool, now: int)
    requires QueueOk(p)
    ensures QueueOk(Enqueue(p, p.config.key, now))
  {
    var q := Enqueue(p, p.config.key, now);
    assert forall c :: 0 <= c < |p.calls| ==> q.calls[c] == p.calls[c];
    assert forall i :: 0 <= i < |p.waiters| ==> q.waiters[i] == p.waiters[i];
    assert q.waiters[|p.waiters|] == |p.calls|;
  }

  lemma EnqueueKeeps(p: Pool, now: int)
    requires Inv(p) && p.active && now == p.clock
    ensures Inv(Enqueue(p, p.config.key, now))
  {
    EnqueueKeepsQueue(p, now);
    hide QueueOk;
    var q := Enqueue(p, p.config.key, now);
    assert forall c :: 0 <= c < |p.calls| ==> q.calls[c] == p.calls[c];
    assert Bucket(q, q.config.key) == Bucket(p, p.config.key);
    assert Separated(q) by { hide Unique, Registered, Sized; }
    assert Unique(q) by { hide Separated, Registered, Sized; }
    assert Sized(q) && Registered(q) by { hide Separated, Unique; }
    hide Sized, Separated, Unique, Registered;
  }

  lemma ArriveKeeps(p: Pool, now: int)
    requires Inv(p) && now == p.clock
    ensures Inv(Arrive(p, now))
  {
    hide Inv;
    PruneKeeps(p, now);
    CountersKeep(Prune(p, now), Arrive(p, now));
  }

  lemma InvRange(p: Pool)
    requires Inv(p)
    ensures Range(p)
  {
  }

  lemma TakeKeeps(p: Pool, config: Config, now: int)
    requires Inv(p) && Range(p) && now == p.clock
    ensures Inv(Take(p, config, now))
  {
    hide Inv, Loose;
    PruneKeeps(p, now);
    if p.closed {
      NewCallKeeps(p, Failed(config.key, PoolClosed));
    } else if !p.active || p.config.key != config.key || !p.solverSet {
      NewCallKeeps(Prune(p, now), Failed(config.key, Unavailable));
    } else {
      ArriveKeeps(p, now);
      PopKeeps(Arrive(p, now), now);
      var (q, token) := Pop(Arrive(p, now), now);
      if token.Some? {
        NewCallKeeps(q, Got(config.key, token.value));
        PruneKeeps(q.(calls := q.calls + [Got(config.key, token.value)]), now);
      } else {
        EnqueueKeeps(q, now);
        EnsureMintsKeeps(Enqueue(q, config.key, now), now);
      }
    }
  }

  lemma ReceiveKeeps(p: Pool, c: nat)
    requires Inv(p) && c < |p.calls| && p.calls[c].Sent?
    ensures Inv(Receive(p, c))
  {
    var q := Receive(p, c);
    assert forall d :: 0 <= d < |p.calls| ==> Held(q.calls[d]) == Held(p.calls[d]);
    assert forall d :: 0 <= d < |p.calls| ==> q.calls[d].key == p.calls[d].key;
    assert QueueOk(q);
  }

  ghost predicate Increasing(ws: seq<nat>) {
    forall i, j :: 0 <= i < j < |ws| ==> ws[i] < ws[j]
  }

  lemma {:induction false} WithoutOf(ws: seq<nat>, w: nat)
    requires Increasing(ws)
    ensures forall v :: v in Without(ws, w) <==> v in ws && v != w
    ensures Increasing(Without(ws, w))
  {
    if ws != [] {
      var tail := ws[1..];
      assert Increasing(tail) && (forall v :: v in tail ==> ws[0] < v) by {
        assert forall i :: 0 <= i < |tail| ==> tail[i] == ws[i + 1];
      }
      WithoutOf(tail, w);
      assert forall v :: v in ws <==> v == ws[0] || v in tail by { assert ws == [ws[0]] + tail; }
      if ws[0] != w { IncreasingCons(ws[0], Without(tail, w)); }
    }
  }

  lemma IncreasingCons(w: nat, ws: seq<nat>)
    requires Increasing(ws) && forall v :: v in ws ==> w < v
    ensures Increasing([w] + ws)
  {
    var r := [w] + ws;
    forall i, j | 0 <= i < j < |r| ensures r[i] < r[j] {
      assert r[j] == ws[j - 1] && ws[j - 1] in ws;
    }
  }

  lemma GiveUpKeepsQueue(p: Pool, c: nat, e: TakeError)
    requires QueueOk(p) && c < |p.calls|
    ensures var q := p.(calls := p.calls[c := Failed(p.calls[c].key, e)], waiters := Without(p.waiters, c));
            QueueOk(q) && (forall i :: 0 <= i < |q.waiters| ==> q.waiters[i] in p.waiters)
  {
    WithoutOf(p.waiters, c);
    var q := p.(calls := p.calls[c := Failed(p.calls[c].key, e)], waiters := Without(p.waiters, c));
    assert Increasing(q.waiters);
    forall i | 0 <= i < |q.waiters|
      ensures q.waiters[i] in p.waiters && q.waiters[i] < |q.calls| && q.calls[q.waiters[i]].Queued?
    {
      assert q.waiters[i] in q.waiters;
    }
  }

  lemma GiveUpKeepsUnique(p: Pool, c: nat, e: TakeError, ws: seq<nat>)
    requires Unique(p) && c < |p.calls|
    ensures Unique(p.(calls := p.calls[c := Failed(p.calls[c].key, e)], waiters := ws))
  {
    var q := p.(calls := p.calls[c := Failed(p.calls[c].key, e)], waiters := ws);
    assert Bucket(q, q.config.key) == Bucket(p, p.config.key);
    assert forall d :: 0 <= d < |q.calls| && Held(q.calls[d]).Some? ==> d != c && q.calls[d] == p.calls[d];
  }

  lemma GiveUpKeepsSeparated(p: Pool, c: nat, e: TakeError, ws: seq<nat>)
    requires Separated(p) && c < |p.calls| && (ws != [] ==> p.waiters != [])
    ensures Separated(p.(calls := p.calls[c := Failed(p.calls[c].key, e)], waiters := ws))
  {
    var q := p.(calls := p.calls[c := Failed(p.calls[c].key, e)], waiters := ws);
    assert forall d :: 0 <= d < |p.calls| && d != c ==> q.calls[d] == p.calls[d];
  }

  /** Giving up removes the call from the queue and leaves the token it may hold in nobody's hands. */
  lemma GiveUpKeeps(p: Pool, c: nat, e: TakeError)
    requires Inv(p) && c < |p.calls|
    ensures Inv(p.(calls := p.calls[c := Failed(p.calls[c].key, e)], waiters := Without(p.waiters, c)))
  {
    hide QueueOk, Unique, Sized, Separated, Registered, Without;
    GiveUpKeepsQueue(p, c, e);
    var ws := Without(p.waiters, c);
    assert ws != [] ==> ws[0] in p.waiters;
    GiveUpKeepsUnique(p, c, e, ws);
    GiveUpKeepsSeparated(p, c, e, ws);
    ClockworkStays(p, p.(calls := p.calls[c := Failed(p.calls[c].key, e)], waiters := ws));
  }

  lemma CancelKeeps(p: Pool, c: nat, e: TakeError)
    requires Inv(p) && c < |p.calls| && (p.calls[c].Queued? || p.calls[c].Sent?)
    ensures Inv(Cancel(p, c, e))
  {
    GiveUpKeeps(p, c, e);
    var call := p.calls[c];
    var left := p.(calls := p.calls[c := Failed(call.key, e)]);
    if c !in p.waiters {
      WithoutAbsent(p.waiters, c);
      if call.Sent? && call.reply.Delivered? && p.active && p.config.key == call.key {
        assert Held(call) == Some(call.reply.token);
        assert Loose(left, call.reply.token);
        hide Inv, Loose;
        AppendKeeps(left, call.reply.token);
      }
    }
  }

  lemma {:induction false} WithoutAbsent(ws: seq<nat>, w: nat)
    requires w !in ws
    ensures Without(ws, w) == ws
  {
    if ws != [] { WithoutAbsent(ws[1..], w); }
  }

  lemma LandedKeeps(p: Pool, key: Key)
    requires Inv(p) && key in p.solving
    ensures Inv(Landed(p, key))
  {
    assert Inflight(p, key) == p.solving[key];
  }

  /** Recording an accepted mint: its dedupe key was free, so the earlier uses are old enough. */
  lemma RecordKeeps(p: Pool, t: Token, now: int)
    requires Inv(p) && now == p.clock && t.mintedAt <= now
    requires t.expiresAt == t.mintedAt + p.opts.ttl
    requires t.dedupe in p.issued ==> t.mintedAt >= p.issued[t.dedupe]
    ensures Inv(Record(p, t, now))
  {
    var q := Record(p, t, now);
    assert p.opts.ttl > 0 by { hide Separated, Unique, Registered, QueueOk; }
    assert Sized(q) && QueueOk(q) by { hide Separated, Unique, Registered; }
    assert Unique(q) by { hide Separated, Sized, Registered, QueueOk; }
    assert Separated(q) by { hide Unique, Sized, Registered, QueueOk; }
    hide Sized, QueueOk, Separated, Unique;
    RecordRegisters(p, t, now);
    hide Registered;
  }

  lemma RecordRegisters(p: Pool, t: Token, now: int)
    requires Registered(p) && now == p.clock && t.mintedAt <= now && p.opts.ttl > 0
    requires t.expiresAt == t.mintedAt + p.opts.ttl
    requires t.dedupe in p.issued ==> t.mintedAt >= p.issued[t.dedupe]
    ensures Registered(Record(p, t, now))
  {}

  lemma RecordLoose(p: Pool, q: Pool, t: Token)
    requires Loose(p, t) && q == p.(issued := q.issued, mintFailStreak := q.mintFailStreak, accepted := q.accepted)
    ensures Loose(q, t)
  {
    assert Bucket(q, q.config.key) == Bucket(p, p.config.key);
  }

  lemma AcceptKeeps(p: Pool, t: Token, now: int)
    requires Inv(p) && Range(p) && Loose(p, t) && now == p.clock && t.mintedAt <= now
    requires t.expiresAt == t.mintedAt + p.opts.ttl
    requires t.dedupe in p.issued ==> t.mintedAt >= p.issued[t.dedupe]
    ensures Inv(Accept(p, t, now))
  {
    hide Inv, Loose;
    var q := Record(p, t, now);
    RecordLoose(p, q, t);
    RecordKeeps(p, t, now);
    if q.waiters == [] { AppendKeeps(q, t); } else { SendKeeps(q, t); }
  }

  lemma CountSolveKeeps(p: Pool)
    requires Inv(p)
    ensures Inv(p.(solved := p.solved + 1))
  {
    CountersKeep(p, p.(solved := p.solved + 1));
  }

  /** A fresh solver result is in nobody's hands. */
  lemma FreshLoose(p: Pool, t: Token)
    requires Inv(p) && p.active && t.config.key == p.config.key && t.solve == p.solved
    ensures Loose(p.(solved := p.solved + 1), t)
  {
  }

  lemma MintFailedKeeps(p: Pool)
    requires Inv(p)
    ensures Inv(MintFailed(p))
  {
    CountersKeep(p, MintFailed(p));
  }

  lemma SettleKeeps(p: Pool, config: Config, result: SolveResult, at: int, now: int)
    requires Inv(p) && Range(p) && now == p.clock && at <= now
    ensures Inv(Settle(p, config, result, at, now))
  {
    hide Inv, Loose;
    var counted := p.(solved := p.solved + 1);
    CountSolveKeeps(p);
    MintFailedKeeps(p);
    MintFailedKeeps(counted);
    if result.Solved? && p.config.key == config.key && p.active && !(result.dedupe in p.issued && at < p.issued[result.dedupe]) {
      var t := Token(p.solved, config, result.dedupe, at, at + p.opts.ttl);
      FreshLoose(p, t);
      AcceptKeeps(counted, t, now);
    }
  }

  lemma MintDoneKeeps(p: Pool, config: Config, result: SolveResult, at: int, now: int)
    requires Inv(p) && Range(p) && config.key in p.solving && now == p.clock && at <= now
    ensures Inv(MintDone(p, config, result, at, now))
  {
    hide Inv;
    LandedKeeps(p, config.key);
    SettleKeeps(Landed(p, config.key), config, result, at, now);
    EnsureMintsKeeps(Settle(Landed(p, config.key), config, result, at, now), now);
  }

  lemma ForgetKeeps(p: Pool)
    requires Inv(p)
    ensures Inv(Forget(p))
  {
  }

  /** With no waiters and no tokens the configuration may change freely. */
  lemma RebindKeeps(p: Pool, config: Config, active: bool, closed: bool)
    requires Inv(p) && p.waiters == [] && p.buckets == map[] && (closed ==> !active)
    ensures Inv(p.(config := config, active := active, closed := closed))
  {
    assert forall c :: 0 <= c < |p.calls| ==> !p.calls[c].Queued?;
  }

  lemma NewKeyKeeps(p: Pool, config: Config, active: bool, at: int)
    requires Inv(p) && at <= p.clock && !p.closed
    ensures var q := FailWaiters(Restart(Forget(p), at), Unavailable);
            Inv(q.(config := config, active := active))
  {
    var q := Restart(Forget(p), at);
    ForgetKeeps(p);
    CountersKeep(Forget(p), q);
    FailWaitersKeeps(q, Unavailable);
    hide Inv;
    RebindKeeps(FailWaiters(q, Unavailable), config, active, false);
  }

  lemma FailNobody(p: Pool, e: TakeError)
    requires Range(p) && p.waiters == []
    ensures FailWaiters(p, e) == p
  {
    assert FailCalls(p.calls, [], e) == p.calls;
  }

  lemma SetConfigKeeps(p: Pool, config: Config, verified: bool, at: int)
    requires Inv(p) && Range(p) && at <= p.clock
    ensures Inv(SetConfig(p, config, verified, at))
  {
    hide Inv;
    if !p.closed {
      var active := verified && config.enabled;
      if p.config.key != config.key {
        NewKeyKeeps(p, config, active, at);
        var q := FailWaiters(Restart(Forget(p), at), Unavailable)
                 .(config := config, active := active);
        FailNobody(Forget(q), Unavailable);
      } else if active {
        SameKeyKeeps(p, config, active);
      } else {
        SameKeyOffKeeps(p, config);
      }
    }
  }

  lemma SameKeyKeeps(p: Pool, config: Config, active: bool)
    requires Inv(p) && config.key == p.config.key && active && !p.closed
    ensures Inv(p.(config := config, active := active))
  {
  }

  lemma SameKeyOffKeeps(p: Pool, config: Config)
    requires Inv(p) && config.key == p.config.key && !p.closed
    ensures Inv(FailWaiters(Forget(p.(config := config, active := false)), Unavailable))
  {
    ForgetKeeps(p);
    FailWaitersKeeps(Forget(p), Unavailable);
    RebindKeeps(FailWaiters(Forget(p), Unavailable), config, false, false);
  }

  lemma WarmKeeps(p: Pool, now: int)
    requires Inv(p) && now == p.clock
    ensures Inv(Warm(p, now))
  {
    PruneKeeps(p, now);
    var q := Prune(p, now);
    if Inflight(q, q.config.key) == 0 { LaunchKeeps(q, 1); }
  }

  lemma ScaledBound(base: int, divisor: int)
    requires base >= 1 && (divisor == 1 || divisor == 2 || divisor == 4)
    ensures 1 <= Scaled(base, divisor) <= base
  {
  }

  lemma RefillNeedBound(p: Pool, at: int, divisor: int)
    requires Inv(p) && (divisor == 1 || divisor == 2 || divisor == 4)
    ensures RefillNeed(p, at, divisor) > 0 ==> Inflight(p, p.config.key) + RefillNeed(p, at, divisor) <= p.opts.max
  {
    ScaledBound(1, divisor);
    ScaledBound(p.target, divisor);
  }

  lemma DecayKeeps(p: Pool, at: int)
    requires Inv(p) && at <= p.clock
    ensures Inv(Decay(p, at))
  {
    CountersKeep(p, Decay(p, at));
  }

  lemma RefillKeeps(p: Pool, at: int, divisor: int, now: int)
    requires Inv(p) && Range(p) && now == p.clock && at <= now && (divisor == 1 || divisor == 2 || divisor == 4)
    ensures Inv(Refill(p, at, divisor, now))
  {
    hide Inv;
    if !(p.closed || !p.active || !p.solverSet) {
      PruneKeeps(p, at);
      var q := Prune(p, at);
      if q.waiters != [] {
        EnsureMintsKeeps(q, now);
      } else {
        RefillNeedBound(q, at, divisor);
        LaunchKeeps(q, RefillNeed(q, at, divisor));
        DecayKeeps(Launch(q, RefillNeed(q, at, divisor)), at);
      }
    }
  }

  lemma CloseKeeps(p: Pool)
    requires Inv(p)
    ensures Inv(Close(p))
  {
    if !p.closed {
      ForgetKeeps(p);
      FailWaitersKeeps(Forget(p), PoolClosed);
      RebindKeeps(FailWaiters(Forget(p), PoolClosed), p.config, false, true);
    }
  }

  lemma TickKeeps(p: Pool, now: int)
    requires Inv(p) && p.clock <= now
    ensures Inv(p.(clock := now)) && Range(p)
  {
    CountersKeep(p, p.(clock := now));
  }

  /** The invariant holds after every step of every interleaving. */
  lemma NextKeeps(p: Pool, s: Step)
    requires Inv(p) && Range(p) && Enabled(p, s)
    ensures Inv(Next(p, s)) && Range(Next(p, s))
  {
    hide Inv, Take, Receive, Cancel, MintDone, SetConfig, Forget, Warm, Refill, Prune, Close;
    TickKeeps(p, s.now);
    var q := p.(clock := s.now);
    match s.op
    case OpTake(config) => TakeKeeps(q, config, s.now); InvRange(Next(p, s));
    case OpReceive(c) => ReceiveKeeps(q, c); InvRange(Next(p, s));
    case OpCancel(c, e) => CancelKeeps(q, c, e); InvRange(Next(p, s));
    case OpMint(config, result, at) => MintDoneKeeps(q, config, result, at, s.now); InvRange(Next(p, s));
    case OpSetConfig(config, verified, at) => SetConfigKeeps(q, config, verified, at); InvRange(Next(p, s));
    case OpSetSolver(on) => CountersKeepSolver(q, on); InvRange(Next(p, s));
    case OpClear => ForgetKeeps(q); InvRange(Next(p, s));
    case OpWarm => WarmKeeps(q, s.now); InvRange(Next(p, s));
    case OpRefill(at, divisor) => RefillKeeps(q, at, divisor, s.now); InvRange(Next(p, s));
    case OpObserve => PruneKeeps(q, s.now); InvRange(Next(p, s));
    case OpClose => CloseKeeps(q); InvRange(Next(p, s));
  }

  lemma CountersKeepSolver(p: Pool, on: bool)
    requires Inv(p)
    ensures Inv(p.(solverSet := on))
  {
    CountersKeep(p, p.(solverSet := on));
  }
}
