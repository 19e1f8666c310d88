// How the token pool serves: what every Take is answered, who is refused and when, and what a refill starts.
module TokenPoolService {
  import opened Common
  import opened TokenPoolSpec
  import opened TokenPoolProofs
  import opened TokenPoolTheorems
  import opened TokenPoolStranding

  // ---- what the pool's own moves leave alone --------------------------------------------------

  /** Everything but the tokens, the queue and the solves. */
  ghost predicate SameBooks(p: Pool, q: Pool) {
    && q.opts == p.opts && q.clock == p.clock && q.closed == p.closed && q.active == p.active && q.solverSet == p.solverSet
    && q.config == p.config && q.mintFailStreak == p.mintFailStreak && q.target == p.target && q.lastTake == p.lastTake
    && q.lastEmpty == p.lastEmpty && q.lastDecay == p.lastDecay && q.takeTotal == p.takeTotal
    && q.emptyTakeTotal == p.emptyTakeTotal && q.mintFailTotal == p.mintFailTotal && q.solved == p.solved
    && q.accepted == p.accepted
  }

  /** Started solves are counted when they start. */
  ghost predicate SolvesCounted(p: Pool, q: Pool) {
    q.mintTotal + |p.solving| == p.mintTotal + |q.solving|
  }

  /** What may have become of a call: it is as it was, or it was waiting and has been given a token, or it was waiting
      and is refused for want of a solve. */
  ghost predicate Answered(p: Pool, q: Pool, c: nat)
    requires c < |p.calls| && c < |q.calls|
  {
    || q.calls[c] == p.calls[c]
    || (p.calls[c].Queued? && q.calls[c].Sent? && q.calls[c].key == p.calls[c].key &&
        (q.calls[c].reply.Delivered? || (q.calls[c].reply == Refused(Unavailable) && Hopeless(q))))
  }

  /** There is no solver, or no solve is under way and too many have failed in a row. */
  ghost predicate Hopeless(p: Pool) {
    !p.solverSet || (Inflight(p, p.config.key) == 0 && p.mintFailStreak >= p.opts.emptySolve)
  }

  ghost predicate AllAnswered(p: Pool, q: Pool) {
    |p.calls| <= |q.calls| && forall c :: 0 <= c < |p.calls| ==> Answered(p, q, c)
  }

  /** Some of those that were waiting have been given a token, and nothing else. */
  ghost predicate HandsOut(p: Pool, q: Pool) {
    && SameBooks(p, q) && q.inflight == p.inflight && q.mintTotal == p.mintTotal && q.solving == p.solving
    && |q.calls| == |p.calls| && forall c :: 0 <= c < |p.calls| ==> Given(p, q, c)
  }

  ghost predicate Given(p: Pool, q: Pool, c: nat)
    requires c < |p.calls| && c < |q.calls|
  {
    || q.calls[c] == p.calls[c]
    || (p.calls[c].Queued? && q.calls[c].Sent? && q.calls[c].key == p.calls[c].key && q.calls[c].reply.Delivered?)
  }

  lemma HandsOutNothing(p: Pool, now: int)
    ensures HandsOut(p, p) && HandsOut(p, Pop(p, now).0)
  {
    hide Stale;
  }

  lemma HandsOutOne(p: Pool, q: Pool, t: Token)
    requires HandsOut(p, q) && Range(q) && q.waiters != [] && q.calls == p.calls && p.calls[q.waiters[0]].Queued?
    ensures HandsOut(p, Send(q.(waiters := q.waiters[1..]), q.waiters[0], Delivered(t)))
  {}

  lemma HandsOutMore(p: Pool, q: Pool, r: Pool)
    requires HandsOut(p, q) && HandsOut(q, r)
    ensures HandsOut(p, r)
  {
    forall c | 0 <= c < |p.calls| ensures Given(p, r, c) {
      assert Given(p, q, c) && Given(q, r, c);
    }
    hide Given;
  }

  lemma {:induction false} DeliverAnswers(p: Pool, now: int)
    requires QueueOk(p)
    ensures Range(p) && QueueOk(Deliver(p, now).0) && HandsOut(p, Deliver(p, now).0)
    decreases |p.waiters|
  {
    InvQueueRange(p);
    PopLeavesQueue(p, now);
    HandsOutNothing(p, now);
    var (q, token) := Pop(p, now);
    hide Pop, HandsOut, Send;
    if p.waiters != [] && token.Some? {
      InvQueueRange(q);
      assert p.calls[p.waiters[0]].Queued?;
      var served := Send(q.(waiters := q.waiters[1..]), q.waiters[0], Delivered(token.value));
      SendLeavesFinished(q, Delivered(token.value));
      HandsOutOne(p, q, token.value);
      hide QueueOk;
      DeliverAnswers(served, now);
      HandsOutMore(p, served, Deliver(served, now).0);
    }
  }

  lemma FailAnswers(p: Pool, e: TakeError)
    requires QueueOk(p)
    ensures Range(p)
    ensures var q := FailWaiters(p, e);
            && QueueOk(q) && q == p.(calls := q.calls, waiters := []) && |q.calls| == |p.calls|
            && forall c :: 0 <= c < |p.calls| ==>
                 q.calls[c] == if p.calls[c].Queued? then Sent(p.calls[c].key, Refused(e)) else p.calls[c]
  {
    FailWaitersKeepsQueue(p, e);
  }

  lemma LaunchCounts(p: Pool, n: int)
    requires p.solving[p.config.key] == Inflight(p, p.config.key)
    ensures var q := Launch(p, n);
            && q == p.(inflight := q.inflight, mintTotal := q.mintTotal, solving := q.solving)
            && SolvesCounted(p, q)
            && Inflight(q, q.config.key) == Inflight(p, p.config.key) + (if n > 0 && p.solverSet && !p.closed then n else 0)
  {
    if n > 0 && p.solverSet && !p.closed { MoreOf(p.solving, p.config.key, n); }
  }

  lemma MoreOf(m: multiset<Key>, k: Key, n: nat)
    ensures |m[k := m[k] + n]| == |m| + n
  {}

  /** Books and calls after tokens were handed out. */
  ghost predicate Settles(p: Pool, q: Pool) {
    SameBooks(p, q) && SolvesCounted(p, q) && AllAnswered(p, q) && |q.calls| == |p.calls|
  }

  lemma HandsOutSettles(p: Pool, q: Pool)
    requires HandsOut(p, q)
    ensures Settles(p, q)
  {
    forall c | 0 <= c < |p.calls| ensures Answered(p, q, c) { assert Given(p, q, c); }
    hide Given, Answered;
  }

  lemma FailSettles(p: Pool, q: Pool)
    requires HandsOut(p, q) && QueueOk(q) && Hopeless(q)
    ensures Range(q) && Settles(p, FailWaiters(q, Unavailable)) && FailWaiters(q, Unavailable).inflight == q.inflight
  {
    FailAnswers(q, Unavailable);
    var r := FailWaiters(q, Unavailable);
    hide FailWaiters, QueueOk, SameBooks, Range;
    assert Hopeless(r);
    assert SameBooks(p, r) by { SameBooksMore(p, q, r); }
    hide Hopeless;
    forall c | 0 <= c < |p.calls| ensures Answered(p, r, c) { assert Given(p, q, c); }
    hide Answered;
  }

  lemma SameBooksMore(p: Pool, q: Pool, r: Pool)
    requires SameBooks(p, q) && r == q.(calls := r.calls, waiters := r.waiters, inflight := r.inflight, mintTotal := r.mintTotal,
                                        solving := r.solving)
    ensures SameBooks(p, r)
  {}

  lemma LaunchSettles(p: Pool, q: Pool, n: int)
    requires HandsOut(p, q) && q.solving[q.config.key] == Inflight(q, q.config.key)
    ensures Settles(p, Launch(q, n))
  {
    LaunchCounts(q, n);
    HandsOutSettles(p, q);
    var r := Launch(q, n);
    hide Launch, SameBooks;
    SameBooksMore(p, q, r);
    forall c | 0 <= c < |p.calls| ensures Answered(p, r, c) { assert Given(p, q, c); }
  }

  /** The number of solves under way for the current key after EnsureMints. */
  ghost predicate FlightAfter(p: Pool, q: Pool) {
    var was, now := Inflight(p, p.config.key), Inflight(q, q.config.key);
    now == was || (was == 0 && now == p.opts.emptySolve && p.mintFailStreak < p.opts.emptySolve)
  }

  /** After EnsureMints. */
  lemma EnsureMintsAnswers(p: Pool, now: int)
    requires QueueOk(p) && p.solving[p.config.key] == Inflight(p, p.config.key) && p.opts.emptySolve >= 1
    requires p.waiters != [] ==> p.active && !p.closed
    ensures Range(p) && Settles(p, EnsureMints(p, now)) && FlightAfter(p, EnsureMints(p, now))
  {
    InvQueueRange(p);
    var q := Deliver(p, now).0;
    hide QueueOk, Range, Deliver, Settles, HandsOut, FailWaiters, Launch;
    HandsOutNothing(p, now);
    HandsOutSettles(p, p);
    DeliverAnswers(p, now);
    HandsOutSettles(p, q);
    BooksOfHandsOut(p, q);
    if p.closed || !p.active || !p.solverSet {
      if p.solverSet { FailNobody(p, Unavailable); } else { FailSettles(p, p); }
    } else if p.waiters != [] && Inflight(p, p.config.key) == 0 {
      if q.mintFailStreak >= q.opts.emptySolve { FailSettles(p, q); }
      LaunchSettles(p, q, q.opts.emptySolve);
      LaunchCounts(q, q.opts.emptySolve);
    }
  }

  lemma BooksOfHandsOut(p: Pool, q: Pool)
    requires HandsOut(p, q)
    ensures SameBooks(p, q) && q.inflight == p.inflight && q.solving == p.solving
  {}

  // ---- a Take ---------------------------------------------------------------------------------

  /** The pool can serve this configuration. */
  predicate Serves(p: Pool, config: Config) {
    !p.closed && p.active && p.config.key == config.key && p.solverSet
  }

  lemma PruneAnswers(p: Pool, at: int)
    ensures var q := Prune(p, at);
            && q == p.(buckets := q.buckets, issued := q.issued) && Bucket(q, p.config.key) == Live(Bucket(p, p.config.key), at)
  {}

  /** The oldest live token goes, and its dedupe window is renewed. */
  lemma PopAnswers(p: Pool, now: int)
    ensures var (q, token) := Pop(p, now);
            var live := Live(Bucket(p, p.config.key), now);
            && q == p.(buckets := q.buckets, issued := q.issued)
            && (token == if live == [] then None else Some(live[0]))
            && (live != [] ==> Live(Bucket(q, p.config.key), now) == live[1..])
            && (live != [] ==> live[0].dedupe in q.issued && q.issued[live[0].dedupe] == now + p.opts.ttl + MINUTE)
            && (live == [] ==> Bucket(q, p.config.key) == [])
  {
    LiveAfterStale(Bucket(p, p.config.key), now);
    hide Live, Stale;
  }

  lemma PrunedIssue(p: Pool, d: string, now: int)
    requires d in p.issued && now < p.issued[d]
    ensures d in Prune(p, now).issued && Prune(p, now).issued[d] == p.issued[d]
  {}

  /** What a Take is answered, at once or for now. */
  ghost predicate TakeAnswer(p: Pool, q: Pool, config: Config, now: int) {
    var c := |p.calls|;
    var live := Live(Bucket(p, p.config.key), now);
    var flight := Inflight(p, p.config.key);
    && |q.calls| == c + 1
    && if !Serves(p, config) then q.calls[c] == Failed(config.key, if p.closed then PoolClosed else Unavailable)
       else if live != [] then
         && q.calls[c] == Got(config.key, live[0]) && Live(Bucket(q, p.config.key), now) == live[1..]
         && live[0].dedupe in q.issued && q.issued[live[0].dedupe] == now + p.opts.ttl + MINUTE
       else if flight > 0 then q.calls[c] == Queued(config.key) && Inflight(q, p.config.key) == flight
       else if p.waiters == [] || p.mintFailStreak < p.opts.emptySolve then
         q.calls[c] == Queued(config.key) && Inflight(q, p.config.key) == p.opts.emptySolve
       else q.calls[c] == Sent(config.key, Refused(Unavailable)) && Inflight(q, p.config.key) == 0
  }

  /** With an empty bucket, EnsureMints serves nobody from it. */
  lemma EnsureMintsFromEmpty(p: Pool, now: int)
    requires QueueOk(p) && p.waiters != [] && Bucket(p, p.config.key) == [] && p.active && !p.closed && p.solverSet
    requires p.solving[p.config.key] == Inflight(p, p.config.key) && p.opts.emptySolve >= 1
    ensures Range(p)
    ensures var q := EnsureMints(p, now);
            var flight := Inflight(p, p.config.key);
            if flight > 0 then q == p
            else if p.mintFailStreak < p.opts.emptySolve then q.calls == p.calls && Inflight(q, p.config.key) == p.opts.emptySolve
            else Inflight(q, p.config.key) == 0 && |q.calls| == |p.calls| &&
                 forall c :: 0 <= c < |p.calls| && p.calls[c].Queued? ==> q.calls[c] == Sent(p.calls[c].key, Refused(Unavailable))
  {
    InvQueueRange(p);
    DeliverServes(p, now);
    DeliverAnswers(p, now);
    PopAnswers(p, now);
    var q := Deliver(p, now).0;
    assert Deliver(p, now) == (Pop(p, now).0, false);
    FailAnswers(q, Unavailable);
    LaunchCounts(q, q.opts.emptySolve);
    hide QueueOk, FailWaiters, Launch, Range, Deliver, Pop, Given;
  }

  lemma TakeAnswers(p: Pool, config: Config, now: int)
    requires Inv(p) && Range(p) && p.clock == now
    ensures TakeAnswer(p, Take(p, config, now), config, now)
  {
    if Serves(p, config) {
      ServedAnswers(p, config, now);
    } else {
      hide Inv, Prune, Live;
      PruneAnswers(p, now);
    }
  }

  lemma ServedAnswers(p: Pool, config: Config, now: int)
    requires Inv(p) && Range(p) && p.clock == now && Serves(p, config)
    ensures TakeAnswer(p, Take(p, config, now), config, now)
  {
    InvQueue(p);
    Counted(p);
    LiveTwice(Bucket(p, p.config.key), now, now);
    hide Inv;
    var a := Arrive(p, now);
    PruneAnswers(p, now);
    PopAnswers(a, now);
    var (q, token) := Pop(a, now);
    hide Live, Pop, Prune;
    assert q == p.(buckets := q.buckets, issued := q.issued, takeTotal := q.takeTotal, lastTake := now);
    if token.Some? {
      var got := q.(calls := q.calls + [Got(config.key, token.value)]);
      PruneAnswers(got, now);
      LiveTwice(Bucket(got, p.config.key), now, now);
      PrunedIssue(got, token.value.dedupe, now);
    } else {
      SameQueue(p, q);
      EnqueueKeepsQueue(q, now);
      var e := Enqueue(q, config.key, now);
      hide QueueOk;
      EnsureMintsFromEmpty(e, now);
      hide EnsureMints;
      assert e.calls[|p.calls|] == Queued(config.key);
    }
  }

  lemma Counted(p: Pool)
    requires Inv(p)
    ensures p.solving[p.config.key] == Inflight(p, p.config.key) && p.opts.emptySolve >= 1 && p.opts.ttl > 0
    ensures (p.waiters != [] ==> p.active && !p.closed) && (p.closed ==> !p.active)
  {}

  /** Every Take is answered by what the pool has, and by nothing else: refused if the pool does not serve its
      configuration; the oldest live token if there is one, with its dedupe window renewed; otherwise it waits for a
      solve that is under way, or for the solves that are started for it.  It is refused without a solve only behind
      others whose solves have failed too often in a row. */
  lemma EveryTakeIsAnswered(p: Pool, config: Config, now: int)
    requires Reachable(p) && p.clock <= now
    ensures Range(p) && TakeAnswer(p, Next(p, Step(now, OpTake(config))), config, now)
  {
    ReachableInv(p);
    TickKeeps(p, now);
    hide Inv, Reachable, Take, TakeAnswer, Range;
    InvRange(p);
    var q := p.(clock := now);
    InvRange(q);
    TakeAnswers(q, config, now);
    AnswerClock(p, Take(q, config, now), config, now);
  }

  lemma AnswerClock(p: Pool, q: Pool, config: Config, now: int)
    ensures TakeAnswer(p.(clock := now), q, config, now) <==> TakeAnswer(p, q, config, now)
  {
    hide Live;
  }

  // ---- whoever waits --------------------------------------------------------------------------

  /** The configuration is replaced by another key, or switched off. */
  predicate Drops(p: Pool, s: Step) {
    && s.op.OpSetConfig? && !p.closed
    && !(s.op.config.key == p.config.key && s.op.verified && s.op.config.enabled)
  }

  /** What a step may do to a call that waits. */
  ghost predicate Fate(p: Pool, s: Step, q: Pool, c: nat)
    requires c < |p.calls| && c < |q.calls| && p.calls[c].Queued?
  {
    var key := p.calls[c].key;
    if s.op.OpCancel? && s.op.call == c then q.calls[c] == Failed(key, s.op.error)
    else if s.op.OpClose? then q.calls[c] == Sent(key, Refused(PoolClosed))
    else if Drops(p, s) then q.calls[c] == Sent(key, Refused(Unavailable))
    else Answered(p, q, c) &&
         (q.calls[c] != p.calls[c] && !s.op.OpMint? && !s.op.OpRefill? ==> s.op.OpTake?)
  }

  ghost predicate Fates(p: Pool, s: Step, q: Pool) {
    |p.calls| <= |q.calls| && forall c :: 0 <= c < |p.calls| && p.calls[c].Queued? ==> Fate(p, s, q, c)
  }

  lemma SameCallsFates(p: Pool, s: Step, q: Pool)
    requires q.calls == p.calls && !s.op.OpCancel? && !s.op.OpClose? && !Drops(p, s)
    ensures Fates(p, s, q)
  {}

  lemma AnsweredFates(p: Pool, s: Step, q: Pool)
    requires |p.calls| <= |q.calls|
    requires forall c :: 0 <= c < |p.calls| && p.calls[c].Queued? ==> Answered(p, q, c)
    requires s.op.OpTake? || s.op.OpMint? || s.op.OpRefill?
    ensures Fates(p, s, q)
  {
    hide Answered;
  }

  // ---- the books ------------------------------------------------------------------------------

  /** A Take that finds no live token. */
  predicate DryTake(p: Pool, s: Step) {
    s.op.OpTake? && Serves(p, s.op.config) && Live(Bucket(p, p.config.key), s.now) == []
  }

  /** A solve that counts as failed: it brought nothing, or a dedupe key that is not free. */
  predicate FailedSolve(p: Pool, s: Step) {
    && s.op.OpMint?
    && (!s.op.result.Solved? ||
        (s.op.config.key == p.config.key && p.active && s.op.result.dedupe in p.issued && s.op.at < p.issued[s.op.result.dedupe]))
  }

  /** A solve whose token the pool takes. */
  predicate GoodSolve(p: Pool, s: Step) {
    s.op.OpMint? && s.op.result.Solved? && s.op.config.key == p.config.key && p.active && !FailedSolve(p, s)
  }

  predicate NewKey(p: Pool, s: Step) { s.op.OpSetConfig? && !p.closed && s.op.config.key != p.config.key }

  /** A quiet minute is over: no Take has come away empty within it, and nobody waits. */
  predicate Quietens(p: Pool, s: Step) {
    && s.op.OpRefill? && Serves(p, p.config) && p.waiters == [] && s.op.at - p.lastDecay >= MINUTE
    && s.op.at - p.lastEmpty >= MINUTE && p.target > p.opts.min
  }

  /** How the target follows the demand, how the pool is switched on and off, how failures in a row are counted, and what the totals count. */
  ghost predicate TakeBooks(p: Pool, s: Step, q: Pool) {
    && q.target == (if DryTake(p, s) && p.target < p.opts.max then p.target + 1
                    else if NewKey(p, s) then p.opts.min
                    else if Quietens(p, s) then p.target - 1 else p.target)
    && q.mintFailStreak == (if FailedSolve(p, s) then p.mintFailStreak + 1
                            else if GoodSolve(p, s) || NewKey(p, s) || (DryTake(p, s) && p.waiters == []) then 0
                            else p.mintFailStreak)
    && q.lastTake == (if s.op.OpTake? && Serves(p, s.op.config) then s.now else if NewKey(p, s) then s.op.at else p.lastTake)
    && q.lastEmpty == (if DryTake(p, s) then s.now else p.lastEmpty)
    && q.lastDecay == (if NewKey(p, s) then s.op.at
                       else if s.op.OpRefill? && Serves(p, p.config) && p.waiters == [] && s.op.at - p.lastDecay >= MINUTE then s.op.at
                       else p.lastDecay)
    && q.closed == (p.closed || s.op.OpClose?)
    && q.solverSet == (if s.op.OpSetSolver? then s.op.set_ else p.solverSet)
    && q.config == (if s.op.OpSetConfig? && !p.closed then s.op.config else p.config)
    && q.active == (if s.op.OpSetConfig? && !p.closed then s.op.verified && s.op.config.enabled else p.active && !s.op.OpClose?)
    && q.takeTotal == p.takeTotal + (if s.op.OpTake? && Serves(p, s.op.config) then 1 else 0)
    && q.emptyTakeTotal == p.emptyTakeTotal + (if DryTake(p, s) then 1 else 0)
    && q.mintFailTotal == p.mintFailTotal + (if FailedSolve(p, s) then 1 else 0)
    && q.mintTotal + |p.solving| == p.mintTotal + |q.solving| + (if s.op.OpMint? then 1 else 0)
  }

  lemma RefusedFates(p: Pool, config: Config, now: int)
    requires Range(p) && !Serves(p, config)
    ensures Fates(p, Step(now, OpTake(config)), Take(p, config, now))
    ensures TakeBooks(p, Step(now, OpTake(config)), Take(p, config, now))
  {
    PruneAnswers(p, now);
    hide Live, Prune;
    AnsweredFates(p, Step(now, OpTake(config)), Take(p, config, now));
  }

  lemma GotFates(p: Pool, config: Config, now: int)
    requires Range(p) && Serves(p, config) && Live(Bucket(p, p.config.key), now) != []
    ensures Fates(p, Step(now, OpTake(config)), Take(p, config, now))
    ensures TakeBooks(p, Step(now, OpTake(config)), Take(p, config, now))
  {
    LiveTwice(Bucket(p, p.config.key), now, now);
    PruneAnswers(p, now);
    var a := Arrive(p, now);
    PopAnswers(a, now);
    var (r, token) := Pop(a, now);
    hide Live, Pop, Prune;
    var got := r.(calls := r.calls + [Got(config.key, token.value)]);
    PruneAnswers(got, now);
    var q := Take(p, config, now);
    assert q.calls == p.calls + [Got(config.key, token.value)];
    AnsweredFates(p, Step(now, OpTake(config)), q);
  }

  /** The state in which a Take that found nothing looks for solves. */
  lemma DryEnqueues(p: Pool, config: Config, now: int)
    requires QueueOk(p) && Range(p) && Serves(p, config) && Live(Bucket(p, p.config.key), now) == []
    ensures var r := Pop(Arrive(p, now), now).0;
            Range(r) &&
            var e := Enqueue(r, config.key, now);
            && QueueOk(e) && Take(p, config, now) == EnsureMints(e, now)
            && e.calls == p.calls + [Queued(config.key)] && e.inflight == p.inflight && e.solving == p.solving
            && e == CountEmpty(p, now).(takeTotal := p.takeTotal + 1, lastTake := now, buckets := e.buckets, issued := e.issued,
                                        calls := e.calls, waiters := e.waiters)
  {
    LiveTwice(Bucket(p, p.config.key), now, now);
    PruneAnswers(p, now);
    var a := Arrive(p, now);
    PopAnswers(a, now);
    hide Live, Pop, Prune, EnsureMints;
    var r := Pop(a, now).0;
    SameQueue(p, r);
    EnqueueKeepsQueue(r, now);
    hide QueueOk;
  }

  lemma DryFates(p: Pool, config: Config, now: int)
    requires Inv(p) && Range(p) && Serves(p, config) && Live(Bucket(p, p.config.key), now) == []
    ensures Fates(p, Step(now, OpTake(config)), Take(p, config, now))
    ensures TakeBooks(p, Step(now, OpTake(config)), Take(p, config, now))
  {
    InvQueue(p);
    Counted(p);
    hide Inv, Live, Pop, Arrive, Enqueue, EnsureMints, QueueOk, Take, Range, Settles;
    DryEnqueues(p, config, now);
    var e := Enqueue(Pop(Arrive(p, now), now).0, config.key, now);
    EnsureMintsAnswers(e, now);
    hide Fates, TakeBooks;
    DrySettles(p, config, now, e, Take(p, config, now));
  }

  lemma DrySettles(p: Pool, config: Config, now: int, e: Pool, q: Pool)
    requires Serves(p, config) && Live(Bucket(p, p.config.key), now) == [] && Settles(e, q)
    requires e.calls == p.calls + [Queued(config.key)] && e.inflight == p.inflight && e.solving == p.solving
    requires e == CountEmpty(p, now).(takeTotal := p.takeTotal + 1, lastTake := now, buckets := e.buckets, issued := e.issued,
                                      calls := e.calls, waiters := e.waiters)
    ensures Fates(p, Step(now, OpTake(config)), q) && TakeBooks(p, Step(now, OpTake(config)), q)
  {
    hide Live;
    forall c | 0 <= c < |p.calls| && p.calls[c].Queued? ensures Answered(p, q, c) {
      assert e.calls[c] == p.calls[c] && Answered(e, q, c);
    }
    hide Answered;
    AnsweredFates(p, Step(now, OpTake(config)), q);
    hide Fates, AllAnswered;
  }

  lemma TakeFates(p: Pool, config: Config, now: int)
    requires Inv(p) && Range(p)
    ensures Fates(p, Step(now, OpTake(config)), Take(p, config, now))
    ensures TakeBooks(p, Step(now, OpTake(config)), Take(p, config, now))
  {
    hide Inv, Fates, TakeBooks, Live;
    if !Serves(p, config) { RefusedFates(p, config, now); }
    else if Live(Bucket(p, p.config.key), now) == [] { DryFates(p, config, now); }
    else { GotFates(p, config, now); }
  }

  lemma MintLands(p: Pool, key: Key)
    requires Inv(p) && key in p.solving
    ensures var q := Landed(p, key);
            && q == p.(inflight := q.inflight, solving := q.solving) && |q.solving| + 1 == |p.solving|
            && q.solving[p.config.key] == Inflight(q, p.config.key) && QueueOk(q) && Range(q)
  {
    LandedFlight(p, key);
    InvQueue(p);
    SameQueue(p, Landed(p, key));
    InvQueueRange(Landed(p, key));
  }

  /** What a solve's result does before the pool looks for more solves. */
  ghost predicate Resolves(p: Pool, s: Step, e: Pool) {
    && |e.calls| == |p.calls|
    && e == p.(mintFailStreak := e.mintFailStreak, mintFailTotal := e.mintFailTotal, solved := e.solved, issued := e.issued,
               accepted := e.accepted, buckets := e.buckets, calls := e.calls, waiters := e.waiters,
               inflight := e.inflight, solving := e.solving)
    && e.mintFailStreak == (if FailedSolve(p, s) then p.mintFailStreak + 1 else if GoodSolve(p, s) then 0 else p.mintFailStreak)
    && e.mintFailTotal == p.mintFailTotal + (if FailedSolve(p, s) then 1 else 0)
    && (e.waiters != [] ==> p.waiters != [])
    && forall c :: 0 <= c < |p.calls| ==> Given(p, e, c)
  }

  lemma SettleFates(p: Pool, config: Config, result: SolveResult, at: int, now: int)
    requires QueueOk(p) && Range(p)
    ensures var q := Settle(p, config, result, at, now);
            QueueOk(q) && q.inflight == p.inflight && q.solving == p.solving &&
            Resolves(p, Step(now, OpMint(config, result, at)), q)
  {
    hide QueueOk, Accept, Resolves, Range, SameFinished;
    SettleLeavesFinished(p, config, result, at, now);
    var s := Step(now, OpMint(config, result, at));
    var counted := p.(solved := p.solved + 1);
    SameQueue(p, counted);
    if FailedSolve(p, s) {
      FailedResolves(p, s, if result.Solved? then counted else p);
    } else if GoodSolve(p, s) {
      AcceptResolves(p, s, counted, Token(p.solved, config, result.dedupe, at, at + p.opts.ttl));
    } else {
      UselessResolves(p, s, counted);
    }
  }

  lemma FailedResolves(p: Pool, s: Step, counted: Pool)
    requires FailedSolve(p, s) && counted == p.(solved := counted.solved)
    ensures Resolves(p, s, MintFailed(counted))
  {
    hide FailedSolve;
  }

  lemma UselessResolves(p: Pool, s: Step, counted: Pool)
    requires !FailedSolve(p, s) && !GoodSolve(p, s) && counted == p.(solved := counted.solved)
    ensures Resolves(p, s, counted)
  {
    hide FailedSolve, GoodSolve;
  }

  lemma AcceptResolves(p: Pool, s: Step, counted: Pool, t: Token)
    requires GoodSolve(p, s) && counted == p.(solved := counted.solved) && QueueOk(counted) && Range(counted)
    ensures Resolves(p, s, Accept(counted, t, s.now))
    ensures Accept(counted, t, s.now).inflight == p.inflight && Accept(counted, t, s.now).solving == p.solving
  {
    AcceptFates(counted, t, s.now);
    assert !FailedSolve(p, s);
    var e := Accept(counted, t, s.now);
    hide QueueOk, Accept, Range, FailedSolve, GoodSolve;
    forall c | 0 <= c < |p.calls| ensures Given(p, e, c) { assert Given(counted, e, c); }
  }

  lemma AcceptFates(p: Pool, t: Token, now: int)
    requires QueueOk(p) && Range(p)
    ensures var q := Accept(p, t, now);
            && q == p.(mintFailStreak := 0, issued := q.issued, accepted := q.accepted, buckets := q.buckets, calls := q.calls,
                       waiters := q.waiters)
            && |q.calls| == |p.calls| && (q.waiters != [] ==> p.waiters != [])
            && forall c :: 0 <= c < |p.calls| ==> Given(p, q, c)
  {}

  lemma LandedResolves(p: Pool, l: Pool, s: Step, e: Pool)
    requires l == p.(inflight := l.inflight, solving := l.solving) && Resolves(l, s, e)
    ensures Resolves(p, s, e) && e.opts == p.opts && e.config == p.config && e.active == p.active && e.closed == p.closed
    ensures e.waiters != [] ==> p.waiters != []
  {
    forall c | 0 <= c < |p.calls| ensures Given(p, e, c) { assert Given(l, e, c); }
    hide Given;
  }

  /** The two parts of a finished solve, seen from outside. */
  lemma MintParts(p: Pool, config: Config, result: SolveResult, at: int, now: int) returns (e: Pool)
    requires Inv(p) && Range(p) && config.key in p.solving
    ensures var s := Step(now, OpMint(config, result, at));
            Resolves(p, s, e) && Settles(e, MintDone(p, config, result, at, now)) && |e.solving| + 1 == |p.solving|
  {
    Counted(p);
    hide Inv, QueueOk, Range, Settle, Landed, EnsureMints, Resolves, Settles;
    MintLands(p, config.key);
    var l := Landed(p, config.key);
    SettleFates(l, config, result, at, now);
    e := Settle(l, config, result, at, now);
    LandedResolves(p, l, Step(now, OpMint(config, result, at)), e);
    EnsureMintsAnswers(e, now);
  }

  lemma MintFates(p: Pool, config: Config, result: SolveResult, at: int, now: int)
    requires Inv(p) && Range(p) && config.key in p.solving
    ensures Fates(p, Step(now, OpMint(config, result, at)), MintDone(p, config, result, at, now))
    ensures TakeBooks(p, Step(now, OpMint(config, result, at)), MintDone(p, config, result, at, now))
  {
    hide Inv, MintDone, Fates, TakeBooks, Resolves, Settles;
    var e := MintParts(p, config, result, at, now);
    ResolvedCalls(p, Step(now, OpMint(config, result, at)), e, MintDone(p, config, result, at, now));
    ResolvedBooks(p, Step(now, OpMint(config, result, at)), e, MintDone(p, config, result, at, now));
  }

  lemma ResolvedCalls(p: Pool, s: Step, e: Pool, q: Pool)
    requires s.op.OpMint? && Resolves(p, s, e) && Settles(e, q)
    ensures Fates(p, s, q)
  {
    hide Fates, Given, Answered, FailedSolve, GoodSolve, SameBooks, SolvesCounted;
    MintCalls(p, e, q);
    AnsweredFates(p, s, q);
  }

  lemma ResolvedBooks(p: Pool, s: Step, e: Pool, q: Pool)
    requires s.op.OpMint? && Resolves(p, s, e) && Settles(e, q) && |e.solving| + 1 == |p.solving|
    ensures TakeBooks(p, s, q)
  {
    hide Given, AllAnswered, FailedSolve, GoodSolve, Live;
  }

  lemma MintCalls(p: Pool, e: Pool, q: Pool)
    requires |e.calls| == |p.calls| == |q.calls| && forall c :: 0 <= c < |p.calls| ==> Given(p, e, c)
    requires AllAnswered(e, q)
    ensures forall c :: 0 <= c < |p.calls| ==> Answered(p, q, c)
  {
    forall c | 0 <= c < |p.calls| ensures Answered(p, q, c) { assert Given(p, e, c) && Answered(e, q, c); }
  }

  // ---- a refill -------------------------------------------------------------------------------

  /** Scaled is the nearest whole number, but at least 1; Lanes rounds up. */
  lemma Rounds(base: int, emptySolve: int, divisor: int)
    requires divisor in {1, 2, 4}
    ensures Scaled(base, divisor) >= 1 && Lanes(emptySolve, divisor) >= 1
    ensures Scaled(base, divisor) > 1 ==> 2 * base - divisor < 2 * divisor * Scaled(base, divisor) <= 2 * base + divisor
    ensures Scaled(base, divisor) == 1 ==> 2 * base < 3 * divisor
    ensures emptySolve >= 1 ==> divisor * (Lanes(emptySolve, divisor) - 1) < emptySolve <= divisor * Lanes(emptySolve, divisor)
  {}

  /** The stock a refill aims at: the target, or one token for a pool that is idle. */
  function Goal(p: Pool, at: int, divisor: int): int
    requires divisor > 0
  {
    Scaled(if at - p.lastTake > Min(p.opts.idleShrink, p.opts.idleStop) then 1 else p.target, divisor)
  }

  /** A refill starts nothing for a deeply idle pool; otherwise it goes on until tokens and solves under way reach the
      goal or all its lanes are used, and starts no more than either allows. */
  ghost predicate ToppedUp(p: Pool, at: int, divisor: int, q: Pool)
    requires divisor > 0
  {
    var stock, was, now := Stock(p, at), Inflight(p, p.config.key), Inflight(q, p.config.key);
    var goal, lanes := Goal(p, at, divisor), Lanes(p.opts.emptySolve, divisor);
    && (at - p.lastTake > p.opts.idleStop ==> now == was)
    && (at - p.lastTake <= p.opts.idleStop ==>
          && was <= now <= was + lanes && (now == was || stock + now <= goal)
          && (stock + now >= goal || now == was + lanes))
  }

  lemma RefillTops(p: Pool, at: int, divisor: int, now: int)
    requires Inv(p) && Range(p) && divisor in {1, 2, 4} && Serves(p, p.config) && p.waiters == []
    ensures ToppedUp(p, at, divisor, Refill(p, at, divisor, now))
  {
    hide Inv, Live, Prune, Launch, Scaled, Lanes, Range, ToppedUp, RefillNeed;
    Counted(p);
    PruneAnswers(p, at);
    var q := Prune(p, at);
    Rounds(p.target, p.opts.emptySolve, divisor);
    LaunchCounts(q, RefillNeed(q, at, divisor));
    var r := Refill(p, at, divisor, now);
    assert Inflight(r, p.config.key) == Inflight(p, p.config.key) + Max(RefillNeed(q, at, divisor), 0);
    NeedTops(p, q, at, divisor, r);
  }

  lemma NeedTops(p: Pool, q: Pool, at: int, divisor: int, r: Pool)
    requires divisor in {1, 2, 4} && Lanes(p.opts.emptySolve, divisor) >= 1
    requires q == p.(buckets := q.buckets, issued := q.issued) && Bucket(q, p.config.key) == Live(Bucket(p, p.config.key), at)
    requires Inflight(r, p.config.key) == Inflight(p, p.config.key) + Max(RefillNeed(q, at, divisor), 0)
    requires r.config == p.config
    ensures ToppedUp(p, at, divisor, r)
  {
    hide Live, Scaled, Lanes;
  }

  lemma RefillFates(p: Pool, at: int, divisor: int, now: int)
    requires Inv(p) && Range(p) && divisor in {1, 2, 4}
    ensures Fates(p, Step(now, OpRefill(at, divisor)), Refill(p, at, divisor, now))
    ensures TakeBooks(p, Step(now, OpRefill(at, divisor)), Refill(p, at, divisor, now))
  {
    Counted(p);
    InvQueue(p);
    PruneAnswers(p, at);
    SameQueue(p, Prune(p, at));
    hide Inv, Live, Prune, QueueOk, Fates, EnsureMints;
    if Serves(p, p.config) && p.waiters != [] {
      RefillServes(p, at, divisor, now);
    } else if Serves(p, p.config) {
      RefillStarts(p, at, divisor, now);
    } else {
      SameCallsFates(p, Step(now, OpRefill(at, divisor)), p);
    }
  }

  lemma RefillServes(p: Pool, at: int, divisor: int, now: int)
    requires QueueOk(Prune(p, at)) && Range(p) && divisor in {1, 2, 4} && Serves(p, p.config) && p.waiters != []
    requires p.solving[p.config.key] == Inflight(p, p.config.key) && p.opts.emptySolve >= 1
    ensures Fates(p, Step(now, OpRefill(at, divisor)), Refill(p, at, divisor, now))
    ensures TakeBooks(p, Step(now, OpRefill(at, divisor)), Refill(p, at, divisor, now))
  {
    PruneAnswers(p, at);
    var r, q := Prune(p, at), Refill(p, at, divisor, now);
    hide Live, Prune, QueueOk, EnsureMints, Answered;
    EnsureMintsAnswers(r, now);
    RefilledCalls(p, r, q);
    AnsweredFates(p, Step(now, OpRefill(at, divisor)), q);
    hide Fates, AllAnswered;
  }

  lemma RefillStarts(p: Pool, at: int, divisor: int, now: int)
    requires Range(p) && divisor in {1, 2, 4} && Serves(p, p.config) && p.waiters == []
    requires p.solving[p.config.key] == Inflight(p, p.config.key)
    ensures Fates(p, Step(now, OpRefill(at, divisor)), Refill(p, at, divisor, now))
    ensures TakeBooks(p, Step(now, OpRefill(at, divisor)), Refill(p, at, divisor, now))
  {
    PruneAnswers(p, at);
    var r := Prune(p, at);
    hide Live, Prune, RefillNeed, Launch;
    LaunchCounts(r, RefillNeed(r, at, divisor));
    SameCallsFates(p, Step(now, OpRefill(at, divisor)), Refill(p, at, divisor, now));
    hide Fates;
  }

  lemma RefilledCalls(p: Pool, r: Pool, q: Pool)
    requires r.calls == p.calls && AllAnswered(r, q)
    ensures |p.calls| <= |q.calls| && forall c :: 0 <= c < |p.calls| ==> Answered(p, q, c)
  {
    forall c | 0 <= c < |p.calls| ensures Answered(p, q, c) { assert Answered(r, q, c); }
  }

  /** Warming leaves a served pool with a token or a solve under way, and starts at most one. */
  ghost predicate Warmed(p: Pool, now: int, q: Pool) {
    var was, flight := Inflight(p, p.config.key), Inflight(q, p.config.key);
    if Serves(p, p.config) && Stock(p, now) == 0 && was == 0 then flight == 1 else flight == was
  }

  lemma WarmWarms(p: Pool, now: int)
    requires Inv(p)
    ensures Warmed(p, now, Warm(p, now))
    ensures Fates(p, Step(now, OpWarm), Warm(p, now)) && TakeBooks(p, Step(now, OpWarm), Warm(p, now))
  {
    Counted(p);
    PruneAnswers(p, now);
    var r := Prune(p, now);
    hide Inv, Live, Prune;
    LaunchCounts(r, 1);
    hide Launch;
    SameCallsFates(p, Step(now, OpWarm), Warm(p, now));
    hide Fates;
  }

  // ---- the others -----------------------------------------------------------------------------

  lemma SetConfigFates(p: Pool, config: Config, verified: bool, at: int, now: int)
    requires QueueOk(p) && Range(p) && (p.waiters != [] ==> p.active && !p.closed)
    ensures Fates(p, Step(now, OpSetConfig(config, verified, at)), SetConfig(p, config, verified, at))
    ensures TakeBooks(p, Step(now, OpSetConfig(config, verified, at)), SetConfig(p, config, verified, at))
  {
    if p.closed {
      assert forall c :: 0 <= c < |p.calls| ==> !p.calls[c].Queued?;
    } else {
      var r := Restart(Forget(p), at);
      FailAnswers(r, Unavailable);
      hide QueueOk, FailWaiters, Range, Live;
      var same := p.config.key == config.key;
      var k := if same then p else FailWaiters(r, Unavailable);
      Reconfigured(p, k, config, verified, at, now, same);
    }
  }

  /** Once the old key is dealt with. */
  lemma Reconfigured(p: Pool, k: Pool, config: Config, verified: bool, at: int, now: int, same: bool)
    requires !p.closed && (same <==> p.config.key == config.key) && QueueOk(k) && Range(k)
    requires if same then k == p
             else k == Restart(Forget(p), at).(calls := k.calls, waiters := []) && |k.calls| == |p.calls| &&
                  forall c :: 0 <= c < |p.calls| ==>
                    k.calls[c] == if p.calls[c].Queued? then Sent(p.calls[c].key, Refused(Unavailable)) else p.calls[c]
    ensures var m := k.(config := config, active := verified && config.enabled);
            && Range(m) && Range(Forget(m))
            && var q := if m.active then m else FailWaiters(Forget(m), Unavailable);
               && Fates(p, Step(now, OpSetConfig(config, verified, at)), q)
               && TakeBooks(p, Step(now, OpSetConfig(config, verified, at)), q)
  {
    var m := k.(config := config, active := verified && config.enabled);
    assert QueueOk(Forget(m));
    FailAnswers(Forget(m), Unavailable);
    hide QueueOk, FailWaiters, Live;
  }

  lemma CloseFates(p: Pool, now: int)
    requires QueueOk(p) && Range(p) && (p.waiters != [] ==> !p.closed) && (p.closed ==> !p.active)
    ensures Fates(p, Step(now, OpClose), Close(p)) && TakeBooks(p, Step(now, OpClose), Close(p))
  {
    if p.closed {
      assert forall c :: 0 <= c < |p.calls| ==> !p.calls[c].Queued?;
    } else {
      FailAnswers(Forget(p).(closed := true, active := false), PoolClosed);
    }
  }

  lemma CancelFates(p: Pool, c: nat, e: TakeError, now: int)
    requires c < |p.calls| && (p.calls[c].Queued? || p.calls[c].Sent?)
    ensures Fates(p, Step(now, OpCancel(c, e)), Cancel(p, c, e)) && TakeBooks(p, Step(now, OpCancel(c, e)), Cancel(p, c, e))
  {
    hide Live, Without;
    var q := Cancel(p, c, e);
    assert q == p.(calls := p.calls[c := Failed(p.calls[c].key, e)], waiters := q.waiters, buckets := q.buckets);
    hide Cancel;
  }

  lemma OtherFates(p: Pool, s: Step)
    requires Range(p) && Enabled(p, s) && p.clock == s.now && (s.op.OpReceive? || s.op.OpSetSolver? || s.op.OpClear? || s.op.OpObserve?)
    ensures Fates(p, s, Next(p, s)) && TakeBooks(p, s, Next(p, s))
  {}

  lemma TimedFates(p: Pool, s: Step)
    requires Inv(p) && Range(p) && Enabled(p, s) && p.clock == s.now
    ensures Fates(p, s, Next(p, s)) && TakeBooks(p, s, Next(p, s))
  {
    InvQueue(p);
    Counted(p);
    hide Inv, QueueOk, Fates, TakeBooks, Take, MintDone, SetConfig, Warm, Refill, Close, Cancel;
    match s.op
    case OpTake(config) => TakeFates(p, config, s.now);
    case OpCancel(c, e) => CancelFates(p, c, e, s.now);
    case OpMint(config, result, at) => MintFates(p, config, result, at, s.now);
    case OpSetConfig(config, verified, at) => SetConfigFates(p, config, verified, at, s.now);
    case OpWarm => WarmWarms(p, s.now);
    case OpRefill(at, divisor) => RefillFates(p, at, divisor, s.now);
    case OpClose => CloseFates(p, s.now);
    case _ => OtherFates(p, s);
  }

  // ---- main results ---------------------------------------------------------------------------

  lemma FatesClock(p: Pool, s: Step, q: Pool)
    ensures Fates(p.(clock := s.now), s, q) <==> Fates(p, s, q)
    ensures TakeBooks(p.(clock := s.now), s, q) <==> TakeBooks(p, s, q)
  {}

  /** A call that waits goes on waiting or gets a token, unless it gives up itself, the pool closes, its configuration
      is dropped, or there is no solver, or nothing is under way for it after too many failures in a row. */
  lemma NobodyIsRefusedEarly(p: Pool, s: Step)
    requires Reachable(p) && Range(p) && Enabled(p, s)
    ensures Fates(p, s, Next(p, s))
  {
    ReachableInv(p);
    TickKeeps(p, s.now);
    var q := p.(clock := s.now);
    InvRange(q);
    hide Inv, Reachable, Fates, Next;
    TimedFates(q, s);
    NextClock(p, s);
    FatesClock(p, s, Next(q, s));
  }

  /** The target, the switches, the failures in a row and the totals say what has happened. */
  lemma BooksAreKept(p: Pool, s: Step)
    requires Reachable(p) && Range(p) && Enabled(p, s)
    ensures TakeBooks(p, s, Next(p, s))
  {
    ReachableInv(p);
    TickKeeps(p, s.now);
    var q := p.(clock := s.now);
    InvRange(q);
    hide Inv, Reachable, TakeBooks, Next;
    TimedFates(q, s);
    NextClock(p, s);
    FatesClock(p, s, Next(q, s));
  }

  /** A refill of a served pool in which nobody waits. */
  lemma RefillReachesItsGoal(p: Pool, at: int, divisor: int, now: int)
    requires Reachable(p) && Range(p) && Enabled(p, Step(now, OpRefill(at, divisor)))
    requires Serves(p, p.config) && p.waiters == []
    ensures ToppedUp(p, at, divisor, Next(p, Step(now, OpRefill(at, divisor))))
  {
    ReachableInv(p);
    TickKeeps(p, now);
    hide Inv, Reachable, Refill, ToppedUp, Range;
    var q := p.(clock := now);
    InvRange(q);
    RefillTops(q, at, divisor, now);
    ToppedClock(p, at, divisor, now, Refill(q, at, divisor, now));
  }

  lemma ToppedClock(p: Pool, at: int, divisor: int, now: int, q: Pool)
    requires divisor > 0
    ensures ToppedUp(p.(clock := now), at, divisor, q) <==> ToppedUp(p, at, divisor, q)
  {
    hide Live, Scaled, Lanes;
  }

  lemma WarmingWarms(p: Pool, now: int)
    requires Reachable(p) && p.clock <= now
    ensures Range(p) && Warmed(p, now, Next(p, Step(now, OpWarm)))
  {
    ReachableInv(p);
    InvRange(p);
    TickKeeps(p, now);
    hide Inv, Reachable, Warm, Live;
    WarmWarms(p.(clock := now), now);
  }

  /** A clear leaves no token to take and no dedupe key taken, and nobody's call is touched; a section that only prunes
      takes away exactly what has expired. */
  lemma ForgetsExactly(p: Pool, now: int)
    requires Range(p) && p.clock <= now
    ensures var q := Next(p, Step(now, OpClear));
            && (forall k :: Bucket(q, k) == []) && q.issued.Keys == {} && q.calls == p.calls && q.waiters == p.waiters
            && q.inflight == p.inflight && q.config == p.config
    ensures var q := Next(p, Step(now, OpObserve));
            && (forall k :: Bucket(q, k) == Live(Bucket(p, k), now)) && q.calls == p.calls && q.waiters == p.waiters
            && (forall d :: d in q.issued <==> d in p.issued && now < p.issued[d])
            && (forall d :: d in q.issued ==> q.issued[d] == p.issued[d])
            && q.inflight == p.inflight && q.config == p.config
  {
    assert forall k :: k !in p.buckets ==> Live(Bucket(p, k), now) == [];
  }
}
