// The token pool as the program keeps it: fields updated in place under one lock.  Every method is
// one critical section (or a helper called inside one) and is proved to take exactly the step of
// TokenPoolSpec, so the theorems about runs of that specification hold of this class.
module TokenPool {
  import opened Common
  import opened TokenPoolSpec
  import opened TokenPoolProofs
  import opened TokenPoolTheorems

  /** One round of Deliver. */
  lemma DeliverOne(p: Pool, now: int)
    requires QueueOk(p) && Range(p) && p.waiters != []
    ensures var (q, token) := Pop(p, now);
            && QueueOk(q) && q == p.(buckets := q.buckets, issued := q.issued)
            && (if token.None? then Deliver(p, now) == (q, false)
                else
                  Deliver(p, now) == (Deliver(Send(q.(waiters := q.waiters[1..]), q.waiters[0], Delivered(token.value)), now).0, true))
  {
    hide Stale;
    SameQueue(p, Pop(p, now).0);
  }

  lemma NothingToDeliver(p: Pool, now: int)
    requires QueueOk(p)
    ensures Range(p) && (p.waiters == [] ==> Deliver(p, now) == (p, false))
  {}

  class CaptchaTokenPool {
    const opts: Options
    var clock: int
    var closed: bool
    var active: bool
    var solverSet: bool
    var config: Config
    var buckets: map<Key, seq<Token>>
    var issued: map<string, int>
    var inflight: map<Key, nat>
    var waiters: seq<nat>
    var mintFailStreak: nat
    var target: int
    var lastTake: int
    var lastEmpty: int
    var lastDecay: int
    var takeTotal: nat
    var emptyTakeTotal: nat
    var mintTotal: nat
    var mintFailTotal: nat
    // the Take calls with their channels, and the mint goroutines
    var calls: seq<Call>
    ghost var solving: multiset<Key>
    var solved: nat
    ghost var accepted: seq<Acceptance>

    ghost function State(): Pool
      reads this
    {
      Pool(opts, clock, closed, active, solverSet, config, buckets, issued, inflight, waiters,
           mintFailStreak, target, lastTake, lastEmpty, lastDecay, takeTotal, emptyTakeTotal,
           mintTotal, mintFailTotal, calls, solving, solved, accepted)
    }

    ghost predicate Valid()
      reads this
    {
      Inv(State()) && Range(State())
    }

    constructor (opts: Options, solverSet: bool, now: int)
      requires Normalized(opts)
      ensures Valid() && State() == Init(opts, solverSet, now)
    {
      this.opts := opts;
      clock, closed, active, this.solverSet := now, false, false, solverSet;
      config := Config("", "", false);
      buckets, issued, inflight, waiters := map[], map[], map[], [];
      mintFailStreak, target := 0, opts.min;
      lastTake, lastEmpty, lastDecay := now, now - MINUTE, now;
      takeTotal, emptyTakeTotal, mintTotal, mintFailTotal := 0, 0, 0, 0;
      calls, solving, solved, accepted := [], multiset{}, 0, [];
      new;
      InitKeeps(opts, solverSet, now);
    }

    // ---- helpers inside a critical section ---------------------------------------------------

    static method KeepLive(list: seq<Token>, now: int) returns (kept: seq<Token>)
      ensures kept == Live(list, now)
    {
      kept := [];
      for i := 0 to |list|
        invariant kept + Live(list[i..], now) == Live(list, now)
      {
        if now < list[i].expiresAt {
          kept := kept + [list[i]];
        }
      }
    }

    method PruneBuckets(now: int)
      modifies this`buckets
      ensures buckets == map k | k in old(buckets) && Live(old(buckets)[k], now) != [] :: Live(old(buckets)[k], now)
    {
      var keys := buckets.Keys;
      while keys != {}
        invariant keys <= old(buckets).Keys
        invariant forall k :: k in keys ==> k in buckets && buckets[k] == old(buckets)[k]
        invariant forall k :: k in old(buckets) && k !in keys ==>
                    if Live(old(buckets)[k], now) == [] then k !in buckets
                    else k in buckets && buckets[k] == Live(old(buckets)[k], now)
        invariant buckets.Keys <= old(buckets).Keys
        decreases keys
      {
        var k :| k in keys;
        keys := keys - {k};
        var kept := KeepLive(buckets[k], now);
        if |kept| == 0 {
          buckets := buckets - {k};
        } else {
          buckets := buckets[k := kept];
        }
      }
    }

    method PruneLocked(now: int)
      modifies this`buckets, this`issued
      ensures State() == Prune(old(State()), now)
    {
      PruneBuckets(now);
      issued := map d | d in issued && now < issued[d] :: issued[d];
    }

    method PopLocked(now: int) returns (token: Option<Token>)
      modifies this`buckets, this`issued
      ensures (State(), token) == Pop(old(State()), now)
    {
      var key := config.key;
      var list := if key in buckets then buckets[key] else [];
      ghost var all, n := list, 0;
      while |list| > 0
        invariant n <= |all| && list == all[n..]
        invariant Stale(all, now) == n + Stale(list, now)
        invariant buckets == old(buckets) && issued == old(issued)
      {
        var head := list[0];
        assert all[n..][1..] == all[n + 1..];
        list := list[1..];
        if now < head.expiresAt {
          buckets := buckets[key := list];
          issued := issued[head.dedupe := now + opts.ttl + MINUTE];
          return Some(head);
        }
        n := n + 1;
      }
      buckets := buckets[key := []];
      token := None;
    }

    method AppendBucketLocked(token: Token)
      modifies this`buckets
      ensures State() == Append(old(State()), token)
    {
      var key := config.key;
      var list := (if key in buckets then buckets[key] else []) + [token];
      if |list| > opts.max && opts.max >= 0 {
        list := list[|list| - opts.max..];
      }
      buckets := buckets[key := list];
    }

    /** Puts a reply into a waiter's channel, which has room for one. */
    method Reply(call: nat, reply: TokenPoolSpec.Reply)
      requires call < |calls| && calls[call].Queued?
      modifies this`calls
      ensures State() == Send(old(State()), call, reply)
    {
      calls := calls[call := Sent(calls[call].key, reply)];
    }

    method FailWaitersLocked(error: TakeError)
      requires QueueOk(State())
      modifies this`calls, this`waiters
      ensures State() == FailWaiters(old(State()), error)
    {
      for i := 0 to |waiters|
        invariant waiters == old(waiters) && |calls| == |old(calls)|
        invariant forall c :: 0 <= c < |calls| ==>
                    calls[c] == if c in waiters[..i] then Sent(old(calls)[c].key, Refused(error)) else old(calls)[c]
      {
        assert waiters[..i + 1] == waiters[..i] + [waiters[i]];
        assert waiters[i] !in waiters[..i];
        Reply(waiters[i], Refused(error));
      }
      assert waiters[..|waiters|] == waiters;
      waiters := [];
    }

    method DeliverBucketToWaitersLocked(now: int) returns (delivered: bool)
      requires QueueOk(State())
      modifies this`buckets, this`issued, this`calls, this`waiters
      ensures (State(), delivered) == Deliver(old(State()), now)
    {
      hide Deliver, Pop, Send, QueueOk, Range;
      delivered := false;
      NothingToDeliver(State(), now);
      while |waiters| > 0
        invariant QueueOk(State()) && Range(State())
        invariant Deliver(State(), now).0 == Deliver(old(State()), now).0
        invariant delivered || State() == old(State())
        invariant delivered ==> Deliver(old(State()), now).1
        decreases |waiters|
      {
        DeliverOne(State(), now);
        var token := PopLocked(now);
        if token.None? {
          return;
        }
        ServeOldest(token.value);
        delivered := true;
      }
      NothingToDeliver(State(), now);
    }

    /** The oldest waiter gets the token. */
    method ServeOldest(token: Token)
      requires QueueOk(State()) && |waiters| > 0
      modifies this`calls, this`waiters
      ensures Range(old(State())) && QueueOk(State()) && Range(State()) && |waiters| == |old(waiters)| - 1
      ensures State() == Send(old(State()).(waiters := old(waiters)[1..]), old(waiters)[0], Delivered(token))
    {
      SendKeepsQueue(State(), Delivered(token));
      var w := waiters[0];
      waiters := waiters[1..];
      Reply(w, Delivered(token));
    }

    /** Starts one mint goroutine. */
    method StartMint()
      requires solverSet && !closed
      modifies this`inflight, this`mintTotal, this`solving
      ensures State() == Launch(old(State()), 1)
    {
      var key := config.key;
      inflight := inflight[key := (if key in inflight then inflight[key] else 0) + 1];
      mintTotal := mintTotal + 1;
      solving := solving[key := solving[key] + 1];
    }

    method LaunchMintsLocked(n: int)
      modifies this`inflight, this`mintTotal, this`solving
      ensures State() == Launch(old(State()), n)
    {
      if n <= 0 || !solverSet || closed {
        return;
      }
      assert Launch(State(), 0) == State();
      hide Launch;
      for i := 0 to n
        invariant State() == Launch(old(State()), i)
      {
        LaunchMore(old(State()), i);
        StartMint();
      }
    }

    method EnsureMintsLocked(now: int)
      requires QueueOk(State())
      modifies this`buckets, this`issued, this`calls, this`waiters, this`inflight, this`mintTotal, this`solving
      ensures State() == EnsureMints(old(State()), now)
    {
      if closed || !active || !solverSet {
        FailWaitersLocked(Unavailable);
        return;
      }
      if |waiters| == 0 || (config.key in inflight && inflight[config.key] > 0) {
        return;
      }
      var delivered := DeliverBucketToWaitersLocked(now);
      if delivered {
        return;
      }
      if mintFailStreak >= opts.emptySolve {
        FailWaitersLocked(Unavailable);
        return;
      }
      LaunchMintsLocked(opts.emptySolve);
    }
  
    // ---- the critical sections ---------------------------------------------------------------

    method BumpTargetLocked()
      modifies this`target
      ensures State() == old(State()).(target := if old(target) < opts.max then old(target) + 1 else old(target))
    {
      if target < opts.max {
        target := target + 1;
      }
    }

    method CountEmptyTake(now: int)
      modifies this`emptyTakeTotal, this`lastEmpty, this`target, this`mintFailStreak
      ensures State() == CountEmpty(old(State()), now)
    {
      emptyTakeTotal, lastEmpty := emptyTakeTotal + 1, now;
      BumpTargetLocked();
      if |waiters| == 0 {
        mintFailStreak := 0;
      }
    }

    method EnqueueLocked(key: Key, now: int)
      requires Range(State())
      modifies this`emptyTakeTotal, this`lastEmpty, this`target, this`mintFailStreak, this`calls, this`waiters
      ensures State() == Enqueue(old(State()), key, now)
    {
      hide Range, CountEmpty;
      CountEmptyTake(now);
      waiters := waiters + [|calls|];
      calls := calls + [Queued(key)];
    }

    method ArriveLocked(now: int)
      modifies this`buckets, this`issued, this`takeTotal, this`lastTake
      ensures State() == Arrive(old(State()), now)
    {
      PruneLocked(now);
      takeTotal := takeTotal + 1;
      lastTake := now;
    }

    method TakeLocked(wanted: Config, now: int)
      requires QueueOk(State()) && Range(State())
      modifies this
      ensures State() == TokenPoolSpec.Take(old(State()), wanted, now)
    {
      hide QueueOk, Range, Prune, Pop, Enqueue, EnsureMints;
      if closed {
        calls := calls + [Failed(wanted.key, PoolClosed)];
      } else if !active || config.key != wanted.key || !solverSet {
        PruneLocked(now);
        calls := calls + [Failed(wanted.key, Unavailable)];
      } else {
        ArriveLocked(now);
        var token := PopLocked(now);
        if token.Some? {
          calls := calls + [Got(wanted.key, token.value)];
          PruneLocked(now);
        } else {
          SameQueue(old(State()), State());
          EnqueueKeepsQueue(State(), now);
          EnqueueLocked(wanted.key, now);
          EnsureMintsLocked(now);
        }
      }
    }

    /** Take up to the point where it returns or blocks; the new call is `calls[call]`. */
    method Take(wanted: Config, now: int) returns (call: nat)
      requires Valid() && clock <= now
      modifies this
      ensures Valid() && Range(old(State()))
      ensures State() == Next(old(State()), Step(now, OpTake(wanted))) && call == |old(calls)|
    {
      hide Inv, QueueOk, TokenPoolSpec.Take;
      NextKeeps(State(), Step(now, OpTake(wanted)));
      InvQueue(State());
      call := |calls|;
      clock := now;
      SameQueue(old(State()), State());
      TakeLocked(wanted, now);
    }
  
    /** A blocked Take reads its channel. */
    method Receive(call: nat, now: int)
      requires Valid() && clock <= now && call < |calls| && calls[call].Sent?
      modifies this`calls, this`clock
      ensures Valid() && Range(old(State()))
      ensures State() == Next(old(State()), Step(now, OpReceive(call)))
    {
      hide Inv, Range;
      NextKeeps(State(), Step(now, OpReceive(call)));
      clock := now;
      var c := calls[call];
      match c.reply {
        case Delivered(t) => calls := calls[call := Got(c.key, t)];
        case Refused(e) => calls := calls[call := Failed(c.key, e)];
      }
    }

    /** Takes the call out of the queue if it is still there. */
    method Dequeue(call: nat) returns (found: bool)
      modifies this`waiters
      ensures found <==> call in old(waiters)
      ensures waiters == Without(old(waiters), call)
    {
      found := false;
      for i := 0 to |waiters|
        invariant waiters == old(waiters) && call !in waiters[..i]
      {
        if waiters[i] == call {
          WithoutAt(waiters, call, i);
          waiters := waiters[..i] + waiters[i + 1..];
          return true;
        }
        assert waiters[..i + 1] == waiters[..i] + [waiters[i]];
      }
      assert waiters[..|waiters|] == waiters;
      WithoutAbsent(waiters, call);
    }

    static lemma {:induction false} WithoutAt(ws: seq<nat>, w: nat, i: nat)
      requires i < |ws| && ws[i] == w && w !in ws[..i]
      ensures Without(ws, w) == ws[..i] + ws[i + 1..]
    {
      if i > 0 {
        assert ws[0] in ws[..i];
        assert ws[1..][..i - 1] == ws[..i][1..];
        WithoutAt(ws[1..], w, i - 1);
        assert ws[..i] == [ws[0]] + ws[1..][..i - 1] && ws[i + 1..] == ws[1..][i..];
      }
    }

    method RemoveWaiterLocked(call: nat, error: TakeError)
      requires call < |calls| && (calls[call].Queued? || calls[call].Sent?)
      modifies this`waiters, this`calls, this`buckets
      ensures State() == Cancel(old(State()), call, error)
    {
      var c := calls[call];
      calls := calls[call := Failed(c.key, error)];
      var found := Dequeue(call);
      if found {
        return;
      }
      WithoutAbsent(old(waiters), call);
      if c.Sent? && c.reply.Delivered? && active && config.key == c.key {
        AppendBucketLocked(c.reply.token);
      }
    }

    /** The caller's context ended or the pool closed: `error` says which. */
    method RemoveWaiter(call: nat, error: TakeError, now: int)
      requires Valid() && clock <= now && call < |calls| && (calls[call].Queued? || calls[call].Sent?)
      modifies this`waiters, this`calls, this`buckets, this`clock
      ensures Valid() && Range(old(State()))
      ensures State() == Next(old(State()), Step(now, OpCancel(call, error)))
    {
      hide Inv, Range, Cancel;
      NextKeeps(State(), Step(now, OpCancel(call, error)));
      clock := now;
      RemoveWaiterLocked(call, error);
    }

    method RecordLocked(token: Token, now: int)
      requires token.expiresAt == token.mintedAt + opts.ttl
      modifies this`issued, this`mintFailStreak, this`accepted
      ensures State() == Record(old(State()), token, now)
    {
      issued := issued[token.dedupe := token.mintedAt + opts.ttl + MINUTE];
      mintFailStreak := 0;
      accepted := accepted + [Acceptance(token, now)];
    }

    method AcceptLocked(token: Token, now: int)
      requires QueueOk(State()) && Range(State()) && token.expiresAt == token.mintedAt + opts.ttl
      modifies this`issued, this`mintFailStreak, this`accepted, this`waiters, this`calls, this`buckets
      ensures State() == Accept(old(State()), token, now)
    {
      assert |waiters| > 0 ==> waiters[0] < |calls| && calls[waiters[0]].Queued?;
      hide QueueOk, Range, Append, Record;
      RecordLocked(token, now);
      if |waiters| > 0 {
        var w := waiters[0];
        waiters := waiters[1..];
        Reply(w, Delivered(token));
      } else {
        AppendBucketLocked(token);
      }
    }

    method LandLocked(key: Key)
      requires key in solving
      modifies this`inflight, this`solving
      ensures State() == Landed(old(State()), key)
    {
      var flying: int := if key in inflight then inflight[key] else 0;
      var n := flying - 1;
      if n <= 0 {
        inflight := inflight - {key};
      } else {
        inflight := inflight[key := n];
      }
      solving := solving - multiset{key};
    }

    method CountMintFailure()
      modifies this`mintFailTotal, this`mintFailStreak
      ensures State() == MintFailed(old(State()))
    {
      mintFailTotal := mintFailTotal + 1;
      mintFailStreak := mintFailStreak + 1;
    }

    method CountSolve()
      requires QueueOk(State())
      modifies this`solved
      ensures State() == old(State()).(solved := old(solved) + 1) && QueueOk(State()) && Range(State())
    {
      solved := solved + 1;
      SameQueue(old(State()), State());
    }

    method SettleLocked(minted: Config, result: SolveResult, at: int, now: int)
      requires QueueOk(State()) && Range(State())
      modifies this
      ensures State() == Settle(old(State()), minted, result, at, now)
    {
      hide QueueOk, Range, MintFailed, Accept;
      if !result.Solved? {
        CountMintFailure();
        return;
      }
      var solve := solved;
      CountSolve();
      if config.key != minted.key || !active {
        return;
      }
      if result.dedupe in issued && at < issued[result.dedupe] {
        CountMintFailure();
        return;
      }
      AcceptLocked(Token(solve, minted, result.dedupe, at, at + opts.ttl), now);
    }

    method MintLocked(minted: Config, result: SolveResult, at: int, now: int)
      requires QueueOk(State()) && Range(State()) && minted.key in solving
      modifies this
      ensures State() == TokenPoolSpec.MintDone(old(State()), minted, result, at, now)
    {
      hide QueueOk, Settle, EnsureMints;
      LandLocked(minted.key);
      SameQueue(old(State()), State());
      ghost var landed := State();
      SettleLocked(minted, result, at, now);
      SettleLeavesFinished(landed, minted, result, at, now);
      EnsureMintsLocked(now);
    }

    /** A mint goroutine comes back with its solver's result; `at` is the clock it read first. */
    method MintDone(minted: Config, result: SolveResult, at: int, now: int)
      requires Valid() && clock <= now && at <= now && minted.key in solving
      modifies this
      ensures Valid() && Range(old(State()))
      ensures State() == Next(old(State()), Step(now, OpMint(minted, result, at)))
    {
      hide Inv, QueueOk, TokenPoolSpec.MintDone;
      NextKeeps(State(), Step(now, OpMint(minted, result, at)));
      InvQueue(State());
      clock := now;
      SameQueue(old(State()), State());
      MintLocked(minted, result, at, now);
    }

    method ForgetLocked()
      modifies this`buckets, this`issued, this`accepted
      ensures State() == Forget(old(State()))
    {
      buckets, issued, accepted := map[], map[], [];
    }

    static lemma RestartQueue(p: Pool, at: int)
      requires QueueOk(p)
      ensures QueueOk(Restart(p, at)) && Range(Restart(p, at))
    {
    }

    method RestartLocked(at: int)
      modifies this`target, this`lastTake, this`lastDecay, this`mintFailStreak
      ensures State() == Restart(old(State()), at)
    {
      lastTake, lastDecay := at, at;
      hide Normalized;
      ghost var p := State();
      target, mintFailStreak := opts.min, 0;
      assert State() == p.(target := opts.min, mintFailStreak := 0);
    }

    /** The configuration key changes: nothing minted or waiting for the old one survives. */
    method DropOldKey(at: int)
      requires QueueOk(State()) && Range(State())
      modifies this
      ensures State() == FailWaiters(Restart(Forget(old(State())), at), Unavailable)
      ensures QueueOk(State()) && Range(State())
    {
      hide QueueOk, Range, FailWaiters, Forget, Restart;
      ForgetQueue(State());
      ForgetLocked();
      RestartLocked(at);
      RestartQueue(Forget(old(State())), at);
      FailLeavesQueue(State(), Unavailable);
      FailWaitersLocked(Unavailable);
    }

    method Deactivate()
      requires QueueOk(State()) && Range(State())
      modifies this
      ensures State() == FailWaiters(Forget(old(State())), Unavailable)
    {
      ForgetQueue(State());
      hide QueueOk, Range, FailWaiters, Forget;
      ForgetLocked();
      FailWaitersLocked(Unavailable);
    }

    method SetConfigLocked(wanted: Config, verified: bool, at: int)
      requires QueueOk(State()) && Range(State())
      modifies this
      ensures State() == TokenPoolSpec.SetConfig(old(State()), wanted, verified, at)
    {
      hide QueueOk, Range, FailWaiters, Forget;
      if closed {
        return;
      }
      if wanted.key != config.key {
        DropOldKey(at);
      }
      ghost var q := State();
      config := wanted;
      active := verified && wanted.enabled;
      SameQueue(q, State());
      if !active {
        Deactivate();
      }
    }

    static lemma ForgetQueue(p: Pool)
      requires QueueOk(p)
      ensures QueueOk(Forget(p)) && Range(Forget(p))
    {
    }

    static lemma FailLeavesQueue(p: Pool, e: TakeError)
      requires QueueOk(p)
      ensures QueueOk(FailWaiters(p, e)) && Range(FailWaiters(p, e))
    {
      FailWaitersKeepsQueue(p, e);
    }

    method SetConfig(wanted: Config, verified: bool, at: int, now: int)
      requires Valid() && clock <= now && at <= now
      modifies this
      ensures Valid() && Range(old(State()))
      ensures State() == Next(old(State()), Step(now, OpSetConfig(wanted, verified, at)))
    {
      hide Inv, QueueOk, TokenPoolSpec.SetConfig;
      NextKeeps(State(), Step(now, OpSetConfig(wanted, verified, at)));
      InvQueue(State());
      clock := now;
      SameQueue(old(State()), State());
      SetConfigLocked(wanted, verified, at);
    }

    method Clear(now: int)
      requires Valid() && clock <= now
      modifies this`buckets, this`issued, this`accepted, this`clock
      ensures Valid() && Range(old(State()))
      ensures State() == Next(old(State()), Step(now, OpClear))
    {
      hide Inv;
      NextKeeps(State(), Step(now, OpClear));
      clock := now;
      ForgetLocked();
    }

    method WarmLocked(now: int)
      modifies this`buckets, this`issued, this`inflight, this`mintTotal, this`solving
      ensures State() == TokenPoolSpec.Warm(old(State()), now)
    {
      hide Prune, Launch;
      if closed || !active || !solverSet {
        return;
      }
      PruneLocked(now);
      if (config.key in buckets && |buckets[config.key]| > 0) || (config.key in inflight && inflight[config.key] > 0) {
        return;
      }
      LaunchMintsLocked(1);
    }

    method Warm(now: int)
      requires Valid() && clock <= now
      modifies this
      ensures Valid() && Range(old(State()))
      ensures State() == Next(old(State()), Step(now, OpWarm))
    {
      hide Inv, Range, TokenPoolSpec.Warm;
      NextKeeps(State(), Step(now, OpWarm));
      clock := now;
      WarmLocked(now);
    }

    method NeedLocked(at: int, divisor: int) returns (need: int)
      requires divisor > 0
      ensures need == RefillNeed(State(), at, divisor)
    {
      var idle := at - lastTake;
      var goal := target;
      var deepIdle := false;
      if idle > opts.idleStop {
        goal := 1;
        deepIdle := true;
      } else if idle > opts.idleShrink {
        goal := 1;
      }
      goal := Scaled(goal, divisor);
      var concurrency := Lanes(opts.emptySolve, divisor);
      var size := if config.key in buckets then |buckets[config.key]| else 0;
      var flying := if config.key in inflight then inflight[config.key] else 0;
      need := goal - size - flying;
      if deepIdle {
        need := 0;
      }
      if need > concurrency {
        need := concurrency;
      }
    }

    method DecayLocked(at: int)
      modifies this`target, this`lastDecay
      ensures State() == Decay(old(State()), at)
    {
      if at - lastDecay >= MINUTE {
        if at - lastEmpty >= MINUTE && target > opts.min {
          target := target - 1;
        }
        lastDecay := at;
      }
    }

    method RefillLocked(at: int, divisor: int, now: int)
      requires divisor > 0 && QueueOk(State()) && Range(State())
      modifies this
      ensures State() == Refill(old(State()), at, divisor, now)
    {
      hide QueueOk, Prune, EnsureMints, RefillNeed, Launch, Decay;
      if closed || !active || !solverSet {
        return;
      }
      PruneLocked(at);
      PruneQueue(old(State()), at);
      if |waiters| > 0 {
        EnsureMintsLocked(now);
        return;
      }
      var need := NeedLocked(at, divisor);
      LaunchMintsLocked(need);
      DecayLocked(at);
    }

    static lemma PruneQueue(p: Pool, at: int)
      requires QueueOk(p)
      ensures QueueOk(Prune(p, at)) && Range(Prune(p, at)) && Prune(p, at).waiters == p.waiters
    {
    }

    /** One tick of the refill loop; `at` is the clock it read before taking the lock. */
    method RefillOnce(at: int, divisor: int, now: int)
      requires Valid() && clock <= now && at <= now && (divisor == 1 || divisor == 2 || divisor == 4)
      modifies this
      ensures Valid() && Range(old(State()))
      ensures State() == Next(old(State()), Step(now, OpRefill(at, divisor)))
    {
      hide Inv, QueueOk, Refill;
      NextKeeps(State(), Step(now, OpRefill(at, divisor)));
      InvQueue(State());
      clock := now;
      SameQueue(old(State()), State());
      RefillLocked(at, divisor, now);
    }

    /** Stats and the tail of Take: sections that only prune. */
    method Observe(now: int)
      requires Valid() && clock <= now
      modifies this`buckets, this`issued, this`clock
      ensures Valid() && Range(old(State()))
      ensures State() == Next(old(State()), Step(now, OpObserve))
    {
      hide Inv, Prune;
      NextKeeps(State(), Step(now, OpObserve));
      clock := now;
      PruneLocked(now);
    }

    method CloseLocked()
      requires QueueOk(State()) && Range(State())
      modifies this
      ensures State() == TokenPoolSpec.Close(old(State()))
    {
      hide QueueOk, FailWaiters, Forget;
      if closed {
        return;
      }
      ForgetQueue(State());
      ForgetLocked();
      closed := true;
      active := false;
      SameQueue(Forget(old(State())), State());
      FailWaitersLocked(PoolClosed);
    }

    method Close(now: int)
      requires Valid() && clock <= now
      modifies this
      ensures Valid() && Range(old(State()))
      ensures State() == Next(old(State()), Step(now, OpClose))
    {
      hide Inv, QueueOk, TokenPoolSpec.Close;
      NextKeeps(State(), Step(now, OpClose));
      InvQueue(State());
      clock := now;
      SameQueue(old(State()), State());
      CloseLocked();
    }
  }
}
