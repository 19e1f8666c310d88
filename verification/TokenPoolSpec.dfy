// The one-time captcha token pool as a state machine: every section that holds the pool's lock is
// one step, and the goroutines around the lock (blocked Take calls, running solves) are part of
// the state.  Times are milliseconds.
module TokenPoolSpec {
  import opened Common

  type Key = string

  const MINUTE := 60000

  datatype Options =
    Options(ttl: int, min: int, max: int, emptySolve: int, idleShrink: int, idleStop: int)

  predicate Normalized(o: Options) {
    0 < o.ttl && 1 <= o.min <= o.max && 1 <= o.emptySolve <= 2
  }

  /** `key` stands for scene, region and prefix joined. */
  datatype Config = Config(key: Key, region: string, enabled: bool)

  /** `solve` numbers the solver result the token came from: it is the token's identity. */
  datatype Token = Token(solve: nat, config: Config, dedupe: string, mintedAt: int, expiresAt: int)

  datatype TakeError = Unavailable | PoolClosed | Canceled

  datatype Reply = Delivered(token: Token) | Refused(error: TakeError)

  /** One Take call.  A waiter's channel holds at most one reply: it is empty while the call is
      Queued and full while it is Sent. */
  datatype Call =
    | Queued(key: Key)
    | Sent(key: Key, reply: Reply)
    | Got(key: Key, token: Token)
    | Failed(key: Key, error: TakeError)

  datatype Acceptance = Acceptance(token: Token, clock: int)

  datatype SolveResult = SolveFailed | SolveEmpty | Solved(dedupe: string)

  datatype Pool = Pool(
    opts: Options, clock: int, closed: bool, active: bool, solverSet: bool, config: Config,
    buckets: map<Key, seq<Token>>, issued: map<string, int>, inflight: map<Key, nat>,
    waiters: seq<nat>, mintFailStreak: nat, target: int,
    lastTake: int, lastEmpty: int, lastDecay: int,
    takeTotal: nat, emptyTakeTotal: nat, mintTotal: nat, mintFailTotal: nat,
    calls: seq<Call>,        // every Take call ever made, by arrival
    solving: multiset<Key>,  // configuration keys of the mint goroutines still solving
    solved: nat,             // solver results so far
    accepted: seq<Acceptance> // mints accepted since the issued registry was last cleared
  )

  function Init(opts: Options, solverSet: bool, now: int): Pool {
    Pool(opts, now, false, false, solverSet, Config("", "", false), map[], map[], map[], [], 0, opts.min,
         now, now - MINUTE, now, 0, 0, 0, 0, [], multiset{}, 0, [])
  }

  function Bucket(p: Pool, key: Key): seq<Token> {
    if key in p.buckets then p.buckets[key] else []
  }

  function Inflight(p: Pool, key: Key): nat {
    if key in p.inflight then p.inflight[key] else 0
  }

  /** Every queued waiter is a Take call. */
  predicate Range(p: Pool) {
    forall i :: 0 <= i < |p.waiters| ==> p.waiters[i] < |p.calls|
  }

  // ---- critical-section helpers ------------------------------------------------------------

  function Live(ts: seq<Token>, now: int): seq<Token> {
    if ts == [] then []
    else if now < ts[0].expiresAt then [ts[0]] + Live(ts[1..], now)
    else Live(ts[1..], now)
  }

  function Prune(p: Pool, now: int): Pool {
    p.(buckets := map k | k in p.buckets && Live(p.buckets[k], now) != [] :: Live(p.buckets[k], now),
       issued := map d | d in p.issued && now < p.issued[d] :: p.issued[d])
  }

  /** How many tokens at the head of a bucket have expired. */
  function Stale(ts: seq<Token>, now: int): (n: nat)
    ensures n <= |ts|
    ensures n < |ts| ==> now < ts[n].expiresAt
  {
    if ts == [] || now < ts[0].expiresAt then 0 else 1 + Stale(ts[1..], now)
  }

  /** Takes the oldest unexpired token of the current bucket and renews its dedupe window. */
  function Pop(p: Pool, now: int): (Pool, Option<Token>) {
    var key := p.config.key;
    var ts := Bucket(p, key);
    var n := Stale(ts, now);
    if n == |ts| then
      (p.(buckets := p.buckets[key := []]), None)
    else
      (p.(buckets := p.buckets[key := ts[n + 1..]],
          issued := p.issued[ts[n].dedupe := now + p.opts.ttl + MINUTE]), Some(ts[n]))
  }

  function Append(p: Pool, token: Token): Pool {
    var key := p.config.key;
    var list := Bucket(p, key) + [token];
    p.(buckets := p.buckets[key := if |list| > p.opts.max && p.opts.max >= 0 then list[|list| - p.opts.max..] else list])
  }

  function Send(p: Pool, call: nat, reply: Reply): Pool
    requires call < |p.calls|
  {
    p.(calls := p.calls[call := Sent(p.calls[call].key, reply)])
  }

  function FailCalls(calls: seq<Call>, waiters: seq<nat>, error: TakeError): seq<Call>
  {
    seq(|calls|, i requires 0 <= i < |calls| =>
      if i in waiters then Sent(calls[i].key, Refused(error)) else calls[i])
  }

  function FailWaiters(p: Pool, error: TakeError): Pool
    requires Range(p)
  {
    p.(calls := FailCalls(p.calls, p.waiters, error), waiters := [])
  }

  /** Hands bucket tokens to the oldest waiters; the flag says whether any was handed over. */
  function Deliver(p: Pool, now: int): (r: (Pool, bool))
    requires Range(p)
    ensures |r.0.calls| == |p.calls| && Range(r.0)
    decreases |p.waiters|
  {
    if p.waiters == [] then (p, false)
    else
      var (q, token) := Pop(p, now);
      match token
      case None => (q, false)
      case Some(t) =>
        var served := Send(q.(waiters := q.waiters[1..]), q.waiters[0], Delivered(t));
        (Deliver(served, now).0, true)
  }

  function Launch(p: Pool, n: int): Pool {
    if n <= 0 || !p.solverSet || p.closed then p
    else
      var key := p.config.key;
      p.(inflight := p.inflight[key := Inflight(p, key) + n],
         mintTotal := p.mintTotal + n,
         solving := p.solving[key := p.solving[key] + n])
  }

  function EnsureMints(p: Pool, now: int): Pool
    requires Range(p)
  {
    if p.closed || !p.active || !p.solverSet then FailWaiters(p, Unavailable)
    else if p.waiters == [] || Inflight(p, p.config.key) > 0 then p
    else
      var (q, delivered) := Deliver(p, now);
      if delivered then q
      else if q.mintFailStreak >= q.opts.emptySolve then FailWaiters(q, Unavailable)
      else Launch(q, q.opts.emptySolve)
  }

  // ---- the steps ---------------------------------------------------------------------------

  /** Take up to the point where it returns or blocks. */
  function Take(p: Pool, config: Config, now: int): Pool
    requires Range(p)
  {
    if p.closed then p.(calls := p.calls + [Failed(config.key, PoolClosed)])
    else if !p.active || p.config.key != config.key || !p.solverSet then
      Prune(p, now).(calls := p.calls + [Failed(config.key, Unavailable)])
    else
      var (q, token) := Pop(Arrive(p, now), now);
      match token
      case Some(t) => Prune(q.(calls := q.calls + [Got(config.key, t)]), now)
      case None => EnsureMints(Enqueue(q, config.key, now), now)
  }

  /** The book-keeping of an accepted Take. */
  function Arrive(p: Pool, now: int): Pool {
    Prune(p, now).(takeTotal := p.takeTotal + 1, lastTake := now)
  }

  function CountEmpty(p: Pool, now: int): Pool {
    p.(emptyTakeTotal := p.emptyTakeTotal + 1, lastEmpty := now,
       target := if p.target < p.opts.max then p.target + 1 else p.target,
       mintFailStreak := if p.waiters == [] then 0 else p.mintFailStreak)
  }

  function Enqueue(p: Pool, key: Key, now: int): (q: Pool)
    requires Range(p)
    ensures Range(q)
  {
    CountEmpty(p, now).(calls := p.calls + [Queued(key)], waiters := p.waiters + [|p.calls|])
  }

  /** A blocked Take reads the reply out of its channel and returns. */
  function Receive(p: Pool, call: nat): Pool
    requires call < |p.calls| && p.calls[call].Sent?
  {
    var c := p.calls[call];
    p.(calls := p.calls[call :=
      match c.reply case Delivered(t) => Got(c.key, t) case Refused(e) => Failed(c.key, e)])
  }

  function Without(ws: seq<nat>, w: nat): seq<nat> {
    if ws == [] then [] else if ws[0] == w then ws[1..] else [ws[0]] + Without(ws[1..], w)
  }

  /** A blocked Take gives up: it leaves the queue, or puts an undelivered token back. */
  function Cancel(p: Pool, call: nat, error: TakeError): Pool
    requires call < |p.calls| && (p.calls[call].Queued? || p.calls[call].Sent?)
  {
    var c := p.calls[call];
    var left := p.(calls := p.calls[call := Failed(c.key, error)]);
    if call in p.waiters then left.(waiters := Without(p.waiters, call))
    else if c.Sent? && c.reply.Delivered? && p.active && p.config.key == c.key then Append(left, c.reply.token)
    else left
  }

  /** A solve finished: `at` is the clock read before the lock was taken. */
  function MintDone(p: Pool, config: Config, result: SolveResult, at: int, now: int): Pool
    requires Range(p)
  {
    EnsureMints(Settle(Landed(p, config.key), config, result, at, now), now)
  }

  function Landed(p: Pool, key: Key): Pool {
    var n := Inflight(p, key) - 1;
    p.(inflight := if n <= 0 then p.inflight - {key} else p.inflight[key := n],
       solving := p.solving - multiset{key})
  }

  function MintFailed(p: Pool): Pool {
    p.(mintFailTotal := p.mintFailTotal + 1, mintFailStreak := p.mintFailStreak + 1)
  }

  function Settle(p: Pool, config: Config, result: SolveResult, at: int, now: int): (q: Pool)
    requires Range(p)
    ensures Range(q)
  {
    if !result.Solved? then MintFailed(p)
    else
      var counted := p.(solved := p.solved + 1);
      if p.config.key != config.key || !p.active then counted
      else if result.dedupe in p.issued && at < p.issued[result.dedupe] then MintFailed(counted)
      else Accept(counted, Token(p.solved, config, result.dedupe, at, at + p.opts.ttl), now)
  }

  /** The registry entry of an accepted mint. */
  function Record(p: Pool, token: Token, now: int): Pool {
    p.(issued := p.issued[token.dedupe := token.expiresAt + MINUTE], mintFailStreak := 0,
       accepted := p.accepted + [Acceptance(token, now)])
  }

  /** A new token goes to the oldest waiter, otherwise into the bucket. */
  function Accept(p: Pool, token: Token, now: int): (q: Pool)
    requires Range(p)
    ensures Range(q)
  {
    var q := Record(p, token, now);
    if q.waiters == [] then Append(q, token)
    else Send(q.(waiters := q.waiters[1..]), q.waiters[0], Delivered(token))
  }

  function Forget(p: Pool): Pool {
    p.(buckets := map[], issued := map[], accepted := [])
  }

  function Restart(p: Pool, at: int): Pool {
    p.(target := p.opts.min, lastTake := at, lastDecay := at, mintFailStreak := 0)
  }

  function SetConfig(p: Pool, config: Config, verified: bool, at: int): Pool
    requires Range(p)
  {
    if p.closed then p
    else
      var q :=
        if p.config.key == config.key then p
        else FailWaiters(Restart(Forget(p), at), Unavailable);
      var r := q.(config := config, active := verified && config.enabled);
      if r.active then r else FailWaiters(Forget(r), Unavailable)
  }

  function Warm(p: Pool, now: int): Pool {
    if p.closed || !p.active || !p.solverSet then p
    else
      var q := Prune(p, now);
      if |Bucket(q, q.config.key)| > 0 || Inflight(q, q.config.key) > 0 then q else Launch(q, 1)
  }

  /** math.Round(base / divisor), at least 1. */
  function Scaled(base: int, divisor: int): int
    requires divisor > 0
  {
    var r := (2 * base + divisor) / (2 * divisor);
    if r < 1 then 1 else r
  }

  function Lanes(emptySolve: int, divisor: int): int
    requires divisor > 0
  {
    var c := (emptySolve + divisor - 1) / divisor;
    if c < 1 then 1 else c
  }

  /** How many solves a refill starts; `divisor` is one over the CPU governor's factor. */
  function RefillNeed(p: Pool, at: int, divisor: int): int
    requires divisor > 0
  {
    var idle := at - p.lastTake;
    var base := if idle > p.opts.idleStop || idle > p.opts.idleShrink then 1 else p.target;
    var need := Scaled(base, divisor) - |Bucket(p, p.config.key)| - Inflight(p, p.config.key);
    var lanes := Lanes(p.opts.emptySolve, divisor);
    if idle > p.opts.idleStop then 0 else if need > lanes then lanes else need
  }

  function Decay(p: Pool, at: int): Pool {
    if at - p.lastDecay < MINUTE then p
    else p.(target := if at - p.lastEmpty >= MINUTE && p.target > p.opts.min then p.target - 1 else p.target,
            lastDecay := at)
  }

  function Refill(p: Pool, at: int, divisor: int, now: int): Pool
    requires divisor > 0 && Range(p)
  {
    if p.closed || !p.active || !p.solverSet then p
    else
      var q := Prune(p, at);
      if q.waiters != [] then EnsureMints(q, now)
      else Decay(Launch(q, RefillNeed(q, at, divisor)), at)
  }

  function Close(p: Pool): Pool
    requires Range(p)
  {
    if p.closed then p
    else FailWaiters(Forget(p).(closed := true, active := false), PoolClosed)
  }

  datatype Op =
    | OpTake(config: Config)
    | OpReceive(call: nat)
    | OpCancel(call: nat, error: TakeError)
    | OpMint(config: Config, result: SolveResult, at: int)
    | OpSetConfig(config: Config, verified: bool, at: int)
    | OpSetSolver(set_: bool)
    | OpClear
    | OpWarm
    | OpRefill(at: int, divisor: int)
    | OpObserve
    | OpClose

  datatype Step = Step(now: int, op: Op)

  predicate Enabled(p: Pool, s: Step) {
    && p.clock <= s.now
    && match s.op
       case OpReceive(c) => c < |p.calls| && p.calls[c].Sent?
       case OpCancel(c, e) => c < |p.calls| && (p.calls[c].Queued? || p.calls[c].Sent?)
       case OpMint(config, _, at) => config.key in p.solving && at <= s.now
       case OpSetConfig(_, _, at) => at <= s.now
       case OpRefill(at, divisor) => at <= s.now && (divisor == 1 || divisor == 2 || divisor == 4)
       case _ => true
  }

  /** The state after one step.  OpObserve is a section that only prunes (Stats, finishTake). */
  function Next(p: Pool, s: Step): Pool
    requires Range(p) && Enabled(p, s)
  {
    var q := p.(clock := s.now);
    match s.op
    case OpTake(config) => Take(q, config, s.now)
    case OpReceive(c) => Receive(q, c)
    case OpCancel(c, e) => Cancel(q, c, e)
    case OpMint(config, result, at) => MintDone(q, config, result, at, s.now)
    case OpSetConfig(config, verified, at) => SetConfig(q, config, verified, at)
    case OpSetSolver(set_) => q.(solverSet := set_)
    case OpClear => Forget(q)
    case OpWarm => Warm(q, s.now)
    case OpRefill(at, divisor) => Refill(q, at, divisor, s.now)
    case OpObserve => Prune(q, s.now)
    case OpClose => Close(q)
  }
}
