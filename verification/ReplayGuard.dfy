// The replay guard: content just refused for risk is refused again for a while, with one free retry.
module ReplayGuard {
  import opened Common

  /** `at` is the time of the last verdict, `allowances` the retries still let through. */
  datatype Entry = Entry(at: int, allowances: nat)

  type Table = map<string, Entry>

  const MAX_ENTRIES: nat := 1024

  datatype Config = Config(ttl: int, allowOnce: bool)

  predicate Live(cfg: Config, t: Table, key: string, now: int) {
    key in t && now - t[key].at < cfg.ttl
  }

  /** The time the window of `key` still lasts, 0 if none; the empty key is never guarded. */
  function Left(cfg: Config, t: Table, key: string, now: int): int {
    if key != "" && Live(cfg, t, key, now) then cfg.ttl - (now - t[key].at) else 0
  }

  /** An expired entry is dropped when it is looked at. */
  function Look(cfg: Config, t: Table, key: string, now: int): Table {
    if key != "" && key in t && !Live(cfg, t, key, now) then t - {key} else t
  }

  /** The check at the entrance: whether to block, for how long, and the table after it. */
  function Take(cfg: Config, t: Table, key: string, now: int): (bool, int, Table) {
    if key == "" || !Live(cfg, t, key, now) then (false, 0, Look(cfg, t, key, now))
    else if t[key].allowances > 0 then (false, 0, t[key := t[key].(allowances := t[key].allowances - 1)])
    else (true, Left(cfg, t, key, now), t)
  }

  function Purge(cfg: Config, t: Table, now: int): Table {
    map k | k in t && Live(cfg, t, k, now) :: t[k]
  }

  /** A full table is emptied, together with the entry of `key` itself. */
  function Room(t: Table): Table {
    if |t| >= MAX_ENTRIES then map[] else t
  }

  function Record(cfg: Config, t: Table, key: string, now: int): Table {
    if key == "" then t
    else
      var r := Room(Purge(cfg, t, now));
      r[key := Entry(now, if key in r then r[key].allowances else if cfg.allowOnce then 1 else 0)]
  }

  datatype Op = DoTake(key: string, now: int) | DoRemaining(key: string, now: int) | DoRecord(key: string, now: int)

  datatype Answer = Blocked(left: int) | Passed | Rest(left: int) | Noted

  function Next(cfg: Config, t: Table, op: Op): (Table, Answer) {
    match op
    case DoTake(key, now) => var (blocked, left, r) := Take(cfg, t, key, now); (r, if blocked then Blocked(left) else Passed)
    case DoRemaining(key, now) => (Look(cfg, t, key, now), Rest(Left(cfg, t, key, now)))
    case DoRecord(key, now) => (Record(cfg, t, key, now), Noted)
  }

  function Answers(cfg: Config, t: Table, ops: seq<Op>): seq<Answer>
    decreases |ops|
  {
    if ops == [] then [] else [Next(cfg, t, ops[0]).1] + Answers(cfg, Next(cfg, t, ops[0]).0, ops[1..])
  }

  /** Time never goes back. */
  predicate InOrder(ops: seq<Op>, from: int)
    decreases |ops|
  {
    ops == [] || (from <= ops[0].now && InOrder(ops[1..], ops[0].now))
  }

  // ---- lazy deletion is invisible --------------------------------------------------------------

  /** Two tables with the same live entries. */
  predicate SameLive(cfg: Config, a: Table, b: Table, now: int) {
    Purge(cfg, a, now) == Purge(cfg, b, now)
  }

  lemma SameEntry(cfg: Config, a: Table, b: Table, now: int, key: string)
    requires SameLive(cfg, a, b, now)
    ensures Live(cfg, a, key, now) <==> Live(cfg, b, key, now)
    ensures Live(cfg, a, key, now) ==> a[key] == b[key]
  {
    assert Live(cfg, a, key, now) <==> key in Purge(cfg, a, now);
    assert Live(cfg, b, key, now) <==> key in Purge(cfg, b, now);
  }

  /** What is live later was live before. */
  lemma SameLater(cfg: Config, a: Table, b: Table, now: int, later: int)
    requires SameLive(cfg, a, b, now) && now <= later
    ensures SameLive(cfg, a, b, later)
  {
    forall k ensures k in Purge(cfg, a, later) <==> k in Purge(cfg, b, later) { SameEntry(cfg, a, b, now, k); }
    forall k | k in Purge(cfg, a, later) ensures Purge(cfg, a, later)[k] == Purge(cfg, b, later)[k] { SameEntry(cfg, a, b, now, k); }
  }

  lemma LookKeepsLive(cfg: Config, t: Table, key: string, now: int)
    ensures SameLive(cfg, Look(cfg, t, key, now), t, now)
  {}

  lemma StepAgrees(cfg: Config, a: Table, b: Table, op: Op)
    requires SameLive(cfg, a, b, op.now)
    ensures Next(cfg, a, op).1 == Next(cfg, b, op).1 && SameLive(cfg, Next(cfg, a, op).0, Next(cfg, b, op).0, op.now)
  {
    SameEntry(cfg, a, b, op.now, op.key);
    LookKeepsLive(cfg, a, op.key, op.now);
    LookKeepsLive(cfg, b, op.key, op.now);
    match op
    case DoTake(key, now) =>
      if key != "" && Live(cfg, a, key, now) && a[key].allowances > 0 {
        var e := a[key].(allowances := a[key].allowances - 1);
        assert Purge(cfg, a[key := e], now) == Purge(cfg, a, now)[key := e];
        assert Purge(cfg, b[key := e], now) == Purge(cfg, b, now)[key := e];
      }
    case _ =>
  }

  /** Whenever expired entries are removed, no later answer changes, table resets included: two tables that
      differ in expired entries only answer every sequence of calls alike. */
  lemma {:induction false} DeletionIsInvisible(cfg: Config, a: Table, b: Table, ops: seq<Op>, now: int)
    requires SameLive(cfg, a, b, now) && InOrder(ops, now)
    ensures Answers(cfg, a, ops) == Answers(cfg, b, ops)
    decreases |ops|
  {
    if ops != [] {
      SameLater(cfg, a, b, now, ops[0].now);
      StepAgrees(cfg, a, b, ops[0]);
      hide Next, SameLive;
      DeletionIsInvisible(cfg, Next(cfg, a, ops[0]).0, Next(cfg, b, ops[0]).0, ops[1..], ops[0].now);
    }
  }

  // ---- windows ---------------------------------------------------------------------------------

  /** Looking and taking never lengthen any window and never give allowances back. */
  lemma LookingNeverLengthens(cfg: Config, t: Table, op: Op, key: string, later: int)
    requires !op.DoRecord? && op.now <= later
    ensures var r := Next(cfg, t, op).0;
            && Left(cfg, r, key, later) == Left(cfg, t, key, later)
            && (key in r ==> key in t && r[key].at == t[key].at && r[key].allowances <= t[key].allowances)
  {}

  /** The run keeps `key` inside one chain: it is live at every call, and no verdict empties a full table. */
  predicate Chained(cfg: Config, t: Table, ops: seq<Op>, key: string)
    decreases |ops|
  {
    ops == [] ||
    (&& Live(cfg, t, key, ops[0].now)
     && (ops[0].DoRecord? ==> |Purge(cfg, t, ops[0].now)| < MAX_ENTRIES)
     && Chained(cfg, Next(cfg, t, ops[0]).0, ops[1..], key))
  }

  function Takes(ops: seq<Op>, key: string): nat {
    if ops == [] then 0 else (if ops[0].DoTake? && ops[0].key == key then 1 else 0) + Takes(ops[1..], key)
  }

  /** How many of the checks for `key` are let through. */
  function Passes(cfg: Config, t: Table, ops: seq<Op>, key: string): nat
    decreases |ops|
  {
    if ops == [] then 0
    else
      var (r, answer) := Next(cfg, t, ops[0]);
      (if ops[0].DoTake? && ops[0].key == key && answer == Passed then 1 else 0) + Passes(cfg, r, ops[1..], key)
  }

  lemma ChainStep(cfg: Config, t: Table, op: Op, key: string)
    requires key != "" && Live(cfg, t, key, op.now)
    requires op.DoRecord? ==> |Purge(cfg, t, op.now)| < MAX_ENTRIES
    ensures var (r, answer) := Next(cfg, t, op);
            && key in r
            && (if op.DoTake? && op.key == key && t[key].allowances > 0
                then answer == Passed && r[key].allowances == t[key].allowances - 1
                else r[key].allowances == t[key].allowances)
            && (op.DoTake? && op.key == key && t[key].allowances == 0 ==> answer.Blocked?)
  {
    if op.DoRecord? { assert key in Purge(cfg, t, op.now); }
  }

  /** Inside a chain of verdicts exactly the allowances left at its start are let through, however often
      the content is refused again. */
  lemma {:induction false} PassesInChain(cfg: Config, t: Table, ops: seq<Op>, key: string)
    requires key != "" && key in t && Chained(cfg, t, ops, key)
    ensures Passes(cfg, t, ops, key) == Min(t[key].allowances, Takes(ops, key))
    decreases |ops|
  {
    if ops != [] {
      ChainStep(cfg, t, ops[0], key);
      hide Live, Purge;
      var r := Next(cfg, t, ops[0]).0;
      PassesInChain(cfg, r, ops[1..], key);
    }
  }

  /** After a first verdict at most one retry passes in its chain, and none if that is switched off. */
  lemma OneRetryPerChain(cfg: Config, t: Table, key: string, now: int, ops: seq<Op>)
    requires key != "" && cfg.ttl > 0 && !Live(cfg, t, key, now)
    requires Chained(cfg, Record(cfg, t, key, now), ops, key)
    ensures Passes(cfg, Record(cfg, t, key, now), ops, key) == Min(if cfg.allowOnce then 1 else 0, Takes(ops, key))
  {
    var r := Record(cfg, t, key, now);
    assert key !in Purge(cfg, t, now);
    assert r[key].allowances == if cfg.allowOnce then 1 else 0;
    PassesInChain(cfg, r, ops, key);
  }

  /** Content whose retry is used up is let through again exactly by a verdict that finds the table full: one for
      other content drops its entry, one for itself arms the retry anew. */
  lemma ResetArmsAgain(cfg: Config, t: Table, op: Op, key: string)
    requires cfg.ttl > 0 && key != "" && Live(cfg, t, key, op.now) && t[key].allowances == 0
    ensures !Take(cfg, Next(cfg, t, op).0, key, op.now).0 <==>
              op.DoRecord? && op.key != "" && |Purge(cfg, t, op.now)| >= MAX_ENTRIES && (op.key == key ==> cfg.allowOnce)
  {
    assert key in Purge(cfg, t, op.now);
  }

  // ---- a full table ----------------------------------------------------------------------------

  function After(cfg: Config, t: Table, ops: seq<Op>): Table {
    if ops == [] then t else Next(cfg, After(cfg, t, ops[..|ops| - 1]), ops[|ops| - 1]).0
  }

  /** Content number n. */
  function Name(n: nat): string { seq(n + 1, i => 'x') }

  /** The first content is refused and uses up its retry; then n - 1 others are refused, all at one moment. */
  function Flood(n: nat): seq<Op>
    requires n > 0
  {
    if n == 1 then [DoRecord(Name(0), 0), DoTake(Name(0), 0)] else Flood(n - 1) + [DoRecord(Name(n - 1), 0)]
  }

  ghost predicate Flooded(t: Table, n: nat) {
    && n > 0 && |t| == n && (forall i :: 0 <= i < n ==> Name(i) in t)
    && (forall k :: k in t ==> 1 <= |k| <= n && t[k].at == 0) && t[Name(0)].allowances == 0
  }

  lemma FloodStep(cfg: Config, t: Table, n: nat)
    requires cfg.ttl > 0 && Flooded(t, n) && n < MAX_ENTRIES
    ensures Flooded(Record(cfg, t, Name(n), 0), n + 1)
  {
    assert Purge(cfg, t, 0) == t;
    assert |Name(n)| == n + 1 && Name(n) !in t && Name(0) != Name(n);
    assert |t[Name(n) := Record(cfg, t, Name(n), 0)[Name(n)]]| == n + 1;
  }

  lemma FirstRefused(cfg: Config)
    requires cfg.ttl > 0
    ensures Flooded(After(cfg, map[], Flood(1)), 1)
  {
    var first, ops := DoRecord(Name(0), 0), Flood(1);
    assert ops[..1] == [first] && [first][..0] == [];
    assert Purge(cfg, map[], 0) == map[];
    assert After(cfg, map[], [first]) == Record(cfg, map[], Name(0), 0);
    var t := Record(cfg, map[], Name(0), 0);
    assert t.Keys == {Name(0)} && |t| == |t.Keys|;
    var r := Take(cfg, t, Name(0), 0).2;
    assert r.Keys == {Name(0)} && |r| == |r.Keys|;
    assert After(cfg, map[], ops) == r;
  }

  lemma AfterOneMore(cfg: Config, t: Table, ops: seq<Op>, op: Op)
    ensures After(cfg, t, ops + [op]) == Next(cfg, After(cfg, t, ops), op).0
  {
    assert (ops + [op])[..|ops|] == ops;
  }

  lemma {:induction false} FloodFills(cfg: Config, n: nat)
    requires cfg.ttl > 0 && 0 < n <= MAX_ENTRIES
    ensures Flooded(After(cfg, map[], Flood(n)), n)
  {
    if n == 1 {
      FirstRefused(cfg);
    } else {
      hide Flooded, After, Record, Name, Purge, Live, Take, Look, Room;
      assert Flood(n) == Flood(n - 1) + [DoRecord(Name(n - 1), 0)];
      hide Flood;
      FloodFills(cfg, n - 1);
      AfterOneMore(cfg, map[], Flood(n - 1), DoRecord(Name(n - 1), 0));
      FloodStep(cfg, After(cfg, map[], Flood(n - 1)), n - 1);
    }
  }

  /** A full table can be reached, and then a verdict for new content lets used-up content pass. */
  lemma FloodLetsThrough(cfg: Config)
    requires cfg.ttl > 0
    ensures var t := After(cfg, map[], Flood(MAX_ENTRIES));
            Take(cfg, t, Name(0), 0).0 && !Take(cfg, Record(cfg, t, Name(MAX_ENTRIES), 0), Name(0), 0).0
  {
    hide After, Flood;
    FloodFills(cfg, MAX_ENTRIES);
    var t := After(cfg, map[], Flood(MAX_ENTRIES));
    assert Purge(cfg, t, 0) == t;
    assert |Name(MAX_ENTRIES)| != |Name(0)|;
    ResetArmsAgain(cfg, t, DoRecord(Name(MAX_ENTRIES), 0), Name(0));
  }

  // ---- what the table remembers ----------------------------------------------------------------

  /** The time of the last verdict for this content. */
  function LastVerdict(ops: seq<Op>, key: string): Option<int> {
    if ops == [] then None
    else
      var op := ops[|ops| - 1];
      if op.DoRecord? && op.key == key then Some(op.now) else LastVerdict(ops[..|ops| - 1], key)
  }

  /** The calls come in this order, the last of them not after `until`, and no verdict finds the table full. */
  predicate Orderly(cfg: Config, ops: seq<Op>, until: int) {
    ops == [] ||
    (var op, before := ops[|ops| - 1], ops[..|ops| - 1];
     && op.now <= until && Orderly(cfg, before, op.now)
     && (op.DoRecord? && op.key != "" ==> |Purge(cfg, After(cfg, map[], before), op.now)| < MAX_ENTRIES))
  }

  /** The window of `key` is that of its last verdict. */
  predicate Remembers(cfg: Config, t: Table, key: string, last: Option<int>, now: int) {
    && (Live(cfg, t, key, now) <==> last.Some? && now - last.value < cfg.ttl)
    && (Live(cfg, t, key, now) ==> t[key].at == last.value)
  }

  lemma StepRemembers(cfg: Config, t: Table, op: Op, key: string, last: Option<int>, now: int)
    requires key != "" && op.now <= now && Remembers(cfg, t, key, last, now)
    requires op.DoRecord? && op.key != "" ==> |Purge(cfg, t, op.now)| < MAX_ENTRIES
    ensures Remembers(cfg, Next(cfg, t, op).0, key, if op.DoRecord? && op.key == key then Some(op.now) else last, now)
  {
    assert key in Purge(cfg, t, op.now) <==> Live(cfg, t, key, op.now);
  }

  lemma {:induction false} OrderlyLater(cfg: Config, ops: seq<Op>, until: int, later: int)
    requires Orderly(cfg, ops, until) && until <= later
    ensures Orderly(cfg, ops, later)
  {}

  /** As long as the table has room, content is guarded exactly within the configured time after its last verdict,
      however often it was checked meanwhile and whatever other content was refused. */
  lemma {:induction false} GuardedSinceLastVerdict(cfg: Config, ops: seq<Op>, key: string, now: int)
    requires cfg.ttl > 0 && key != "" && Orderly(cfg, ops, now)
    ensures Remembers(cfg, After(cfg, map[], ops), key, LastVerdict(ops, key), now)
  {
    if ops != [] {
      var n := |ops| - 1;
      var before := ops[..n];
      OrderlyLater(cfg, before, ops[n].now, now);
      GuardedSinceLastVerdict(cfg, before, key, now);
      hide Remembers, Next, Purge;
      StepRemembers(cfg, After(cfg, map[], before), ops[n], key, LastVerdict(before, key), now);
    }
  }

  /** A check blocks exactly inside the window of content that has no retry left, and says how long that still
      lasts; a passing check inside the window uses up one retry. */
  lemma BlocksExactly(cfg: Config, t: Table, key: string, now: int)
    requires cfg.ttl > 0
    ensures var (blocked, left, r) := Take(cfg, t, key, now);
            && (blocked <==> key != "" && key in t && now - t[key].at < cfg.ttl && t[key].allowances == 0)
            && left == (if blocked then t[key].at + cfg.ttl - now else 0)
            && (blocked ==> left > 0 && r == t)
            && (!blocked && key != "" && key in t && now - t[key].at < cfg.ttl ==>
                  key in r && r[key].at == t[key].at && r[key].allowances == t[key].allowances - 1)
            && (forall k :: k != key ==> (k in r <==> k in t) && (k in r ==> r[k] == t[k]))
  {}

  // ---- the guard as an object ------------------------------------------------------------------

  class Guard {
    const cfg: Config
    var entries: Table

    constructor (cfg: Config)
      requires cfg.ttl > 0
      ensures this.cfg == cfg && entries == map[]
    {
      this.cfg := cfg;
      entries := map[];
    }

    method Remaining(key: string, now: int) returns (left: int)
      modifies this
      ensures left == Left(cfg, old(entries), key, now) && entries == Look(cfg, old(entries), key, now)
    {
      if key == "" || key !in entries { return 0; }
      left := cfg.ttl - (now - entries[key].at);
      if left <= 0 {
        entries := entries - {key};
        left := 0;
      }
    }

    method TakeOne(key: string, now: int) returns (blocked: bool, left: int)
      modifies this
      ensures (blocked, left, entries) == Take(cfg, old(entries), key, now)
    {
      if key == "" || key !in entries { return false, 0; }
      var remaining := cfg.ttl - (now - entries[key].at);
      if remaining <= 0 {
        entries := entries - {key};
        return false, 0;
      }
      if entries[key].allowances > 0 {
        entries := entries[key := entries[key].(allowances := entries[key].allowances - 1)];
        return false, 0;
      }
      return true, remaining;
    }

    method DropExpired(now: int)
      modifies this
      ensures entries == Purge(cfg, old(entries), now)
    {
      var keys := entries.Keys;
      while keys != {}
        invariant keys <= old(entries).Keys
        invariant forall k :: k in entries <==> k in old(entries) && (k in keys || Live(cfg, old(entries), k, now))
        invariant forall k :: k in entries ==> entries[k] == old(entries)[k]
        decreases keys
      {
        var k :| k in keys;
        keys := keys - {k};
        if now - entries[k].at >= cfg.ttl { entries := entries - {k}; }
      }
    }

    method Note(key: string, now: int)
      modifies this
      ensures entries == Record(cfg, old(entries), key, now)
    {
      if key == "" { return; }
      DropExpired(now);
      if |entries| >= MAX_ENTRIES { entries := map[]; }
      var allowances := 0;
      if key in entries {
        allowances := entries[key].allowances;
      } else if cfg.allowOnce {
        allowances := 1;
      }
      entries := entries[key := Entry(now, allowances)];
    }
  }
}
