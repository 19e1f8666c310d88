// Account health: the three streaks of consecutive failures, their cooling ladders, and what clears them.
module AccountStreaks {
  import opened Common

  datatype Status = Active | Cooling | Exhausted | Invalid | Disabled

  /** What a request was sent with; a login renews the generation. */
  datatype Credential = Credential(id: string, provider: string, mode: string, secret: string, generation: int)

  datatype Kind = RateLimit | Risk | Unavailable

  datatype State = State(credential: Credential, enabled: bool, archived: bool, status: Status, coolingUntil: Option<int>,
                         rate: int, risk: int, unavailable: int, uses: int, fails: int)

  /** `cap` is the configured cooling time; the risk and 503 ladders are configured, the 429 ladder is fixed. */
  datatype Ladders = Ladders(cap: int, risk: seq<int>, unavailable: seq<int>)

  const RATE_STEPS: seq<int> := [30, 60, 120]

  function Step(steps: seq<int>, cap: int, streak: int): int {
    var n := Max(streak, 1);
    if n > |steps| then cap else Min(steps[n - 1], cap)
  }

  function Streak(s: State, kind: Kind): int {
    match kind
    case RateLimit => s.rate
    case Risk => s.risk
    case Unavailable => s.unavailable
  }

  /** A result counts only for the login it was sent with, on an account nobody has taken out of service. */
  predicate Accepts(s: State, sent: Credential) {
    s.credential == sent && s.enabled && s.status != Disabled && !s.archived
  }

  function CoolDown(s: State, secs: int, now: int): State {
    s.(status := Cooling, coolingUntil := Some(now + secs))
  }

  function HitAccepted(l: Ladders, s: State, kind: Kind, now: int): State {
    match kind
    case RateLimit => CoolDown(s.(rate := s.rate + 1), Step(RATE_STEPS, l.cap, s.rate + 1), now)
    case Unavailable =>
      CoolDown(s.(unavailable := s.unavailable + 1, fails := s.fails + 1), Step(l.unavailable, l.cap, s.unavailable + 1), now)
    case Risk =>
      var t := s.(risk := Max(0, s.risk) + 1);
      if t.risk > |l.risk| then t.(status := Invalid, coolingUntil := None) else CoolDown(t, l.risk[t.risk - 1], now)
  }

  function Hit(l: Ladders, s: State, kind: Kind, sent: Credential, now: int): State {
    if Accepts(s, sent) then HitAccepted(l, s, kind, now) else s
  }

  /** A success clears the streaks unless it is stale, or too early to prove anything. */
  predicate Clears(s: State, sent: Credential, now: int) {
    Accepts(s, sent) && s.status != Invalid && !(s.status == Cooling && s.coolingUntil.Some? && now < s.coolingUntil.value)
  }

  function Success(s: State, sent: Credential, now: int): State {
    var t := s.(uses := s.uses + 1);
    if !Clears(s, sent, now) then t
    else t.(rate := 0, risk := 0, unavailable := 0,
            status := if s.status == Cooling || s.status == Exhausted then Active else s.status)
  }

  /** A new login is a new identity: it is active and free of risk hits.  The other two streaks tell of limits
      and of the upstream, and stay. */
  function Renewed(s: State, login: Credential, dropCooling: bool): State {
    s.(credential := login, status := Active, risk := 0, coolingUntil := if dropCooling then None else s.coolingUntil)
  }

  /** An administrator revives an account that risk control condemned; `quiet` is the end of the silent window
      if that is still to come. */
  predicate Recoverable(s: State, forRisk: bool) { s.status == Invalid && forRisk && !s.archived }

  function Recovered(s: State, quiet: Option<int>): State {
    s.(status := if quiet.Some? then Cooling else Active, coolingUntil := quiet, risk := 0)
  }

  /** A complete answer to a model probe. */
  function Probed(s: State): State {
    s.(risk := 0, status := if s.status == Cooling then Active else s.status)
  }

  /** DoRenew is a login or an edit of the secret; DoMark and DoSet are everything else that sets a status:
      other failures, quota, an administrator, and an enrolment, which raises the credential's generation and
      leaves the status alone.  A probe's risk hit is a DoHit. */
  datatype Op =
    | DoHit(kind: Kind, sent: Credential, now: int)
    | DoSuccess(sent: Credential, now: int)
    | DoProbe(sent: Credential)
    | DoRenew(login: Credential, dropCooling: bool)
    | DoRecover(forRisk: bool, quiet: Option<int>)
    | DoMark(sent: Credential, status: Status, until: Option<int>)
    | DoSet(enabled: bool, archived: bool, status: Status, until: Option<int>, login: Credential)

  function Next(l: Ladders, s: State, op: Op): State {
    match op
    case DoHit(kind, sent, now) => Hit(l, s, kind, sent, now)
    case DoSuccess(sent, now) => Success(s, sent, now)
    case DoProbe(sent) => if Accepts(s, sent) then Probed(s) else s
    case DoRenew(login, dropCooling) => Renewed(s, login, dropCooling)
    case DoRecover(forRisk, quiet) => if Recoverable(s, forRisk) then Recovered(s, quiet) else s
    case DoMark(sent, status, until) =>
      if Accepts(s, sent) then s.(status := status, coolingUntil := if until.Some? then until else s.coolingUntil) else s
    case DoSet(enabled, archived, status, until, login) =>
      s.(enabled := enabled, archived := archived, status := status, coolingUntil := until, credential := login)
  }

  function Run(l: Ladders, s: State, ops: seq<Op>): State {
    if ops == [] then s else Next(l, Run(l, s, ops[..|ops| - 1]), ops[|ops| - 1])
  }

  // ---- streaks count history -------------------------------------------------------------------

  predicate Hits(s: State, op: Op, kind: Kind) {
    op.DoHit? && op.kind == kind && Accepts(s, op.sent)
  }

  /** A success that proves something clears all three streaks; the risk streak is also cleared by a new login,
      a manual recovery and an answered probe. */
  predicate ClearsStreak(s: State, op: Op, kind: Kind) {
    || (op.DoSuccess? && Clears(s, op.sent, op.now))
    || (kind == Risk && (op.DoRenew? || (op.DoRecover? && Recoverable(s, op.forRisk)) || (op.DoProbe? && Accepts(s, op.sent))))
  }

  predicate IsHit(l: Ladders, s: State, ops: seq<Op>, i: nat, kind: Kind)
    requires i < |ops|
  {
    Hits(Run(l, s, ops[..i]), ops[i], kind)
  }

  predicate IsClearing(l: Ladders, s: State, ops: seq<Op>, i: nat, kind: Kind)
    requires i < |ops|
  {
    ClearsStreak(Run(l, s, ops[..i]), ops[i], kind)
  }

  /** The accepted hits of one kind from place `from` on. */
  function HitsFrom(l: Ladders, s: State, ops: seq<Op>, from: nat, kind: Kind): nat
    requires from <= |ops|
    decreases |ops| - from
  {
    if from == |ops| then 0 else (if IsHit(l, s, ops, from, kind) then 1 else 0) + HitsFrom(l, s, ops, from + 1, kind)
  }

  /** `from` is just behind the last step that cleared this kind's streak, or the start. */
  predicate SinceClearing(l: Ladders, s: State, ops: seq<Op>, from: nat, kind: Kind) {
    && from <= |ops| && (from > 0 ==> IsClearing(l, s, ops, from - 1, kind))
    && forall i :: from <= i < |ops| ==> !IsClearing(l, s, ops, i, kind)
  }

  lemma OneStep(l: Ladders, s: State, op: Op, kind: Kind)
    requires s.risk >= 0
    ensures Streak(Next(l, s, op), kind) ==
            (if Hits(s, op, kind) then Streak(s, kind) + 1 else if ClearsStreak(s, op, kind) then 0 else Streak(s, kind))
    ensures Next(l, s, op).risk >= 0
  {}

  lemma {:induction false} RiskStays(l: Ladders, s: State, ops: seq<Op>)
    requires s.risk >= 0
    ensures Run(l, s, ops).risk >= 0
  {
    if ops != [] {
      RiskStays(l, s, ops[..|ops| - 1]);
      OneStep(l, Run(l, s, ops[..|ops| - 1]), ops[|ops| - 1], Risk);
    }
  }

  lemma {:induction false} HitsSnoc(l: Ladders, s: State, ops: seq<Op>, from: nat, kind: Kind)
    requires from < |ops|
    ensures HitsFrom(l, s, ops, from, kind)
         == HitsFrom(l, s, ops[..|ops| - 1], from, kind) + (if IsHit(l, s, ops, |ops| - 1, kind) then 1 else 0)
    decreases |ops| - from
  {
    hide Run, Hits;
    var n := |ops| - 1;
    assert ops[..n][..from] == ops[..from];
    if from < n { HitsSnoc(l, s, ops, from + 1, kind); }
  }

  lemma SincePrefix(l: Ladders, s: State, ops: seq<Op>, from: nat, kind: Kind)
    requires from < |ops| && SinceClearing(l, s, ops, from, kind)
    ensures SinceClearing(l, s, ops[..|ops| - 1], from, kind)
  {
    hide Run, ClearsStreak;
    var before := ops[..|ops| - 1];
    forall i | from <= i < |before| ensures !IsClearing(l, s, before, i, kind) {
      assert before[..i] == ops[..i];
      assert !IsClearing(l, s, ops, i, kind);
    }
    if from > 0 { assert before[..from - 1] == ops[..from - 1]; }
  }

  /** Whatever accepted and stale results, probes, marks, logins and recoveries happen: each streak is the number
      of its own kind's accepted hits since the last step that clears it, or since the start. */
  lemma {:induction false} StreaksCountHistory(l: Ladders, s: State, ops: seq<Op>, from: nat, kind: Kind)
    requires s.rate == s.risk == s.unavailable == 0 && SinceClearing(l, s, ops, from, kind)
    ensures Streak(Run(l, s, ops), kind) == HitsFrom(l, s, ops, from, kind)
    decreases |ops|
  {
    if ops != [] {
      var n := |ops| - 1;
      var before := ops[..n];
      var t := Run(l, s, before);
      RiskStays(l, s, before);
      OneStep(l, t, ops[n], kind);
      hide Run, Next, ClearsStreak, Hits;
      assert Run(l, s, ops) == Next(l, t, ops[n]) by { LastStep(l, s, ops); }
      if from < |ops| {
        assert !IsClearing(l, s, ops, n, kind);
        SincePrefix(l, s, ops, from, kind);
        StreaksCountHistory(l, s, before, from, kind);
        HitsSnoc(l, s, ops, from, kind);
      } else {
        ClearingIsNoHit(t, ops[n], kind);
      }
    }
  }

  lemma ClearingIsNoHit(s: State, op: Op, kind: Kind)
    ensures !(Hits(s, op, kind) && ClearsStreak(s, op, kind))
  {}

  lemma LastStep(l: Ladders, s: State, ops: seq<Op>)
    requires ops != []
    ensures Run(l, s, ops) == Next(l, Run(l, s, ops[..|ops| - 1]), ops[|ops| - 1])
  {}

  /** What a run's last accepted hit does depends on history alone: with the n-th hit of its kind since the streak
      was last cleared, risk control condemns the account exactly if n passes its ladder, and otherwise every kind
      cools for the n-th step of its own ladder. */
  lemma HistoryDecides(l: Ladders, s: State, ops: seq<Op>, from: nat, kind: Kind)
    requires s.rate == s.risk == s.unavailable == 0 && SinceClearing(l, s, ops, from, kind)
    requires ops != [] && IsHit(l, s, ops, |ops| - 1, kind)
    ensures var t, n, now := Run(l, s, ops), HitsFrom(l, s, ops, from, kind), ops[|ops| - 1].now;
            && n > 0
            && (t.status == Invalid <==> kind == Risk && n > |l.risk|)
            && (t.status != Invalid ==> t.status == Cooling && t.coolingUntil == Some(now + Cooldown(l, kind, n)))
  {
    StreaksCountHistory(l, s, ops, from, kind);
    RiskStays(l, s, ops[..|ops| - 1]);
    OneStep(l, Run(l, s, ops[..|ops| - 1]), ops[|ops| - 1], kind);
    OneStep(l, Run(l, s, ops[..|ops| - 1]), ops[|ops| - 1], Risk);
    LastStep(l, s, ops);
    var n := |ops| - 1;
    hide Run, Step, HitsFrom, SinceClearing;
    StreakNotNegative(l, s, ops[..n], kind);
  }

  /** The n-th cooldown of a kind. */
  function Cooldown(l: Ladders, kind: Kind, n: int): int {
    match kind
    case RateLimit => Step(RATE_STEPS, l.cap, n)
    case Unavailable => Step(l.unavailable, l.cap, n)
    case Risk => if 1 <= n <= |l.risk| then l.risk[n - 1] else 0
  }

  lemma {:induction false} StreakNotNegative(l: Ladders, s: State, ops: seq<Op>, kind: Kind)
    requires s.rate >= 0 && s.risk >= 0 && s.unavailable >= 0
    ensures Streak(Run(l, s, ops), kind) >= 0
  {
    if ops != [] {
      var n := |ops| - 1;
      RiskStays(l, s, ops[..n]);
      StreakNotNegative(l, s, ops[..n], kind);
      hide Run;
      OneStep(l, Run(l, s, ops[..n]), ops[n], kind);
      assert Run(l, s, ops) == Next(l, Run(l, s, ops[..n]), ops[n]) by { LastStep(l, s, ops); }
    }
  }

  // ---- what makes an account usable again ------------------------------------------------------

  /** A result of a login that is still the account's, on an account in service. */
  predicate Current(s: State, sent: Credential) {
    s.credential == sent && s.enabled && !s.archived && s.status != Disabled
  }

  /** Cooling has a deadline that has not come. */
  predicate StillCooling(s: State, now: int) { s.status == Cooling && s.coolingUntil.Some? && now < s.coolingUntil.value }

  /** An account that is not active becomes active exactly by a success behind the end of its cooling or quota, by an
      answered probe while it cools, by a new login, by a recovery from risk control without a silent window, or by
      whoever sets its status. */
  lemma RevivesExactly(l: Ladders, s: State, op: Op)
    requires s.status != Active
    ensures Next(l, s, op).status == Active <==>
              match op
              case DoSuccess(sent, now) => Current(s, sent) && s.status in {Cooling, Exhausted} && !StillCooling(s, now)
              case DoProbe(sent) => Current(s, sent) && s.status == Cooling
              case DoRenew(_, _) => true
              case DoRecover(forRisk, quiet) => s.status == Invalid && forRisk && !s.archived && quiet.None?
              case DoMark(sent, status, _) => Current(s, sent) && status == Active
              case DoSet(_, _, status, _, _) => status == Active
              case _ => false
  {}

  /** What is not a failure moves the deadline only so: a new login drops it if it is to, a recovery sets the end of the
      silent window, and a mark or an administrator sets theirs; successes and probes leave it. */
  lemma DeadlineExactly(l: Ladders, s: State, op: Op)
    requires !op.DoHit?
    ensures Next(l, s, op).coolingUntil ==
              match op
              case DoRenew(_, true) => None
              case DoRecover(forRisk, quiet) =>
                if s.status == Invalid && forRisk && !s.archived then quiet else s.coolingUntil
              case DoMark(sent, _, Some(until)) => if Current(s, sent) then Some(until) else s.coolingUntil
              case DoSet(_, _, _, until, _) => until
              case _ => s.coolingUntil
  {}

  /** Every current failure counts one more hit of its own kind, and takes the account out of use: a rate limit and an
      unavailable upstream always let it cool; a hit of an old login, or on an account out of service, does nothing. */
  lemma FailureCounts(l: Ladders, s: State, kind: Kind, sent: Credential, now: int)
    requires s.risk >= 0
    ensures var t := Next(l, s, DoHit(kind, sent, now));
            && (!Current(s, sent) ==> t == s)
            && (Current(s, sent) ==>
                  && Streak(t, kind) == Streak(s, kind) + 1
                  && (forall other :: other != kind ==> Streak(t, other) == Streak(s, other))
                  && t.status in {Cooling, Invalid} && (kind != Risk ==> t.status == Cooling)
                  && (t.status == Cooling ==> t.coolingUntil.Some?) && (t.status == Invalid ==> t.coolingUntil.None?)
                  && t.fails == s.fails + (if kind == Unavailable then 1 else 0) && t.uses == s.uses)
  {}

  /** Nothing but a recovery, a new login and whoever sets a status helps an account that risk control condemned. */
  lemma CondemnedStays(l: Ladders, s: State, op: Op)
    requires s.status == Invalid && s.risk >= 0
    ensures Next(l, s, op).status == Invalid ||
              op.DoRenew? || (op.DoRecover? && op.forRisk && !s.archived) || op.DoMark? || op.DoSet? || op.DoHit?
  {}

  // ---- successes that prove nothing -----------------------------------------------------------

  /** The run without its successes that are stale, too early, or on an invalid account. */
  function Telling(l: Ladders, s: State, ops: seq<Op>): seq<Op> {
    if ops == [] then []
    else
      var n := |ops| - 1;
      var before := Telling(l, s, ops[..n]);
      if ops[n].DoSuccess? && !IsClearing(l, s, ops, n, RateLimit) then before else before + [ops[n]]
  }

  function Successes(ops: seq<Op>): nat {
    if ops == [] then 0 else Successes(ops[..|ops| - 1]) + (if ops[|ops| - 1].DoSuccess? then 1 else 0)
  }

  /** Such successes are counted as uses, and otherwise the run goes on as if they had never come. */
  lemma {:induction false} IdleSuccessesAreInvisible(l: Ladders, s: State, ops: seq<Op>)
    ensures var t, u := Run(l, s, ops), Run(l, s, Telling(l, s, ops));
            t.(uses := 0) == u.(uses := 0) && t.uses == s.uses + Successes(ops)
    decreases |ops|
  {
    if ops != [] {
      var n := |ops| - 1;
      IdleSuccessesAreInvisible(l, s, ops[..n]);
      var kept := Telling(l, s, ops[..n]);
      assert (kept + [ops[n]])[..|kept|] == kept;
      UsesDoNotMatter(l, Run(l, s, ops[..n]), Run(l, s, kept), ops[n]);
      LastStep(l, s, ops);
      LastStep(l, s, kept + [ops[n]]);
      SuccessIsCareful(Run(l, s, ops[..n]), ops[n]);
      hide Next, Run, ClearsStreak, Clears;
    }
  }

  lemma UsesDoNotMatter(l: Ladders, s: State, t: State, op: Op)
    requires s.(uses := 0) == t.(uses := 0)
    ensures Next(l, s, op).(uses := 0) == Next(l, t, op).(uses := 0)
    ensures Next(l, s, op).uses == s.uses + (if op.DoSuccess? then 1 else 0)
  {}

  // ---- single results --------------------------------------------------------------------------

  /** A success with an old login, on an account out of service or invalid, or before the cooling deadline
      changes no status, deadline or streak. */
  lemma SuccessIsCareful(s: State, op: Op)
    ensures op.DoSuccess? && !ClearsStreak(s, op, RateLimit) ==> Success(s, op.sent, op.now) == s.(uses := s.uses + 1)
    ensures op.DoSuccess? && ClearsStreak(s, op, RateLimit) ==>
              var t := Success(s, op.sent, op.now);
              && t.uses == s.uses + 1 && t.rate == t.risk == t.unavailable == 0 && t.coolingUntil == s.coolingUntil
              && (t.status == Active || t.status == s.status) && t.status != Cooling
  {}

  /** The 429 cooldown never shrinks with the streak and never exceeds the cap, which it reaches in the end. */
  lemma RateLadder(cap: int, a: int, b: int)
    requires a <= b
    ensures Step(RATE_STEPS, cap, a) <= Step(RATE_STEPS, cap, b) <= cap
    ensures b > 3 ==> Step(RATE_STEPS, cap, b) == cap
  {}

  /** A streak only grows until it is cleared. */
  lemma {:induction false} StreakGrows(l: Ladders, s: State, ops: seq<Op>, i: nat, kind: Kind)
    requires s.risk >= 0 && i <= |ops|
    requires forall k :: i <= k < |ops| ==> !IsClearing(l, s, ops, k, kind)
    ensures Streak(Run(l, s, ops[..i]), kind) <= Streak(Run(l, s, ops), kind)
    decreases |ops|
  {
    if i == |ops| {
      assert ops[..i] == ops;
    } else {
      var n := |ops| - 1;
      var before := ops[..n];
      RiskStays(l, s, before);
      OneStep(l, Run(l, s, before), ops[n], kind);
      LastStep(l, s, ops);
      assert !IsClearing(l, s, ops, n, kind);
      hide Run, Next, ClearsStreak, Hits;
      forall k | i <= k < n ensures !IsClearing(l, s, before, k, kind) {
        assert before[..k] == ops[..k];
        assert !IsClearing(l, s, ops, k, kind);
      }
      assert before[..i] == ops[..i];
      StreakGrows(l, s, before, i, kind);
    }
  }

  /** So of two rate limits with no clearing success between them, whatever else lies there, the later one never
      cools the account shorter, and neither longer than the cap. */
  lemma LongerEachTime(l: Ladders, s: State, ops: seq<Op>, i: nat)
    requires s.risk >= 0 && i < |ops| - 1
    requires IsHit(l, s, ops, i, RateLimit) && IsHit(l, s, ops, |ops| - 1, RateLimit)
    requires forall k :: i < k < |ops| ==> !IsClearing(l, s, ops, k, RateLimit)
    ensures var t, u := Run(l, s, ops[..i + 1]), Run(l, s, ops);
            && t.coolingUntil.Some? && u.coolingUntil.Some?
            && t.coolingUntil.value - ops[i].now <= u.coolingUntil.value - ops[|ops| - 1].now <= l.cap
  {
    StreakGrows(l, s, ops, i + 1, RateLimit);
    assert ops[..i + 1][..i] == ops[..i];
    LastStep(l, s, ops[..i + 1]);
    LastStep(l, s, ops);
    RateLadder(l.cap, Run(l, s, ops[..i + 1]).rate, Run(l, s, ops).rate);
    hide Run, Step;
  }

  // ---- the account as an object ----------------------------------------------------------------

  class Account {
    var credential: Credential
    var enabled: bool
    var archived: bool
    var status: Status
    var coolingUntil: Option<int>
    var rateLimitStreak: int
    var riskControlStreak: int
    var upstream503Streak: int
    var useCount: int
    var failCount: int

    ghost function View(): State
      reads this
    {
      State(credential, enabled, archived, status, coolingUntil, rateLimitStreak, riskControlStreak, upstream503Streak,
            useCount, failCount)
    }

    constructor (credential: Credential)
      ensures View() == State(credential, true, false, Active, None, 0, 0, 0, 0, 0)
    {
      this.credential, enabled, archived, status, coolingUntil := credential, true, false, Active, None;
      rateLimitStreak, riskControlStreak, upstream503Streak, useCount, failCount := 0, 0, 0, 0, 0;
    }

    method AcceptsRequestResult(sent: Credential) returns (ok: bool)
      ensures ok <==> Accepts(View(), sent)
    {
      ok := credential == sent && enabled && status != Disabled && !archived;
    }

    /** The cooling time written, and the streak, which is 0 for a result that does not count. */
    method MarkRateLimited(l: Ladders, sent: Credential, now: int) returns (secs: int, streak: int)
      modifies this
      ensures View() == Hit(l, old(View()), RateLimit, sent, now)
      ensures old(Accepts(View(), sent)) ==> streak == rateLimitStreak && coolingUntil == Some(now + secs)
      ensures !old(Accepts(View(), sent)) ==> streak == 0 && secs == Step(RATE_STEPS, l.cap, 1)
    {
      var ok := AcceptsRequestResult(sent);
      if !ok { return Step(RATE_STEPS, l.cap, 1), 0; }
      rateLimitStreak := rateLimitStreak + 1;
      streak := rateLimitStreak;
      secs := Step(RATE_STEPS, l.cap, streak);
      status, coolingUntil := Cooling, Some(now + secs);
    }

    method MarkUpstreamUnavailable(l: Ladders, sent: Credential, now: int) returns (secs: int, streak: int)
      modifies this
      ensures View() == Hit(l, old(View()), Unavailable, sent, now)
      ensures old(Accepts(View(), sent)) ==> streak == upstream503Streak && coolingUntil == Some(now + secs)
    {
      var ok := AcceptsRequestResult(sent);
      if !ok { return Step(l.unavailable, l.cap, 1), 0; }
      failCount := failCount + 1;
      upstream503Streak := upstream503Streak + 1;
      streak := upstream503Streak;
      secs := Step(l.unavailable, l.cap, streak);
      status, coolingUntil := Cooling, Some(now + secs);
    }

    method ApplyRiskControl(l: Ladders, sent: Credential, now: int) returns (secs: int, streak: int, invalid: bool)
      modifies this
      ensures View() == Hit(l, old(View()), Risk, sent, now)
      ensures old(Accepts(View(), sent)) ==> streak == riskControlStreak && (invalid <==> status == Invalid)
    {
      var ok := AcceptsRequestResult(sent);
      if !ok { return 0, 0, false; }
      riskControlStreak := Max(0, riskControlStreak) + 1;
      streak := riskControlStreak;
      if streak > |l.risk| {
        status, coolingUntil := Invalid, None;
        return 0, streak, true;
      }
      secs := l.risk[streak - 1];
      status, coolingUntil := Cooling, Some(now + secs);
      invalid := false;
    }

    method MarkSuccess(sent: Credential, now: int)
      modifies this
      ensures View() == Success(old(View()), sent, now)
    {
      useCount := useCount + 1;
      var ok := AcceptsRequestResult(sent);
      if !ok { return; }
      if status == Invalid || (status == Cooling && coolingUntil.Some? && now < coolingUntil.value) { return; }
      rateLimitStreak, riskControlStreak, upstream503Streak := 0, 0, 0;
      if status == Cooling || status == Exhausted { status := Active; }
    }

    /** What a login or a changed secret does to the account; logging in also ends a cooldown. */
    method RenewLogin(login: Credential, dropCooling: bool)
      modifies this
      ensures View() == Renewed(old(View()), login, dropCooling)
    {
      credential, status, riskControlStreak := login, Active, 0;
      if dropCooling { coolingUntil := None; }
    }

    /** Manual recovery, refused unless risk control condemned the account. */
    method Recover(forRisk: bool, quiet: Option<int>) returns (done: bool)
      modifies this
      ensures done <==> Recoverable(old(View()), forRisk)
      ensures View() == if done then Recovered(old(View()), quiet) else old(View())
    {
      if archived || status != Invalid || !forRisk { return false; }
      status, coolingUntil, riskControlStreak := Active, None, 0;
      if quiet.Some? { status, coolingUntil := Cooling, quiet; }
      done := true;
    }

    method ProbeSucceeded(sent: Credential)
      modifies this
      ensures View() == if Accepts(old(View()), sent) then Probed(old(View())) else old(View())
    {
      var ok := AcceptsRequestResult(sent);
      if !ok { return; }
      riskControlStreak := 0;
      if status == Cooling { status := Active; }
    }
  }
}
