// The two nested loops of one request, with everything they send and write on record.
module RetryEngine {
  import opened Common
  import opened EngineSpec
  import Passthrough
  import PrebufferGate

  type Wire = seq<PrebufferGate.Wire>

  datatype Account = Account(id: string, isJwt: bool)

  /** What went out, in order: requests upstream, and what reached the client from an account's reply. */
  datatype Act = Sent(account: string) | Out(account: string, item: PrebufferGate.Wire)

  /** The clean lines that answered this request with risk control, and the accounts they hit. */
  class RiskScope {
    var lines: set<string>
    var accounts: set<string>

    constructor ()
      ensures lines == {} && accounts == {}
    {
      lines, accounts := {}, {};
    }

    /** Whether the content itself is to blame: enough different clean lines refused it. */
    method Verdict(account: string, lineKey: string, lineDirty: bool, threshold: nat) returns (stop: bool)
      modifies this
      ensures lines == if !lineDirty && lineKey != "" then old(lines) + {lineKey} else old(lines)
      ensures accounts == old(accounts) + {account}
      ensures stop <==> |lines| >= threshold
    {
      accounts := accounts + {account};
      if !lineDirty && lineKey != "" { lines := lines + {lineKey}; }
      stop := |lines| >= threshold;
    }
  }

  /** The lines counted after one more reply. */
  function LinesAfter(isJwt: bool, reply: Reply, lines: set<string>): set<string> {
    if reply.Refused? && AsksVerdict(isJwt, reply.refusal) then RiskLines(lines, reply.refusal) else lines
  }

  /** The branches in the order the engine takes them. */
  method HandleUpstreamError(cfg: Config, acc: Account, r: Refusal, b: Budget, scope: RiskScope)
    returns (result: Result, c: Budget)
    modifies scope
    ensures (result, c) == HandleError(cfg, acc.isJwt, r, b, old(scope.lines))
    ensures scope.lines == LinesAfter(acc.isJwt, Refused(r), old(scope.lines))
  {
    c := b;
    if r.body == Gone { return Final(RequestCanceled), c; }
    if r.body == Unreadable { return PLAIN_SWITCH, c; }
    if acc.isJwt && r.captcha {
      c := c.(captcha := c.captcha + 1);
      return (if c.captcha >= MAX_CAPTCHA_RETRIES then Final(CaptchaRequired) else RetrySame), c;
    }
    if r.status == 401 || r.status == 403 { return PLAIN_SWITCH, c; }
    if r.status == 402 { return PLAIN_SWITCH, c; }
    if r.concurrency {
      if cfg.busySwitchAfter > 0 && c.busy >= cfg.busySwitchAfter { return PLAIN_SWITCH, c; }
      if c.busy < cfg.busyDelays {
        c := c.(busy := c.busy + 1);
        return (if r.cancelled then Final(RequestCanceled) else RetrySame), c;
      }
      return Final(PassedThrough), c;
    }
    if r.overload {
      if c.overload < cfg.overloadDelays {
        c := c.(overload := c.overload + 1);
        return (if r.cancelled then Final(RequestCanceled) else RetrySame), c;
      }
      return Final(PassedThrough), c;
    }
    if r.status == 429 {
      if r.quota { return PLAIN_SWITCH, c; }
      if c.rate < MAX_RATE_LIMIT_RETRIES {
        c := c.(rate := c.rate + 1);
        return (if r.cancelled then Final(RequestCanceled) else RetrySame), c;
      }
      return PLAIN_SWITCH, c;
    }
    if r.status == 503 { return PLAIN_SWITCH, c; }
    if r.status == 405 && r.risk {
      var stop := scope.Verdict(acc.id, r.lineKey, r.dirty, cfg.riskLines);
      if stop { return Final(RiskStop), c; }
      return Switch(if r.proxied then r.identity else "", false, false, false), c;
    }
    if TimeoutStatus(r.status) && c.timeout < cfg.timeoutRetries {
      c := c.(timeout := c.timeout + 1);
      return Switch(r.identity, true, false, false), c;
    }
    return Final(PassedThrough), c;
  }

  function CountSent(acts: seq<Act>): nat {
    if acts == [] then 0 else CountSent(acts[..|acts| - 1]) + (if acts[|acts| - 1].Sent? then 1 else 0)
  }

  /** What an account's reply put on the client's connection. */
  function Outs(account: string, wire: Wire): seq<Act> {
    seq(|wire|, i requires 0 <= i < |wire| => Out(account, wire[i]))
  }

  /** Requests only: the client's connection is untouched. */
  predicate Untouched(acts: seq<Act>) {
    forall i :: 0 <= i < |acts| ==> acts[i].Sent?
  }

  lemma {:induction false} CountMore(acts: seq<Act>, account: string, wire: Wire)
    ensures CountSent(acts + Outs(account, wire)) == CountSent(acts)
    decreases |wire|
  {
    var outs := Outs(account, wire);
    if wire == [] {
      assert acts + outs == acts;
    } else {
      var n := |wire| - 1;
      CountMore(acts, account, wire[..n]);
      assert (acts + outs)[..|acts| + n] == acts + Outs(account, wire[..n]);
      assert (acts + outs)[|acts| + n] == outs[n];
    }
  }

  lemma CountSentOne(acts: seq<Act>, account: string)
    ensures CountSent(acts + [Sent(account)]) == CountSent(acts) + 1
  {
    assert (acts + [Sent(account)])[..|acts|] == acts;
  }

  /** What one turn may do to the clean lines seen: count one more, and stop the request at the threshold. */
  predicate LinesMove(cfg: Config, result: Result, before: set<string>, after: set<string>) {
    && before <= after && |after| <= |before| + 1
    && (result == Final(RiskStop) ==> |after| >= cfg.riskLines)
    && (result != Final(RiskStop) ==> after == before || |after| < cfg.riskLines)
    && (result.RetrySame? ==> after == before)
  }

  lemma ReplyMovesLines(cfg: Config, isJwt: bool, stream: bool, reply: Reply, outcome: Passthrough.Outcome, b: Budget,
                        lines: set<string>)
    ensures LinesMove(cfg, HandleReply(cfg, isJwt, stream, reply, outcome, b, lines).0, lines, LinesAfter(isJwt, reply, lines))
  {
    if reply.Refused? {
      RiskStopsExactly(cfg, isJwt, reply.refusal, b, lines);
      if AsksVerdict(isJwt, reply.refusal) { VerdictNeverRetries(cfg, isJwt, reply.refusal, b, lines); }
      hide HandleError;
      OneLineMore(lines, reply.refusal.lineKey);
    } else {
      NoRiskStop(cfg, isJwt, stream, reply, outcome, b, lines);
    }
  }

  lemma OneLineMore(lines: set<string>, line: string)
    ensures |lines + {line}| <= |lines| + 1
  {
    if line in lines { assert lines + {line} == lines; }
  }

  lemma NoRiskStop(cfg: Config, isJwt: bool, stream: bool, reply: Reply, outcome: Passthrough.Outcome, b: Budget,
                   lines: set<string>)
    requires !reply.Refused?
    ensures HandleReply(cfg, isJwt, stream, reply, outcome, b, lines).0 != Final(RiskStop)
  {}

  /** More requests in the log, and behind them what the account's reply put on the client's connection. */
  predicate Extends(before: seq<Act>, log: seq<Act>, account: string, wire: Wire) {
    && |before| + |wire| <= |log|
    && before <= log[..|log| - |wire|] && Untouched(log[..|log| - |wire|])
    && log[|log| - |wire|..] == Outs(account, wire)
  }

  /** What reached the client is what the delivery of this reply shows. */
  ghost predicate Carried(terms: Passthrough.Terms, reply: Reply, outcome: Passthrough.Outcome, wire: Wire) {
    (reply.Stream? || reply.Json?) && Passthrough.Showed(terms, DeliveryOf(reply), outcome, wire)
  }

  /** The clean lines after a turn. */
  function TurnLines(isJwt: bool, turn: Turn, lines: set<string>): set<string> {
    if GoesOut(isJwt, turn) then LinesAfter(isJwt, turn.reply, lines) else lines
  }

  /** The requests an account is sent in these turns. */
  function Sents(world: nat -> Turn, acc: Account, from: nat, to: nat): seq<Act> {
    if to <= from then []
    else Sents(world, acc, from, to - 1) + (if GoesOut(acc.isJwt, world(to - 1)) then [Sent(acc.id)] else [])
  }

  /** One turn, from the deadline check to the reply's handling. */
  method TakeTurn(cfg: Config, terms: Passthrough.Terms, acc: Account, stream: bool, turn: Turn, b: Budget, scope: RiskScope,
                  acts: seq<Act>)
    returns (result: Result, c: Budget, log: seq<Act>, outcome: Passthrough.Outcome, wire: Wire)
    requires Within(cfg, b) && Untouched(acts)
    modifies scope
    ensures Extends(acts, log, acc.id, wire) && CountSent(log) <= CountSent(acts) + 1
    ensures log == acts + (if GoesOut(acc.isJwt, turn) then [Sent(acc.id)] else []) + Outs(acc.id, wire)
    ensures wire != [] <==> result == Final(Delivered)
    ensures wire != [] ==> Carried(terms, turn.reply, outcome, wire)
    ensures result.RetrySame? ==> Within(cfg, c) && Spent(c) == Spent(b) + 1 && c.timeout == b.timeout
    ensures result.Switch? && result.timeoutRetry ==> b.timeout < cfg.timeoutRetries
    ensures LinesMove(cfg, result, old(scope.lines), scope.lines)
    ensures (result, c) == TurnOf(cfg, terms, acc.isJwt, stream, turn, b, old(scope.lines))
    ensures scope.lines == TurnLines(acc.isJwt, turn, old(scope.lines))
  {
    log, c, outcome, wire := acts, b, Passthrough.Unseen, [];
    if turn.late { return Final(DeadlineHit), c, log, outcome, wire; }
    if acc.isJwt && turn.tokenFails {
      c := c.(captcha := c.captcha + 1);
      return (if c.captcha < MAX_CAPTCHA_RETRIES then RetrySame else Final(CaptchaRequired)), c, log, outcome, wire;
    }
    if turn.unprepared { return Final(Unprepared), c, log, outcome, wire; }
    if turn.credentialBad { return PLAIN_SWITCH, c, log, outcome, wire; }
    hide CountSent, Carried, ReplyOf;
    result, c, log, outcome, wire := SendOne(cfg, terms, acc, stream, turn.reply, b, scope, acts);
  }

  /** The request goes out, and its reply is handled. */
  method SendOne(cfg: Config, terms: Passthrough.Terms, acc: Account, stream: bool, reply: Reply, b: Budget,
                 scope: RiskScope, acts: seq<Act>)
    returns (result: Result, c: Budget, log: seq<Act>, outcome: Passthrough.Outcome, wire: Wire)
    requires Within(cfg, b) && Untouched(acts)
    modifies scope
    ensures Extends(acts, log, acc.id, wire) && CountSent(log) <= CountSent(acts) + 1
    ensures log == acts + [Sent(acc.id)] + Outs(acc.id, wire)
    ensures wire != [] <==> result == Final(Delivered)
    ensures Begins(stream, reply) && wire == [] <==> result.Switch? && result.early
    ensures wire != [] ==> Carried(terms, reply, outcome, wire)
    ensures result.RetrySame? ==> Within(cfg, c) && Spent(c) == Spent(b) + 1 && c.timeout == b.timeout
    ensures result.Switch? && result.timeoutRetry ==> b.timeout < cfg.timeoutRetries
    ensures LinesMove(cfg, result, old(scope.lines), scope.lines)
    ensures (result, c) == ReplyOf(cfg, terms, acc.isJwt, stream, reply, b, old(scope.lines))
    ensures scope.lines == LinesAfter(acc.isJwt, reply, old(scope.lines))
  {
    ghost var lines := scope.lines;
    hide ReplyOf, ShowsNothing, CountSent, HandleReply, LinesMove, LinesAfter, Within, Spent, Extends, Untouched, Outs, Carried;
    outcome, wire := PassReply(terms, stream, reply);
    result, c := HandleOne(cfg, acc, stream, reply, outcome, b, scope);
    SameAnswer(cfg, terms, acc.isJwt, stream, reply, outcome, b, lines);
    RetryIsPaid(cfg, acc.isJwt, stream, reply, outcome, b, lines);
    WritingIsFinal(cfg, acc.isJwt, stream, reply, outcome, b, lines);
    ReplyMovesLines(cfg, acc.isJwt, stream, reply, outcome, b, lines);
    LogTurn(acts, acc.id, wire);
    log := acts + [Sent(acc.id)] + Outs(acc.id, wire);
  }

  /** A reply that is to be passed on goes through a gate of its own to the client. */
  method PassReply(terms: Passthrough.Terms, stream: bool, reply: Reply) returns (outcome: Passthrough.Outcome, wire: Wire)
    ensures wire != [] <==> Begins(stream, reply) && (reply.Stream? ==> outcome != Passthrough.Unseen)
    ensures wire != [] ==> Carried(terms, reply, outcome, wire)
    ensures reply.Stream? ==> (outcome == Passthrough.Unseen <==> ShowsNothing(terms, reply))
  {
    outcome, wire := Passthrough.Unseen, [];
    hide Passthrough.CalledFor;
    if Begins(stream, reply) {
      outcome, wire := Passthrough.PassOn(terms, DeliveryOf(reply));
    }
  }

  lemma LogTurn(acts: seq<Act>, id: string, wire: Wire)
    requires Untouched(acts)
    ensures var log := acts + [Sent(id)] + Outs(id, wire);
            Extends(acts, log, id, wire) && CountSent(log) == CountSent(acts) + 1
  {
    var sent := acts + [Sent(id)];
    var log := sent + Outs(id, wire);
    assert log[..|log| - |wire|] == sent && log[|log| - |wire|..] == Outs(id, wire);
    CountSentOne(acts, id);
    CountMore(sent, id, wire);
  }

  /** What is the same for the whole of a request. */
  datatype Request = Request(cfg: Config, terms: Passthrough.Terms, stream: bool, world: nat -> Turn)

  /** The budget of an account before its n-th turn. */
  ghost function BudgetAt(rq: Request, isJwt: bool, start: nat, timeouts: nat, lines: set<string>, n: nat): Budget {
    if n == 0 then Budget(0, 0, 0, 0, timeouts)
    else TurnOf(rq.cfg, rq.terms, isJwt, rq.stream, rq.world(start + n - 1), BudgetAt(rq, isJwt, start, timeouts, lines, n - 1), lines).1
  }

  ghost function AnswerAt(rq: Request, isJwt: bool, start: nat, timeouts: nat, lines: set<string>, n: nat): Result {
    TurnOf(rq.cfg, rq.terms, isJwt, rq.stream, rq.world(start + n), BudgetAt(rq, isJwt, start, timeouts, lines, n), lines).0
  }

  /** An account's turns go from `start` to `next`, and its result is the first answer that asks for no retry. */
  ghost predicate FirstAnswer(rq: Request, isJwt: bool, start: nat, timeouts: nat, lines: set<string>, next: nat,
                              result: Result, after: set<string>)
  {
    && start < next && !result.RetrySame?
    && (forall n :: 0 <= n < next - 1 - start ==> AnswerAt(rq, isJwt, start, timeouts, lines, n) == RetrySame)
    && AnswerAt(rq, isJwt, start, timeouts, lines, next - 1 - start) == result
    && after == TurnLines(isJwt, rq.world(next - 1), lines)
  }

  /** The first n turns of an account all asked for another try, and left this budget. */
  ghost predicate Retrying(rq: Request, isJwt: bool, start: nat, timeouts: nat, lines: set<string>, n: nat, next: nat, b: Budget) {
    && next == start + n && b == BudgetAt(rq, isJwt, start, timeouts, lines, n)
    && forall m :: 0 <= m < n ==> AnswerAt(rq, isJwt, start, timeouts, lines, m) == RetrySame
  }

  lemma RetryingStarts(rq: Request, isJwt: bool, start: nat, timeouts: nat, lines: set<string>)
    ensures Retrying(rq, isJwt, start, timeouts, lines, 0, start, Budget(0, 0, 0, 0, timeouts))
  {}

  lemma RetryingMore(rq: Request, isJwt: bool, start: nat, timeouts: nat, lines: set<string>, n: nat, next: nat, b: Budget,
                     result: Result, c: Budget)
    requires Retrying(rq, isJwt, start, timeouts, lines, n, next, b)
    requires (result, c) == TurnOf(rq.cfg, rq.terms, isJwt, rq.stream, rq.world(next), b, lines)
    ensures result.RetrySame? ==> Retrying(rq, isJwt, start, timeouts, lines, n + 1, next + 1, c)
    ensures !result.RetrySame? ==>
              FirstAnswer(rq, isJwt, start, timeouts, lines, next + 1, result, TurnLines(isJwt, rq.world(next), lines))
  {
    hide TurnOf, TurnLines;
    assert AnswerAt(rq, isJwt, start, timeouts, lines, n) == result;
  }

  /** Between two turns of an account: only requests so far, and a retry left for each turn that is still to come. */
  ghost predicate Open(rq: Request, acc: Account, start: nat, timeouts: nat, lines: set<string>, acts: seq<Act>, n: nat,
                       next: nat, b: Budget, log: seq<Act>)
  {
    && Retrying(rq, acc.isJwt, start, timeouts, lines, n, next, b)
    && n == Spent(b) && Within(rq.cfg, b) && b.timeout == timeouts
    && acts <= log && Untouched(log) && CountSent(log) <= CountSent(acts) + n
    && log == acts + Sents(rq.world, acc, start, next)
  }

  /** The account is done with. */
  ghost predicate Closed(rq: Request, acc: Account, start: nat, timeouts: nat, lines: set<string>, after: set<string>,
                         acts: seq<Act>, next: nat, result: Result, log: seq<Act>, outcome: Passthrough.Outcome, wire: Wire)
  {
    && !result.RetrySame?
    && Extends(acts, log, acc.id, wire) && CountSent(log) <= CountSent(acts) + MostRequests(rq.cfg)
    && (wire != [] <==> result == Final(Delivered))
    && (wire != [] ==> next > 0 && Carried(rq.terms, rq.world(next - 1).reply, outcome, wire))
    && (result.Switch? && result.timeoutRetry ==> timeouts < rq.cfg.timeoutRetries)
    && log == acts + Sents(rq.world, acc, start, next) + Outs(acc.id, wire)
    && LinesMove(rq.cfg, result, lines, after)
    && FirstAnswer(rq, acc.isJwt, start, timeouts, lines, next, result, after)
  }

  lemma OpensFirst(rq: Request, acc: Account, start: nat, timeouts: nat, lines: set<string>, acts: seq<Act>)
    requires Untouched(acts)
    ensures Open(rq, acc, start, timeouts, lines, acts, 0, start, Budget(0, 0, 0, 0, timeouts), acts)
  {
    RetryingStarts(rq, acc.isJwt, start, timeouts, lines);
    hide Retrying, CountSent;
  }

  lemma NeverRunsOut(rq: Request, acc: Account, start: nat, timeouts: nat, lines: set<string>, acts: seq<Act>, n: nat,
                     next: nat, b: Budget, log: seq<Act>)
    requires Open(rq, acc, start, timeouts, lines, acts, n, next, b, log)
    ensures n < MostRequests(rq.cfg)
  {
    SpentIsBounded(rq.cfg, b);
    hide Retrying, CountSent;
  }

  lemma SentsMore(world: nat -> Turn, acc: Account, from: nat, to: nat, acts: seq<Act>)
    requires from <= to
    ensures acts + Sents(world, acc, from, to + 1) ==
              acts + Sents(world, acc, from, to) + (if GoesOut(acc.isJwt, world(to)) then [Sent(acc.id)] else [])
  {}

  lemma NothingOut(log: seq<Act>, id: string)
    ensures log + Outs(id, []) == log
  {}

  /** What a turn has led to. */
  ghost predicate Turned(rq: Request, acc: Account, lines: set<string>, after: set<string>, next: nat, b: Budget, log: seq<Act>,
                         result: Result, c: Budget, more: seq<Act>, outcome: Passthrough.Outcome, wire: Wire)
  {
    && Extends(log, more, acc.id, wire) && CountSent(more) <= CountSent(log) + 1
    && more == log + (if GoesOut(acc.isJwt, rq.world(next)) then [Sent(acc.id)] else []) + Outs(acc.id, wire)
    && (wire != [] <==> result == Final(Delivered))
    && (wire != [] ==> Carried(rq.terms, rq.world(next).reply, outcome, wire))
    && (result.RetrySame? ==> Within(rq.cfg, c) && Spent(c) == Spent(b) + 1 && c.timeout == b.timeout)
    && (result.Switch? && result.timeoutRetry ==> b.timeout < rq.cfg.timeoutRetries)
    && LinesMove(rq.cfg, result, lines, after)
    && (result, c) == TurnOf(rq.cfg, rq.terms, acc.isJwt, rq.stream, rq.world(next), b, lines)
    && after == TurnLines(acc.isJwt, rq.world(next), lines)
  }

  lemma TurnAgain(rq: Request, acc: Account, start: nat, timeouts: nat, lines: set<string>, after: set<string>, acts: seq<Act>,
                  n: nat, next: nat, b: Budget, log: seq<Act>, result: Result, c: Budget, more: seq<Act>,
                  outcome: Passthrough.Outcome, wire: Wire)
    requires Open(rq, acc, start, timeouts, lines, acts, n, next, b, log)
    requires Turned(rq, acc, lines, after, next, b, log, result, c, more, outcome, wire) && result.RetrySame?
    ensures after == lines && n + 1 < MostRequests(rq.cfg)
    ensures Open(rq, acc, start, timeouts, after, acts, n + 1, next + 1, c, more)
  {
    hide LinesMove, CountSent, Carried, TurnOf, TurnLines, Retrying, Within, Extends, Untouched, MostRequests, GoesOut, Outs, Spent;
    StillStarting(rq, acc, start, timeouts, lines, acts, n, next, b, log);
    SentsMore(rq.world, acc, start, next, acts);
    ExtendsMore(acts, log, more, acc.id, wire);
    NothingOut(acts + Sents(rq.world, acc, start, next + 1), acc.id);
    RetryingMore(rq, acc.isJwt, start, timeouts, lines, n, next, b, result, c);
    SameLines(rq.cfg, result, lines, after);
    NeverRunsOut(rq, acc, start, timeouts, after, acts, n + 1, next + 1, c, more);
  }

  lemma TurnLast(rq: Request, acc: Account, start: nat, timeouts: nat, lines: set<string>, after: set<string>, acts: seq<Act>,
                 n: nat, next: nat, b: Budget, log: seq<Act>, result: Result, c: Budget, more: seq<Act>,
                 outcome: Passthrough.Outcome, wire: Wire)
    requires Open(rq, acc, start, timeouts, lines, acts, n, next, b, log)
    requires Turned(rq, acc, lines, after, next, b, log, result, c, more, outcome, wire) && !result.RetrySame?
    ensures Closed(rq, acc, start, timeouts, lines, after, acts, next + 1, result, more, outcome, wire)
  {
    hide LinesMove, CountSent, Carried, TurnOf, TurnLines, Retrying, Within, Extends, Untouched, MostRequests, GoesOut, Outs, Spent,
         FirstAnswer;
    StillStarting(rq, acc, start, timeouts, lines, acts, n, next, b, log);
    NeverRunsOut(rq, acc, start, timeouts, lines, acts, n, next, b, log);
    SentsMore(rq.world, acc, start, next, acts);
    ExtendsMore(acts, log, more, acc.id, wire);
    RetryingMore(rq, acc.isJwt, start, timeouts, lines, n, next, b, result, c);
  }

  lemma StillStarting(rq: Request, acc: Account, start: nat, timeouts: nat, lines: set<string>, acts: seq<Act>, n: nat,
                      next: nat, b: Budget, log: seq<Act>)
    requires Open(rq, acc, start, timeouts, lines, acts, n, next, b, log)
    ensures start <= next
  {
    hide CountSent, Untouched, Sents;
  }

  /** The next turn of an account. */
  method OneTurn(cfg: Config, terms: Passthrough.Terms, acc: Account, stream: bool, world: nat -> Turn, next: nat, b: Budget,
                 scope: RiskScope, log: seq<Act>, ghost start: nat, ghost timeouts: nat, ghost acts: seq<Act>, ghost n: nat)
    returns (result: Result, c: Budget, more: seq<Act>, outcome: Passthrough.Outcome, wire: Wire)
    requires Open(Request(cfg, terms, stream, world), acc, start, timeouts, scope.lines, acts, n, next, b, log)
    modifies scope
    ensures var rq := Request(cfg, terms, stream, world);
            if result.RetrySame?
            then scope.lines == old(scope.lines) && n + 1 < MostRequests(cfg) &&
                 Open(rq, acc, start, timeouts, scope.lines, acts, n + 1, next + 1, c, more)
            else Closed(rq, acc, start, timeouts, old(scope.lines), scope.lines, acts, next + 1, result, more, outcome, wire)
  {
    ghost var rq, lines := Request(cfg, terms, stream, world), scope.lines;
    OpenBudget(rq, acc, start, timeouts, lines, acts, n, next, b, log);
    hide LinesMove, CountSent, Carried, TurnOf, TurnLines, Within, Extends, Untouched, MostRequests, Spent, GoesOut, Outs, Open, Closed;
    result, c, more, outcome, wire := TakeTurn(cfg, terms, acc, stream, world(next), b, scope, log);
    if result.RetrySame? {
      TurnAgain(rq, acc, start, timeouts, lines, scope.lines, acts, n, next, b, log, result, c, more, outcome, wire);
    } else {
      TurnLast(rq, acc, start, timeouts, lines, scope.lines, acts, n, next, b, log, result, c, more, outcome, wire);
    }
  }

  lemma OpenBudget(rq: Request, acc: Account, start: nat, timeouts: nat, lines: set<string>, acts: seq<Act>, n: nat,
                   next: nat, b: Budget, log: seq<Act>)
    requires Open(rq, acc, start, timeouts, lines, acts, n, next, b, log)
    ensures Within(rq.cfg, b) && Untouched(log)
  {}

  /** One account: `world(k)` answers turn `k`.  The loop has a budget of turns, and never runs out of it. */
  method TryAccount(cfg: Config, terms: Passthrough.Terms, acc: Account, stream: bool, world: nat -> Turn, start: nat,
                    timeoutRetries: nat, scope: RiskScope, acts: seq<Act>)
    returns (result: Result, log: seq<Act>, next: nat, outcome: Passthrough.Outcome, wire: Wire, ranOut: bool)
    requires Untouched(acts)
    modifies scope
    ensures !ranOut && !result.RetrySame?
    ensures Extends(acts, log, acc.id, wire) && CountSent(log) <= CountSent(acts) + MostRequests(cfg)
    ensures log == acts + Sents(world, acc, start, next) + Outs(acc.id, wire)
    ensures wire != [] <==> result == Final(Delivered)
    ensures wire != [] ==> next > 0 && Carried(terms, world(next - 1).reply, outcome, wire)
    ensures result.Switch? && result.timeoutRetry ==> timeoutRetries < cfg.timeoutRetries
    ensures LinesMove(cfg, result, old(scope.lines), scope.lines)
    ensures FirstAnswer(Request(cfg, terms, stream, world), acc.isJwt, start, timeoutRetries, old(scope.lines), next, result,
                        scope.lines)
  {
    hide LinesMove, CountSent, Carried, FirstAnswer, Extends, Untouched;
    result, log, next, outcome, wire, ranOut := Turns(cfg, terms, acc, stream, world, start, timeoutRetries, scope, acts);
  }

  /** The loop over an account's turns. */
  method Turns(cfg: Config, terms: Passthrough.Terms, acc: Account, stream: bool, world: nat -> Turn, start: nat,
               timeoutRetries: nat, scope: RiskScope, acts: seq<Act>)
    returns (result: Result, log: seq<Act>, next: nat, outcome: Passthrough.Outcome, wire: Wire, ranOut: bool)
    requires Untouched(acts)
    modifies scope
    ensures !ranOut
    ensures Closed(Request(cfg, terms, stream, world), acc, start, timeoutRetries, old(scope.lines), scope.lines, acts, next,
                   result, log, outcome, wire)
  {
    ghost var rq := Request(cfg, terms, stream, world);
    var b := Budget(0, 0, 0, 0, timeoutRetries);
    var budget := 1 + MAX_CAPTCHA_RETRIES + cfg.busyDelays + MAX_RATE_LIMIT_RETRIES + cfg.overloadDelays;
    log, next, outcome, wire := acts, start, Passthrough.Unseen, [];
    OpensFirst(rq, acc, start, timeoutRetries, scope.lines, acts);
    hide Open, Closed;
    for n := 0 to budget
      invariant scope.lines == old(scope.lines) && n < MostRequests(cfg)
      invariant Open(rq, acc, start, timeoutRetries, scope.lines, acts, n, next, b, log)
    {
      result, b, log, outcome, wire := OneTurn(cfg, terms, acc, stream, world, next, b, scope, log, start, timeoutRetries, acts, n);
      next := next + 1;
      if !result.RetrySame? { return result, log, next, outcome, wire, false; }
    }
    assert false;
    return (if acc.isJwt then Final(CaptchaRequired) else PLAIN_SWITCH), log, next, outcome, wire, true;
  }

  lemma ExtendsMore(first: seq<Act>, before: seq<Act>, log: seq<Act>, account: string, wire: Wire)
    requires first <= before && Extends(before, log, account, wire)
    ensures Extends(first, log, account, wire)
    ensures wire == [] ==> first <= log && Untouched(log)
  {
    if wire == [] { assert log[..|log|] == log; }
  }

  lemma SameLines(cfg: Config, result: Result, before: set<string>, after: set<string>)
    requires LinesMove(cfg, result, before, after) && result.RetrySame?
    ensures after == before
  {}

  method HandleOne(cfg: Config, acc: Account, stream: bool, reply: Reply, outcome: Passthrough.Outcome, b: Budget,
                   scope: RiskScope)
    returns (result: Result, c: Budget)
    modifies scope
    ensures (result, c) == HandleReply(cfg, acc.isJwt, stream, reply, outcome, b, old(scope.lines))
    ensures scope.lines == LinesAfter(acc.isJwt, reply, old(scope.lines))
  {
    c := b;
    match reply {
      case ClientGone => result := Final(RequestCanceled);
      case UplinkSlow(i) => result := Switch(i, false, true, false);
      case FirstByteLate(i) => result := Switch(i, false, false, false);
      case ConnectionFailed(i) => result := Switch(i, false, false, false);
      case Redirect => result := Final(UnexpectedRedirect);
      case Refused(r) => result, c := HandleUpstreamError(cfg, acc, r, b, scope);
      case Json(j, _, _) =>
        var pair := HandleJson(acc.isJwt, stream, j, b);
        result, c := pair.0, pair.1;
      case Stream(_, i) =>
        result := if outcome == Passthrough.Unseen then Switch(i, false, false, true) else Final(Delivered);
    }
  }

  /** The client's connection: what was put on it, in order. */
  function OnWire(acts: seq<Act>): Wire {
    if acts == [] then []
    else (if acts[0].Out? then [acts[0].item] else []) + OnWire(acts[1..])
  }

  /** Once an account's reply has put anything on the client's connection, only that account's does, and no
      request goes upstream any more. */
  predicate OneSource(acts: seq<Act>) {
    forall i, j :: 0 <= i < j < |acts| && acts[i].Out? ==> acts[j].Out? && acts[j].account == acts[i].account
  }

  lemma {:induction false} OnWireOf(sent: seq<Act>, account: string, wire: Wire)
    requires Untouched(sent)
    ensures OnWire(sent + Outs(account, wire)) == wire
    decreases |sent| + |wire|
  {
    var log := sent + Outs(account, wire);
    if sent != [] {
      assert log[1..] == sent[1..] + Outs(account, wire);
      OnWireOf(sent[1..], account, wire);
    } else if wire != [] {
      assert log[1..] == [] + Outs(account, wire[1..]);
      OnWireOf([], account, wire[1..]);
      assert wire == [wire[0]] + wire[1..];
    }
  }

  lemma ExtendedSource(before: seq<Act>, log: seq<Act>, account: string, wire: Wire)
    requires Extends(before, log, account, wire)
    ensures OneSource(log) && OnWire(log) == wire
    ensures OutBy(log, account)
  {
    var sent := log[..|log| - |wire|];
    assert log == sent + Outs(account, wire);
    OnWireOf(sent, account, wire);
  }

  /** All items on the client's connection come from this account. */
  predicate OutBy(acts: seq<Act>, account: string) {
    forall i :: 0 <= i < |acts| && acts[i].Out? ==> acts[i].account == account
  }

  /** An account that was tried: its turns, how it ended, and the clean lines before and after it. */
  datatype Trial = Trial(account: Account, start: nat, next: nat, result: Result, before: set<string>, after: set<string>)

  function Ids(trials: seq<Trial>): set<string> {
    if trials == [] then {} else Ids(trials[..|trials| - 1]) + {trials[|trials| - 1].account.id}
  }

  /** The lines to avoid after these trials. */
  function Avoided(trials: seq<Trial>): set<string> {
    if trials == [] then {}
    else
      var r := trials[|trials| - 1].result;
      Avoided(trials[..|trials| - 1]) + (if r.Switch? && r.avoid != "" then {r.avoid} else {})
  }

  function Timeouts(trials: seq<Trial>): nat {
    if trials == [] then 0
    else
      var r := trials[|trials| - 1].result;
      Timeouts(trials[..|trials| - 1]) + (if r.Switch? && r.timeoutRetry then 1 else 0)
  }

  /** The requests sent in these trials, in order. */
  function AllSents(world: nat -> Turn, trials: seq<Trial>): seq<Act> {
    if trials == [] then []
    else
      var t := trials[|trials| - 1];
      AllSents(world, trials[..|trials| - 1]) + Sents(world, t.account, t.start, t.next)
  }

  /** The clean lines that had answered with risk control by the end of these trials. */
  function LinesOf(trials: seq<Trial>): set<string> {
    if trials == [] then {} else trials[|trials| - 1].after
  }

  type Select = (set<string>, set<string>, nat) -> Option<Account>

  /** The k-th trial is of the account the store offers for what was tried and is to be avoided by then; it goes on
      where the one before it stopped. */
  ghost predicate TrialOk(rq: Request, select: Select, late: nat -> bool, avoid: set<string>, trials: seq<Trial>, k: nat)
    requires k < |trials|
  {
    var t := trials[k];
    && !late(k) && select(Ids(trials[..k]), avoid + Avoided(trials[..k]), k) == Some(t.account)
    && t.start == (if k == 0 then 0 else trials[k - 1].next)
    && t.before == (if k == 0 then {} else trials[k - 1].after)
    && FirstAnswer(rq, t.account.isJwt, t.start, Timeouts(trials[..k]), t.before, t.next, t.result, t.after)
    && (k < |trials| - 1 ==> t.result.Switch?)
  }

  ghost predicate History(rq: Request, select: Select, late: nat -> bool, avoid: set<string>, trials: seq<Trial>) {
    forall k :: 0 <= k < |trials| ==> TrialOk(rq, select, late, avoid, trials, k)
  }

  /** Why the request is over: as its last account ended, or else since time is up or no account is left. */
  ghost predicate EndsAs(select: Select, late: nat -> bool, avoid: set<string>, trials: seq<Trial>, why: Why) {
    var n := |trials|;
    if n > 0 && trials[n - 1].result.Final? then why == trials[n - 1].result.why
    else
      || (why == DeadlineHit && n < MAX_ACCOUNT_ATTEMPTS && late(n))
      || (why == NoAccount &&
          (n == MAX_ACCOUNT_ATTEMPTS || (!late(n) && select(Ids(trials), avoid + Avoided(trials), n).None?)))
  }

  /** The trial ended with risk control over this clean line. */
  predicate Refuses(world: nat -> Turn, t: Trial, line: string) {
    && t.next > 0 && line != ""
    && var turn := world(t.next - 1);
       && GoesOut(t.account.isJwt, turn) && turn.reply.Refused? && AsksVerdict(t.account.isJwt, turn.reply.refusal)
       && !turn.reply.refusal.dirty && turn.reply.refusal.lineKey == line
  }

  /** A line is counted against the content exactly if a trial ended with risk control over it and it was clean. */
  lemma {:induction false} CleanLinesExactly(rq: Request, select: Select, late: nat -> bool, avoid: set<string>,
                                             trials: seq<Trial>, line: string)
    requires History(rq, select, late, avoid, trials)
    ensures line in LinesOf(trials) <==> exists k :: 0 <= k < |trials| && Refuses(rq.world, trials[k], line)
  {
    if trials != [] {
      var n := |trials| - 1;
      var less := trials[..n];
      assert TrialOk(rq, select, late, avoid, trials, n);
      forall k | 0 <= k < n ensures TrialOk(rq, select, late, avoid, less, k) {
        assert TrialOk(rq, select, late, avoid, trials, k);
        assert less[..k] == trials[..k];
      }
      CleanLinesExactly(rq, select, late, avoid, less, line);
      assert trials[n].before == LinesOf(less);
      assert line in trials[n].after <==> line in trials[n].before || Refuses(rq.world, trials[n], line);
      assert forall k :: 0 <= k < n ==> trials[k] == less[k];
    }
  }

  predicate TriedIn(tried: seq<string>, trials: seq<Trial>) {
    |tried| == |trials| && forall k :: 0 <= k < |tried| ==> tried[k] == trials[k].account.id
  }

  /** One account within a request that has sent nothing to its client yet and tried `accounts` before. */
  method Attempt(cfg: Config, terms: Passthrough.Terms, acc: Account, stream: bool, world: nat -> Turn, start: nat,
                 timeoutRetries: nat, scope: RiskScope, acts: seq<Act>, ghost accounts: nat)
    returns (result: Result, log: seq<Act>, next: nat, outcome: Passthrough.Outcome)
    requires Untouched(acts) && CountSent(acts) <= accounts * MostRequests(cfg) && |scope.lines| < cfg.riskLines
    modifies scope
    ensures !result.RetrySame? && CountSent(log) <= (accounts + 1) * MostRequests(cfg)
    ensures log == acts + Sents(world, acc, start, next) + Outs(acc.id, OnWire(log))
    ensures OneSource(log) && OutBy(log, acc.id) && (OnWire(log) != [] <==> result == Final(Delivered))
    ensures OnWire(log) == [] ==> Untouched(log)
    ensures result == Final(Delivered) ==> next > 0 && Carried(terms, world(next - 1).reply, outcome, OnWire(log))
    ensures result.Switch? && result.timeoutRetry ==> timeoutRetries < cfg.timeoutRetries
    ensures |scope.lines| <= cfg.riskLines && (|scope.lines| == cfg.riskLines <==> result == Final(RiskStop))
    ensures FirstAnswer(Request(cfg, terms, stream, world), acc.isJwt, start, timeoutRetries, old(scope.lines), next, result,
                        scope.lines)
  {
    ghost var lines := scope.lines;
    var wire, ranOut;
    hide MostRequests, CountSent, Carried, Extends, OnWire, OneSource, LinesMove, Untouched, OutBy, FirstAnswer;
    result, log, next, outcome, wire, ranOut := TryAccount(cfg, terms, acc, stream, world, start, timeoutRetries, scope, acts);
    OneMoreAccount(cfg, accounts, CountSent(acts), CountSent(log));
    LinesSoFar(cfg, result, lines, scope.lines);
    ExtendedSource(acts, log, acc.id, wire);
    ExtendsMore(acts, acts, log, acc.id, wire);
  }

  /** A whole request: at most five different accounts, each once; `select` never offers a tried one.  `avoid` are
      the lines this content was cut off on lately.  `trials` tells how the accounts ended: the request goes on after
      every switch, and gives up only after five accounts or when none is offered for what was tried and is to be
      avoided.  Whatever reaches the client, header included, comes from the last account's last reply; at every
      switch and retry before that, and at every other end of the request, its connection is untouched. */
  method RunMessages(cfg: Config, terms: Passthrough.Terms, stream: bool, select: Select, world: nat -> Turn,
                     late: nat -> bool, avoid: set<string>)
    returns (why: Why, tried: seq<string>, log: seq<Act>, timeoutSwitches: nat, scope: RiskScope, turns: nat,
             outcome: Passthrough.Outcome, ghost trials: seq<Trial>)
    requires cfg.riskLines >= 1
    requires NeverTried(select)
    ensures |tried| <= MAX_ACCOUNT_ATTEMPTS && Distinct(tried)
    ensures CountSent(log) <= |tried| * MostRequests(cfg)
    ensures timeoutSwitches <= cfg.timeoutRetries
    ensures OneSource(log) && (OnWire(log) != [] <==> why == Delivered)
    ensures why == Delivered ==> tried != [] && OutBy(log, tried[|tried| - 1])
    ensures why == Delivered ==> turns > 0 && Carried(terms, world(turns - 1).reply, outcome, OnWire(log))
    ensures fresh(scope) && |scope.lines| <= cfg.riskLines
    ensures |scope.lines| == cfg.riskLines <==> why == RiskStop
    ensures TriedIn(tried, trials) && History(Request(cfg, terms, stream, world), select, late, avoid, trials)
    ensures EndsAs(select, late, avoid, trials, why) && timeoutSwitches == Timeouts(trials)
    ensures why == DeadlineHit ==> (|tried| < MAX_ACCOUNT_ATTEMPTS && late(|tried|)) || (turns > 0 && world(turns - 1).late)
    ensures Recorded(world, trials, tried, log) && scope.lines == LinesOf(trials)
  {
    scope := new RiskScope();
    why, tried, log, timeoutSwitches, turns, outcome, trials :=
      TryAccounts(cfg, terms, stream, select, world, late, avoid, scope);
    hide CountSent, MostRequests, OneSource, OnWire, OutBy, Carried, History, EndsAs, TriedIn, Recorded, Timeouts;
  }

  /** The whole of a request that is over. */
  ghost predicate Over(cfg: Config, terms: Passthrough.Terms, world: nat -> Turn, why: Why, tried: seq<string>,
                       log: seq<Act>, timeoutSwitches: nat, lines: set<string>, turns: nat, outcome: Passthrough.Outcome)
  {
    && |tried| <= MAX_ACCOUNT_ATTEMPTS && Distinct(tried)
    && CountSent(log) <= |tried| * MostRequests(cfg)
    && timeoutSwitches <= cfg.timeoutRetries
    && OneSource(log) && (OnWire(log) != [] <==> why == Delivered)
    && (why == Delivered ==> tried != [] && OutBy(log, tried[|tried| - 1]))
    && (why == Delivered ==> turns > 0 && Carried(terms, world(turns - 1).reply, outcome, OnWire(log)))
    && |lines| <= cfg.riskLines && (|lines| == cfg.riskLines <==> why == RiskStop)
  }

  /** A request between two accounts: nothing has reached the client, and no threshold has been crossed. */
  ghost predicate Going(cfg: Config, tried: seq<string>, used: set<string>, log: seq<Act>, timeoutSwitches: nat, lines: set<string>) {
    && Distinct(tried) && (forall id :: id in tried ==> id in used)
    && CountSent(log) <= |tried| * MostRequests(cfg)
    && timeoutSwitches <= cfg.timeoutRetries && Untouched(log) && |lines| < cfg.riskLines
  }

  /** The trials so far, all of which ended in a switch unless the request is over with the last. */
  ghost predicate Trail(rq: Request, select: Select, late: nat -> bool, avoid: set<string>, trials: seq<Trial>,
                        tried: seq<string>, used: set<string>, avoided: set<string>, timeouts: nat, turns: nat, lines: set<string>)
  {
    && History(rq, select, late, avoid, trials) && TriedIn(tried, trials)
    && used == Ids(trials) && avoided == avoid + Avoided(trials) && timeouts == Timeouts(trials)
    && turns == (if trials == [] then 0 else trials[|trials| - 1].next) && lines == LinesOf(trials)
  }

  lemma TrailStarts(rq: Request, select: Select, late: nat -> bool, avoid: set<string>)
    ensures Trail(rq, select, late, avoid, [], [], {}, avoid, 0, 0, {})
  {}

  lemma TrailMore(rq: Request, select: Select, late: nat -> bool, avoid: set<string>, trials: seq<Trial>,
                  tried: seq<string>, used: set<string>, avoided: set<string>, timeouts: nat, turns: nat, lines: set<string>,
                  t: Trial)
    requires Trail(rq, select, late, avoid, trials, tried, used, avoided, timeouts, turns, lines)
    requires trials != [] ==> trials[|trials| - 1].result.Switch?
    requires !late(|trials|) && select(used, avoided, |trials|) == Some(t.account) && t.start == turns && t.before == lines
    requires FirstAnswer(rq, t.account.isJwt, turns, timeouts, lines, t.next, t.result, t.after)
    ensures var switch := t.result.Switch?;
            Trail(rq, select, late, avoid, trials + [t], tried + [t.account.id], used + {t.account.id},
                  if switch && t.result.avoid != "" then avoided + {t.result.avoid} else avoided,
                  if switch && t.result.timeoutRetry then timeouts + 1 else timeouts, t.next, t.after)
  {
    hide FirstAnswer;
    var more := trials + [t];
    assert more[..|trials|] == trials && more[|trials|] == t;
    forall k | 0 <= k < |more| ensures TrialOk(rq, select, late, avoid, more, k) {
      if k < |trials| {
        assert TrialOk(rq, select, late, avoid, trials, k);
        assert more[..k] == trials[..k] && more[k] == trials[k];
      }
    }
  }

  lemma DeadlineExactly(rq: Request, isJwt: bool, start: nat, timeouts: nat, lines: set<string>, next: nat, result: Result,
                        after: set<string>)
    requires FirstAnswer(rq, isJwt, start, timeouts, lines, next, result, after)
    ensures result == Final(DeadlineHit) <==> rq.world(next - 1).late
    ensures result != Final(NoAccount) && !result.RetrySame? && start < next
  {
    hide BudgetAt;
    assert rq.world(start + (next - 1 - start)) == rq.world(next - 1);
  }

  lemma GivesUp(cfg: Config, terms: Passthrough.Terms, world: nat -> Turn, why: Why, tried: seq<string>, used: set<string>,
                log: seq<Act>, timeoutSwitches: nat, lines: set<string>, turns: nat, outcome: Passthrough.Outcome)
    requires Going(cfg, tried, used, log, timeoutSwitches, lines) && |tried| <= MAX_ACCOUNT_ATTEMPTS
    requires why == DeadlineHit || why == NoAccount
    ensures Over(cfg, terms, world, why, tried, log, timeoutSwitches, lines, turns, outcome)
  {
    UntouchedSource(log);
    hide CountSent, MostRequests, OneSource, OnWire, OutBy, Carried, Untouched, Distinct;
  }

  lemma StartsGoing(cfg: Config)
    requires cfg.riskLines >= 1
    ensures Going(cfg, [], {}, [], 0, {})
  {}

  /** Where a request is: what it has tried and sent, and what it looks at before the next account. */
  datatype Progress = Progress(trials: seq<Trial>, tried: seq<string>, used: set<string>, avoided: set<string>, log: seq<Act>,
                               timeouts: nat, turns: nat)

  /** Between two accounts, all of which so far ended in a switch. */
  ghost predicate Underway(rq: Request, select: Select, late: nat -> bool, avoid: set<string>, p: Progress, lines: set<string>) {
    && |p.tried| == |p.trials| <= MAX_ACCOUNT_ATTEMPTS
    && Going(rq.cfg, p.tried, p.used, p.log, p.timeouts, lines)
    && Trail(rq, select, late, avoid, p.trials, p.tried, p.used, p.avoided, p.timeouts, p.turns, lines)
    && (p.trials != [] ==> p.trials[|p.trials| - 1].result.Switch?)
    && p.log == AllSents(rq.world, p.trials)
  }

  /** The record is the requests of the trials, and behind them what reached the client from the last. */
  predicate Recorded(world: nat -> Turn, trials: seq<Trial>, tried: seq<string>, log: seq<Act>) {
    log == AllSents(world, trials) + Outs(if tried == [] then "" else tried[|tried| - 1], OnWire(log))
  }

  lemma NothingReached(world: nat -> Turn, trials: seq<Trial>, tried: seq<string>, log: seq<Act>)
    requires Untouched(log) && log == AllSents(world, trials)
    ensures Recorded(world, trials, tried, log)
  {
    UntouchedSource(log);
  }

  lemma OneMoreRecorded(world: nat -> Turn, trials: seq<Trial>, t: Trial, log: seq<Act>, more: seq<Act>)
    requires log == AllSents(world, trials)
    requires more == log + Sents(world, t.account, t.start, t.next) + Outs(t.account.id, OnWire(more))
    ensures more == AllSents(world, trials + [t]) + Outs(t.account.id, OnWire(more))
  {
    assert (trials + [t])[..|trials|] == trials;
  }

  /** The request is over, with all that is said about it. */
  ghost predicate Ended(rq: Request, select: Select, late: nat -> bool, avoid: set<string>, trials: seq<Trial>, why: Why,
                        tried: seq<string>, log: seq<Act>, timeoutSwitches: nat, lines: set<string>, turns: nat,
                        outcome: Passthrough.Outcome)
  {
    && Over(rq.cfg, rq.terms, rq.world, why, tried, log, timeoutSwitches, lines, turns, outcome)
    && Recorded(rq.world, trials, tried, log) && lines == LinesOf(trials)
    && TriedIn(tried, trials) && History(rq, select, late, avoid, trials)
    && EndsAs(select, late, avoid, trials, why) && timeoutSwitches == Timeouts(trials)
    && (why == DeadlineHit ==>
          (|tried| < MAX_ACCOUNT_ATTEMPTS && late(|tried|)) || (turns > 0 && rq.world(turns - 1).late))
  }

  lemma SetsOut(rq: Request, select: Select, late: nat -> bool, avoid: set<string>)
    requires rq.cfg.riskLines >= 1
    ensures Underway(rq, select, late, avoid, Progress([], [], {}, avoid, [], 0, 0), {})
  {
    StartsGoing(rq.cfg);
    TrailStarts(rq, select, late, avoid);
    hide Going, Trail;
  }

  /** Time is up before the next account, or there is none. */
  lemma StopsShort(rq: Request, select: Select, late: nat -> bool, avoid: set<string>, p: Progress, lines: set<string>,
                   outcome: Passthrough.Outcome, why: Why)
    requires Underway(rq, select, late, avoid, p, lines)
    requires
      || (why == DeadlineHit && |p.tried| < MAX_ACCOUNT_ATTEMPTS && late(|p.tried|))
      || (why == NoAccount && (|p.tried| == MAX_ACCOUNT_ATTEMPTS ||
                               (!late(|p.tried|) && select(p.used, p.avoided, |p.tried|).None?)))
    ensures Ended(rq, select, late, avoid, p.trials, why, p.tried, p.log, p.timeouts, lines, p.turns, outcome)
  {
    GivesUp(rq.cfg, rq.terms, rq.world, why, p.tried, p.used, p.log, p.timeouts, lines, p.turns, outcome);
    NothingReached(rq.world, p.trials, p.tried, p.log);
    TrailEnds(rq, select, late, avoid, p.trials, p.tried, p.used, p.avoided, p.timeouts, p.turns, lines, why);
    hide Going, Trail, Over, TriedIn, History, EndsAs, Timeouts, Recorded;
  }

  /** What is looked at before the next account, after a trial that ended in a switch. */
  function After(p: Progress, t: Trial, log: seq<Act>): Progress {
    var switch := t.result.Switch?;
    Progress(p.trials + [t], p.tried + [t.account.id], p.used + {t.account.id},
             if switch && t.result.avoid != "" then p.avoided + {t.result.avoid} else p.avoided, log,
             if switch && t.result.timeoutRetry then p.timeouts + 1 else p.timeouts, t.next)
  }

  lemma GoesOn(rq: Request, select: Select, late: nat -> bool, avoid: set<string>, p: Progress, t: Trial, log: seq<Act>,
               outcome: Passthrough.Outcome)
    requires Underway(rq, select, late, avoid, p, t.before) && |p.tried| < MAX_ACCOUNT_ATTEMPTS
    requires !late(|p.tried|) && select(p.used, p.avoided, |p.tried|) == Some(t.account) && t.start == p.turns
    requires FirstAnswer(rq, t.account.isJwt, t.start, p.timeouts, t.before, t.next, t.result, t.after)
    requires log == p.log + Sents(rq.world, t.account, t.start, t.next) + Outs(t.account.id, OnWire(log))
    requires t.result.Switch? ==> OnWire(log) == []
    requires var q := After(p, t, log);
             if t.result.Final? then Over(rq.cfg, rq.terms, rq.world, t.result.why, q.tried, log, q.timeouts, t.after, t.next, outcome)
             else Going(rq.cfg, q.tried, q.used, log, q.timeouts, t.after)
    ensures var q := After(p, t, log);
            if t.result.Final?
            then Ended(rq, select, late, avoid, q.trials, t.result.why, q.tried, log, q.timeouts, t.after, t.next, outcome)
            else Underway(rq, select, late, avoid, q, t.after)
  {
    var q := After(p, t, log);
    hide Going, Trail, Over, TriedIn, History, EndsAs, Timeouts, FirstAnswer, AllSents, Sents, Outs, OnWire;
    TrailMore(rq, select, late, avoid, p.trials, p.tried, p.used, p.avoided, p.timeouts, p.turns, t.before, t);
    DeadlineExactly(rq, t.account.isJwt, t.start, p.timeouts, t.before, t.next, t.result, t.after);
    OneMoreRecorded(rq.world, p.trials, t, p.log, log);
    if t.result.Final? {
      TrailEnds(rq, select, late, avoid, q.trials, q.tried, q.used, q.avoided, q.timeouts, q.turns, t.after, t.result.why);
    } else {
      NothingOut(AllSents(rq.world, q.trials), t.account.id);
    }
  }

  /** The loop over the accounts. */
  method TryAccounts(cfg: Config, terms: Passthrough.Terms, stream: bool, select: Select, world: nat -> Turn,
                     late: nat -> bool, avoid: set<string>, scope: RiskScope)
    returns (why: Why, tried: seq<string>, log: seq<Act>, timeoutSwitches: nat, turns: nat, outcome: Passthrough.Outcome,
             ghost trials: seq<Trial>)
    requires cfg.riskLines >= 1 && NeverTried(select) && scope.lines == {}
    modifies scope
    ensures Ended(Request(cfg, terms, stream, world), select, late, avoid, trials, why, tried, log, timeoutSwitches,
                  scope.lines, turns, outcome)
  {
    ghost var rq := Request(cfg, terms, stream, world);
    SetsOut(rq, select, late, avoid);
    tried, log, timeoutSwitches, turns, outcome, trials := [], [], 0, 0, Passthrough.Unseen, [];
    var used, avoided := {}, avoid;
    hide Ended, Underway, Over, Going, NeverTried, FirstAnswer, TurnOf, Sents, Outs;
    var n := 0;
    while n < MAX_ACCOUNT_ATTEMPTS
      invariant n <= MAX_ACCOUNT_ATTEMPTS && |tried| == n
      invariant Underway(rq, select, late, avoid, Progress(trials, tried, used, avoided, log, timeoutSwitches, turns), scope.lines)
    {
      ghost var p, lines := Progress(trials, tried, used, avoided, log, timeoutSwitches, turns), scope.lines;
      if late(n) {
        StopsShort(rq, select, late, avoid, p, lines, outcome, DeadlineHit);
        return DeadlineHit, tried, log, timeoutSwitches, turns, outcome, trials;
      }
      var acc := select(used, avoided, n);
      if acc.None? { break; }
      PickIsNew(select, used, avoided, n);
      StillGoing(rq, select, late, avoid, p, lines);
      var result;
      result, log, turns, timeoutSwitches, outcome :=
        OneAccount(cfg, terms, acc.value, stream, world, turns, timeoutSwitches, scope, log, tried, used);
      ghost var t := Trial(acc.value, p.turns, turns, result, lines, scope.lines);
      GoesOn(rq, select, late, avoid, p, t, log, outcome);
      used := used + {acc.value.id};
      tried := tried + [acc.value.id];
      trials := trials + [t];
      if result.Final? { return result.why, tried, log, timeoutSwitches, turns, outcome, trials; }
      if result.avoid != "" { avoided := avoided + {result.avoid}; }
      n := n + 1;
    }
    StopsShort(rq, select, late, avoid, Progress(trials, tried, used, avoided, log, timeoutSwitches, turns), scope.lines, outcome,
               NoAccount);
    why := NoAccount;
  }

  lemma StillGoing(rq: Request, select: Select, late: nat -> bool, avoid: set<string>, p: Progress, lines: set<string>)
    requires Underway(rq, select, late, avoid, p, lines)
    ensures Going(rq.cfg, p.tried, p.used, p.log, p.timeouts, lines)
  {}

  lemma TrailEnds(rq: Request, select: Select, late: nat -> bool, avoid: set<string>, trials: seq<Trial>,
                  tried: seq<string>, used: set<string>, avoided: set<string>, timeouts: nat, turns: nat, lines: set<string>,
                  why: Why)
    requires Trail(rq, select, late, avoid, trials, tried, used, avoided, timeouts, turns, lines)
    requires if trials != [] && trials[|trials| - 1].result.Final? then why == trials[|trials| - 1].result.why
             else (why == DeadlineHit && |trials| < MAX_ACCOUNT_ATTEMPTS && late(|trials|)) ||
                  (why == NoAccount && (|trials| == MAX_ACCOUNT_ATTEMPTS ||
                                        (!late(|trials|) && select(used, avoided, |trials|).None?)))
    ensures TriedIn(tried, trials) && History(rq, select, late, avoid, trials)
    ensures EndsAs(select, late, avoid, trials, why) && timeouts == Timeouts(trials) && lines == LinesOf(trials)
  {}

  /** The next account: the request is over with it, or goes on. */
  method OneAccount(cfg: Config, terms: Passthrough.Terms, acc: Account, stream: bool, world: nat -> Turn, start: nat,
                    timeoutRetries: nat, scope: RiskScope, acts: seq<Act>, ghost tried: seq<string>, ghost used: set<string>)
    returns (result: Result, log: seq<Act>, next: nat, retries: nat, outcome: Passthrough.Outcome)
    requires Going(cfg, tried, used, acts, timeoutRetries, scope.lines)
    requires |tried| < MAX_ACCOUNT_ATTEMPTS && acc.id !in used
    modifies scope
    ensures !result.RetrySame?
    ensures result.Final? ==>
              Over(cfg, terms, world, result.why, tried + [acc.id], log, retries, scope.lines, next, outcome)
    ensures result.Switch? ==> Going(cfg, tried + [acc.id], used + {acc.id}, log, retries, scope.lines)
    ensures log == acts + Sents(world, acc, start, next) + Outs(acc.id, OnWire(log))
    ensures result.Switch? ==> OnWire(log) == []
    ensures retries == if result.Switch? && result.timeoutRetry then timeoutRetries + 1 else timeoutRetries
    ensures FirstAnswer(Request(cfg, terms, stream, world), acc.isJwt, start, timeoutRetries, old(scope.lines), next, result,
                        scope.lines)
  {
    hide MostRequests, CountSent, Carried, OnWire, OneSource, OutBy, Untouched, FirstAnswer;
    NewAccount(tried, acc.id);
    hide Distinct;
    result, log, next, outcome := Attempt(cfg, terms, acc, stream, world, start, timeoutRetries, scope, acts, |tried|);
    retries := if result.Switch? && result.timeoutRetry then timeoutRetries + 1 else timeoutRetries;
  }

  /** The store offers no account that was tried before. */
  ghost predicate NeverTried(select: (set<string>, set<string>, nat) -> Option<Account>) {
    forall t, a, n :: select(t, a, n).Some? ==> select(t, a, n).value.id !in t
  }

  lemma PickIsNew(select: (set<string>, set<string>, nat) -> Option<Account>, t: set<string>, a: set<string>, n: nat)
    requires NeverTried(select)
    ensures select(t, a, n).Some? ==> select(t, a, n).value.id !in t
  {}

  lemma NewAccount(tried: seq<string>, id: string)
    requires Distinct(tried) && id !in tried
    ensures Distinct(tried + [id])
  {}

  lemma OneMoreAccount(cfg: Config, accounts: nat, before: nat, after: nat)
    requires before <= accounts * MostRequests(cfg) && after <= before + MostRequests(cfg)
    ensures after <= (accounts + 1) * MostRequests(cfg)
  {}

  /** Below the threshold so far: it is reached exactly by the turn that stops the request for risk. */
  lemma LinesSoFar(cfg: Config, result: Result, before: set<string>, after: set<string>)
    requires LinesMove(cfg, result, before, after) && |before| < cfg.riskLines
    ensures |after| <= cfg.riskLines && (|after| == cfg.riskLines <==> result == Final(RiskStop))
  {}

  lemma UntouchedSource(log: seq<Act>)
    requires Untouched(log)
    ensures OneSource(log) && OnWire(log) == []
  {
    OnWireOf(log, "", []);
    assert log + Outs("", []) == log;
  }
}
