// The retry engine: what one upstream reply leads to, in the engine's own branch order.
module EngineSpec {
  import Passthrough

  const MAX_CAPTCHA_RETRIES: nat := 3
  const MAX_ACCOUNT_ATTEMPTS: nat := 5
  const MAX_RATE_LIMIT_RETRIES: nat := 1

  /** Numbers of configured delays and limits; `riskLines` is at least 1. */
  datatype Config = Config(busyDelays: nat, overloadDelays: nat, busySwitchAfter: nat, timeoutRetries: nat, riskLines: nat)

  /** What one account's attempt has used up. */
  datatype Budget = Budget(captcha: nat, busy: nat, rate: nat, overload: nat, timeout: nat)

  datatype ErrorBody = Complete | Gone | Unreadable

  /** A reply of status 400 or more, with what the classifiers say about its body; `cancelled` tells
      whether the client leaves during the wait before a retry. */
  datatype Refusal = Refusal(status: int, body: ErrorBody, captcha: bool, concurrency: bool, overload: bool, quota: bool,
                             risk: bool, lineKey: string, identity: string, proxied: bool, dirty: bool, cancelled: bool)

  datatype JsonReply = JsonUnreadable | QuotaCode | CaptchaCode | OtherCode | NoCode

  /** A stream is read while it is delivered; a JSON body is read first.  `ok` is the client's connection. */
  datatype Reply =
    | ClientGone
    | UplinkSlow(identity: string)
    | FirstByteLate(identity: string)
    | ConnectionFailed(identity: string)
    | Redirect
    | Refused(refusal: Refusal)
    | Json(json: JsonReply, buffered: string, ok: nat -> bool)
    | Stream(delivery: Passthrough.Delivery, identity: string)

  /** One turn of the inner loop, as the world answers it. */
  datatype Turn = Turn(late: bool, tokenFails: bool, unprepared: bool, credentialBad: bool, reply: Reply)

  datatype Why =
    | DeadlineHit | CaptchaRequired | RequestCanceled | Unprepared | UnexpectedRedirect | PassedThrough | RiskStop
    | InvalidUpstream | UpstreamCode | Delivered | NoAccount

  datatype Result =
    | Final(why: Why)
    | Switch(avoid: string, timeoutRetry: bool, uplinkSlow: bool, early: bool)
    | RetrySame

  const PLAIN_SWITCH := Switch("", false, false, false)

  predicate TimeoutStatus(status: int) { status == 408 || status == 524 }

  /** The clean lines that have answered with risk control so far, after one more such answer. */
  function RiskLines(lines: set<string>, r: Refusal): set<string> {
    if !r.dirty && r.lineKey != "" then lines + {r.lineKey} else lines
  }

  function CaptchaAgain(b: Budget): (Result, Budget) {
    var c := b.(captcha := b.captcha + 1);
    (if c.captcha >= MAX_CAPTCHA_RETRIES then Final(CaptchaRequired) else RetrySame, c)
  }

  function Wait(r: Refusal, b: Budget): (Result, Budget) {
    (if r.cancelled then Final(RequestCanceled) else RetrySame, b)
  }

  function Busy(cfg: Config, r: Refusal, b: Budget): (Result, Budget) {
    if cfg.busySwitchAfter > 0 && b.busy >= cfg.busySwitchAfter then (PLAIN_SWITCH, b)
    else if b.busy < cfg.busyDelays then Wait(r, b.(busy := b.busy + 1))
    else (Final(PassedThrough), b)
  }

  function Overloaded(cfg: Config, r: Refusal, b: Budget): (Result, Budget) {
    if b.overload < cfg.overloadDelays then Wait(r, b.(overload := b.overload + 1)) else (Final(PassedThrough), b)
  }

  function RateLimited(r: Refusal, b: Budget): (Result, Budget) {
    if r.quota then (PLAIN_SWITCH, b)
    else if b.rate < MAX_RATE_LIMIT_RETRIES then Wait(r, b.(rate := b.rate + 1))
    else (PLAIN_SWITCH, b)
  }

  /** The order of the branches matters: overload is looked at before 429, risk control before timeouts. */
  function HandleError(cfg: Config, isJwt: bool, r: Refusal, b: Budget, lines: set<string>): (Result, Budget) {
    if r.body == Gone then (Final(RequestCanceled), b)
    else if r.body == Unreadable then (PLAIN_SWITCH, b)
    else if isJwt && r.captcha then CaptchaAgain(b)
    else if r.status == 401 || r.status == 403 then (PLAIN_SWITCH, b)
    else if r.status == 402 then (PLAIN_SWITCH, b)
    else if r.concurrency then Busy(cfg, r, b)
    else if r.overload then Overloaded(cfg, r, b)
    else if r.status == 429 then RateLimited(r, b)
    else if r.status == 503 then (PLAIN_SWITCH, b)
    else if r.status == 405 && r.risk then
      (if |RiskLines(lines, r)| >= cfg.riskLines then Final(RiskStop)
       else Switch(if r.proxied then r.identity else "", false, false, false), b)
    else if TimeoutStatus(r.status) && b.timeout < cfg.timeoutRetries then
      (Switch(r.identity, true, false, false), b.(timeout := b.timeout + 1))
    else (Final(PassedThrough), b)
  }

  /** Whether the reply is one the risk scope counts. */
  predicate AsksVerdict(isJwt: bool, r: Refusal) {
    && r.body == Complete && !(isJwt && r.captcha) && r.status == 405 && r.risk && !r.concurrency && !r.overload
  }

  function HandleJson(isJwt: bool, stream: bool, j: JsonReply, b: Budget): (Result, Budget) {
    match j
    case JsonUnreadable => (Final(InvalidUpstream), b)
    case QuotaCode => (PLAIN_SWITCH, b)
    case CaptchaCode => if isJwt then CaptchaAgain(b) else (Final(UpstreamCode), b)
    case OtherCode => (Final(UpstreamCode), b)
    case NoCode => (Final(if stream then InvalidUpstream else Delivered), b)
  }

  /** Whether a reply's handling starts a delivery to the client: any stream, and a JSON body without a code. */
  predicate Begins(stream: bool, reply: Reply) {
    reply.Stream? || (reply.Json? && reply.json.NoCode? && !stream)
  }

  /** What is passed on to the client then. */
  function DeliveryOf(reply: Reply): Passthrough.Delivery
    requires reply.Stream? || reply.Json?
  {
    match reply
    case Stream(d, _) => d
    case Json(_, data, ok) =>
      Passthrough.Delivery(200, false, [Passthrough.Read(data, Passthrough.Eof)], "", (n: nat) => false, ok)
  }

  /** Everything after the request was sent; `outcome` is what a delivery, if one began, reported. */
  function HandleReply(cfg: Config, isJwt: bool, stream: bool, reply: Reply, outcome: Passthrough.Outcome, b: Budget,
                       lines: set<string>): (Result, Budget)
  {
    match reply
    case ClientGone => (Final(RequestCanceled), b)
    case UplinkSlow(i) => (Switch(i, false, true, false), b)
    case FirstByteLate(i) => (Switch(i, false, false, false), b)
    case ConnectionFailed(i) => (Switch(i, false, false, false), b)
    case Redirect => (Final(UnexpectedRedirect), b)
    case Refused(r) => HandleError(cfg, isJwt, r, b, lines)
    case Json(j, _, _) => HandleJson(isJwt, stream, j, b)
    case Stream(_, i) => (if outcome == Passthrough.Unseen then Switch(i, false, false, true) else Final(Delivered), b)
  }

  // ---- every retry is paid for -----------------------------------------------------------------

  function Spent(b: Budget): nat { b.captcha + b.busy + b.rate + b.overload }

  predicate Within(cfg: Config, b: Budget) {
    && b.captcha < MAX_CAPTCHA_RETRIES && b.busy <= cfg.busyDelays && b.rate <= MAX_RATE_LIMIT_RETRIES
    && b.overload <= cfg.overloadDelays
  }

  /** The most retries one account can get. */
  function MostRetries(cfg: Config): nat {
    MAX_CAPTCHA_RETRIES - 1 + cfg.busyDelays + MAX_RATE_LIMIT_RETRIES + cfg.overloadDelays
  }

  /** A retry on the same account uses up exactly one of the retries left to it. */
  lemma RetryIsPaid(cfg: Config, isJwt: bool, stream: bool, reply: Reply, outcome: Passthrough.Outcome,
                    b: Budget, lines: set<string>)
    requires Within(cfg, b)
    ensures var (result, c) := HandleReply(cfg, isJwt, stream, reply, outcome, b, lines);
            && (result.RetrySame? ==> Within(cfg, c) && Spent(c) == Spent(b) + 1 && c.timeout == b.timeout)
            && (result.Switch? && result.timeoutRetry <==> c.timeout == b.timeout + 1)
            && (result.Switch? && result.timeoutRetry ==> b.timeout < cfg.timeoutRetries)
            && b.timeout <= c.timeout
  {}

  /** The most requests one account can be sent. */
  function MostRequests(cfg: Config): nat {
    MAX_CAPTCHA_RETRIES + cfg.busyDelays + MAX_RATE_LIMIT_RETRIES + cfg.overloadDelays
  }

  lemma SpentIsBounded(cfg: Config, b: Budget)
    requires Within(cfg, b)
    ensures Spent(b) <= MostRetries(cfg)
  {}

  /** A delivery that the client has seen anything of ends the request, and nothing else ends it this way; one it
      has seen nothing of switches accounts. */
  lemma WritingIsFinal(cfg: Config, isJwt: bool, stream: bool, reply: Reply, outcome: Passthrough.Outcome, b: Budget,
                       lines: set<string>)
    ensures HandleReply(cfg, isJwt, stream, reply, outcome, b, lines).0 == Final(Delivered) <==>
              Begins(stream, reply) && (reply.Stream? ==> outcome != Passthrough.Unseen)
    ensures var result := HandleReply(cfg, isJwt, stream, reply, outcome, b, lines).0;
            result.Switch? && result.early <==> reply.Stream? && outcome == Passthrough.Unseen
  {}

  /** Reaching the threshold of clean lines ends the request, and nothing else is a risk stop. */
  lemma RiskStopsExactly(cfg: Config, isJwt: bool, r: Refusal, b: Budget, lines: set<string>)
    ensures HandleError(cfg, isJwt, r, b, lines).0 == Final(RiskStop) <==>
              AsksVerdict(isJwt, r) && |RiskLines(lines, r)| >= cfg.riskLines
  {}

  /** A reply the risk scope counts never leads to a retry on the same account. */
  lemma VerdictNeverRetries(cfg: Config, isJwt: bool, r: Refusal, b: Budget, lines: set<string>)
    requires AsksVerdict(isJwt, r)
    ensures !HandleError(cfg, isJwt, r, b, lines).0.RetrySame?
  {}

  // ---- which replies lead where ------------------------------------------------------------------

  /** The reply is read to its end and does not ask this account for a captcha. */
  predicate Judged(isJwt: bool, r: Refusal) { r.body == Complete && !(isJwt && r.captcha) }

  /** The account is refused as such. */
  predicate AccountRefused(r: Refusal) { r.status in {401, 402, 403} }

  /** What the account is told is not about its load, nor the upstream's. */
  predicate NotLoad(r: Refusal) { !AccountRefused(r) && !r.concurrency && !r.overload }

  /** Another account is tried exactly if the reply cannot be read, if it refuses this account, if too many of its
      requests run at once, if a rate limit is a quota or has been waited out, if the upstream is unavailable, or if its
      line is to blame: by risk control below the threshold, or by a timeout while such switches are left.  A general
      overload never switches. */
  lemma SwitchesExactly(cfg: Config, isJwt: bool, r: Refusal, b: Budget, lines: set<string>)
    ensures HandleError(cfg, isJwt, r, b, lines).0.Switch? <==>
              || r.body == Unreadable
              || (Judged(isJwt, r) &&
                  (|| AccountRefused(r)
                   || (!AccountRefused(r) && r.concurrency && 0 < cfg.busySwitchAfter <= b.busy)
                   || (NotLoad(r) && r.status == 429 && (r.quota || b.rate >= MAX_RATE_LIMIT_RETRIES))
                   || (NotLoad(r) && r.status == 503)
                   || (NotLoad(r) && r.status == 405 && r.risk && |RiskLines(lines, r)| < cfg.riskLines)
                   || (NotLoad(r) && TimeoutStatus(r.status) && b.timeout < cfg.timeoutRetries)))
  {}

  /** The same account is asked again exactly for a captcha that is not its last, and after a wait the client sat
      through for a busy account, an overloaded upstream or a plain rate limit, while there are such waits left. */
  lemma RetriesExactly(cfg: Config, isJwt: bool, r: Refusal, b: Budget, lines: set<string>)
    ensures HandleError(cfg, isJwt, r, b, lines).0.RetrySame? <==>
              || (r.body == Complete && isJwt && r.captcha && b.captcha + 1 < MAX_CAPTCHA_RETRIES)
              || (Judged(isJwt, r) && !AccountRefused(r) && !r.cancelled &&
                  (|| (r.concurrency && b.busy < cfg.busyDelays && !(0 < cfg.busySwitchAfter <= b.busy))
                   || (!r.concurrency && r.overload && b.overload < cfg.overloadDelays)
                   || (NotLoad(r) && r.status == 429 && !r.quota && b.rate < MAX_RATE_LIMIT_RETRIES)))
  {}

  /** The reply is handed to the client as it is exactly if there are no waits left for its load, or if it is nothing
      another try could help. */
  lemma PassesExactly(cfg: Config, isJwt: bool, r: Refusal, b: Budget, lines: set<string>)
    ensures HandleError(cfg, isJwt, r, b, lines).0 == Final(PassedThrough) <==>
              && Judged(isJwt, r) && !AccountRefused(r)
              && (|| (r.concurrency && b.busy >= cfg.busyDelays && !(0 < cfg.busySwitchAfter <= b.busy))
                  || (!r.concurrency && r.overload && b.overload >= cfg.overloadDelays)
                  || (NotLoad(r) && r.status !in {429, 503} && !(r.status == 405 && r.risk) &&
                      !(TimeoutStatus(r.status) && b.timeout < cfg.timeoutRetries)))
  {}

  /** The replies that put the line they came over on the list to avoid. */
  predicate Blames(cfg: Config, isJwt: bool, reply: Reply, outcome: Passthrough.Outcome, b: Budget, line: string) {
    match reply
    case UplinkSlow(i) => line == i
    case FirstByteLate(i) => line == i
    case ConnectionFailed(i) => line == i
    case Stream(_, i) => line == i && outcome == Passthrough.Unseen
    case Refused(r) =>
      && line == r.identity && Judged(isJwt, r) && NotLoad(r)
      && ((r.status == 405 && r.risk && r.proxied) || (TimeoutStatus(r.status) && b.timeout < cfg.timeoutRetries))
    case _ => false
  }

  /** A switch avoids a line exactly if that line is to blame for the reply; a body never heard in time, a connection
      that failed, a proxied risk verdict, a timeout status and a stream cut before its first content are. */
  lemma AvoidsExactly(cfg: Config, isJwt: bool, stream: bool, reply: Reply, outcome: Passthrough.Outcome, b: Budget,
                      lines: set<string>, line: string)
    requires line != ""
    ensures var result := HandleReply(cfg, isJwt, stream, reply, outcome, b, lines).0;
            result.Switch? && result.avoid == line <==> Blames(cfg, isJwt, reply, outcome, b, line) && result != Final(RiskStop)
    ensures var result := HandleReply(cfg, isJwt, stream, reply, outcome, b, lines).0;
            result.Switch? && result.uplinkSlow <==> reply.UplinkSlow?
  {}

  /** A JSON body leads on to another account exactly for a used-up quota, and to the same one exactly for a captcha
      that is not the last. */
  lemma JsonExactly(isJwt: bool, stream: bool, j: JsonReply, b: Budget)
    ensures var (result, c) := HandleJson(isJwt, stream, j, b);
            && (result.Switch? <==> j == QuotaCode)
            && (result.RetrySame? <==> j == CaptchaCode && isJwt && b.captcha + 1 < MAX_CAPTCHA_RETRIES)
            && (result == Final(UpstreamCode) <==> j == OtherCode || (j == CaptchaCode && !isJwt))
            && (result == Final(InvalidUpstream) <==> j == JsonUnreadable || (j == NoCode && stream))
            && (c == b <==> !(j == CaptchaCode && isJwt))
  {}

  // ---- one turn --------------------------------------------------------------------------------

  /** A delivery of this reply shows the client nothing. */
  ghost predicate ShowsNothing(terms: Passthrough.Terms, reply: Reply) {
    && reply.Stream? && reply.delivery.isSse && Passthrough.LastEnd(reply.delivery.body) == Passthrough.Cut
    && !Passthrough.CalledFor(terms, reply.delivery)
  }

  ghost function ReplyOf(cfg: Config, terms: Passthrough.Terms, isJwt: bool, stream: bool, reply: Reply, b: Budget,
                         lines: set<string>): (Result, Budget)
  {
    HandleReply(cfg, isJwt, stream, reply, if ShowsNothing(terms, reply) then Passthrough.Unseen else Passthrough.Delivered,
                b, lines)
  }

  /** What a turn comes to, from the deadline check to the reply's handling. */
  ghost function TurnOf(cfg: Config, terms: Passthrough.Terms, isJwt: bool, stream: bool, turn: Turn, b: Budget,
                        lines: set<string>): (Result, Budget)
  {
    if turn.late then (Final(DeadlineHit), b)
    else if isJwt && turn.tokenFails then CaptchaAgain(b)
    else if turn.unprepared then (Final(Unprepared), b)
    else if turn.credentialBad then (PLAIN_SWITCH, b)
    else ReplyOf(cfg, terms, isJwt, stream, turn.reply, b, lines)
  }

  /** A turn gets as far as sending its request. */
  predicate GoesOut(isJwt: bool, turn: Turn) {
    !turn.late && !(isJwt && turn.tokenFails) && !turn.unprepared && !turn.credentialBad
  }

  /** A login account is asked for a captcha: none could be had for it, or the upstream wants one. */
  predicate WantsCaptcha(isJwt: bool, turn: Turn) {
    && isJwt && !turn.late
    && (|| turn.tokenFails
        || (GoesOut(isJwt, turn) && turn.reply.Refused? && turn.reply.refusal.body == Complete && turn.reply.refusal.captcha)
        || (GoesOut(isJwt, turn) && turn.reply.Json? && turn.reply.json == CaptchaCode))
  }

  /** Before its request a turn ends the request exactly for its deadline or a body that cannot be prepared, and moves
      on to another account, avoiding nothing, for a bad credential. */
  lemma TurnsDecide(cfg: Config, terms: Passthrough.Terms, isJwt: bool, stream: bool, turn: Turn, b: Budget, lines: set<string>)
    ensures var (result, c) := TurnOf(cfg, terms, isJwt, stream, turn, b, lines);
            && (result == Final(DeadlineHit) <==> turn.late)
            && (result == Final(Unprepared) <==> !turn.late && !(isJwt && turn.tokenFails) && turn.unprepared)
            && (!GoesOut(isJwt, turn) && result.Switch? <==>
                  !turn.late && !(isJwt && turn.tokenFails) && !turn.unprepared && turn.credentialBad)
            && (!GoesOut(isJwt, turn) && result.Switch? ==> result == PLAIN_SWITCH)
  {}

  /** The third captcha an account asks for ends the request, an earlier one makes it try again, and nothing else
      counts as one. */
  lemma CaptchaExactly(cfg: Config, terms: Passthrough.Terms, isJwt: bool, stream: bool, turn: Turn, b: Budget,
                       lines: set<string>)
    ensures var (result, c) := TurnOf(cfg, terms, isJwt, stream, turn, b, lines);
            && (result == Final(CaptchaRequired) <==> WantsCaptcha(isJwt, turn) && b.captcha + 1 >= MAX_CAPTCHA_RETRIES)
            && (WantsCaptcha(isJwt, turn) && b.captcha + 1 < MAX_CAPTCHA_RETRIES ==> result == RetrySame)
            && c.captcha == b.captcha + (if WantsCaptcha(isJwt, turn) then 1 else 0)
  {}

  lemma SameAnswer(cfg: Config, terms: Passthrough.Terms, isJwt: bool, stream: bool, reply: Reply,
                   outcome: Passthrough.Outcome, b: Budget, lines: set<string>)
    requires reply.Stream? ==> (outcome == Passthrough.Unseen <==> ShowsNothing(terms, reply))
    ensures HandleReply(cfg, isJwt, stream, reply, outcome, b, lines) == ReplyOf(cfg, terms, isJwt, stream, reply, b, lines)
  {}
}
