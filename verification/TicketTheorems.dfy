// The ticket protocol over every run.
module TicketTheorems {
  import opened TicketSpec

  predicate Working(p: Producer) { !p.Idle? && !p.Over? }

  /** What has been queued so far, oldest first. */
  function Queue(acts: seq<Act>): seq<Event> {
    if acts == [] then []
    else Queue(acts[..|acts| - 1]) + (if acts[|acts| - 1].Queued? then [acts[|acts| - 1].ev] else [])
  }

  predicate IsChunk(a: Act) { a.Queued? && a.ev.Chunk? }

  /** No upstream request after a chunk was queued. */
  predicate NoLateRequest(acts: seq<Act>) {
    forall a, b :: 0 <= a < b < |acts| && IsChunk(acts[a]) ==> acts[b] != Request
  }

  predicate SomeChunk(acts: seq<Act>) { exists a :: 0 <= a < |acts| && IsChunk(acts[a]) }

  /** `ready` first, then chunks, then at most one final event; or nothing but an error. */
  predicate Grammar(es: seq<Event>) {
    && (forall k :: 0 <= k < |es| && es[k].Ready? ==> k == 0)
    && (forall k :: 0 <= k < |es| && Final(es[k]) ==> k == |es| - 1)
    && (es != [] ==> es[0].Ready? || (es[0].Error? && |es| == 1))
  }

  predicate Ended(es: seq<Event>) { es != [] && Final(es[|es| - 1]) }

  /** The one working producer fits what has been queued and whether a chunk was. */
  predicate Fits(p: Producer, es: seq<Event>, chunked: bool) {
    match p
    case Between(announced) => !Ended(es) && !chunked && (announced <==> es != [])
    case Flying(n) => !Ended(es) && es != [] && (chunked <==> n > 0)
    case Checking(ev, next) => FitsNext(ev, next, es, chunked)
    case Sending(ev, next) => FitsNext(ev, next, es, chunked)
    case Marking(ev) => Ended(es) && es[|es| - 1] == ev
    case _ => true
  }

  predicate FitsNext(ev: Event, next: Next, es: seq<Event>, chunked: bool) {
    && !Ended(es)
    && (match ev
        case Ready => es == [] && next == GoOn && !chunked
        case Chunk(_) => es != [] && next.Stream? && next.sent > 0
        case Done => es != [] && next == End
        case Error(_) => next == End)
  }

  /** Shown events after the opening are the oldest queued ones, in order. */
  function Seen(shown: seq<Shown>): seq<Event> {
    if shown == [] then []
    else Seen(shown[..|shown| - 1]) + (if shown[|shown| - 1].Passed? then [shown[|shown| - 1].ev] else [])
  }

  predicate Terminal(s: Shown) { s.NotFound? || s.TimedOut? || (s.Passed? && Final(s.ev)) }

  /** What a client can have seen. */
  predicate ShownOk(shown: seq<Shown>, consumer: Consumer) {
    match consumer
    case NotStarted => shown == []
    case Watching => shown != [] && shown[0] == Opened && OnlyEvents(shown, |shown|)
    case Left(connected) =>
      && shown != []
      && (connected ==> Terminal(shown[|shown| - 1]))
      && (shown == [NotFound] ||
          (shown[0] == Opened && OnlyEvents(shown, if connected then |shown| - 1 else |shown|) && (connected ==> |shown| > 1)))
  }

  predicate OnlyEvents(shown: seq<Shown>, n: nat)
    requires n <= |shown|
  {
    forall k :: 1 <= k < n ==> shown[k].Passed? && !Final(shown[k].ev)
  }

  predicate Alone(ps: seq<Producer>) {
    forall i, j :: 0 <= i < |ps| && 0 <= j < |ps| && Working(ps[i]) && Working(ps[j]) ==> i == j
  }

  predicate AllFit(ps: seq<Producer>, es: seq<Event>, chunked: bool) {
    forall i :: 0 <= i < |ps| ==> Fits(ps[i], es, chunked)
  }

  predicate Settled(s: Status) { s != Pending && s != Processing }

  predicate StatusFits(status: Status, ps: seq<Producer>) {
    && (status == Pending ==> forall i :: 0 <= i < |ps| ==> !Working(ps[i]))
    && (Settled(status) ==> forall i :: 0 <= i < |ps| && Working(ps[i]) ==> ps[i].Leaving?)
  }

  /** Status and what was queued. */
  predicate StatusOk(status: Status, acts: seq<Act>) {
    && status != Canceled && (status == Pending ==> acts == [])
    && (status == Completed ==> Ended(Queue(acts)) && Queue(acts)[|Queue(acts)| - 1] == Done)
  }

  predicate Inv(t: Ticket) {
    && Alone(t.producers) && AllFit(t.producers, Queue(t.acts), SomeChunk(t.acts)) && StatusFits(t.status, t.producers)
    && StatusOk(t.status, t.acts) && NoLateRequest(t.acts) && Grammar(Queue(t.acts))
    && Seen(t.shown) + t.queue == Queue(t.acts) && ShownOk(t.shown, t.consumer)
    && (t.cancelled ==> !t.present)
  }

  /** One working producer changes; it keeps working or not, and the others do nothing. */
  lemma OneMoves(ps: seq<Producer>, i: nat, p: Producer, status: Status, es: seq<Event>, chunked: bool)
    requires Alone(ps) && i < |ps| && Working(ps[i]) && !p.Idle? && Fits(p, es, chunked)
    requires status != Pending && (Settled(status) ==> p.Leaving? || p.Over?)
    ensures Alone(ps[i := p]) && AllFit(ps[i := p], es, chunked) && StatusFits(status, ps[i := p])
  {
    var qs := ps[i := p];
    forall j | 0 <= j < |qs| && j != i ensures !Working(qs[j]) && Fits(qs[j], es, chunked) {
      assert qs[j] == ps[j];
    }
  }

  lemma TheWorker(t: Ticket, i: nat)
    requires Inv(t) && i < |t.producers| && Working(t.producers[i])
    ensures t.status != Pending && (Settled(t.status) ==> t.producers[i].Leaving?)
    ensures Fits(t.producers[i], Queue(t.acts), SomeChunk(t.acts))
  {}

  lemma QueueMore(acts: seq<Act>, a: Act)
    ensures Queue(acts + [a]) == Queue(acts) + (if a.Queued? then [a.ev] else [])
    ensures SomeChunk(acts + [a]) <==> SomeChunk(acts) || IsChunk(a)
  {
    assert (acts + [a])[..|acts|] == acts;
    assert forall k :: 0 <= k < |acts| ==> (acts + [a])[k] == acts[k];
    assert (acts + [a])[|acts|] == a;
  }

  lemma SeenMore(shown: seq<Shown>, s: Shown)
    ensures Seen(shown + [s]) == Seen(shown) + (if s.Passed? then [s.ev] else [])
  {
    assert (shown + [s])[..|shown|] == shown;
  }

  /** A producer moves without queueing anything or touching the status. */
  lemma MoveKeeps(t: Ticket, i: nat, p: Producer)
    requires Inv(t) && i < |t.producers| && Working(t.producers[i]) && !p.Idle?
    requires Fits(p, Queue(t.acts), SomeChunk(t.acts))
    requires Settled(t.status) ==> p.Over? || p.Leaving?
    ensures Inv(Set(t, i, p))
  {
    TheWorker(t, i);
    hide Alone, AllFit, StatusFits, Fits, Grammar, Queue, ShownOk, NoLateRequest, SomeChunk, Seen, StatusOk;
    OneMoves(t.producers, i, p, t.status, Queue(t.acts), SomeChunk(t.acts));
  }

  lemma ClaimKeeps(t: Ticket, i: nat)
    requires Inv(t) && CanMove(t, i, DoClaim)
    ensures Inv(Claim(t, i))
  {
    assert Queue([]) == [] && !SomeChunk([]);
    hide Grammar, Queue, ShownOk, NoLateRequest, Seen, SomeChunk;
  }

  lemma RequestMore(acts: seq<Act>)
    requires NoLateRequest(acts) && !SomeChunk(acts)
    ensures NoLateRequest(acts + [Request])
  {
    var more := acts + [Request];
    assert forall k :: 0 <= k < |acts| ==> more[k] == acts[k];
  }

  lemma QueuedMore(acts: seq<Act>, ev: Event)
    requires NoLateRequest(acts)
    ensures NoLateRequest(acts + [Queued(ev)])
  {
    var more := acts + [Queued(ev)];
    forall a, b | 0 <= a < b < |more| && IsChunk(more[a]) ensures more[b] != Request {
      if b < |acts| { assert more[b] == acts[b] && more[a] == acts[a]; }
    }
  }

  lemma BeginKeeps(t: Ticket, i: nat)
    requires Inv(t) && CanMove(t, i, BeginRequest)
    ensures Inv(Move1(t, i, BeginRequest))
  {
    TheWorker(t, i);
    QueueMore(t.acts, Request);
    assert Queue(t.acts) + [] == Queue(t.acts);
    RequestMore(t.acts);
    assert !IsChunk(Request);
    hide Alone, AllFit, StatusFits, Grammar, Queue, ShownOk, NoLateRequest, SomeChunk, Seen;
    OneMoves(t.producers, i, Flying(0), t.status, Queue(t.acts), SomeChunk(t.acts));
  }

  lemma GrammarMore(es: seq<Event>, ev: Event, next: Next, chunked: bool)
    requires Grammar(es) && FitsNext(ev, next, es, chunked)
    ensures Grammar(es + [ev])
    ensures Fits(if Final(ev) then Marking(ev) else Resume(next), es + [ev], chunked || ev.Chunk?)
  {
    var more := es + [ev];
    assert more[|es|] == ev && forall k :: 0 <= k < |es| ==> more[k] == es[k];
  }

  lemma ProcessingOk(acts: seq<Act>)
    ensures StatusOk(Processing, acts)
  {}

  lemma SendKeeps(t: Ticket, i: nat)
    requires Inv(t) && CanMove(t, i, DoSend)
    ensures Inv(Send(t, i))
  {
    TheWorker(t, i);
    var p := t.producers[i];
    QueueMore(t.acts, Queued(p.ev));
    QueuedMore(t.acts, p.ev);
    GrammarMore(Queue(t.acts), p.ev, p.next, SomeChunk(t.acts));
    assert (Seen(t.shown) + t.queue) + [p.ev] == Seen(t.shown) + (t.queue + [p.ev]);
    var q := Send(t, i);
    assert IsChunk(Queued(p.ev)) <==> p.ev.Chunk?;
    assert t.status == Processing;
    ProcessingOk(q.acts);
    hide Alone, AllFit, StatusFits, Grammar, Queue, ShownOk, NoLateRequest, SomeChunk, Seen, Fits, StatusOk;
    OneMoves(t.producers, i, q.producers[i], t.status, Queue(q.acts), SomeChunk(q.acts));
  }

  lemma MarkKeeps(t: Ticket, i: nat)
    requires Inv(t) && CanMove(t, i, DoMark)
    ensures Inv(Mark(t, i))
  {
    TheWorker(t, i);
    var q := Mark(t, i);
    assert StatusOk(q.status, q.acts);
    hide Alone, AllFit, StatusFits, Grammar, Queue, ShownOk, NoLateRequest, SomeChunk, Seen, StatusOk;
    OneMoves(t.producers, i, Leaving, q.status, Queue(t.acts), SomeChunk(t.acts));
  }

  lemma FinishKeeps(t: Ticket, i: nat)
    requires Inv(t) && CanMove(t, i, DoFinish)
    ensures Inv(FinishWork(t, i, t.cancelled))
  {
    TheWorker(t, i);
    var q := FinishWork(t, i, t.cancelled);
    assert StatusOk(q.status, q.acts);
    hide Alone, AllFit, StatusFits, Grammar, Queue, ShownOk, NoLateRequest, SomeChunk, Seen, StatusOk;
    OneMoves(t.producers, i, Over, q.status, Queue(t.acts), SomeChunk(t.acts));
  }

  lemma ProduceKeeps(t: Ticket, i: nat, m: Move)
    requires Inv(t) && CanMove(t, i, m)
    ensures Inv(Move1(t, i, m))
  {
    match m
    case DoClaim => ClaimKeeps(t, i);
    case BeginRequest => BeginKeeps(t, i);
    case DoSend => SendKeeps(t, i);
    case DoMark => MarkKeeps(t, i);
    case DoFinish => FinishKeeps(t, i);
    case _ =>
      TheWorker(t, i);
      QuietMove(t, i, m);
  }

  lemma QuietMove(t: Ticket, i: nat, m: Move)
    requires Inv(t) && CanMove(t, i, m)
    requires !m.DoClaim? && !m.BeginRequest? && !m.DoSend? && !m.DoMark? && !m.DoFinish?
    requires t.status != Pending && !Settled(t.status) && Fits(t.producers[i], Queue(t.acts), SomeChunk(t.acts))
    ensures Inv(Move1(t, i, m))
  {
    hide Inv, Queue, SomeChunk;
    MoveKeeps(t, i, Move1(t, i, m).producers[i]);
  }

  lemma ShowMore(shown: seq<Shown>, s: Shown, consumer: Consumer)
    requires ShownOk(shown, Watching)
    requires consumer == (if Terminal(s) then Left(true) else Watching) && (Terminal(s) || s.Passed?)
    ensures ShownOk(shown + [s], consumer)
  {
    var more := shown + [s];
    assert more[0] == shown[0] && forall k :: 1 <= k < |shown| ==> more[k] == shown[k];
  }

  lemma ReceiveKeeps(t: Ticket)
    requires Inv(t) && Enabled(t, Receive)
    ensures Inv(Step1(t, Receive))
  {
    ShowMore(t.shown, Passed(t.queue[0]), Step1(t, Receive).consumer);
    SeenMore(t.shown, Passed(t.queue[0]));
    assert t.queue == [t.queue[0]] + t.queue[1..];
    assert (Seen(t.shown) + [t.queue[0]]) + t.queue[1..] == Seen(t.shown) + t.queue;
    hide Grammar, Queue, ShownOk, NoLateRequest, SomeChunk, Seen, Alone, AllFit, StatusFits, StatusOk;
  }

  lemma OpenKeeps(t: Ticket)
    requires Inv(t) && Enabled(t, Open)
    ensures Inv(Step1(t, Open))
  {
    SeenMore(t.shown, Opened);
    SeenMore(t.shown, NotFound);
    assert t.shown == [] && Seen(t.shown) + [] == Seen(t.shown);
    hide Grammar, Queue, NoLateRequest, SomeChunk, Seen, Alone, AllFit, StatusFits, StatusOk;
  }

  lemma CallAgainKeeps(t: Ticket)
    requires Inv(t)
    ensures Inv(Step1(t, CallAgain))
  {
    hide Grammar, Queue, ShownOk, NoLateRequest, SomeChunk, Seen, StatusOk;
    var ps := t.producers + [Idle];
    assert forall j :: 0 <= j < |t.producers| ==> ps[j] == t.producers[j];
  }

  lemma OtherKeeps(t: Ticket, s: Step)
    requires Inv(t) && Enabled(t, s) && !s.Produce? && !s.Receive? && !s.Open?
    ensures Inv(Step1(t, s))
  {
    match s
    case CallAgain => CallAgainKeeps(t);
    case Expire =>
      SeenMore(t.shown, TimedOut);
      ShowMore(t.shown, TimedOut, Left(true));
      assert Seen(t.shown) + [] == Seen(t.shown);
      hide Grammar, Queue, ShownOk, NoLateRequest, SomeChunk, Seen, Alone, AllFit, StatusFits, StatusOk;
    case _ =>
      hide Grammar, Queue, NoLateRequest, SomeChunk, Seen, Alone, AllFit, StatusFits, StatusOk;
  }

  lemma {:induction false} RunKeeps(t: Ticket, steps: seq<Step>)
    requires Inv(t) && CanRun(t, steps)
    ensures Inv(Run(t, steps))
    decreases |steps|
  {
    hide Inv, Move1, CanMove;
    if steps != [] {
      var s := steps[0];
      if s.Produce? { ProduceKeeps(t, s.i, s.move); }
      else if s.Receive? { ReceiveKeeps(t); }
      else if s.Open? { OpenKeeps(t); }
      else { OtherKeeps(t, s); }
      RunKeeps(Step1(t, s), steps[1..]);
    }
  }

  // ---- main results ----------------------------------------------------------------------------

  /** However often the background job is started, at most one call ever works on the ticket, no request goes
      upstream after a chunk was queued, and what it queues is: perhaps `ready`, chunks, at most one end. */
  lemma OneProducer(steps: seq<Step>)
    requires CanRun(NEW, steps)
    ensures var t := Run(NEW, steps);
            Alone(t.producers) && NoLateRequest(t.acts) && Grammar(Queue(t.acts))
  {
    RunKeeps(NEW, steps);
  }

  function Order(s: Status): nat {
    match s
    case Pending => 0
    case Processing => 1
    case _ => 2
  }

  lemma StatusMove(t: Ticket, i: nat, m: Move)
    requires Inv(t) && CanMove(t, i, m)
    ensures Order(t.status) <= Order(Move1(t, i, m).status) <= Order(t.status) + 1
    ensures Settled(t.status) ==> Move1(t, i, m).status == t.status
  {
    if m.DoMark? { TheWorker(t, i); }
    hide Inv;
    if m.DoClaim? || m.DoMark? || m.DoFinish? {
    } else {
      OtherMove(t, i, m);
    }
  }

  lemma OtherMove(t: Ticket, i: nat, m: Move)
    requires CanMove(t, i, m) && !m.DoClaim? && !m.DoMark? && !m.DoFinish?
    ensures Move1(t, i, m).status == t.status
  {}

  lemma StatusStep(t: Ticket, s: Step)
    requires Inv(t) && Enabled(t, s)
    ensures Order(t.status) <= Order(Step1(t, s).status) <= Order(t.status) + 1
    ensures Settled(t.status) ==> Step1(t, s).status == t.status
  {
    hide Inv, Move1, CanMove;
    if s.Produce? { StatusMove(t, s.i, s.move); }
  }

  /** The status only moves forward, one stage at a time, and a final one is never changed. */
  lemma {:induction false} StatusForward(t: Ticket, steps: seq<Step>)
    requires Inv(t) && CanRun(t, steps)
    ensures Order(t.status) <= Order(Run(t, steps).status)
    ensures Settled(t.status) ==> Run(t, steps).status == t.status
    decreases |steps|
  {
    if steps != [] {
      StatusStep(t, steps[0]);
      RunKeeps(t, steps[..1]);
      assert steps[..1][1..] == [];
      assert Run(t, steps[..1]) == Step1(t, steps[0]);
      hide Inv, Step1;
      StatusForward(Step1(t, steps[0]), steps[1..]);
    }
  }

  lemma StatusOfRuns(steps: seq<Step>, more: seq<Step>)
    requires CanRun(NEW, steps) && CanRun(Run(NEW, steps), more)
    ensures var t, u := Run(NEW, steps), Run(Run(NEW, steps), more);
            && Order(t.status) <= Order(u.status) && (Settled(t.status) ==> u.status == t.status)
            && (u.status == Completed ==> Ended(Queue(u.acts)) && Queue(u.acts)[|Queue(u.acts)| - 1] == Done)
  {
    RunKeeps(NEW, steps);
    StatusForward(Run(NEW, steps), more);
    RunKeeps(Run(NEW, steps), more);
  }

  /** The status for a cancelled job is never reached: whoever cancels the context has removed the
      ticket first, and a removed ticket's status is left alone. */
  lemma CanceledIsUnreachable(steps: seq<Step>)
    requires CanRun(NEW, steps)
    ensures Run(NEW, steps).status != Canceled
  {
    RunKeeps(NEW, steps);
  }

  /** What a client sees is the opening, then the queued events in order (so perhaps `ready`, then chunks),
      then, if it stays connected to the end, exactly one end, which is last; or just "not found". */
  lemma ClientSees(steps: seq<Step>)
    requires CanRun(NEW, steps)
    ensures var t := Run(NEW, steps);
            && ShownOk(t.shown, t.consumer) && Seen(t.shown) <= Queue(t.acts) && Grammar(Seen(t.shown))
            && (t.consumer == Left(true) ==> Terminal(t.shown[|t.shown| - 1])
                                             && forall k :: 0 <= k < |t.shown| - 1 ==> !Terminal(t.shown[k]))
            && (t.shown != [] && t.shown[|t.shown| - 1] == Passed(Done) ==> Queue(t.acts) == Seen(t.shown))
  {
    RunKeeps(NEW, steps);
    var t := Run(NEW, steps);
    hide CanRun, Run;
    SeenIsPrefix(t);
    hide Inv, Grammar, Queue, Seen;
    if t.consumer == Left(true) { OneEnd(t.shown); }
  }

  lemma OneEnd(shown: seq<Shown>)
    requires ShownOk(shown, Left(true))
    ensures Terminal(shown[|shown| - 1]) && forall k :: 0 <= k < |shown| - 1 ==> !Terminal(shown[k])
  {}

  lemma SeenIsPrefix(t: Ticket)
    requires Inv(t)
    ensures Seen(t.shown) <= Queue(t.acts) && Grammar(Seen(t.shown))
    ensures t.shown != [] && t.shown[|t.shown| - 1] == Passed(Done) ==> Queue(t.acts) == Seen(t.shown)
  {
    var es := Queue(t.acts);
    assert Seen(t.shown) <= es;
    if t.shown != [] && t.shown[|t.shown| - 1] == Passed(Done) {
      var n := |t.shown| - 1;
      SeenMore(t.shown[..n], t.shown[n]);
      assert t.shown == t.shown[..n] + [t.shown[n]];
      assert es[|Seen(t.shown)| - 1] == Done;
    }
  }
}
