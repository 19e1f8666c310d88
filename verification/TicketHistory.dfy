// What a ticket's queue and status say about what happened upstream.
module TicketHistory {
  import opened TicketSpec
  import opened TicketTheorems

  /** The moves that are about an upstream request. */
  predicate Upstream(m: Move) {
    m.BeginRequest? || m.Retry? || m.Arrives? || m.Finishes? || m.Breaks? || m.Reject? || m.Quit?
  }

  /** What happened upstream in a run, in order. */
  function Happened(steps: seq<Step>): seq<Move> {
    if steps == [] then []
    else
      var s := steps[|steps| - 1];
      Happened(steps[..|steps| - 1]) + (if s.Produce? && Upstream(s.move) then [s.move] else [])
  }

  /** The data that arrived, in order. */
  function Datas(ms: seq<Move>): seq<string> {
    if ms == [] then []
    else Datas(ms[..|ms| - 1]) + (if ms[|ms| - 1].Arrives? then [ms[|ms| - 1].data] else [])
  }

  function Begun(ms: seq<Move>): nat {
    if ms == [] then 0 else Begun(ms[..|ms| - 1]) + (if ms[|ms| - 1].BeginRequest? then 1 else 0)
  }

  /** The data of the queued chunks, in order. */
  function Chunks(es: seq<Event>): seq<string> {
    if es == [] then []
    else Chunks(es[..|es| - 1]) + (if es[|es| - 1].Chunk? then [es[|es| - 1].data] else [])
  }

  function Requests(acts: seq<Act>): nat {
    if acts == [] then 0 else Requests(acts[..|acts| - 1]) + (if acts[|acts| - 1].Request? then 1 else 0)
  }

  /** A stream broke after data of this ticket had arrived. */
  predicate BrokeLate(ms: seq<Move>) {
    exists i, j :: 0 <= i < j < |ms| && ms[i].Arrives? && ms[j].Breaks?
  }

  const CUT := "upstream_stream_interrupted"

  /** What must have happened last for this event to be the next one. */
  predicate Cause(ev: Event, ms: seq<Move>) {
    match ev
    case Ready => ms == []
    case Chunk(data) => ms != [] && ms[|ms| - 1] == Arrives(data) && !BrokeLate(ms)
    case Done => ms != [] && ms[|ms| - 1] == Finishes && !BrokeLate(ms)
    case Error(kind) =>
      ms != [] && ((ms[|ms| - 1] == Reject(kind) && !BrokeLate(ms)) || (ms[|ms| - 1] == Breaks && BrokeLate(ms) && kind == CUT))
  }

  /** An event that is about to be queued says what happened last. */
  predicate Says(ev: Event, es: seq<Event>, ms: seq<Move>) {
    Cause(ev, ms) && Datas(ms) == Chunks(es) + (if ev.Chunk? then [ev.data] else [])
  }

  predicate Informed(p: Producer, es: seq<Event>, ms: seq<Move>) {
    match p
    case Between(announced) => Datas(ms) == Chunks(es) && !BrokeLate(ms) && (announced || ms == [])
    case Flying(n) => Datas(ms) == Chunks(es) && |Datas(ms)| == n && !BrokeLate(ms)
    case Checking(ev, next) => Says(ev, es, ms) && (next.Stream? ==> next.sent == |Datas(ms)|)
    case Sending(ev, next) => Says(ev, es, ms) && (next.Stream? ==> next.sent == |Datas(ms)|)
    case _ => true
  }

  predicate AllInformed(ps: seq<Producer>, es: seq<Event>, ms: seq<Move>) {
    forall i :: 0 <= i < |ps| ==> Informed(ps[i], es, ms)
  }

  /** The queued chunks are the data that arrived, but perhaps for the last of it; an end says what happened last. */
  predicate Truthful(es: seq<Event>, ms: seq<Move>) {
    && Chunks(es) <= Datas(ms) && |Datas(ms)| <= |Chunks(es)| + 1
    && (Ended(es) ==> Says(es[|es| - 1], es, ms))
  }

  /** The status an end is worth. */
  function Worth(ev: Event): Status { if ev.Error? then Failed else Completed }

  /** While the ticket is in the table, nobody leaves it without an end. */
  predicate Attended(t: Ticket) {
    t.present ==>
      && (t.status == Processing ==> exists i :: 0 <= i < |t.producers| && Working(t.producers[i]) && !t.producers[i].Leaving?)
      && (Settled(t.status) ==> Ended(Queue(t.acts)) && t.status == Worth(Queue(t.acts)[|Queue(t.acts)| - 1]))
  }

  predicate Told(t: Ticket, ms: seq<Move>, claimed: bool) {
    && AllInformed(t.producers, Queue(t.acts), ms) && Truthful(Queue(t.acts), ms)
    && Requests(t.acts) == Begun(ms) && Attended(t)
    && (t.status == Pending ==> ms == [] && (t.present ==> !claimed))
  }

  /** Somebody has tried to claim the ticket. */
  predicate Claimed(steps: seq<Step>) {
    exists k :: 0 <= k < |steps| && steps[k].Produce? && steps[k].move == DoClaim
  }

  // ---- one more -------------------------------------------------------------------------------

  lemma OneMore(ms: seq<Move>, m: Move)
    ensures Datas(ms + [m]) == Datas(ms) + (if m.Arrives? then [m.data] else [])
    ensures Begun(ms + [m]) == Begun(ms) + (if m.BeginRequest? then 1 else 0)
  {
    assert (ms + [m])[..|ms|] == ms;
  }

  lemma {:induction false} SomeData(ms: seq<Move>)
    ensures Datas(ms) != [] <==> exists i :: 0 <= i < |ms| && ms[i].Arrives?
  {
    if ms != [] {
      var n := |ms| - 1;
      SomeData(ms[..n]);
      assert forall i :: 0 <= i < n ==> ms[..n][i] == ms[i];
    }
  }

  lemma BreaksLate(ms: seq<Move>, m: Move)
    ensures BrokeLate(ms + [m]) <==> BrokeLate(ms) || (m.Breaks? && Datas(ms) != [])
  {
    var more := ms + [m];
    assert forall i :: 0 <= i < |ms| ==> more[i] == ms[i];
    SomeData(ms);
    if BrokeLate(ms) {
      var i, j :| 0 <= i < j < |ms| && ms[i].Arrives? && ms[j].Breaks?;
      assert more[i].Arrives? && more[j].Breaks?;
    }
    if m.Breaks? && Datas(ms) != [] {
      var i :| 0 <= i < |ms| && ms[i].Arrives?;
      assert more[i].Arrives? && more[|ms|].Breaks?;
    }
  }

  lemma ChunkMore(es: seq<Event>, ev: Event)
    ensures Chunks(es + [ev]) == Chunks(es) + (if ev.Chunk? then [ev.data] else [])
  {
    assert (es + [ev])[..|es|] == es;
  }

  lemma RequestsMore(acts: seq<Act>, a: Act)
    ensures Requests(acts + [a]) == Requests(acts) + (if a.Request? then 1 else 0)
  {
    assert (acts + [a])[..|acts|] == acts;
  }

  lemma HappenedMore(steps: seq<Step>, s: Step)
    ensures Happened(steps + [s]) == Happened(steps) + (if s.Produce? && Upstream(s.move) then [s.move] else [])
  {
    assert (steps + [s])[..|steps|] == steps;
  }

  lemma {:induction false} ChunksOf(acts: seq<Act>)
    ensures SomeChunk(acts) <==> Chunks(Queue(acts)) != []
  {
    if acts != [] {
      var n := |acts| - 1;
      var a := acts[n];
      ChunksOf(acts[..n]);
      assert acts == acts[..n] + [a];
      QueueMore(acts[..n], a);
      hide SomeChunk, Queue;
      if a.Queued? {
        ChunkMore(Queue(acts[..n]), a.ev);
      } else {
        assert Queue(acts) == Queue(acts[..n]);
      }
    }
  }

  // ---- one step --------------------------------------------------------------------------------

  /** A producer that is about to hear from upstream has queued all that arrived. */
  predicate UpToDate(p: Producer, es: seq<Event>, ms: seq<Move>) {
    && !Ended(es) && Datas(ms) == Chunks(es) && !BrokeLate(ms)
    && (p.Flying? ==> p.sent == |Chunks(es)|) && (p.Between? ==> Chunks(es) == [])
  }

  lemma BeforeUpstream(t: Ticket, i: nat, m: Move, ms: seq<Move>, claimed: bool)
    requires Inv(t) && Told(t, ms, claimed) && CanMove(t, i, m) && Upstream(m)
    ensures UpToDate(t.producers[i], Queue(t.acts), ms)
  {
    hide Told;
    TheWorker(t, i);
    ChunksOf(t.acts);
    hide Inv, Queue, SomeChunk, BrokeLate, Chunks, Datas, Ended;
    IsInformed(t, i, ms, claimed);
  }

  lemma IsInformed(t: Ticket, i: nat, ms: seq<Move>, claimed: bool)
    requires Told(t, ms, claimed) && i < |t.producers|
    ensures Informed(t.producers[i], Queue(t.acts), ms) && Truthful(Queue(t.acts), ms)
  {}

  /** What the moving producer goes on to is informed by what just happened. */
  lemma UpstreamTells(t: Ticket, i: nat, m: Move, es: seq<Event>, ms: seq<Move>)
    requires CanMove(t, i, m) && Upstream(m) && UpToDate(t.producers[i], es, ms)
    ensures Informed(Move1(t, i, m).producers[i], es, ms + [m])
    ensures Truthful(es, ms + [m])
  {
    OneMore(ms, m);
    BreaksLate(ms, m);
    assert (ms + [m])[|ms|] == m;
    hide Queue, SomeChunk, BrokeLate, Datas, Chunks, Ended;
  }

  /** What is known when the working producer moves. */
  lemma Knows(t: Ticket, i: nat, ms: seq<Move>, claimed: bool)
    requires Inv(t) && Told(t, ms, claimed) && i < |t.producers| && Working(t.producers[i])
    ensures Alone(t.producers) && t.status != Pending && (Settled(t.status) ==> t.producers[i].Leaving?)
    ensures Fits(t.producers[i], Queue(t.acts), SomeChunk(t.acts)) && Informed(t.producers[i], Queue(t.acts), ms)
    ensures Truthful(Queue(t.acts), ms) && Requests(t.acts) == Begun(ms)
    ensures (t.cancelled ==> !t.present) && Attended(t)
  {
    hide Queue, SomeChunk, Seen, Grammar, NoLateRequest, ShownOk, StatusOk, Requests, Begun, Truthful, Fits, Informed, Attended;
  }

  predicate EndFits(t: Ticket) {
    Ended(Queue(t.acts)) && t.status == Worth(Queue(t.acts)[|Queue(t.acts)| - 1])
  }

  /** The working producer moves: it alone knew anything, and what it goes on to decides the rest. */
  lemma WorkerMoves(t: Ticket, u: Ticket, i: nat, p: Producer, ms: seq<Move>, claimed: bool)
    requires i < |t.producers| && Working(t.producers[i]) && Alone(t.producers) && u.producers == t.producers[i := p]
    requires Informed(p, Queue(u.acts), ms) && Truthful(Queue(u.acts), ms) && Requests(u.acts) == Begun(ms)
    requires u.status != Pending
    requires u.present && u.status == Processing ==> Working(p) && !p.Leaving?
    requires u.present && Settled(u.status) ==> EndFits(u)
    ensures Told(u, ms, claimed)
  {
    var es := Queue(u.acts);
    forall j | 0 <= j < |u.producers| ensures Informed(u.producers[j], es, ms) {
      if j != i { assert u.producers[j] == t.producers[j] && !Working(t.producers[j]); }
      hide Queue, BrokeLate, Datas, Chunks, Ended, Says;
    }
    assert AllInformed(u.producers, es, ms) by { hide Informed; }
    hide Queue, Informed, Truthful, Requests, Begun, Alone, AllInformed;
    assert u.producers[i] == p;
  }

  lemma UpstreamKeeps(t: Ticket, i: nat, m: Move, ms: seq<Move>, claimed: bool)
    requires Inv(t) && Told(t, ms, claimed) && CanMove(t, i, m) && Upstream(m)
    ensures Told(Move1(t, i, m), ms + [m], claimed)
  {
    hide Inv, Told, Queue, Informed, Truthful, Requests, Begun, Alone, SomeChunk, Fits, UpToDate, Attended, Datas, EndFits;
    var u := Move1(t, i, m);
    Knows(t, i, ms, claimed);
    BeforeUpstream(t, i, m, ms, claimed);
    UpstreamTells(t, i, m, Queue(t.acts), ms);
    OneMore(ms, m);
    RequestsMore(t.acts, Request);
    QueueMore(t.acts, Request);
    assert Queue(t.acts) + [] == Queue(t.acts);
    WorkerMoves(t, u, i, u.producers[i], ms + [m], claimed);
  }

  lemma AnnounceKeeps(t: Ticket, i: nat, ms: seq<Move>, claimed: bool)
    requires Inv(t) && Told(t, ms, claimed) && CanMove(t, i, Announce)
    ensures Told(Move1(t, i, Announce), ms, claimed)
  {
    hide Inv, Told, Queue, Truthful, Requests, Begun, Alone, SomeChunk, Fits, Attended, EndFits, Chunks;
    var u := Move1(t, i, Announce);
    Knows(t, i, ms, claimed);
    WorkerMoves(t, u, i, u.producers[i], ms, claimed);
  }

  lemma CheckKeeps(t: Ticket, i: nat, m: Move, ms: seq<Move>, claimed: bool)
    requires Inv(t) && Told(t, ms, claimed) && CanMove(t, i, m) && (m == DoCheck || m == StopSending)
    ensures Told(Move1(t, i, m), ms, claimed)
  {
    hide Inv, Told, Queue, Truthful, Requests, Begun, Alone, SomeChunk, Fits, Attended, EndFits, Chunks, Datas, Says;
    var u := Move1(t, i, m);
    Knows(t, i, ms, claimed);
    WorkerMoves(t, u, i, u.producers[i], ms, claimed);
  }

  lemma SendTells(ev: Event, next: Next, es: seq<Event>, ms: seq<Move>, chunked: bool)
    requires FitsNext(ev, next, es, chunked) && Says(ev, es, ms) && (next.Stream? ==> next.sent == |Datas(ms)|)
    ensures Truthful(es + [ev], ms)
    ensures Informed(if Final(ev) then Marking(ev) else Resume(next), es + [ev], ms)
  {
    ChunkMore(es, ev);
    hide Chunks, Datas;
  }

  lemma SendTold(t: Ticket, i: nat, ms: seq<Move>, claimed: bool)
    requires Inv(t) && Told(t, ms, claimed) && CanMove(t, i, DoSend)
    ensures Told(Send(t, i), ms, claimed)
  {
    hide Inv, Told, Queue, Truthful, Requests, Begun, Alone, SomeChunk, Attended, EndFits, Chunks, Datas, Says;
    var u := Send(t, i);
    var p := t.producers[i];
    Knows(t, i, ms, claimed);
    SendTells(p.ev, p.next, Queue(t.acts), ms, SomeChunk(t.acts));
    QueueMore(t.acts, Queued(p.ev));
    RequestsMore(t.acts, Queued(p.ev));
    hide Fits, Informed;
    WorkerMoves(t, u, i, u.producers[i], ms, claimed);
  }

  lemma MarkTold(t: Ticket, i: nat, ms: seq<Move>, claimed: bool)
    requires Inv(t) && Told(t, ms, claimed) && CanMove(t, i, DoMark)
    ensures Told(Mark(t, i), ms, claimed)
  {
    hide Inv, Told, Queue, Truthful, Requests, Begun, Alone, SomeChunk, Attended, Chunks, Datas, Says, FitsNext;
    var u := Mark(t, i);
    Knows(t, i, ms, claimed);
    assert u.present ==> EndFits(u);
    WorkerMoves(t, u, i, Leaving, ms, claimed);
  }

  /** A producer that leaves a ticket still in the table has settled it. */
  lemma LeavesSettled(t: Ticket, i: nat)
    requires Alone(t.producers) && Attended(t) && t.present && i < |t.producers| && t.producers[i].Leaving?
    requires t.status != Pending
    ensures Settled(t.status) && EndFits(t)
  {
    hide Queue;
  }

  lemma FinishTold(t: Ticket, i: nat, ms: seq<Move>, claimed: bool)
    requires Inv(t) && Told(t, ms, claimed) && CanMove(t, i, DoFinish)
    ensures Told(FinishWork(t, i, t.cancelled), ms, claimed)
  {
    hide Inv, Told, Queue, Truthful, Requests, Begun, Alone, SomeChunk, Attended, Chunks, Datas, Says, Fits;
    var u := FinishWork(t, i, t.cancelled);
    Knows(t, i, ms, claimed);
    if t.present { LeavesSettled(t, i); }
    WorkerMoves(t, u, i, Over, ms, claimed);
  }

  lemma ClaimTold(t: Ticket, i: nat, ms: seq<Move>, claimed: bool)
    requires Inv(t) && Told(t, ms, claimed) && CanMove(t, i, DoClaim)
    ensures Told(Claim(t, i), ms, true)
  {
    if t.present && t.status == Pending { FirstClaim(t, i, ms, claimed); } else { LateClaim(t, i, ms, claimed); }
  }

  lemma FirstClaim(t: Ticket, i: nat, ms: seq<Move>, claimed: bool)
    requires Inv(t) && Told(t, ms, claimed) && CanMove(t, i, DoClaim) && t.present && t.status == Pending
    ensures Told(Claim(t, i), ms, true)
  {
    var u := Claim(t, i);
    hide Grammar, ShownOk, NoLateRequest, Seen, Informed, Requests, Begun, Truthful, SomeChunk, Alone, AllFit, Queue;
    FirstKnowsNothing();
    IdleKnowsNothing(Queue(t.acts), ms);
    assert u.acts == [] && ms == [];
    forall j | 0 <= j < |u.producers| ensures Informed(u.producers[j], Queue(u.acts), ms) {
      if j != i { assert u.producers[j] == t.producers[j] && !Working(t.producers[j]); }
    }
    assert Working(u.producers[i]);
  }

  lemma LateClaim(t: Ticket, i: nat, ms: seq<Move>, claimed: bool)
    requires Told(t, ms, claimed) && CanMove(t, i, DoClaim) && !(t.present && t.status == Pending)
    ensures Told(Claim(t, i), ms, true)
  {
    var u := Claim(t, i);
    IdleKnowsNothing(Queue(t.acts), ms);
    hide Informed, Requests, Begun, Truthful, Queue, Ended;
    assert forall j :: 0 <= j < |t.producers| && Working(t.producers[j]) ==> u.producers[j] == t.producers[j];
  }

  lemma FirstKnowsNothing()
    ensures Queue([]) == [] && Informed(Between(false), [], [])
  {}

  lemma IdleKnowsNothing(es: seq<Event>, ms: seq<Move>)
    ensures Informed(Idle, es, ms) && Informed(Over, es, ms)
  {}

  lemma OtherTold(t: Ticket, s: Step, ms: seq<Move>, claimed: bool)
    requires Told(t, ms, claimed) && Enabled(t, s) && !s.Produce?
    ensures Told(Step1(t, s), ms, claimed)
  {
    hide Queue, Ended, Truthful, Requests, Begun, Informed;
    var u := Step1(t, s);
    assert forall j :: 0 <= j < |t.producers| ==> u.producers[j] == t.producers[j];
    assert forall j :: |t.producers| <= j < |u.producers| ==> u.producers[j] == Idle;
    IdleKnowsNothing(Queue(t.acts), ms);
  }

  lemma ProduceTold(t: Ticket, i: nat, m: Move, ms: seq<Move>, claimed: bool)
    requires Inv(t) && Told(t, ms, claimed) && CanMove(t, i, m)
    ensures Told(Move1(t, i, m), ms + (if Upstream(m) then [m] else []), claimed || m == DoClaim)
  {
    assert ms + [] == ms;
    if Upstream(m) {
      UpstreamKeeps(t, i, m, ms, claimed);
    } else {
      match m
      case DoClaim => ClaimTold(t, i, ms, claimed);
      case Announce => AnnounceKeeps(t, i, ms, claimed);
      case DoSend => SendTold(t, i, ms, claimed);
      case DoMark => MarkTold(t, i, ms, claimed);
      case DoFinish => FinishTold(t, i, ms, claimed);
      case _ => CheckKeeps(t, i, m, ms, claimed);
    }
  }

  lemma StepTold(t: Ticket, s: Step, before: seq<Step>)
    requires Inv(t) && Told(t, Happened(before), Claimed(before)) && Enabled(t, s)
    ensures Inv(Step1(t, s)) && Told(Step1(t, s), Happened(before + [s]), Claimed(before + [s]))
  {
    hide Inv, Told, Move1, CanMove, Happened;
    HappenedMore(before, s);
    ClaimedMore(before, s);
    assert Happened(before) + [] == Happened(before);
    assert [s][1..] == [];
    RunKeeps(t, [s]);
    assert Run(t, [s]) == Step1(t, s);
    if s.Produce? {
      ProduceTold(t, s.i, s.move, Happened(before), Claimed(before));
    } else {
      OtherTold(t, s, Happened(before), Claimed(before));
    }
  }

  lemma ClaimedMore(before: seq<Step>, s: Step)
    ensures Claimed(before + [s]) <==> Claimed(before) || (s.Produce? && s.move == DoClaim)
  {
    var more := before + [s];
    assert forall k :: 0 <= k < |before| ==> more[k] == before[k];
    assert more[|before|] == s;
  }

  lemma {:induction false} RunTells(t: Ticket, before: seq<Step>, steps: seq<Step>)
    requires Inv(t) && Told(t, Happened(before), Claimed(before)) && CanRun(t, steps)
    ensures Inv(Run(t, steps)) && Told(Run(t, steps), Happened(before + steps), Claimed(before + steps))
    decreases |steps|
  {
    hide Inv, Told, Step1, Happened, Claimed;
    if steps == [] {
      assert before + steps == before;
    } else {
      StepTold(t, steps[0], before);
      RunTells(Step1(t, steps[0]), before + [steps[0]], steps[1..]);
      assert before + [steps[0]] + steps[1..] == before + steps;
    }
  }

  lemma EveryRunTells(steps: seq<Step>)
    requires CanRun(NEW, steps)
    ensures Inv(Run(NEW, steps)) && Told(Run(NEW, steps), Happened(steps), Claimed(steps))
  {
    RunTells(NEW, [], steps);
    assert [] + steps == steps;
  }

  // ---- main results ----------------------------------------------------------------------------

  /** The client is never told of anything that did not happen, nor in another order: the queued chunks are the data
      that arrived, but perhaps for the last; `done` is queued only for a stream that ended, with all its data; an error
      only for the request that was rejected this way, or for a stream that broke after its data. */
  lemma QueueIsTrue(steps: seq<Step>)
    requires CanRun(NEW, steps)
    ensures var es, ms := Queue(Run(NEW, steps).acts), Happened(steps);
            && Chunks(es) <= Datas(ms) && |Datas(ms)| <= |Chunks(es)| + 1
            && Requests(Run(NEW, steps).acts) == Begun(ms)
            && (Done in es ==> ms != [] && ms[|ms| - 1] == Finishes && !BrokeLate(ms) && Chunks(es) == Datas(ms))
            && (forall kind :: Error(kind) in es ==>
                  && ms != [] && Chunks(es) == Datas(ms)
                  && (|| (ms[|ms| - 1] == Reject(kind) && !BrokeLate(ms))
                      || (ms[|ms| - 1] == Breaks && BrokeLate(ms) && kind == CUT)))
  {
    EveryRunTells(steps);
    var t := Run(NEW, steps);
    hide Inv, AllInformed, Attended, Chunks, Datas, BrokeLate, Queue;
    EndsAtTheEnd(t);
  }

  lemma EndsAtTheEnd(t: Ticket)
    requires Inv(t)
    ensures var es := Queue(t.acts);
            forall ev :: ev in es && Final(ev) ==> Ended(es) && es[|es| - 1] == ev
  {
    hide Queue, SomeChunk, Seen, NoLateRequest, ShownOk, StatusOk, Alone, AllFit, StatusFits;
  }

  /** A ticket that is still in the table and was ever claimed is being worked on, or its end is queued and its status
      says which end it was. */
  lemma NoSilentEnd(steps: seq<Step>)
    requires CanRun(NEW, steps) && Run(NEW, steps).present && Claimed(steps)
    ensures var t := Run(NEW, steps);
            || (exists i :: 0 <= i < |t.producers| && Working(t.producers[i]) && !t.producers[i].Leaving?)
            || (Ended(Queue(t.acts)) && t.status == if Queue(t.acts)[|Queue(t.acts)| - 1] == Done then Completed else Failed)
  {
    EveryRunTells(steps);
    var t := Run(NEW, steps);
    hide Inv, AllInformed, Truthful, Queue, Requests, Begun;
    NeverCanceled(t);
  }

  lemma NeverCanceled(t: Ticket)
    requires Inv(t)
    ensures t.status != Canceled
  {
    hide Queue, SomeChunk, Seen, NoLateRequest, ShownOk, Grammar, Alone, AllFit, StatusFits;
  }

  /** The working producer can always go on, unless the client does not read and nobody cancels. */
  lemma NeverStuck(steps: seq<Step>, i: nat)
    requires CanRun(NEW, steps) && i < |Run(NEW, steps).producers| && Working(Run(NEW, steps).producers[i])
    ensures var t := Run(NEW, steps);
            (exists m :: CanMove(t, i, m)) <==> !(t.producers[i].Sending? && |t.queue| >= CAPACITY && !t.cancelled)
  {
    var t := Run(NEW, steps);
    match t.producers[i]
    case Between(announced) => assert CanMove(t, i, if announced then BeginRequest else Announce);
    case Flying(_) => assert CanMove(t, i, Finishes);
    case Checking(_, _) => assert CanMove(t, i, DoCheck);
    case Sending(_, _) =>
      if |t.queue| < CAPACITY { assert CanMove(t, i, DoSend); }
      else if t.cancelled { assert CanMove(t, i, StopSending); }
    case Marking(_) => assert CanMove(t, i, DoMark);
    case Leaving => assert CanMove(t, i, DoFinish);
  }

  // ---- a stream that breaks --------------------------------------------------------------------

  /** Nothing but the error for a cut stream is queued any more. */
  predicate Doomed(t: Ticket, es: seq<Event>) {
    && t.status != Pending
    && (Queue(t.acts) == es || Queue(t.acts) == es + [Error(CUT)])
    && forall j :: 0 <= j < |t.producers| && Working(t.producers[j]) ==> DoomedProducer(t.producers[j], Queue(t.acts) == es)
  }

  predicate DoomedProducer(p: Producer, open: bool) {
    match p
    case Checking(ev, next) => ev == Error(CUT) && next == End && open
    case Sending(ev, next) => ev == Error(CUT) && next == End && open
    case Marking(_) => true
    case Leaving => true
    case _ => false
  }

  lemma DoomedMoves(t: Ticket, i: nat, m: Move, es: seq<Event>)
    requires Doomed(t, es) && Alone(t.producers) && CanMove(t, i, m)
    ensures Doomed(Move1(t, i, m), es)
  {
    var u := Move1(t, i, m);
    if m == DoSend { QueueMore(t.acts, Queued(t.producers[i].ev)); }
    hide Queue;
    assert forall j :: 0 <= j < |t.producers| && j != i ==> u.producers[j] == t.producers[j];
  }

  lemma DoomedStep(t: Ticket, s: Step, es: seq<Event>)
    requires Doomed(t, es) && Inv(t) && Enabled(t, s)
    ensures Doomed(Step1(t, s), es) && Inv(Step1(t, s))
  {
    hide Inv, Move1, CanMove, Queue, Doomed;
    assert [s][1..] == [];
    RunKeeps(t, [s]);
    assert Run(t, [s]) == Step1(t, s);
    if s.Produce? {
      OnlyOne(t);
      DoomedMoves(t, s.i, s.move, es);
    } else {
      DoomedOther(t, s, es);
    }
  }

  lemma OnlyOne(t: Ticket)
    requires Inv(t)
    ensures Alone(t.producers)
  {}

  lemma DoomedOther(t: Ticket, s: Step, es: seq<Event>)
    requires Doomed(t, es) && Enabled(t, s) && !s.Produce?
    ensures Doomed(Step1(t, s), es)
  {
    hide Queue;
    var u := Step1(t, s);
    assert forall j :: 0 <= j < |t.producers| ==> u.producers[j] == t.producers[j];
    assert forall j :: |t.producers| <= j < |u.producers| ==> u.producers[j] == Idle;
  }

  lemma {:induction false} DoomedRun(t: Ticket, steps: seq<Step>, es: seq<Event>)
    requires Doomed(t, es) && Inv(t) && CanRun(t, steps)
    ensures Doomed(Run(t, steps), es)
    decreases |steps|
  {
    hide Inv, Doomed, Step1;
    if steps != [] {
      DoomedStep(t, steps[0], es);
      DoomedRun(Step1(t, steps[0]), steps[1..], es);
    }
  }

  lemma {:induction false} RunSplits(t: Ticket, a: seq<Step>, b: seq<Step>)
    requires CanRun(t, a + b)
    ensures CanRun(t, a) && CanRun(Run(t, a), b) && Run(t, a + b) == Run(Run(t, a), b)
    decreases |a|
  {
    hide Step1, Enabled;
    if a == [] {
      assert a + b == b;
    } else {
      assert (a + b)[1..] == a[1..] + b;
      RunSplits(Step1(t, a[0]), a[1..], b);
    }
  }

  /** After a stream has broken behind a queued chunk, the only event that is still queued is the error that says so. */
  lemma CutIsReported(before: seq<Step>, i: nat, after: seq<Step>)
    requires CanRun(NEW, before + ([Produce(i, Breaks)] + after)) && CanRun(NEW, before)
    requires SomeChunk(Run(NEW, before).acts)
    ensures var es := Queue(Run(NEW, before).acts);
            Queue(Run(NEW, before + ([Produce(i, Breaks)] + after)).acts) in {es, es + [Error(CUT)]}
  {
    var t := Run(NEW, before);
    var rest := [Produce(i, Breaks)] + after;
    RunSplits(NEW, before, rest);
    assert rest[1..] == after;
    RunKeeps(NEW, before);
    BreakDooms(t, i);
    hide Inv, Queue, Doomed, Move1;
    DoomedRun(Move1(t, i, Breaks), after, Queue(t.acts));
    assert Run(NEW, before + rest) == Run(Move1(t, i, Breaks), after);
    DoomedQueue(Run(NEW, before + rest), Queue(t.acts));
  }

  lemma DoomedQueue(t: Ticket, es: seq<Event>)
    requires Doomed(t, es)
    ensures Queue(t.acts) in {es, es + [Error(CUT)]}
  {}

  lemma BreakDooms(t: Ticket, i: nat)
    requires Inv(t) && CanMove(t, i, Breaks) && SomeChunk(t.acts)
    ensures Doomed(Move1(t, i, Breaks), Queue(t.acts)) && Inv(Move1(t, i, Breaks))
  {
    ProduceKeeps(t, i, Breaks);
    TheWorker(t, i);
    OnlyOne(t);
    hide Inv, Queue, SomeChunk;
    var u := Move1(t, i, Breaks);
    assert forall j :: 0 <= j < |t.producers| && j != i ==> u.producers[j] == t.producers[j];
  }

  // ---- a ticket that is gone ------------------------------------------------------------------

  predicate SomeSending(ps: seq<Producer>) { exists i :: 0 <= i < |ps| && ps[i].Sending? }

  /** Since it was removed: at most the one event that was about to be queued then has been. */
  predicate Wound(t: Ticket, es: seq<Event>) {
    && !t.present
    && (Queue(t.acts) == es || (es <= Queue(t.acts) && |Queue(t.acts)| == |es| + 1 && !SomeSending(t.producers)))
  }

  lemma WoundMoves(t: Ticket, i: nat, m: Move, es: seq<Event>)
    requires Wound(t, es) && Alone(t.producers) && CanMove(t, i, m)
    ensures Wound(Move1(t, i, m), es)
  {
    if m == DoSend {
      WoundSend(t, i, es);
    } else {
      QuietWhenGone(t, i, m);
      hide Move1, CanMove, Queue;
      var u := Move1(t, i, m);
      assert forall j :: 0 <= j < |t.producers| && j != i ==> u.producers[j] == t.producers[j];
    }
  }

  lemma WoundSend(t: Ticket, i: nat, es: seq<Event>)
    requires Wound(t, es) && Alone(t.producers) && CanMove(t, i, DoSend)
    ensures Wound(Send(t, i), es)
  {
    QueueMore(t.acts, Queued(t.producers[i].ev));
    assert SomeSending(t.producers) by { assert t.producers[i].Sending?; }
    var u := Send(t, i);
    hide Queue;
    assert forall j :: 0 <= j < |t.producers| && j != i ==> u.producers[j] == t.producers[j];
  }

  /** On a removed ticket a move queues nothing and prepares nothing to be queued, unless it does queue. */
  lemma QuietWhenGone(t: Ticket, i: nat, m: Move)
    requires !t.present && CanMove(t, i, m) && m != DoSend
    ensures var u := Move1(t, i, m);
            && !u.present && Queue(u.acts) == Queue(t.acts) && i < |t.producers| == |u.producers|
            && u.producers == t.producers[i := u.producers[i]] && !u.producers[i].Sending?
  {
    if m == BeginRequest {
      QueueMore(t.acts, Request);
      assert Queue(t.acts) + [] == Queue(t.acts);
    }
    hide Queue;
  }

  lemma WoundStep(t: Ticket, s: Step, es: seq<Event>)
    requires Wound(t, es) && Inv(t) && Enabled(t, s)
    ensures Wound(Step1(t, s), es) && Inv(Step1(t, s))
  {
    hide Inv, Move1, CanMove, Queue, SomeSending;
    assert [s][1..] == [];
    RunKeeps(t, [s]);
    assert Run(t, [s]) == Step1(t, s);
    match s
    case Produce(i, m) =>
      OnlyOne(t);
      WoundMoves(t, i, m, es);
    case CallAgain => IdleSendsNothing(t.producers);
    case _ =>
  }

  lemma IdleSendsNothing(ps: seq<Producer>)
    ensures SomeSending(ps + [Idle]) <==> SomeSending(ps)
  {
    assert forall j :: 0 <= j < |ps| ==> (ps + [Idle])[j] == ps[j];
  }

  lemma {:induction false} WoundRun(t: Ticket, steps: seq<Step>, es: seq<Event>)
    requires Wound(t, es) && Inv(t) && CanRun(t, steps)
    ensures Wound(Run(t, steps), es)
    decreases |steps|
  {
    hide Inv, Wound, Step1;
    if steps != [] {
      WoundStep(t, steps[0], es);
      WoundRun(Step1(t, steps[0]), steps[1..], es);
    }
  }

  /** Once a ticket is removed, at most the one event that was about to be queued still is. */
  lemma RemovedIsLeftAlone(steps: seq<Step>, more: seq<Step>)
    requires CanRun(NEW, steps) && !Run(NEW, steps).present && CanRun(Run(NEW, steps), more)
    ensures var es, fs := Queue(Run(NEW, steps).acts), Queue(Run(Run(NEW, steps), more).acts);
            es <= fs && |fs| <= |es| + 1
  {
    RunKeeps(NEW, steps);
    hide Inv;
    WoundRun(Run(NEW, steps), more, Queue(Run(NEW, steps).acts));
  }

  predicate NobodyWorks(t: Ticket) {
    !t.present && forall i :: 0 <= i < |t.producers| ==> !Working(t.producers[i])
  }

  lemma NobodyStarts(t: Ticket, s: Step)
    requires NobodyWorks(t) && Enabled(t, s)
    ensures NobodyWorks(Step1(t, s)) && Step1(t, s).acts == t.acts && Step1(t, s).status == t.status
  {}

  /** A removed ticket that nobody works on is never worked on again: no request is sent for it, nothing is queued, and
      its status stays. */
  lemma {:induction false} GoneIsNeverWorked(t: Ticket, steps: seq<Step>)
    requires NobodyWorks(t) && CanRun(t, steps)
    ensures var u := Run(t, steps);
            NobodyWorks(u) && u.acts == t.acts && u.status == t.status
    decreases |steps|
  {
    hide NobodyWorks, Step1;
    if steps != [] {
      NobodyStarts(t, steps[0]);
      GoneIsNeverWorked(Step1(t, steps[0]), steps[1..]);
    }
  }

  /** What everybody but the producers does to the table, the context and the calls. */
  lemma OthersExactly(t: Ticket, s: Step)
    requires Enabled(t, s) && !s.Produce?
    ensures var u := Step1(t, s);
            && (u.present <==> t.present && !s.Remove? && !s.CloseAll?)
            && (u.cancelled <==> t.cancelled || s.Cancel? || s.CloseAll?)
            && u.producers == t.producers + (if s.CallAgain? then [Idle] else [])
            && u.status == t.status && u.acts == t.acts
            && (s.Expire? ==> u.consumer == Left(true)) && (s.Disconnect? ==> u.consumer == Left(false))
            && (s.Open? ==> u.consumer == if t.present then Watching else Left(true))
            && (s.CallAgain? || s.Remove? || s.Cancel? || s.CloseAll? ==> u.consumer == t.consumer && u.queue == t.queue)
  {}

  /** A call that ends leaves no ticket behind that looks as if it were still being worked on, and tells a cancelled
      context from a failure. */
  lemma EndSettles(t: Ticket, i: nat)
    requires CanMove(t, i, DoFinish)
    ensures var u := Move1(t, i, DoFinish);
            && u.producers[i].Over?
            && (t.present ==> u.status != Processing)
            && (u.status != t.status <==> t.present && t.status == Processing)
            && (u.status != t.status ==> (u.status == Canceled <==> t.cancelled) && (u.status == Failed <==> !t.cancelled))
  {}

  // ---- a whole answer --------------------------------------------------------------------------

  /** One event, from what causes it to the client's receiving it. */
  function Emit(m: Move): seq<Step> {
    [Produce(0, m), Produce(0, DoCheck), Produce(0, DoSend), Receive]
  }

  function EmitAll(xs: seq<string>): seq<Step> {
    if xs == [] then [] else EmitAll(xs[..|xs| - 1]) + Emit(Arrives(xs[|xs| - 1]))
  }

  function PassedOn(xs: seq<string>): seq<Shown> {
    if xs == [] then [] else PassedOn(xs[..|xs| - 1]) + [Passed(Chunk(xs[|xs| - 1]))]
  }

  /** In the middle of an answer whose client keeps up. */
  predicate MidAnswer(t: Ticket, p: Producer, shown: seq<Shown>) {
    && t.present && !t.cancelled && t.status == Processing && t.queue == [] && t.producers == [p]
    && t.consumer == Watching && t.shown == shown
  }

  lemma {:induction false} RunJoins(t: Ticket, a: seq<Step>, b: seq<Step>)
    requires CanRun(t, a) && CanRun(Run(t, a), b)
    ensures CanRun(t, a + b) && Run(t, a + b) == Run(Run(t, a), b)
    decreases |a|
  {
    hide Step1, Enabled;
    if a == [] {
      assert a + b == b;
    } else {
      assert (a + b)[1..] == a[1..] + b;
      RunJoins(Step1(t, a[0]), a[1..], b);
    }
  }

  lemma RunTwo(t: Ticket, s: Step, r: Step)
    requires Enabled(t, s) && Enabled(Step1(t, s), r)
    ensures CanRun(t, [s, r]) && Run(t, [s, r]) == Step1(Step1(t, s), r)
  {
    hide Step1, Enabled;
    var u := Step1(t, s);
    assert [s, r][1..] == [r] && [r][1..] == [];
    assert CanRun(Step1(u, r), []);
    assert CanRun(u, [r]) && Run(u, [r]) == Step1(u, r);
  }

  lemma Emits(t: Ticket, m: Move, p: Producer, shown: seq<Shown>, ev: Event, next: Next)
    requires MidAnswer(t, p, shown) && CanMove(t, 0, m) && Move1(t, 0, m) == Set(t, 0, Checking(ev, next)) && !Final(ev)
    ensures CanRun(t, Emit(m)) && MidAnswer(Run(t, Emit(m)), Resume(next), shown + [Passed(ev)])
  {
    var s := Emit(m);
    assert s == s[..2] + s[2..] && s[..2] == [Produce(0, m), Produce(0, DoCheck)] && s[2..] == [Produce(0, DoSend), Receive];
    var u := Step1(Step1(t, s[0]), s[1]);
    assert MidAnswer(u, Sending(ev, next), shown);
    RunTwo(t, s[0], s[1]);
    RunTwo(u, s[2], s[3]);
    hide Run, CanRun;
    RunJoins(t, s[..2], s[2..]);
  }

  lemma Begins()
    ensures var start := [Open, Produce(0, DoClaim)];
            CanRun(NEW, start) && MidAnswer(Run(NEW, start), Between(false), [Opened])
  {
    RunTwo(NEW, Open, Produce(0, DoClaim));
    hide Run, CanRun;
  }

  /** The client's opening and everything up to the request. */
  function Opening(): seq<Step> {
    [Open, Produce(0, DoClaim)] + Emit(Announce) + [Produce(0, BeginRequest)]
  }

  lemma Opens()
    ensures CanRun(NEW, Opening()) && MidAnswer(Run(NEW, Opening()), Flying(0), [Opened, Passed(Ready)])
  {
    var start := [Open, Produce(0, DoClaim)];
    Begins();
    Emits(Run(NEW, start), Announce, Between(false), [Opened], Ready, GoOn);
    RunJoins(NEW, start, Emit(Announce));
    var t := Run(NEW, start + Emit(Announce));
    assert [Produce(0, BeginRequest)][1..] == [];
    assert CanRun(t, [Produce(0, BeginRequest)]) && Run(t, [Produce(0, BeginRequest)]) == Step1(t, Produce(0, BeginRequest));
    RunJoins(NEW, start + Emit(Announce), [Produce(0, BeginRequest)]);
    assert [Opened] + [Passed(Ready)] == [Opened, Passed(Ready)];
    hide Run, CanRun;
  }

  lemma {:induction false} Delivers(t: Ticket, xs: seq<string>, shown: seq<Shown>)
    requires MidAnswer(t, Flying(0), shown)
    ensures CanRun(t, EmitAll(xs)) && MidAnswer(Run(t, EmitAll(xs)), Flying(|xs|), shown + PassedOn(xs))
  {
    if xs == [] {
      assert shown + [] == shown;
    } else {
      var n := |xs| - 1;
      Delivers(t, xs[..n], shown);
      var u := Run(t, EmitAll(xs[..n]));
      hide Run, CanRun, Emit;
      Emits(u, Arrives(xs[n]), Flying(n), shown + PassedOn(xs[..n]), Chunk(xs[n]), Stream(n + 1));
      RunJoins(t, EmitAll(xs[..n]), Emit(Arrives(xs[n])));
      assert shown + PassedOn(xs[..n]) + [Passed(Chunk(xs[n]))] == shown + PassedOn(xs);
    }
  }

  /** The end of an answer: `done` is queued and the status written before the client reads it. */
  function Ending(m: Move): seq<Step> {
    [Produce(0, m), Produce(0, DoCheck), Produce(0, DoSend), Produce(0, DoMark), Produce(0, DoFinish), Receive]
  }

  lemma EndsQueued(t: Ticket, n: nat, shown: seq<Shown>)
    requires MidAnswer(t, Flying(n), shown)
    ensures var s := Ending(Finishes);
            && CanRun(t, s[..2]) && CanRun(Run(t, s[..2]), s[2..4])
            && var v := Run(Run(t, s[..2]), s[2..4]);
               && v.present && v.status == Completed && v.queue == [Done] && v.producers == [Leaving]
               && v.consumer == Watching && v.shown == shown
  {
    var s := Ending(Finishes);
    assert s[..2] == [s[0], s[1]] && s[2..4] == [s[2], s[3]];
    var u := Step1(Step1(t, s[0]), s[1]);
    assert MidAnswer(u, Sending(Done, End), shown);
    RunTwo(t, s[0], s[1]);
    RunTwo(u, s[2], s[3]);
    hide Run, CanRun;
  }

  lemma EndsRead(v: Ticket, shown: seq<Shown>)
    requires v.present && v.status == Completed && v.queue == [Done] && v.producers == [Leaving]
    requires v.consumer == Watching && v.shown == shown
    ensures var s := Ending(Finishes);
            && CanRun(v, s[4..])
            && var u := Run(v, s[4..]);
               u.status == Completed && u.consumer == Left(true) && u.shown == shown + [Passed(Done)]
  {
    var s := Ending(Finishes);
    assert s[4..] == [s[4], s[5]];
    RunTwo(v, s[4], s[5]);
    hide Run, CanRun;
  }

  lemma Ends(t: Ticket, n: nat, shown: seq<Shown>)
    requires MidAnswer(t, Flying(n), shown)
    ensures CanRun(t, Ending(Finishes))
    ensures var u := Run(t, Ending(Finishes));
            u.status == Completed && u.consumer == Left(true) && u.shown == shown + [Passed(Done)]
  {
    var s := Ending(Finishes);
    assert s == s[..2] + (s[2..4] + s[4..]);
    EndsQueued(t, n, shown);
    hide Run, CanRun, MidAnswer, Ending;
    var u := Run(t, s[..2]);
    EndsRead(Run(u, s[2..4]), shown);
    RunJoins(u, s[2..4], s[4..]);
    RunJoins(t, s[..2], s[2..4] + s[4..]);
  }

  /** Whatever data arrives, there is a run in which a client that reads is shown all of it, and then `done`. */
  lemma EveryAnswerCanArrive(xs: seq<string>)
    ensures exists steps ::
              && CanRun(NEW, steps)
              && Run(NEW, steps).shown == [Opened, Passed(Ready)] + PassedOn(xs) + [Passed(Done)]
              && Run(NEW, steps).status == Completed
  {
    Opens();
    var t := Run(NEW, Opening());
    Delivers(t, xs, [Opened, Passed(Ready)]);
    RunJoins(NEW, Opening(), EmitAll(xs));
    var u := Run(t, EmitAll(xs));
    Ends(u, |xs|, [Opened, Passed(Ready)] + PassedOn(xs));
    var most := Opening() + EmitAll(xs);
    RunJoins(NEW, most, Ending(Finishes));
    var steps := most + Ending(Finishes);
    assert CanRun(NEW, steps);
  }
}
