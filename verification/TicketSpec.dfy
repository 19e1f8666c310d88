// One asynchronous ticket: its producer (the background job), its consumer (the client's event stream),
// and everybody who may remove it.
module TicketSpec {

  datatype Event = Ready | Chunk(data: string) | Done | Error(kind: string)

  predicate Final(ev: Event) { ev.Done? || ev.Error? }

  datatype Status = Pending | Processing | Completed | Failed | Canceled

  /** What a producer goes on with after an event is queued. */
  datatype Next = GoOn | Stream(sent: nat) | End

  /** Where a call of the background job is. */
  datatype Producer =
    | Idle                             // not claimed yet
    | Between(announced: bool)         // between two upstream requests
    | Flying(sent: nat)                // a request is under way; `sent` chunks queued from it
    | Checking(ev: Event, next: Next)  // about to look whether the ticket is still wanted
    | Sending(ev: Event, next: Next)   // about to queue the event
    | Marking(ev: Event)               // a final event was queued, its status not yet written
    | Leaving                          // about to settle the status
    | Over

  datatype Consumer = NotStarted | Watching | Left(connected: bool)

  datatype Shown = Opened | Passed(ev: Event) | NotFound | TimedOut

  /** What producers did, in order. */
  datatype Act = Queued(ev: Event) | Request

  const CAPACITY := 256

  /** `present`: the ticket is in the pool's table; `cancelled`: its context is. */
  datatype Ticket = Ticket(present: bool, cancelled: bool, status: Status, queue: seq<Event>, producers: seq<Producer>,
                           consumer: Consumer, shown: seq<Shown>, acts: seq<Act>)

  const NEW := Ticket(true, false, Pending, [], [Idle], NotStarted, [], [])

  function Set(t: Ticket, i: nat, p: Producer): Ticket
    requires i < |t.producers|
  {
    t.(producers := t.producers[i := p])
  }

  /** Only a pending ticket that is still there can be claimed. */
  function Claim(t: Ticket, i: nat): Ticket
    requires i < |t.producers|
  {
    if t.present && t.status == Pending then Set(t, i, Between(false)).(status := Processing) else Set(t, i, Over)
  }

  function Resume(next: Next): Producer {
    match next
    case GoOn => Between(true)
    case Stream(n) => Flying(n)
    case End => Leaving
  }

  function Check(t: Ticket, i: nat): Ticket
    requires i < |t.producers| && t.producers[i].Checking?
  {
    var p := t.producers[i];
    Set(t, i, if t.cancelled || !t.present then Leaving else Sending(p.ev, p.next))
  }

  function Send(t: Ticket, i: nat): Ticket
    requires i < |t.producers| && t.producers[i].Sending?
  {
    var p := t.producers[i];
    Set(t, i, if Final(p.ev) then Marking(p.ev) else Resume(p.next))
      .(queue := t.queue + [p.ev], acts := t.acts + [Queued(p.ev)])
  }

  function Mark(t: Ticket, i: nat): Ticket
    requires i < |t.producers| && t.producers[i].Marking?
  {
    var ev := t.producers[i].ev;
    Set(t, i, Leaving).(status := if !t.present then t.status else if ev.Error? then Failed else Completed)
  }

  /** A job that ends without a final event must not leave its ticket claimable again. */
  function FinishWork(t: Ticket, i: nat, cancelled: bool): Ticket
    requires i < |t.producers|
  {
    Set(t, i, Over).(status := if t.present && t.status == Processing then (if cancelled then Canceled else Failed)
                               else t.status)
  }

  // ---- the producer's program ------------------------------------------------------------------

  datatype Move =
    | DoClaim | Announce | BeginRequest | Retry | Arrives(data: string) | Finishes | Breaks | Reject(kind: string) | Quit
    | DoCheck | DoSend | StopSending | DoMark | DoFinish

  /** A request is begun only after `ready`; a stream that breaks after a chunk is not tried again. */
  predicate CanMove(t: Ticket, i: nat, m: Move) {
    && i < |t.producers|
    && var p := t.producers[i];
       match m
       case DoClaim => p.Idle?
       case Announce => p == Between(false)
       case BeginRequest => p == Between(true)
       case Retry => p == Flying(0)
       case Arrives(_) => p.Flying?
       case Finishes => p.Flying?
       case Breaks => p.Flying?
       case Reject(_) => p.Between? || p == Flying(0)
       case Quit => (p.Between? || p == Flying(0)) && t.cancelled
       case DoCheck => p.Checking?
       case DoSend => p.Sending? && |t.queue| < CAPACITY
       case StopSending => p.Sending? && t.cancelled
       case DoMark => p.Marking?
       case DoFinish => p.Leaving?
  }

  function Move1(t: Ticket, i: nat, m: Move): Ticket
    requires CanMove(t, i, m)
  {
    match m
    case DoClaim => Claim(t, i)
    case Announce => Set(t, i, Checking(Ready, GoOn))
    case BeginRequest => Set(t, i, Flying(0)).(acts := t.acts + [Request])
    case Retry => Set(t, i, Between(true))
    case Arrives(data) => Set(t, i, Checking(Chunk(data), Stream(t.producers[i].sent + 1)))
    case Finishes => Set(t, i, Checking(Done, End))
    case Breaks =>
      if t.producers[i].sent > 0 then Set(t, i, Checking(Error("upstream_stream_interrupted"), End))
      else Set(t, i, Between(true))
    case Reject(kind) => Set(t, i, Checking(Error(kind), End))
    case Quit => Set(t, i, Leaving)
    case DoCheck => Check(t, i)
    case DoSend => Send(t, i)
    case StopSending => Set(t, i, Leaving)
    case DoMark => Mark(t, i)
    case DoFinish => FinishWork(t, i, t.cancelled)
  }

  // ---- everybody else --------------------------------------------------------------------------

  datatype Step =
    | Produce(i: nat, move: Move)
    | CallAgain                    // somebody starts the background job for this ticket once more
    | Open                         // the client's stream starts
    | Receive | Expire | Disconnect
    | Remove                       // delete from the table: the stream's end or the sweep
    | Cancel                       // cancel the context of a removed ticket
    | CloseAll                     // the pool closes: cancelled and removed in one locked section

  predicate Enabled(t: Ticket, s: Step) {
    match s
    case Produce(i, m) => CanMove(t, i, m)
    case CallAgain => true
    case Open => t.consumer.NotStarted?
    case Receive => t.consumer.Watching? && t.queue != []
    case Expire => t.consumer.Watching?
    case Disconnect => t.consumer.Watching?
    case Remove => t.present
    case Cancel => !t.present
    case CloseAll => true
  }

  function Step1(t: Ticket, s: Step): Ticket
    requires Enabled(t, s)
  {
    match s
    case Produce(i, m) => Move1(t, i, m)
    case CallAgain => t.(producers := t.producers + [Idle])
    case Open =>
      if t.present then t.(consumer := Watching, shown := t.shown + [Opened])
      else t.(consumer := Left(true), shown := t.shown + [NotFound])
    case Receive =>
      t.(queue := t.queue[1..], shown := t.shown + [Passed(t.queue[0])],
         consumer := if Final(t.queue[0]) then Left(true) else Watching)
    case Expire => t.(shown := t.shown + [TimedOut], consumer := Left(true))
    case Disconnect => t.(consumer := Left(false))
    case Remove => t.(present := false)
    case Cancel => t.(cancelled := true)
    case CloseAll => t.(present := false, cancelled := true)
  }

  predicate CanRun(t: Ticket, steps: seq<Step>)
    decreases |steps|
  {
    steps == [] || (Enabled(t, steps[0]) && CanRun(Step1(t, steps[0]), steps[1..]))
  }

  function Run(t: Ticket, steps: seq<Step>): Ticket
    requires CanRun(t, steps)
    decreases |steps|
  {
    if steps == [] then t else Run(Step1(t, steps[0]), steps[1..])
  }
}
