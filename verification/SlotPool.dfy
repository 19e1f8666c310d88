// The slot pool as an object: every method is one atomic section of a slot's loop, of a caller, or of
// Start and Stop, and moves the state exactly as the corresponding step says.
module SlotPool {
  import opened Common
  import opened SlotPoolSpec

  class BrowserPool {
    var slots: seq<Slot>
    var idle: seq<nat>
    var calls: seq<Call>
    var closed: bool
    var settled: bool
    var started: bool
    var launch: Launch
    var startFailed: bool
    var readyNum: nat
    var workers: nat
    ghost var answers: map<nat, Result>
    var stats: Stats

    ghost function State(): Pool
      reads this
    {
      Pool(slots, idle, calls, closed, settled, started, launch, startFailed, readyNum, workers, answers, stats)
    }

    constructor (size: nat)
      ensures State() == Opened(size)
    {
      slots, idle, calls := seq(size, _ => Building), [], [];
      closed, settled, started, launch, startFailed := false, false, false, Starting, false;
      readyNum, workers, answers, stats := 0, 0, map[], Stats(0, 0, 0, 0, 0);
    }

    // ---- slot loop ---------------------------------------------------------------------------

    /** The ready count moves only while the generation is current and not closing. */
    method MarkReady(i: nat) returns (ok: bool)
      requires SlotEnabled(State(), i, Build)
      modifies this`slots, this`readyNum, this`workers
      ensures State() == SlotNext(old(State()), i, Build)
      ensures ok <==> !closed
    {
      if closed {
        slots := slots[i := Gone];
        return false;
      }
      slots := slots[i := Ready(workers)];
      readyNum, workers := readyNum + 1, workers + 1;
      return true;
    }

    /** Whether the slot may try again. */
    method FactoryFailed(i: nat) returns (retry: bool)
      requires SlotEnabled(State(), i, FailBuild)
      modifies this`slots, this`startFailed
      ensures State() == SlotNext(old(State()), i, FailBuild)
      ensures retry <==> !closed && started
    {
      if !closed && started { return true; }
      slots := slots[i := Gone];
      if !closed { startFailed := true; }
      return false;
    }

    method Enqueue(i: nat)
      requires SlotEnabled(State(), i, Queue)
      modifies this`slots, this`idle
      ensures State() == SlotNext(old(State()), i, Queue)
    {
      slots := slots[i := Waiting(slots[i].w)];
      idle := idle + [i];
    }

    method LeaveOnClose(i: nat)
      requires SlotEnabled(State(), i, Quit)
      modifies this`slots
      ensures State() == SlotNext(old(State()), i, Quit)
    {
      slots := slots[i := Gone];
    }

    method WorkerReturns(i: nat, result: Result)
      requires SlotEnabled(State(), i, Return(result))
      modifies this`slots, this`answers
      ensures State() == SlotNext(old(State()), i, Return(result))
    {
      var r := slots[i].r;
      slots := slots[i := Solved(slots[i].w, r, result)];
      answers := answers[r := result];
    }

    method Post(i: nat)
      requires SlotEnabled(State(), i, Deliver)
      modifies this`slots, this`calls, this`stats
      ensures State() == SlotNext(old(State()), i, Deliver)
    {
      var s := slots[i];
      slots := slots[i := Posted(s.w, s.r, s.result)];
      if calls[s.r].abandoned {
        stats := stats.(discarded := stats.discarded + 1);
      } else {
        calls := calls[s.r := calls[s.r].(done := Some(s.result))];
      }
    }

    /** Whether the worker stays. */
    method Judge(i: nat, recycle: bool) returns (kept: bool)
      requires SlotEnabled(State(), i, Decide(recycle))
      modifies this`slots, this`stats
      ensures State() == SlotNext(old(State()), i, Decide(recycle))
      ensures kept <==> slots[i].Ready?
    {
      var s := slots[i];
      var call := calls[s.r];
      kept := !call.condemned && !s.result.Dead?;
      if kept && s.result.Failure? && !call.abandoned {
        stats := stats.(failures := stats.failures + 1);
      }
      kept := kept && !recycle;
      if kept {
        slots := slots[i := Ready(s.w)];
      } else {
        stats := stats.(restarts := stats.restarts + 1);
        slots := slots[i := Building];
      }
    }

    // ---- callers -----------------------------------------------------------------------------

    method Arrive() returns (c: nat)
      modifies this`calls
      ensures State() == SlotPoolSpec.Arrive(old(State())) && c == |old(calls)|
    {
      c := |calls|;
      var phase := Finished(Fail(NotStarted));
      if started && !settled { phase := Queueing; }
      calls := calls + [Call(phase, None, false, false, None)];
    }

    method Acquire(c: nat) returns (slot: nat)
      requires CallEnabled(State(), c, TakeSlot)
      modifies this`calls, this`idle, this`stats
      ensures State() == CallNext(old(State()), c, TakeSlot) && slot == old(idle)[0]
    {
      slot := idle[0];
      idle := idle[1..];
      stats := stats.(requests := stats.requests + 1);
      calls := calls[c := calls[c].(phase := Holding(slot))];
    }

    method GiveUpQueueing(c: nat, why: Why)
      requires CallEnabled(State(), c, StopQueueing(why))
      modifies this`calls
      ensures State() == CallNext(old(State()), c, StopQueueing(why))
    {
      calls := calls[c := calls[c].(phase := Finished(Fail(why)))];
    }

    method HandOver(c: nat)
      requires CallEnabled(State(), c, PassOn)
      modifies this`calls, this`slots
      ensures State() == CallNext(old(State()), c, PassOn)
    {
      var slot := calls[c].phase.slot;
      slots := slots[slot := Solving(slots[slot].w, c)];
      calls := calls[c := calls[c].(phase := Awaiting, home := Some(slot))];
    }

    method HandOverFails(c: nat, why: Why)
      requires CallEnabled(State(), c, StopPassing(why))
      modifies this`calls
      ensures State() == CallNext(old(State()), c, StopPassing(why))
    {
      calls := calls[c := calls[c].(phase := Returning(calls[c].phase.slot, why), abandoned := true)];
    }

    method GiveBack(c: nat)
      requires CallEnabled(State(), c, PutBack)
      modifies this`calls, this`idle
      ensures State() == CallNext(old(State()), c, PutBack)
    {
      idle := idle + [calls[c].phase.slot];
      calls := calls[c := calls[c].(phase := Finished(Fail(calls[c].phase.why)))];
    }

    method Receive(c: nat) returns (result: Result)
      requires CallEnabled(State(), c, Read)
      modifies this`calls
      ensures State() == CallNext(old(State()), c, Read) && Some(result) == old(calls)[c].done
    {
      result := calls[c].done.value;
      calls := calls[c := calls[c].(phase := Finished(Answer(result)))];
    }

    /** The timer or the settled close was noticed: look once more for a result before giving up. */
    method GiveUpWaiting(c: nat, expired: bool)
      requires CallEnabled(State(), c, if expired then Expire else SeeSettled)
      modifies this`calls
      ensures State() == CallNext(old(State()), c, if expired then Expire else SeeSettled)
    {
      var call := calls[c];
      var phase := if expired then Expiring else Abandoning(Closed);
      if call.done.Some? { phase := Finished(Answer(call.done.value)); }
      calls := calls[c := call.(phase := phase)];
    }

    method Condemn(c: nat)
      requires CallEnabled(State(), c, Doom)
      modifies this`calls
      ensures State() == CallNext(old(State()), c, Doom)
    {
      calls := calls[c := calls[c].(phase := Abandoning(TimedOut), condemned := true)];
    }

    method CallerCancels(c: nat)
      requires CallEnabled(State(), c, Cancel)
      modifies this`calls
      ensures State() == CallNext(old(State()), c, Cancel)
    {
      calls := calls[c := calls[c].(phase := Abandoning(Cancelled))];
    }

    method Abandon(c: nat)
      requires CallEnabled(State(), c, Forget)
      modifies this`calls, this`stats
      ensures State() == CallNext(old(State()), c, Forget)
    {
      var why := calls[c].phase.why;
      calls := calls[c := calls[c].(phase := Finished(Fail(why)), abandoned := true)];
      if why == TimedOut {
        stats := stats.(timeouts := stats.timeouts + 1);
      }
    }

    // ---- start and stop ----------------------------------------------------------------------

    method BeginTeardown() returns (ok: bool)
      modifies this`closed, this`started
      ensures ok <==> !old(closed) && !settled
      ensures State() == if ok then CloseDone(old(State())) else old(State())
    {
      ok := !closed && !settled;
      if ok { closed, started := true, false; }
    }

    method FinishTeardown()
      requires Enabled(State(), DoSettle)
      modifies this`settled
      ensures State() == Settle(old(State()))
    {
      settled := true;
    }

    /** One turn of Start's loop; `settled ==> closed` holds of every run. */
    method PollStart(late: bool) returns (over: bool)
      requires Enabled(State(), DoStartCheck(late)) && (settled ==> closed)
      modifies this`launch, this`started, this`closed
      ensures State() == StartCheck(old(State()), late)
      ensures over <==> launch != Starting
    {
      over := true;
      if settled {
        launch := Down;
      } else if startFailed {
        var _ := BeginTeardown();
        launch := Down;
      } else if readyNum >= |slots| {
        launch, started := Up, true;
      } else if late {
        var _ := BeginTeardown();
        launch := Down;
      } else {
        over := false;
      }
    }
  }
}
