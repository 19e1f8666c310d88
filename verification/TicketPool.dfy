// The pool's ticket table: what its locked sections do to the tickets they share with producers and streams.
module TicketPool {
  import opened TicketSpec

  class Entry {
    var status: Status
    var cancelled: bool

    constructor ()
      ensures status == Pending && !cancelled
    {
      status, cancelled := Pending, false;
    }
  }

  class Pool {
    var tickets: map<string, Entry>
    var closed: bool

    constructor ()
      ensures tickets == map[] && !closed
    {
      tickets, closed := map[], false;
    }

    /** Refused once the pool is closing. */
    method NewTicket(id: string) returns (tk: Entry?)
      requires id !in tickets
      modifies this`tickets
      ensures tk == null <==> closed
      ensures closed ==> tickets == old(tickets)
      ensures tk != null ==> fresh(tk) && tk.status == Pending && !tk.cancelled && tickets == old(tickets)[id := tk]
    {
      if closed { return null; }
      tk := new Entry();
      tickets := tickets[id := tk];
    }

    /** The claimed ticket, or null: it is gone, or another call has it. */
    method ClaimTicket(id: string) returns (tk: Entry?)
      modifies tickets.Values
      ensures tk != null <==> id in tickets && old(tickets[id].status) == Pending
      ensures tk != null ==> tk == tickets[id] && tk.status == Processing && tk.cancelled == old(tk.cancelled)
      ensures forall e :: e in tickets.Values && e != tk ==> e.status == old(e.status) && e.cancelled == old(e.cancelled)
    {
      if id !in tickets { return null; }
      assert tickets[id] in tickets.Values;
      tk := tickets[id];
      if tk.status != Pending { return null; }
      tk.status := Processing;
    }

    /** The status after a final event was queued; a ticket removed meanwhile keeps its own. */
    method MarkFinal(id: string, tk: Entry, failed: bool)
      modifies tk`status
      ensures tk.status == if id in tickets && tickets[id] == tk then (if failed then Failed else Completed) else old(tk.status)
    {
      if id in tickets && tickets[id] == tk {
        tk.status := if failed then Failed else Completed;
      }
    }

    method FinishTicketWork(id: string, tk: Entry, canceled: bool)
      modifies tk`status
      ensures tk.status == if id in tickets && tickets[id] == tk && old(tk.status) == Processing
                           then (if canceled then Canceled else Failed) else old(tk.status)
    {
      if !(id in tickets && tickets[id] == tk) || tk.status != Processing { return; }
      tk.status := Failed;
      if canceled { tk.status := Canceled; }
    }

    /** Deletes first, cancels after: nobody sees a cancelled ticket in the table. */
    method ReleaseTicket(id: string)
      modifies this`tickets, tickets.Values
      ensures tickets == old(tickets) - {id}
      ensures id in old(tickets) ==> old(tickets)[id].cancelled && old(tickets)[id].status == old(tickets[id].status)
      ensures forall e :: e in old(tickets).Values && (id !in old(tickets) || e != old(tickets)[id]) ==>
                e.status == old(e.status) && e.cancelled == old(e.cancelled)
    {
      if id in tickets {
        assert tickets[id] in tickets.Values;
        var tk := tickets[id];
        tickets := tickets - {id};
        tk.cancelled := true;
      }
    }

    /** Cancels every ticket and empties the table. */
    method Close()
      modifies this, tickets.Values
      ensures closed && tickets == map[]
      ensures forall e :: e in old(tickets).Values ==> e.cancelled && e.status == old(e.status)
    {
      closed := true;
      var left := tickets.Values;
      while left != {}
        invariant left <= old(tickets).Values && tickets == old(tickets) && closed
        invariant forall e :: e in old(tickets).Values ==> e.status == old(e.status) && (e in left || e.cancelled)
        decreases left
      {
        var e :| e in left;
        left := left - {e};
        e.cancelled := true;
      }
      tickets := map[];
    }
  }
}
