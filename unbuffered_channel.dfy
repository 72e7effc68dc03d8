/** Model of the unbuffered channel's shared context
    (inc/mce/unbuffered_channel.hpp).

    There is no buffer: a send meets a parked receiver, or a receive meets a
    parked sender, and the value passes directly between them. Otherwise a
    blocking operation parks in its FIFO queue and a non-blocking one fails. */
module UnbufferedChannel {

  import opened Wrappers
  import opened BaseChannel

  class UnbufferedChannel<T> {
    var closed: bool
    var parkedSend: seq<ParkedSend<T>>
    var parkedRecv: seq<Ticket>
    /** How parked requests were resolved, oldest first. */
    var notices: seq<Notice<T>>
    var nextTicket: Ticket

    /** A sender parks only when no receiver waits, and a receiver only when
        no sender waits, so at most one queue holds requests; a closed
        channel holds none. */
    ghost predicate Valid()
      reads this
    {
      && (parkedSend == [] || parkedRecv == [])
      && (closed ==> parkedSend == [] && parkedRecv == [])
    }

    constructor ()
      ensures Valid()
      ensures !closed && parkedSend == [] && parkedRecv == [] && notices == []
    {
      closed, parkedSend, parkedRecv, notices, nextTicket := false, [], [], [], 0;
    }

    method IsClosed() returns (b: bool)
      ensures b == closed
    {
      b := closed;
    }

    /** close(): mark closed and fail every parked sender, then every parked
        receiver, in queue order. */
    method Close()
      requires Valid()
      modifies this`closed, this`parkedSend, this`parkedRecv, this`notices
      ensures Valid() && closed
      ensures parkedSend == [] && parkedRecv == []
      ensures notices == old(notices) + ClosedNotices(SendTickets(old(parkedSend))) + ClosedNotices(old(parkedRecv))
    {
      closed := true;
      UnparkSenders();
      UnparkReceivers();
    }

    /** close's unpark_queue over the parked senders. */
    method UnparkSenders()
      modifies this`parkedSend, this`notices
      ensures parkedSend == []
      ensures notices == old(notices) + ClosedNotices(SendTickets(old(parkedSend)))
    {
      while parkedSend != []
        invariant notices + ClosedNotices(SendTickets(parkedSend)) ==
          old(notices) + ClosedNotices(SendTickets(old(parkedSend)))
        decreases |parkedSend|
      {
        ghost var c: Notice<T> := ClosedOut(parkedSend[0].ticket);
        assert notices + ClosedNotices(SendTickets(parkedSend)) ==
          (notices + [c]) + ClosedNotices(SendTickets(parkedSend[1..])) by {
          ClosedSendersStep(parkedSend);
        }
        notices := notices + [ClosedOut(parkedSend[0].ticket)];
        parkedSend := parkedSend[1..];
      }
    }

    /** close's unpark_queue over the parked receivers. */
    method UnparkReceivers()
      modifies this`parkedRecv, this`notices
      ensures parkedRecv == []
      ensures notices == old(notices) + ClosedNotices(old(parkedRecv))
    {
      while parkedRecv != []
        invariant notices + ClosedNotices(parkedRecv) == old(notices) + ClosedNotices(old(parkedRecv))
        decreases |parkedRecv|
      {
        assert ClosedNotices<T>(parkedRecv) == [ClosedOut(parkedRecv[0])] + ClosedNotices(parkedRecv[1..]);
        notices := notices + [ClosedOut(parkedRecv[0])];
        parkedRecv := parkedRecv[1..];
      }
    }

    /** send_(v, block): closed returns closed; with a parked receiver the
        value goes to the front one; otherwise a blocking send parks and a
        non-blocking one fails. */
    method Send(v: T, block: bool) returns (step: SendStep)
      requires Valid()
      modifies this`parkedSend, this`parkedRecv, this`notices, this`nextTicket
      ensures Valid()
      ensures old(closed) ==> step == SendReturned(Closed) && unchanged(this)
      ensures !old(closed) && old(parkedRecv) == [] && !block ==> step == SendReturned(Failure) && unchanged(this)
      ensures !old(closed) && old(parkedRecv) == [] && block ==>
        && step == SendParked(old(nextTicket))
        && parkedSend == old(parkedSend) + [ParkedSend(old(nextTicket), v)]
        && parkedRecv == old(parkedRecv) && notices == old(notices)
      ensures !old(closed) && old(parkedRecv) != [] ==>
        && step == SendReturned(Success)
        && notices == old(notices) + [RecvGiven(old(parkedRecv)[0], v)]
        && parkedRecv == old(parkedRecv)[1..] && parkedSend == old(parkedSend)
    {
      if closed {
        return SendReturned(Closed);
      }
      if parkedRecv == [] {
        if block {
          step := SendParked(nextTicket);
          parkedSend := parkedSend + [ParkedSend(nextTicket, v)];
          nextTicket := nextTicket + 1;
          return;
        } else {
          return SendReturned(Failure);
        }
      }
      notices := notices + [RecvGiven(parkedRecv[0], v)];
      parkedRecv := parkedRecv[1..];
      step := SendReturned(Success);
    }

    /** recv(block): closed returns closed; with a parked sender its value
        is taken from the front one; otherwise a blocking recv parks and a
        non-blocking one fails. */
    method Recv(block: bool) returns (step: RecvStep<T>)
      requires Valid()
      modifies this`parkedSend, this`parkedRecv, this`notices, this`nextTicket
      ensures Valid()
      ensures old(closed) ==> step == RecvReturned(Closed, None) && unchanged(this)
      ensures !old(closed) && old(parkedSend) == [] && !block ==> step == RecvReturned(Failure, None) && unchanged(this)
      ensures !old(closed) && old(parkedSend) == [] && block ==>
        && step == RecvParked(old(nextTicket))
        && parkedRecv == old(parkedRecv) + [old(nextTicket)]
        && parkedSend == old(parkedSend) && notices == old(notices)
      ensures !old(closed) && old(parkedSend) != [] ==>
        && step == RecvReturned(Success, Some(old(parkedSend)[0].value))
        && notices == old(notices) + [SendTaken(old(parkedSend)[0].ticket)]
        && parkedSend == old(parkedSend)[1..] && parkedRecv == old(parkedRecv)
    {
      if closed {
        return RecvReturned(Closed, None);
      }
      if parkedSend == [] {
        if block {
          step := RecvParked(nextTicket);
          parkedRecv := parkedRecv + [nextTicket];
          nextTicket := nextTicket + 1;
          return;
        } else {
          return RecvReturned(Failure, None);
        }
      }
      var front := parkedSend[0];
      notices := notices + [SendTaken(front.ticket)];
      parkedSend := parkedSend[1..];
      step := RecvReturned(Success, Some(front.value));
    }
  }
}
