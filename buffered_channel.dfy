/** Model of the buffered channel's shared context
    (inc/mce/buffered_channel.hpp).

    The context holds a bounded FIFO buffer, a closed flag, and the FIFO
    queues of parked senders (each with the value it is trying to send) and
    parked receivers. A blocking operation that has to wait is parked and
    returns a ticket; when another operation later resolves it, a notice
    records what its call returns. */
module BufferedChannel {

  import opened Wrappers
  import opened BaseChannel

  /** construct(sz): a requested size below 1 becomes 1. */
  function CapacityFor(sz: nat): (c: nat)
    ensures c >= 1
    ensures c == if sz < 1 then 1 else sz
  {
    if sz < 1 then 1 else sz
  }

  class BufferedChannel<T> {
    const capacity: nat
    var buf: seq<T>
    var closed: bool
    var parkedSend: seq<ParkedSend<T>>
    var parkedRecv: seq<Ticket>
    /** How parked requests were resolved, oldest first. */
    var notices: seq<Notice<T>>
    var nextTicket: Ticket

    /** Senders park only on a full buffer and receivers only on an empty
        one, and each operation that frees room or adds a value hands it on
        at once, so these hold between operations. */
    ghost predicate Valid()
      reads this
    {
      && capacity >= 1
      && |buf| <= capacity
      && (parkedSend != [] ==> |buf| == capacity)
      && (parkedRecv != [] ==> buf == [])
      && (closed ==> parkedSend == [] && parkedRecv == [])
    }

    /** The values sent and not yet received, in the order a receiver gets
        them: the buffer, then the parked senders' values. */
    ghost function Pending(): seq<T>
      reads this
    {
      buf + Values(parkedSend)
    }

    /** construct(sz) */
    constructor (sz: nat)
      ensures Valid()
      ensures capacity == CapacityFor(sz)
      ensures buf == [] && !closed && parkedSend == [] && parkedRecv == [] && notices == []
    {
      capacity := CapacityFor(sz);
      buf, closed, parkedSend, parkedRecv, notices, nextTicket := [], false, [], [], [], 0;
    }

    /** construct(): the default size. */
    constructor Default()
      ensures Valid()
      ensures capacity == 1
      ensures buf == [] && !closed && parkedSend == [] && parkedRecv == [] && notices == []
    {
      capacity := CapacityFor(0);
      buf, closed, parkedSend, parkedRecv, notices, nextTicket := [], false, [], [], [], 0;
    }

    method Size() returns (n: nat)
      requires Valid()
      ensures n == |buf| && n <= capacity
    {
      n := |buf|;
    }

    method Empty() returns (b: bool)
      ensures b <==> |buf| == 0
    {
      b := buf == [];
    }

    method Full() returns (b: bool)
      ensures b <==> |buf| == capacity
    {
      b := |buf| == capacity;
    }

    method Capacity() returns (n: nat)
      ensures n == capacity
    {
      n := capacity;
    }

    /** reserve(): the free room. */
    method Reserve() returns (n: nat)
      requires Valid()
      ensures n == capacity - |buf|
      ensures n == 0 <==> |buf| == capacity
    {
      n := capacity - |buf|;
    }

    method IsClosed() returns (b: bool)
      ensures b == closed
    {
      b := closed;
    }

    /** close(): mark closed and resolve every parked sender, then every
        parked receiver, in queue order, with a closed result. */
    method Close()
      requires Valid()
      modifies this`closed, this`parkedSend, this`parkedRecv, this`notices
      ensures Valid() && closed
      ensures parkedSend == [] && parkedRecv == []
      ensures notices == old(notices) + ClosedNotices(SendTickets(old(parkedSend))) + ClosedNotices(old(parkedRecv))
      ensures buf == old(buf)
    {
      closed := true;
      UnparkSenders();
      UnparkReceivers();
    }

    /** close's unpark_queue over the parked senders. */
    method UnparkSenders()
      modifies this`parkedSend, this`notices
      ensures parkedSend == []
      ensures notices == old(notices) + ClosedNotices(SendTickets(old(parkedSend)))
    {
      while parkedSend != []
        invariant notices + ClosedNotices(SendTickets(parkedSend)) ==
          old(notices) + ClosedNotices(SendTickets(old(parkedSend)))
        decreases |parkedSend|
      {
        ghost var c: Notice<T> := ClosedOut(parkedSend[0].ticket);
        assert notices + ClosedNotices(SendTickets(parkedSend)) ==
          (notices + [c]) + ClosedNotices(SendTickets(parkedSend[1..])) by {
          ClosedSendersStep(parkedSend);
        }
        notices := notices + [ClosedOut(parkedSend[0].ticket)];
        parkedSend := parkedSend[1..];
      }
    }

    /** close's unpark_queue over the parked receivers. */
    method UnparkReceivers()
      modifies this`parkedRecv, this`notices
      ensures parkedRecv == []
      ensures notices == old(notices) + ClosedNotices(old(parkedRecv))
    {
      while parkedRecv != []
        invariant notices + ClosedNotices(parkedRecv) == old(notices) + ClosedNotices(old(parkedRecv))
        decreases |parkedRecv|
      {
        assert ClosedNotices<T>(parkedRecv) == [ClosedOut(parkedRecv[0])] + ClosedNotices(parkedRecv[1..]);
        notices := notices + [ClosedOut(parkedRecv[0])];
        parkedRecv := parkedRecv[1..];
      }
    }

    /** send_(v, block): closed returns closed; a full buffer fails a
        non-blocking send and parks a blocking one; otherwise the value is
        appended, and a parked receiver, if any, takes the front value. */
    method Send(v: T, block: bool) returns (step: SendStep)
      requires Valid()
      modifies this`buf, this`parkedSend, this`parkedRecv, this`notices, this`nextTicket
      ensures Valid()
      ensures old(closed) ==> step == SendReturned(Closed) && unchanged(this)
      ensures !old(closed) && |old(buf)| == capacity && !block ==> step == SendReturned(Failure) && unchanged(this)
      ensures !old(closed) && |old(buf)| == capacity && block ==>
        && step == SendParked(old(nextTicket))
        && parkedSend == old(parkedSend) + [ParkedSend(old(nextTicket), v)]
        && buf == old(buf) && parkedRecv == old(parkedRecv) && notices == old(notices)
      ensures !old(closed) && |old(buf)| < capacity ==> step == SendReturned(Success)
      ensures !old(closed) && |old(buf)| < capacity && old(parkedRecv) != [] ==>
        && notices == old(notices) + [RecvGiven(old(parkedRecv)[0], v)]
        && parkedRecv == old(parkedRecv)[1..] && buf == old(buf)
      ensures !old(closed) && |old(buf)| < capacity && old(parkedRecv) == [] ==>
        && buf == old(buf) + [v]
        && parkedRecv == old(parkedRecv) && notices == old(notices)
      ensures parkedSend == old(parkedSend) || step.SendParked?
      ensures old(parkedRecv) != [] && step != SendReturned(Closed) ==>
        step == SendReturned(Success) && notices == old(notices) + [RecvGiven(old(parkedRecv)[0], v)]
      ensures old(parkedRecv) == [] && (step.SendParked? || step == SendReturned(Success)) ==>
        Pending() == old(Pending()) + [v]
    {
      if closed {
        return SendReturned(Closed);
      }
      if |buf| == capacity {
        if block {
          step := SendParked(nextTicket);
          parkedSend := parkedSend + [ParkedSend(nextTicket, v)];
          nextTicket := nextTicket + 1;
          assert Values(parkedSend) == Values(old(parkedSend)) + [v];
          return;
        } else {
          return SendReturned(Failure);
        }
      }
      buf := buf + [v];
      if !closed {
        if parkedRecv != [] && buf != [] {
          notices := notices + [RecvGiven(parkedRecv[0], buf[0])];
          buf := buf[1..];
          parkedRecv := parkedRecv[1..];
        }
      }
      step := SendReturned(Success);
    }

    /** recv(block): closed returns closed; an empty buffer fails a
        non-blocking recv and parks a blocking one; otherwise the front value
        is taken, and a parked sender, if any, fills the freed room. */
    method Recv(block: bool) returns (step: RecvStep<T>)
      requires Valid()
      modifies this`buf, this`parkedSend, this`parkedRecv, this`notices, this`nextTicket
      ensures Valid()
      ensures old(closed) ==> step == RecvReturned(Closed, None) && unchanged(this)
      ensures !old(closed) && old(buf) == [] && !block ==> step == RecvReturned(Failure, None) && unchanged(this)
      ensures !old(closed) && old(buf) == [] && block ==>
        && step == RecvParked(old(nextTicket))
        && parkedRecv == old(parkedRecv) + [old(nextTicket)]
        && buf == old(buf) && parkedSend == old(parkedSend) && notices == old(notices)
      ensures !old(closed) && old(buf) != [] ==>
        && step == RecvReturned(Success, Some(old(buf)[0]))
        && parkedRecv == old(parkedRecv)
      ensures !old(closed) && old(buf) != [] && old(parkedSend) != [] ==>
        && buf == old(buf)[1..] + [old(parkedSend)[0].value]
        && parkedSend == old(parkedSend)[1..]
        && notices == old(notices) + [SendTaken(old(parkedSend)[0].ticket)]
      ensures !old(closed) && old(buf) != [] && old(parkedSend) == [] ==>
        buf == old(buf)[1..] && parkedSend == old(parkedSend) && notices == old(notices)
      ensures step.RecvReturned? && step.r == Success ==>
        old(Pending()) != [] && step.value == Some(old(Pending())[0]) && Pending() == old(Pending())[1..]
    {
      if closed {
        return RecvReturned(Closed, None);
      }
      if buf == [] {
        if block {
          step := RecvParked(nextTicket);
          parkedRecv := parkedRecv + [nextTicket];
          nextTicket := nextTicket + 1;
          return;
        } else {
          return RecvReturned(Failure, None);
        }
      }
      var r := buf[0];
      buf := buf[1..];
      if !closed {
        if parkedSend != [] && |buf| < capacity {
          buf := buf + [parkedSend[0].value];
          notices := notices + [SendTaken(parkedSend[0].ticket)];
          parkedSend := parkedSend[1..];
        }
      }
      step := RecvReturned(Success, Some(r));
      assert Pending() == old(Pending())[1..] by {
        if old(parkedSend) != [] {
          assert Values(old(parkedSend)) == [old(parkedSend)[0].value] + Values(parkedSend);
        }
      }
    }

    /** Blocking send: true iff the call returned success at once; a parked
        send's answer is that of its notice. */
    method SendBlocking(v: T) returns (ok: Option<bool>, step: SendStep)
      requires Valid()
      modifies this`buf, this`parkedSend, this`parkedRecv, this`notices, this`nextTicket
      ensures Valid()
      ensures step.SendParked? <==> ok == None
      ensures step.SendReturned? ==> ok == Some(Succeeded(step.r)) && step.r != Failure
    {
      step := Send(v, true);
      ok := if step.SendReturned? then Some(Succeeded(step.r)) else None;
    }

    /** Blocking recv: true iff the call returned success at once. */
    method RecvBlocking() returns (ok: Option<bool>, step: RecvStep<T>)
      requires Valid()
      modifies this`buf, this`parkedSend, this`parkedRecv, this`notices, this`nextTicket
      ensures Valid()
      ensures step.RecvParked? <==> ok == None
      ensures step.RecvReturned? ==> ok == Some(Succeeded(step.r)) && step.r != Failure
    {
      step := Recv(true);
      ok := if step.RecvReturned? then Some(Succeeded(step.r)) else None;
    }
  }
}
