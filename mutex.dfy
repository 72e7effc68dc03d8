/** Model of the coroutine-safe mutex (inc/mce/mutex.hpp).

    The mutex is an acquired flag and a FIFO queue of parked lockers. A lock
    on a held mutex parks; unlock wakes the front parked locker, which then
    re-checks the flag and either takes the mutex or parks again. Parking is
    modelled by tickets: a parked lock returns its ticket, unlock moves the
    front ticket to the woken list, and Relock continues a woken locker. */
module Mutex {

  type Ticket = nat

  /** How a lock call ends for now: holding the mutex, or parked. */
  datatype LockStep = Acquired | LockParked(ticket: Ticket)

  /** unlock(): success, or mutex_already_unlocked_exception. */
  datatype UnlockResult = Unlocked | AlreadyUnlocked

  class Mutex {
    var acquired: bool
    /** notify_q_: the parked lockers, oldest first. */
    var waiters: seq<Ticket>
    /** Lockers unparked by unlock that have not yet re-checked the flag. */
    var woken: seq<Ticket>
    var nextTicket: Ticket

    /** No lost wake-up: while the mutex is free and lockers are parked, a
        woken locker is on its way to re-check the flag. Tickets are unique. */
    ghost predicate Valid()
      reads this
    {
      && (!acquired && waiters != [] ==> woken != [])
      && (forall i, j :: 0 <= i < j < |waiters| ==> waiters[i] != waiters[j])
      && (forall i :: 0 <= i < |waiters| ==> waiters[i] < nextTicket && waiters[i] !in woken)
      && (forall t :: t in woken ==> t < nextTicket)
    }

    /** mutex(): free, with nobody parked. */
    constructor ()
      ensures Valid()
      ensures !acquired && waiters == [] && woken == []
    {
      acquired, waiters, woken, nextTicket := false, [], [], 0;
    }

    /** lock(): a free mutex is taken at once and the queue is not touched;
        on a held one the caller parks at the back of the queue. */
    method Lock() returns (step: LockStep)
      requires Valid()
      modifies this`acquired, this`waiters, this`nextTicket
      ensures Valid()
      ensures acquired && woken == old(woken)
      ensures !old(acquired) ==> step == Acquired && waiters == old(waiters)
      ensures old(acquired) ==> step == LockParked(old(nextTicket)) && waiters == old(waiters) + [old(nextTicket)]
      ensures step.LockParked? ==> step.ticket !in old(waiters) && step.ticket !in woken
    {
      if acquired {
        step := Park();
      } else {
        acquired := true;
        step := Acquired;
      }
    }

    /** One pass of lock's do-while body: park at the back of the queue. */
    method Park() returns (step: LockStep)
      requires Valid() && acquired
      modifies this`waiters, this`nextTicket
      ensures Valid()
      ensures step == LockParked(old(nextTicket)) && waiters == old(waiters) + [old(nextTicket)]
      ensures step.ticket !in old(waiters) && step.ticket !in woken
    {
      step := LockParked(nextTicket);
      waiters := waiters + [nextTicket];
      nextTicket := nextTicket + 1;
    }

    /** lock()'s loop after the locker t was woken: the mutex is taken if it
        is still free; otherwise the locker parks again. */
    method Relock(t: Ticket) returns (step: LockStep)
      requires Valid() && t in woken
      modifies this`acquired, this`waiters, this`woken, this`nextTicket
      ensures Valid()
      ensures acquired
      ensures woken == Without(old(woken), t)
      ensures !old(acquired) ==> step == Acquired && waiters == old(waiters)
      ensures old(acquired) ==> step == LockParked(old(nextTicket)) && waiters == old(waiters) + [old(nextTicket)]
    {
      woken := Without(woken, t);
      if acquired {
        step := Park();
      } else {
        acquired := true;
        step := Acquired;
      }
    }

    /** unlock(): a held mutex is released and the front parked locker, if
        any, is woken and leaves the queue; an unlocked one is an error and
        nothing changes. */
    method Unlock() returns (r: UnlockResult)
      requires Valid()
      modifies this`acquired, this`waiters, this`woken
      ensures Valid()
      ensures !old(acquired) ==> r == AlreadyUnlocked && !acquired && waiters == old(waiters) && woken == old(woken)
      ensures old(acquired) ==> r == Unlocked && !acquired
      ensures old(acquired) && old(waiters) != [] ==>
        waiters == old(waiters)[1..] && woken == old(woken) + [old(waiters)[0]]
      ensures old(acquired) && old(waiters) == [] ==> waiters == [] && woken == old(woken)
    {
      if acquired {
        acquired := false;
        if waiters != [] {
          woken := woken + [waiters[0]];
          waiters := waiters[1..];
          assert forall i :: 0 <= i < |waiters| ==> waiters[i] == old(waiters)[i + 1];
        }
        r := Unlocked;
      } else {
        r := AlreadyUnlocked;
      }
    }

    /** try_lock(): takes a free mutex and answers true; a held one answers
        false and nothing changes. */
    method TryLock() returns (ok: bool)
      requires Valid()
      modifies this`acquired
      ensures Valid()
      ensures ok <==> !old(acquired)
      ensures acquired
    {
      if !acquired {
        acquired := true;
        ok := true;
      } else {
        ok := false;
      }
    }
  }

  /** s with every occurrence of t removed. */
  function Without(s: seq<Ticket>, t: Ticket): (r: seq<Ticket>)
    ensures forall u :: u in r <==> u in s && u != t
    ensures |r| <= |s|
  {
    if s == [] then []
    else (if s[0] == t then [] else [s[0]]) + Without(s[1..], t)
  }
}
