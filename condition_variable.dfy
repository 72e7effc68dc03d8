/** Model of the condition variable's bookkeeping
    (inc/mce/condition_variable.hpp).

    Each wait operation borrows a unique key, appends a waiter record with
    that key to the notify queue and parks. A notify operation calls a
    waiter's unpark callback and erases the record; the woken operation then
    returns its key. A timed wait's callback carries a shared flag so that it
    unparks at most once, whether the notify or the timer comes first. The
    parking itself is modelled by the log of unparked keys. */
module ConditionVariable {

  type Key = nat

  /** std::cv_status */
  datatype CvStatus = NoTimeout | Timeout

  /** A notify-queue entry: the key and which unpark callback it carries
      (unparker_with_flag for a timed wait, plain unparker otherwise). */
  datatype Waiter = Waiter(key: Key, flagged: bool)

  function Keys(q: seq<Waiter>): (ks: seq<Key>)
    ensures |ks| == |q|
    ensures forall i :: 0 <= i < |q| ==> ks[i] == q[i].key
  {
    if q == [] then [] else [q[0].key] + Keys(q[1..])
  }

  predicate Distinct(s: seq<Key>)
  {
    forall i, j :: 0 <= i < j < |s| ==> s[i] != s[j]
  }

  /** The position of the first occurrence of k in s, or |s| if none. */
  function IndexOf(s: seq<Key>, k: Key): (r: nat)
    ensures r <= |s|
    ensures r < |s| <==> k in s
    ensures r < |s| ==> s[r] == k
    ensures forall j :: 0 <= j < r ==> s[j] != k
  {
    if s == [] then 0 else if s[0] == k then 0 else 1 + IndexOf(s[1..], k)
  }

  // ---------------------------------------------------------------------
  // The timed wait's flag and status
  // ---------------------------------------------------------------------

  /** The two locals a wait_until operation shares with its callbacks:
      notify_available and status. */
  datatype WaitState = WaitState(available: bool, status: CvStatus)

  const Start := WaitState(true, NoTimeout)

  /** unparker_with_flag called by a notify: it unparks iff the flag is still
      up, and the flag is down afterwards. */
  function OnNotify(s: WaitState): (t: WaitState)
    ensures !t.available && t.status == s.status
  {
    WaitState(false, s.status)
  }

  /** The timer's handler: while the flag is up it records a timeout and
      notifies its own key, which takes the flag down; otherwise nothing. */
  function OnTimer(s: WaitState): (t: WaitState)
    ensures !t.available
    ensures t.status == if s.available then Timeout else s.status
  {
    if s.available then WaitState(false, Timeout) else s
  }

  datatype WaitEvent = Notified | TimerRan

  /** The state after the events, in the order they happen. */
  function After(events: seq<WaitEvent>, s: WaitState): WaitState
  {
    if events == [] then s
    else After(events[1..], if events[0] == Notified then OnNotify(s) else OnTimer(s))
  }

  /** How many of the events unpark the waiting operation: those that find
      the flag still up. */
  function UnparkCount(events: seq<WaitEvent>, s: WaitState): nat
  {
    if events == [] then 0
    else
      var rest := UnparkCount(events[1..], if events[0] == Notified then OnNotify(s) else OnTimer(s));
      (if s.available then 1 else 0) + rest
  }

  /** Once the flag is down, nothing changes any more and nothing unparks. */
  lemma {:induction false} FlagDownIsFinal(events: seq<WaitEvent>, s: WaitState)
    requires !s.available
    ensures After(events, s) == s
    ensures UnparkCount(events, s) == 0
  {
    if events != [] {
      var t := if events[0] == Notified then OnNotify(s) else OnTimer(s);
      assert t == s;
      FlagDownIsFinal(events[1..], s);
    }
  }

  /** wait_until reports a timeout iff the timer's handler ran before any
      notify: a notify that comes first makes the result no_timeout. */
  lemma WaitUntilStatusRule(events: seq<WaitEvent>)
    ensures After(events, Start).status == Timeout <==> events != [] && events[0] == TimerRan
  {
    if events != [] {
      var t := if events[0] == Notified then OnNotify(Start) else OnTimer(Start);
      FlagDownIsFinal(events[1..], t);
    }
  }

  /** The flagged unparker unparks the operation exactly once, at the first
      event, however many notifies and timer runs follow. */
  lemma UnparkedAtMostOnce(events: seq<WaitEvent>)
    ensures UnparkCount(events, Start) == if events == [] then 0 else 1
    ensures events != [] ==> !After(events, Start).available
  {
    if events != [] {
      var t := if events[0] == Notified then OnNotify(Start) else OnTimer(Start);
      FlagDownIsFinal(events[1..], t);
    }
  }

  /** Every timed wait whose key is in ks has its flag taken down. */
  function Lower(waits: map<Key, WaitState>, ks: seq<Key>): (r: map<Key, WaitState>)
    ensures r.Keys == waits.Keys
  {
    map k | k in waits :: if k in ks then OnNotify(waits[k]) else waits[k]
  }

  /** The queue against the timed waits in progress: the keys are held and
      distinct, a record is flagged iff it is a timed wait, and a timed
      wait's flag is up exactly while its record is queued. */
  ghost predicate QueueOk(q: seq<Waiter>, waits: map<Key, WaitState>, held: set<Key>)
  {
    && Distinct(Keys(q))
    && (forall i :: 0 <= i < |q| ==> q[i].key in held && (q[i].flagged <==> q[i].key in waits))
    && (forall k :: k in waits ==> k in held && (waits[k].available <==> k in Keys(q)))
  }

  /** Calling one record's callback lowers exactly its own flag. */
  lemma NotifyLowers(waits: map<Key, WaitState>, w: Waiter)
    requires w.flagged <==> w.key in waits
    ensures (if w.flagged then waits[w.key := OnNotify(waits[w.key])] else waits) == Lower(waits, [w.key])
  {
  }

  /** Lowering one more key, as a map update. */
  lemma LowerStep(waits: map<Key, WaitState>, ks: seq<Key>, k: Key)
    requires k in waits && k !in ks
    ensures Lower(waits, ks + [k]) == Lower(waits, ks)[k := OnNotify(waits[k])]
  {
  }

  lemma LowerSkip(waits: map<Key, WaitState>, ks: seq<Key>, k: Key)
    requires k !in waits
    ensures Lower(waits, ks + [k]) == Lower(waits, ks)
  {
  }

  /** Erasing position i of a list of distinct keys keeps them distinct and
      drops exactly the key at i. */
  lemma DistinctErase(s: seq<Key>, i: nat)
    requires i < |s| && Distinct(s)
    ensures Distinct(s[..i] + s[i + 1..])
    ensures forall k :: k in s[..i] + s[i + 1..] <==> k in s && k != s[i]
  {
    var r := s[..i] + s[i + 1..];
    assert forall j :: 0 <= j < |r| ==> r[j] == if j < i then s[j] else s[j + 1];
    forall k | k in s && k != s[i]
      ensures k in r
    {
      var j :| 0 <= j < |s| && s[j] == k;
      assert r[if j < i then j else j - 1] == k;
    }
  }

  lemma KeysErase(q: seq<Waiter>, i: nat)
    requires i < |q|
    ensures Keys(Erase(q, i)) == Keys(q)[..i] + Keys(q)[i + 1..]
  {
    var ks, e := Keys(q), Erase(q, i);
    var r, t := Keys(e), ks[..i] + ks[i + 1..];
    assert |r| == |t|;
    forall j | 0 <= j < |r|
      ensures r[j] == t[j]
    {
      if j < i {
        assert r[j] == e[j].key == q[j].key;
      } else {
        assert r[j] == e[j].key == q[j + 1].key;
      }
    }
  }

  /** The timer's handler, as the status update followed by its own notify. */
  lemma TimeoutLowers(waits: map<Key, WaitState>, k: Key)
    requires k in waits && waits[k].available
    ensures Lower(waits[k := waits[k].(status := Timeout)], [k]) == waits[k := OnTimer(waits[k])]
  {
  }

  /** Setting a timed wait's status leaves the queue consistent. */
  lemma StatusOk(q: seq<Waiter>, waits: map<Key, WaitState>, held: set<Key>, k: Key, st: CvStatus)
    requires QueueOk(q, waits, held) && k in waits
    ensures QueueOk(q, waits[k := waits[k].(status := st)], held)
  {
  }

  /** Erasing record i and lowering its flag keeps the queue consistent. */
  lemma RemoveOk(q: seq<Waiter>, i: nat, waits: map<Key, WaitState>, held: set<Key>)
    requires QueueOk(q, waits, held) && i < |q|
    ensures QueueOk(Erase(q, i), Lower(waits, [q[i].key]), held)
  {
    KeysErase(q, i);
    DistinctErase(Keys(q), i);
  }

  /** After every record's callback ran, an empty queue is consistent. */
  lemma ClearOk(q: seq<Waiter>, waits: map<Key, WaitState>, held: set<Key>)
    requires QueueOk(q, waits, held)
    ensures QueueOk([], Lower(waits, Keys(q)), held)
  {
  }

  // ---------------------------------------------------------------------
  // The condition variable
  // ---------------------------------------------------------------------

  class ConditionVariable {
    var notifyQueue: seq<Waiter>
    var freeKeys: seq<Key>
    var keySource: nat
    /** Keys borrowed by wait operations that have not yet returned them. */
    ghost var held: set<Key>
    /** The flag and status of every timed wait in progress, by its key. */
    var waits: map<Key, WaitState>
    /** Keys of the operations unparked, oldest first. */
    var unparked: seq<Key>

    /** The key pool: returned keys are distinct, and every key handed out
        or returned lies below key_source_, with no key both free and held. */
    ghost predicate KeyPool()
      reads this
    {
      && Distinct(freeKeys)
      && (forall k :: k in freeKeys ==> k < keySource && k !in held)
      && (forall k :: k in held ==> k < keySource)
    }

    ghost predicate Valid()
      reads this
    {
      KeyPool() && QueueOk(notifyQueue, waits, held)
    }

    constructor ()
      ensures Valid()
      ensures notifyQueue == [] && freeKeys == [] && keySource == 0 && held == {}
      ensures waits == map[] && unparked == []
    {
      notifyQueue, freeKeys, keySource, waits, unparked := [], [], 0, map[], [];
      held := {};
    }

    /** borrow_key(): the oldest returned key if there is one, otherwise a
        fresh key from key_source_. Either way no operation holds it. */
    method BorrowKey() returns (k: Key)
      requires Valid()
      modifies this`freeKeys, this`keySource, this`held
      ensures Valid()
      ensures old(freeKeys) != [] ==> k == old(freeKeys)[0] && freeKeys == old(freeKeys)[1..] && keySource == old(keySource)
      ensures old(freeKeys) == [] ==> k == old(keySource) && keySource == old(keySource) + 1 && freeKeys == []
      ensures k !in old(held) && k !in Keys(notifyQueue) && k !in waits
      ensures held == old(held) + {k}
    {
      if freeKeys != [] {
        k := freeKeys[0];
        freeKeys := freeKeys[1..];
      } else {
        k := keySource;
        keySource := keySource + 1;
      }
      held := held + {k};
    }

    /** return_key(k): the key goes to the back of the free list. */
    method ReturnKey(k: Key)
      requires Valid() && k in held && k !in Keys(notifyQueue) && k !in waits
      modifies this`freeKeys, this`held
      ensures Valid()
      ensures freeKeys == old(freeKeys) + [k]
      ensures held == old(held) - {k}
    {
      freeKeys := freeKeys + [k];
      held := held - {k};
    }

    /** wait(lk), up to the park: borrow a key and queue a plain record. */
    method BeginWait() returns (k: Key)
      requires Valid()
      modifies this`freeKeys, this`keySource, this`held, this`notifyQueue
      ensures Valid()
      ensures k !in old(held) && held == old(held) + {k}
      ensures notifyQueue == old(notifyQueue) + [Waiter(k, false)]
    {
      k := BorrowKey();
      notifyQueue := notifyQueue + [Waiter(k, false)];
      assert Keys(notifyQueue) == Keys(old(notifyQueue)) + [k];
    }

    /** wait(lk), after being unparked: return the key. */
    method EndWait(k: Key)
      requires Valid() && k in held && k !in Keys(notifyQueue) && k !in waits
      modifies this`freeKeys, this`held
      ensures Valid()
      ensures freeKeys == old(freeKeys) + [k]
    {
      ReturnKey(k);
    }

    /** wait_until(lk, tp), up to the park: borrow a key, queue a flagged
        record, and start with the flag up and no timeout. */
    method BeginWaitUntil() returns (k: Key)
      requires Valid()
      modifies this`freeKeys, this`keySource, this`held, this`notifyQueue, this`waits
      ensures Valid()
      ensures k !in old(held) && held == old(held) + {k}
      ensures notifyQueue == old(notifyQueue) + [Waiter(k, true)]
      ensures waits == old(waits)[k := Start]
    {
      k := BorrowKey();
      notifyQueue := notifyQueue + [Waiter(k, true)];
      waits := waits[k := Start];
      assert Keys(notifyQueue) == Keys(old(notifyQueue)) + [k];
    }

    /** wait_until(lk, tp), after being unparked: return the key and report
        the status the callbacks left. */
    method EndWaitUntil(k: Key) returns (st: CvStatus)
      requires Valid() && k in waits && !waits[k].available
      modifies this`freeKeys, this`held, this`waits
      ensures Valid()
      ensures st == old(waits)[k].status
      ensures waits == old(waits) - {k}
      ensures freeKeys == old(freeKeys) + [k]
    {
      st := waits[k].status;
      waits := waits - {k};
      ReturnKey(k);
    }

    /** Calls a record's unpark callback. A plain unparker always unparks;
        unparker_with_flag unparks only while its flag is up, and takes it
        down. */
    method Notify(w: Waiter)
      requires w.flagged ==> w.key in waits
      modifies this`unparked, this`waits
      ensures waits == if w.flagged then old(waits)[w.key := OnNotify(old(waits)[w.key])] else old(waits)
      ensures unparked == old(unparked) + (if !w.flagged || old(waits)[w.key].available then [w.key] else [])
    {
      if !w.flagged {
        unparked := unparked + [w.key];
      } else if waits[w.key].available {
        waits := waits[w.key := OnNotify(waits[w.key])];
        unparked := unparked + [w.key];
      }
    }

    /** Unpark and erase record i: the common step of notify_one and
        notify_with_key. */
    method NotifyAt(i: nat)
      requires Valid() && i < |notifyQueue|
      modifies this`notifyQueue, this`unparked, this`waits
      ensures Valid()
      ensures notifyQueue == Erase(old(notifyQueue), i)
      ensures unparked == old(unparked) + [old(notifyQueue)[i].key]
      ensures waits == Lower(old(waits), [old(notifyQueue)[i].key])
    {
      var w := notifyQueue[i];
      assert w.key in Keys(notifyQueue);
      NotifyLowers(waits, w);
      Notify(w);
      RemoveOk(notifyQueue, i, old(waits), held);
      notifyQueue := Erase(notifyQueue, i);
    }

    /** notify_one(): unpark and erase the front record, if any. */
    method NotifyOne()
      requires Valid()
      modifies this`notifyQueue, this`unparked, this`waits
      ensures Valid()
      ensures old(notifyQueue) == [] ==> notifyQueue == [] && unparked == old(unparked) && waits == old(waits)
      ensures old(notifyQueue) != [] ==>
        && notifyQueue == old(notifyQueue)[1..]
        && unparked == old(unparked) + [old(notifyQueue)[0].key]
        && waits == Lower(old(waits), [old(notifyQueue)[0].key])
    {
      if notifyQueue != [] {
        NotifyAt(0);
        assert notifyQueue == old(notifyQueue)[1..];
      }
    }

    /** notify_all(): unpark every record in queue order, then clear the
        queue. */
    method NotifyAll()
      requires Valid()
      modifies this`notifyQueue, this`unparked, this`waits
      ensures Valid()
      ensures notifyQueue == []
      ensures unparked == old(unparked) + Keys(old(notifyQueue))
      ensures waits == Lower(old(waits), Keys(old(notifyQueue)))
    {
      ghost var q := notifyQueue;
      ghost var w0 := waits;
      var i := 0;
      while i < |notifyQueue|
        invariant 0 <= i <= |q| && notifyQueue == q
        invariant unparked == old(unparked) + Keys(q)[..i]
        invariant waits == Lower(w0, Keys(q)[..i])
      {
        var w := notifyQueue[i];
        assert Keys(q)[..i + 1] == Keys(q)[..i] + [w.key];
        assert w.key !in Keys(q)[..i];
        if w.flagged {
          assert waits[w.key] == w0[w.key];
          assert w.key in Keys(q);
          LowerStep(w0, Keys(q)[..i], w.key);
        } else {
          LowerSkip(w0, Keys(q)[..i], w.key);
        }
        Notify(w);
        i := i + 1;
      }
      assert Keys(q)[..i] == Keys(q);
      ClearOk(q, w0, held);
      notifyQueue := [];
    }

    /** notify_with_key(k): unpark and erase the first record with key k;
        every other record is left alone. */
    method NotifyWithKey(k: Key)
      requires Valid()
      modifies this`notifyQueue, this`unparked, this`waits
      ensures Valid()
      ensures k !in Keys(old(notifyQueue)) ==>
        notifyQueue == old(notifyQueue) && unparked == old(unparked) && waits == old(waits)
      ensures k in Keys(old(notifyQueue)) ==>
        && notifyQueue == Erase(old(notifyQueue), IndexOf(Keys(old(notifyQueue)), k))
        && unparked == old(unparked) + [k]
        && waits == Lower(old(waits), [k])
    {
      ghost var ks := Keys(notifyQueue);
      var i := 0;
      while i < |notifyQueue|
        invariant 0 <= i <= |notifyQueue| && notifyQueue == old(notifyQueue)
        invariant unparked == old(unparked) && waits == old(waits)
        invariant forall j :: 0 <= j < i ==> ks[j] != k
      {
        if notifyQueue[i].key == k {
          assert IndexOf(ks, k) == i;
          NotifyAt(i);
          return;
        }
        i := i + 1;
      }
      assert k !in ks;
    }

    /** The handler wait_until gives the timer: while the flag is up, record
        a timeout and notify the operation's own key. */
    method TimerFires(k: Key)
      requires Valid() && k in waits
      modifies this`notifyQueue, this`unparked, this`waits
      ensures Valid()
      ensures waits == old(waits)[k := OnTimer(old(waits)[k])]
      ensures old(waits)[k].available ==>
        && unparked == old(unparked) + [k]
        && notifyQueue == Erase(old(notifyQueue), IndexOf(Keys(old(notifyQueue)), k))
      ensures !old(waits)[k].available ==> unparked == old(unparked) && notifyQueue == old(notifyQueue)
    {
      if waits[k].available {
        StatusOk(notifyQueue, waits, held, k, Timeout);
        TimeoutLowers(waits, k);
        waits := waits[k := waits[k].(status := Timeout)];
        NotifyWithKey(k);
      }
    }
  }

  /** The queue with record i erased. */
  function Erase(q: seq<Waiter>, i: nat): (r: seq<Waiter>)
    requires i < |q|
    ensures |r| == |q| - 1
    ensures forall j :: 0 <= j < |r| ==> r[j] == if j < i then q[j] else q[j + 1]
  {
    q[..i] + q[i + 1..]
  }

  // ---------------------------------------------------------------------
  // The predicate wait loops
  // ---------------------------------------------------------------------

  /** wait(lk, p) and wait_until(lk, tp, p): wait again while the predicate
      is false. checks[i] is the predicate's value at its i-th evaluation;
      the result is how many waits were made. */
  method WaitWhile(checks: seq<bool>) returns (waits: nat)
    requires true in checks
    ensures waits < |checks| && checks[waits]
    ensures forall j :: 0 <= j < waits ==> !checks[j]
  {
    waits := 0;
    while !checks[waits]
      invariant waits < |checks| && true in checks[waits..]
      invariant forall j :: 0 <= j < waits ==> !checks[j]
      decreases |checks| - waits
    {
      assert checks[waits..] == [checks[waits]] + checks[waits + 1..];
      waits := waits + 1;
    }
  }

  /** wait_for(lk, d, p): evaluate the predicate, and while it is false wait
      once more, leaving early when a wait timed out. checks[i] is the
      predicate's i-th value and statuses[i] the i-th wait's status; n is the
      index of the last evaluation, and the predicate's last value is
      returned. */
  method WaitForWhile(checks: seq<bool>, statuses: seq<CvStatus>) returns (result: bool, n: nat)
    requires |checks| == |statuses| + 1
    requires Timeout in statuses || checks[|statuses|]
    ensures n < |checks| && result == checks[n]
    ensures !result ==> n < |statuses| && statuses[n] == Timeout
    ensures forall j :: 0 <= j < n ==> !checks[j] && statuses[j] == NoTimeout
  {
    n := 0;
    result := checks[0];
    while !result
      invariant n < |checks| && result == checks[n]
      invariant forall j :: 0 <= j < n ==> !checks[j] && statuses[j] == NoTimeout
      decreases |statuses| - n
    {
      if statuses[n] == Timeout {
        return;
      }
      n := n + 1;
      result := checks[n];
    }
  }
}
