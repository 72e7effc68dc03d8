/** Model of the timer utilities and the timer service's queue
    (inc/mce/timer.hpp, src/timer.cpp).

    Time points are integer ticks of the steady clock, one tick per
    nanosecond. The service keeps a queue of pending timers ordered by
    timeout; each timer's id owns a shared validity flag, modelled as a map
    from id to flag with a counter for fresh ids. The service thread's sleeps
    and wake-ups and the handlers' own effects are not part of this model;
    the clock's current value is a parameter. */
module Timer {

  import opened Wrappers

  datatype TimeUnit = Hour | Minute | Second | Millisecond | Microsecond | Nanosecond

  /** Nanoseconds in one unit of the std::chrono duration that each switch
      case names. */
  function Ticks(u: TimeUnit): (t: nat)
    ensures t >= 1
  {
    match u
    case Hour => 3_600_000_000_000
    case Minute => 60_000_000_000
    case Second => 1_000_000_000
    case Millisecond => 1_000_000
    case Microsecond => 1_000
    case Nanosecond => 1
  }

  /** get_duration(u, count): count units; the nanosecond unit falls to the
      default case, which gives zero milliseconds. */
  function GetDuration(u: TimeUnit, count: nat): int
  {
    match u
    case Hour => count * 3_600_000_000_000
    case Minute => count * 60_000_000_000
    case Second => count * 1_000_000_000
    case Millisecond => count * 1_000_000
    case Microsecond => count * 1_000
    case Nanosecond => 0
  }

  /** get_time_point_difference(u, p0, p1): the distance between the two
      points, truncated to whole units; zero for the nanosecond unit. */
  function GetTimePointDifference(u: TimeUnit, p0: int, p1: int): nat
  {
    var dist := if p0 > p1 then p0 - p1 else p1 - p0;
    match u
    case Hour => dist / 3_600_000_000_000
    case Minute => dist / 60_000_000_000
    case Second => dist / 1_000_000_000
    case Millisecond => dist / 1_000_000
    case Microsecond => dist / 1_000
    case Nanosecond => 0
  }

  /** A duration is its count of the unit's ticks, and nothing for nanoseconds. */
  lemma DurationInTicks(u: TimeUnit, count: nat)
    ensures u != Nanosecond ==> GetDuration(u, count) == count * Ticks(u)
    ensures u == Nanosecond ==> GetDuration(u, count) == 0
  {
  }

  /** The difference does not depend on the order of the two points. */
  lemma DifferenceSymmetric(u: TimeUnit, p0: int, p1: int)
    ensures GetTimePointDifference(u, p0, p1) == GetTimePointDifference(u, p1, p0)
  {
  }

  /** The difference is the number of whole units between the points: the
      remainder is shorter than one unit. */
  lemma DifferenceTruncates(u: TimeUnit, p0: int, p1: int)
    requires u != Nanosecond
    ensures var d := GetTimePointDifference(u, p0, p1);
      var dist := if p0 > p1 then p0 - p1 else p1 - p0;
      d * Ticks(u) <= dist < (d + 1) * Ticks(u)
  {
  }

  /** Measuring a duration from its start point gives back the count. */
  lemma DifferenceOfDuration(u: TimeUnit, p: int, count: nat)
    requires u != Nanosecond
    ensures GetTimePointDifference(u, p, p + GetDuration(u, count)) == count
  {
  }

  /** The timeout that timer(unit, count, handler) computes from the clock
      reading `now`; the nanosecond unit falls to the default case, now. */
  function TimeoutFor(u: TimeUnit, count: nat, now: int): int
  {
    match u
    case Hour => now + count * 3_600_000_000_000
    case Minute => now + count * 60_000_000_000
    case Second => now + count * 1_000_000_000
    case Millisecond => now + count * 1_000_000
    case Microsecond => now + count * 1_000
    case Nanosecond => now
  }

  /** The timeout is the clock reading plus get_duration of the same count. */
  lemma TimeoutIsNowPlusDuration(u: TimeUnit, count: nat, now: int)
    ensures TimeoutFor(u, count, now) == now + GetDuration(u, count)
    ensures TimeoutFor(u, count, now) >= now
  {
  }

  // ---------------------------------------------------------------------------
  // The timer queue
  // ---------------------------------------------------------------------------

  /** A timer id stands for the shared validity flag it owns. */
  type Id = nat

  /** A queued timer: its timeout and its id (the handler is not modelled). */
  datatype TimerData = TimerData(tp: int, id: Id)

  /** Ordered by timeout, soonest first. */
  predicate Sorted(q: seq<TimerData>)
  {
    forall i, j :: 0 <= i < j < |q| ==> q[i].tp <= q[j].tp
  }

  function Ids(q: seq<TimerData>): (r: seq<Id>)
    ensures |r| == |q|
    ensures forall i :: 0 <= i < |q| ==> r[i] == q[i].id
  {
    if q == [] then [] else [q[0].id] + Ids(q[1..])
  }

  /** Where a timer with timeout tp lands in a sorted queue: after every
      entry whose timeout is not later. */
  function InsertPos(q: seq<TimerData>, tp: int): (k: nat)
    ensures k <= |q|
  {
    if q == [] || q[0].tp > tp then 0 else 1 + InsertPos(q[1..], tp)
  }

  /** Insert one timer after every entry whose timeout is not later. */
  function InsertAfter(q: seq<TimerData>, x: TimerData): seq<TimerData>
  {
    if q == [] then [x]
    else if q[0].tp <= x.tp then [q[0]] + InsertAfter(q[1..], x)
    else [x] + q
  }

  /** std::list::sort: a stable sort by timeout, built by inserting each
      element, in order, after the equal ones already placed. */
  function StableSort(s: seq<TimerData>): seq<TimerData>
  {
    if s == [] then [] else InsertAfter(StableSort(s[..|s| - 1]), s[|s| - 1])
  }

  /** Insertion splices the new timer in at InsertPos. */
  lemma {:induction false} InsertAfterShape(q: seq<TimerData>, x: TimerData)
    ensures var k := InsertPos(q, x.tp);
      InsertAfter(q, x) == q[..k] + [x] + q[k..]
  {
    if q != [] && q[0].tp <= x.tp {
      InsertAfterShape(q[1..], x);
      var k := InsertPos(q[1..], x.tp);
      assert q[1..][..k] == q[1..k + 1];
      assert q[1..][k..] == q[k + 1..];
      assert q[..k + 1] == [q[0]] + q[1..k + 1];
    }
  }

  /** Every entry before InsertPos times out no later; in a sorted queue
      every entry from it on times out strictly later. */
  lemma {:induction false} InsertPosBounds(q: seq<TimerData>, tp: int)
    ensures forall i :: 0 <= i < InsertPos(q, tp) ==> q[i].tp <= tp
    ensures Sorted(q) ==> forall i :: InsertPos(q, tp) <= i < |q| ==> q[i].tp > tp
  {
    if q != [] && q[0].tp <= tp {
      InsertPosBounds(q[1..], tp);
      assert forall i :: 1 <= i < |q| ==> q[i] == q[1..][i - 1];
    }
  }

  /** The element at each index of a splice. */
  lemma SpliceAt(q: seq<TimerData>, k: nat, x: TimerData)
    requires k <= |q|
    ensures var r := q[..k] + [x] + q[k..];
      |r| == |q| + 1 &&
      forall i :: 0 <= i < |r| ==> r[i] == if i < k then q[i] else if i == k then x else q[i - 1]
  {
  }

  /** A fresh id spliced into a queue of distinct, flagged ids keeps them
      distinct and flagged once its own flag is set. */
  lemma SpliceKeepsIds(q: seq<TimerData>, k: nat, x: TimerData, valid: map<Id, bool>)
    requires k <= |q| && x.id !in valid
    requires forall i :: 0 <= i < |q| ==> q[i].id in valid && valid[q[i].id]
    requires forall i, j :: 0 <= i < j < |q| ==> q[i].id != q[j].id
    ensures var r := q[..k] + [x] + q[k..];
      var v := valid[x.id := true];
      && (forall i :: 0 <= i < |r| ==> r[i].id in v && v[r[i].id])
      && (forall i, j :: 0 <= i < j < |r| ==> r[i].id != r[j].id)
  {
    SpliceAt(q, k, x);
  }

  /** Into a sorted queue, the new timer goes at InsertPos and the result is
      sorted. */
  lemma InsertAfterSpec(q: seq<TimerData>, x: TimerData)
    requires Sorted(q)
    ensures var k := InsertPos(q, x.tp);
      && InsertAfter(q, x) == q[..k] + [x] + q[k..]
      && (forall i :: 0 <= i < k ==> q[i].tp <= x.tp)
      && (forall i :: k <= i < |q| ==> q[i].tp > x.tp)
    ensures Sorted(InsertAfter(q, x))
  {
    InsertAfterShape(q, x);
    InsertPosBounds(q, x.tp);
    SpliceAt(q, InsertPos(q, x.tp), x);
  }

  /** Inserting keeps every entry and adds the new one once. */
  lemma {:induction false} InsertAfterPermutes(q: seq<TimerData>, x: TimerData)
    ensures multiset(InsertAfter(q, x)) == multiset(q) + multiset{x}
  {
    if q != [] && q[0].tp <= x.tp {
      InsertAfterPermutes(q[1..], x);
      assert q == [q[0]] + q[1..];
    }
  }

  /** Sorting an already sorted queue changes nothing. */
  lemma {:induction false} StableSortKeepsSorted(q: seq<TimerData>)
    requires Sorted(q)
    ensures StableSort(q) == q
  {
    if q != [] {
      var init := q[..|q| - 1];
      StableSortKeepsSorted(init);
      InsertAfterSpec(init, q[|q| - 1]);
      assert InsertPos(init, q[|q| - 1].tp) == |init| by {
        InsertPosAtEnd(init, q[|q| - 1].tp);
      }
      assert q == init + [q[|q| - 1]];
    }
  }

  /** A timeout no earlier than every entry goes at the end. */
  lemma {:induction false} InsertPosAtEnd(q: seq<TimerData>, tp: int)
    requires forall i :: 0 <= i < |q| ==> q[i].tp <= tp
    ensures InsertPos(q, tp) == |q|
  {
    if q != [] {
      InsertPosAtEnd(q[1..], tp);
    }
  }

  /** The sort's result is sorted and a permutation of its input. */
  lemma {:induction false} StableSortSpec(s: seq<TimerData>)
    ensures Sorted(StableSort(s))
    ensures multiset(StableSort(s)) == multiset(s)
  {
    if s != [] {
      var init, x := s[..|s| - 1], s[|s| - 1];
      StableSortSpec(init);
      var r := StableSort(init);
      assert StableSort(s) == InsertAfter(r, x);
      assert Sorted(InsertAfter(r, x)) by { InsertAfterSpec(r, x); }
      assert multiset(InsertAfter(r, x)) == multiset(s) by {
        InsertAfterPermutes(r, x);
        assert s == init + [x];
      }
    }
  }

  /** create_timer's push_back then sort on a sorted queue places the new timer
      after every entry with a timeout no later than its own, so equal
      timeouts keep insertion order. */
  lemma PushThenSort(q: seq<TimerData>, x: TimerData)
    requires Sorted(q)
    ensures var k := InsertPos(q, x.tp);
      && StableSort(q + [x]) == q[..k] + [x] + q[k..]
      && (forall i :: 0 <= i < k ==> q[i].tp <= x.tp)
      && (forall i :: k <= i < |q| ==> q[i].tp > x.tp)
  {
    assert (q + [x])[..|q|] == q;
    StableSortKeepsSorted(q);
    InsertAfterSpec(q, x);
  }

  /** The number of entries at the front whose timeout has come by `now`. */
  function ExpiredCount(q: seq<TimerData>, now: int): (n: nat)
    ensures n <= |q|
    ensures forall i :: 0 <= i < n ==> q[i].tp <= now
    ensures n < |q| ==> q[n].tp > now
  {
    if q == [] || q[0].tp > now then 0 else 1 + ExpiredCount(q[1..], now)
  }

  /** In a sorted queue the expired entries are exactly the front ones. */
  lemma ExpiredArePrefix(q: seq<TimerData>, now: int)
    requires Sorted(q)
    ensures forall i :: 0 <= i < |q| ==> (q[i].tp <= now <==> i < ExpiredCount(q, now))
  {
  }

  /** What the sweep leaves of a sorted queue is all still pending. */
  lemma RestPending(q: seq<TimerData>, now: int)
    requires Sorted(q)
    ensures forall j :: 0 <= j < |q| - ExpiredCount(q, now) ==> q[ExpiredCount(q, now)..][j].tp > now
  {
    var n := ExpiredCount(q, now);
    ExpiredArePrefix(q, now);
    assert forall j :: 0 <= j < |q| - n ==> q[n..][j] == q[n + j];
  }

  /** What the service keeps true of its queue and flags: every issued id is
      below the fresh-id counter; the queue is sorted; every queued timer's
      flag is set; no id is queued twice. */
  ghost predicate QueueInvariant(q: seq<TimerData>, valid: map<Id, bool>, nextId: nat)
  {
    && (forall id :: id in valid ==> id < nextId)
    && Sorted(q)
    && (forall i :: 0 <= i < |q| ==> q[i].id in valid && valid[q[i].id])
    && (forall i, j :: 0 <= i < j < |q| ==> q[i].id != q[j].id)
  }

  /** A timer spliced in after every entry that times out no later, and
      before every entry that times out later, keeps the queue sorted. */
  lemma SpliceSorted(q: seq<TimerData>, k: nat, x: TimerData)
    requires k <= |q| && Sorted(q)
    requires forall i :: 0 <= i < k ==> q[i].tp <= x.tp
    requires forall i :: k <= i < |q| ==> q[i].tp > x.tp
    ensures Sorted(q[..k] + [x] + q[k..])
  {
    SpliceAt(q, k, x);
  }

  /** create_timer keeps the invariant: the fresh timer, spliced in at
      InsertPos with its flag set, leaves the queue sorted, its ids distinct
      and flagged, and every id below the new counter. */
  lemma CreateKeepsInvariant(q: seq<TimerData>, valid: map<Id, bool>, nextId: nat, tp: int)
    requires QueueInvariant(q, valid, nextId)
    ensures var k := InsertPos(q, tp);
      QueueInvariant(q[..k] + [TimerData(tp, nextId)] + q[k..], valid[nextId := true], nextId + 1)
  {
    var x := TimerData(tp, nextId);
    var k := InsertPos(q, tp);
    var r := q[..k] + [x] + q[k..];
    var v := valid[nextId := true];
    assert Sorted(r) by {
      InsertPosBounds(q, tp);
      SpliceSorted(q, k, x);
    }
    assert forall id :: id in v ==> id < nextId + 1;
    assert && (forall i :: 0 <= i < |r| ==> r[i].id in v && v[r[i].id])
           && (forall i, j :: 0 <= i < j < |r| ==> r[i].id != r[j].id) by {
      SpliceKeepsIds(q, k, x, valid);
    }
  }

  /** Erasing a queued timer and clearing its flag keeps the invariant. */
  lemma EraseKeepsInvariant(q: seq<TimerData>, valid: map<Id, bool>, nextId: nat, i: nat)
    requires QueueInvariant(q, valid, nextId) && i < |q|
    ensures QueueInvariant(q[..i] + q[i + 1..], valid[q[i].id := false], nextId)
  {
    var r := q[..i] + q[i + 1..];
    assert forall j :: 0 <= j < |r| ==> r[j] == if j < i then q[j] else q[j + 1];
  }

  /** Clearing the flag of a timer that is not queued keeps the invariant. */
  lemma UnqueuedFlagKeepsInvariant(q: seq<TimerData>, valid: map<Id, bool>, nextId: nat, id: Id)
    requires QueueInvariant(q, valid, nextId) && id in valid
    requires forall j :: 0 <= j < |q| ==> q[j].id != id
    ensures QueueInvariant(q, valid[id := false], nextId)
  {
  }

  /** Firing the first n timers, clearing their flags, keeps the invariant. */
  lemma SweepKeepsInvariant(q: seq<TimerData>, v: map<Id, bool>, nextId: nat, n: nat)
    requires QueueInvariant(q, v, nextId) && n <= |q|
    ensures QueueInvariant(q[n..], ClearFlags(v, Ids(q)[..n]), nextId)
  {
    var ids := Ids(q)[..n];
    var r := q[n..];
    assert forall k :: 0 <= k < |ids| ==> ids[k] == q[k].id;
    ClearFlagsSpec(v, ids);
    var w := ClearFlags(v, ids);
    assert forall j :: 0 <= j < |r| ==> r[j] == q[n + j];
    forall j | 0 <= j < |r|
      ensures r[j].id in w && w[r[j].id]
    {
      assert r[j].id !in ids;
    }
  }

  /** Firing the front timer keeps the invariant. */
  lemma PopKeepsInvariant(q: seq<TimerData>, valid: map<Id, bool>, nextId: nat)
    requires QueueInvariant(q, valid, nextId) && q != []
    ensures QueueInvariant(q[1..], valid[q[0].id := false], nextId)
    ensures q[0].id in valid
  {
    var v := valid[q[0].id := false];
    forall i | 0 <= i < |q[1..]|
      ensures q[1..][i].id in v && v[q[1..][i].id]
    {
      assert q[1..][i] == q[i + 1];
    }
  }

  /** The flags after clearing those of the given ids, in order. */
  function ClearFlags(v: map<Id, bool>, ids: seq<Id>): map<Id, bool>
  {
    if ids == [] then v else ClearFlags(v, ids[..|ids| - 1])[ids[|ids| - 1] := false]
  }

  /** Clearing one more id clears its flag on top of the earlier ones. */
  lemma ClearFlagsSnoc(v: map<Id, bool>, ids: seq<Id>, id: Id)
    ensures ClearFlags(v, ids + [id]) == ClearFlags(v, ids)[id := false]
  {
    assert (ids + [id])[..|ids|] == ids;
  }

  /** Clearing issued ids keeps the issued set and turns exactly those flags off. */
  lemma {:induction false} ClearFlagsSpec(v: map<Id, bool>, ids: seq<Id>)
    requires forall i :: 0 <= i < |ids| ==> ids[i] in v
    ensures forall id :: id in ClearFlags(v, ids) <==> id in v
    ensures forall id :: id in v ==> ClearFlags(v, ids)[id] == (v[id] && id !in ids)
  {
    if ids != [] {
      var init := ids[..|ids| - 1];
      ClearFlagsSpec(v, init);
      assert forall id :: id in ids <==> id in init || id == ids[|ids| - 1] by {
        assert ids == init + [ids[|ids| - 1]];
      }
    }
  }

  class TimerService {
    /** timers_: the pending timers, soonest first. */
    var timers: seq<TimerData>
    /** The shared validity flag of every id issued so far. */
    var valid: map<Id, bool>
    /** The next fresh id. */
    var nextId: nat
    /** executing_timer_: the timer whose handler is running, if any. */
    var executing: Option<Id>
    var newTimers: bool
    var waitingForTimeouts: bool

    ghost predicate Valid()
      reads this
    {
      && QueueInvariant(timers, valid, nextId)
      && (executing.Some? ==> executing.value in valid && !valid[executing.value])
    }

    constructor ()
      ensures Valid()
      ensures timers == [] && valid == map[] && nextId == 0 && executing == None
      ensures !newTimers && !waitingForTimeouts
    {
      timers, valid, nextId, executing := [], map[], 0, None;
      newTimers, waitingForTimeouts := false, false;
    }

    /** create_timer: a fresh id whose flag starts true; the timer is pushed
        at the back and the queue re-sorted; a sleeping service is woken. */
    method CreateTimer(tp: int) returns (id: Id)
      requires Valid()
      modifies this`timers, this`valid, this`nextId, this`newTimers, this`waitingForTimeouts
      ensures Valid()
      ensures id !in old(valid) && valid == old(valid)[id := true]
      ensures timers == StableSort(old(timers) + [TimerData(tp, id)])
      ensures var k := InsertPos(old(timers), tp);
        timers == old(timers)[..k] + [TimerData(tp, id)] + old(timers)[k..]
      ensures |timers| == |old(timers)| + 1
      ensures newTimers && !waitingForTimeouts
    {
      CreateKeepsInvariant(timers, valid, nextId, tp);
      PushThenSort(timers, TimerData(tp, nextId));
      id := nextId;
      nextId := nextId + 1;
      valid := valid[id := true];
      timers := timers + [TimerData(tp, id)];
      timers := StableSort(timers);
      newTimers := true;
      if waitingForTimeouts {
        waitingForTimeouts := false;
      }
    }

    /** timer(unit, count, handler), with `now` the clock's reading. */
    method TimerIn(u: TimeUnit, count: nat, now: int) returns (id: Id)
      requires Valid()
      modifies this`timers, this`valid, this`nextId, this`newTimers, this`waitingForTimeouts
      ensures Valid()
      ensures id !in old(valid) && valid == old(valid)[id := true]
      ensures timers == StableSort(old(timers) + [TimerData(TimeoutFor(u, count, now), id)])
    {
      id := CreateTimer(TimeoutFor(u, count, now));
    }

    /** running(id): the flag is still set or the handler is running. */
    method Running(id: Id) returns (b: bool)
      requires Valid() && id in valid
      ensures b <==> valid[id] || executing == Some(id)
    {
      b := valid[id] || executing == Some(id);
    }

    /** remove(id), for an id that is not executing: a set flag is cleared and
        the matching entry erased, returning whether one was found. For the
        executing id the source waits for the handler and returns false; the
        wait is not modelled. */
    method Remove(id: Id) returns (success: bool)
      requires Valid() && id in valid
      modifies this`timers, this`valid
      ensures Valid()
      ensures success <==> executing != Some(id) && old(valid[id]) && id in Ids(old(timers))
      ensures executing == Some(id) || !old(valid[id]) ==> timers == old(timers) && valid == old(valid)
      ensures executing != Some(id) && old(valid[id]) ==> valid == old(valid)[id := false]
      ensures success ==> exists k :: 0 <= k < |old(timers)| && old(timers)[k].id == id &&
                                     timers == old(timers)[..k] + old(timers)[k + 1..]
      ensures !success ==> timers == old(timers)
    {
      success := false;
      if executing == Some(id) {
        return;
      }
      if valid[id] {
        valid := valid[id := false];
        var i := Find(timers, id);
        if i < |timers| {
          success := true;
          assert QueueInvariant(timers[..i] + timers[i + 1..], valid, nextId) by {
            EraseKeepsInvariant(old(timers), old(valid), nextId, i);
          }
          assert Ids(timers)[i] == id;
          timers := timers[..i] + timers[i + 1..];
        } else {
          assert id !in Ids(timers) && Valid() by {
            assert forall j :: 0 <= j < |timers| ==> Ids(timers)[j] != id;
            UnqueuedFlagKeepsInvariant(timers, old(valid), nextId, id);
          }
        }
      }
    }

    /** remove's search loop: the position of the first timer with the id,
        or the queue length if none has it. */
    static method Find(q: seq<TimerData>, id: Id) returns (i: nat)
      ensures i <= |q| && (i < |q| ==> q[i].id == id)
      ensures forall j :: 0 <= j < i ==> q[j].id != id
    {
      i := 0;
      while i < |q| && q[i].id != id
        invariant 0 <= i <= |q|
        invariant forall j :: 0 <= j < i ==> q[j].id != id
      {
        i := i + 1;
      }
    }

    /** clear(): the queue empties; no flag changes. */
    method Clear()
      requires Valid()
      modifies this`timers
      ensures Valid() && timers == []
    {
      timers := [];
    }

    /** count(): the number of pending timers. */
    method Count() returns (n: nat)
      ensures n == |timers|
    {
      n := |timers|;
    }

    /** The loop of the sweep: fire timers from the front while their time
        has come. */
    method FireExpired(now: int) returns (fired: seq<Id>)
      requires executing == None
      modifies this`timers, this`valid, this`executing
      ensures executing == None
      ensures var n := ExpiredCount(old(timers), now);
        && fired == Ids(old(timers))[..n]
        && timers == old(timers)[n..]
      ensures valid == ClearFlags(old(valid), fired)
    {
      ghost var q := timers;
      ghost var ids := Ids(q);
      ghost var n := ExpiredCount(q, now);
      fired := [];
      var i := 0;
      while timers != [] && timers[0].tp <= now
        invariant 0 <= i <= n && timers == q[i..]
        invariant fired == ids[..i]
        invariant valid == ClearFlags(old(valid), fired)
        invariant executing == None
        decreases |timers|
      {
        var id := FireFront();
        assert timers == q[i + 1..] by {
          assert q[i + 1..] == q[i..][1..];
        }
        assert fired + [id] == ids[..i + 1] by {
          assert ids[..i + 1] == ids[..i] + [ids[i]];
        }
        assert valid == ClearFlags(old(valid), fired + [id]) by {
          ClearFlagsSnoc(old(valid), fired, id);
        }
        fired := fired + [id];
        i := i + 1;
      }
    }

    /** One timer firing: the front timer becomes the executing one, loses
        its flag and leaves the queue; its handler then runs and returns. */
    method FireFront() returns (id: Id)
      requires timers != []
      modifies this`timers, this`valid, this`executing
      ensures id == old(timers)[0].id
      ensures timers == old(timers)[1..]
      ensures valid == old(valid)[id := false]
      ensures executing == None
    {
      id := timers[0].id;
      executing := Some(id);
      valid := valid[id := false];
      timers := timers[1..];
      executing := None;
    }

    /** check_timers' sweep against a fixed `now`: every timer whose time has
        come fires, front first; the first one still pending gives the
        wake-up time, and the service then waits. */
    method CheckTimers(now: int) returns (fired: seq<Id>, wake: Option<int>)
      requires Valid() && executing == None
      modifies this`timers, this`valid, this`executing, this`newTimers, this`waitingForTimeouts
      ensures Valid() && executing == None
      ensures var n := ExpiredCount(old(timers), now);
        && fired == Ids(old(timers))[..n]
        && timers == old(timers)[n..]
      ensures forall i :: 0 <= i < |timers| ==> timers[i].tp > now
      ensures valid == ClearFlags(old(valid), fired)
      ensures wake == if timers == [] then None else Some(timers[0].tp)
      ensures !newTimers && waitingForTimeouts
    {
      ghost var q, v := timers, valid;
      ghost var n := ExpiredCount(q, now);
      newTimers := false;
      fired := FireExpired(now);
      assert QueueInvariant(timers, valid, nextId) by {
        SweepKeepsInvariant(q, v, nextId, n);
      }
      assert forall i :: 0 <= i < |timers| ==> timers[i].tp > now by {
        RestPending(q, now);
      }
      wake := if timers == [] then None else Some(timers[0].tp);
      waitingForTimeouts := true;
    }
  }
}
