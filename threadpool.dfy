/** Model of the threadpool's worker bookkeeping (inc/mce/threadpool.hpp).

    A threadpool owns a fixed number of worker schedulers. It hands out work
    by a round-robin start cursor followed by a least-loaded scan over a
    snapshot of the workers' load weights, and forwards lifecycle requests to
    every worker. The worker threads themselves are not part of this model. */
module Threadpool {

  import opened Scheduler

  /** The worker-count lambda of the constructor: zero asks for the hardware
      concurrency, and a hardware concurrency of zero still gives one worker. */
  function WorkerCount(requested: nat, hardwareConcurrency: nat): (n: nat)
    ensures n >= 1
    ensures requested != 0 ==> n == requested
    ensures requested == 0 && hardwareConcurrency != 0 ==> n == hardwareConcurrency
  {
    if requested != 0 then requested
    else if hardwareConcurrency != 0 then hardwareConcurrency
    else 1
  }

  /** The cursor's next value: one further, or back to 0 past the last worker. */
  function Advance(c: nat, n: nat): nat
  {
    if c + 1 < n then c + 1 else 0
  }

  /** For a cursor inside the pool, advancing is incrementing modulo the size. */
  lemma AdvanceIsModular(c: nat, n: nat)
    requires c < n
    ensures Advance(c, n) == (c + 1) % n
  {
  }

  /** The cursor after k calls, starting from 0. */
  function CursorAfter(k: nat, n: nat): nat
  {
    if k == 0 then 0 else Advance(CursorAfter(k - 1, n), n)
  }

  /** Successive calls visit 0, 1, ..., n-1, 0, ... */
  lemma {:induction false} CursorRoundRobin(k: nat, n: nat)
    requires n >= 1
    ensures CursorAfter(k, n) == k % n
  {
    if k > 0 {
      CursorRoundRobin(k - 1, n);
      ModStep(k, n);
    }
  }

  lemma ModStep(k: nat, n: nat)
    requires n >= 1 && k >= 1
    ensures Advance((k - 1) % n, n) == k % n
  {
    var q, r := (k - 1) / n, (k - 1) % n;
    assert k - 1 == q * n + r;
    if r + 1 < n {
      ModUnique(k, n, q, r + 1);
    } else {
      assert k == (q + 1) * n;
      ModUnique(k, n, q + 1, 0);
    }
  }

  /** The remainder is the unique r with k == q * n + r and 0 <= r < n. */
  lemma ModUnique(k: int, n: int, q: int, r: int)
    requires n > 0 && 0 <= r < n && k == q * n + r
    ensures k % n == r
  {
    var d := q - k / n;
    assert d * n == k % n - r;
    if d >= 1 {
      MulAtLeast(d, n);
    } else if d <= -1 {
      MulAtLeast(-d, n);
    }
  }

  lemma {:induction false} MulAtLeast(a: nat, n: nat)
    requires a >= 1
    ensures a * n >= n
  {
    if a > 1 {
      MulAtLeast(a - 1, n);
      assert a * n == (a - 1) * n + n;
    }
  }

  /** Where worker k comes in a scan that starts at s: s itself first, then
      s+1 .. n-1, then 0 .. s-1. */
  function ScanPos(s: nat, n: nat, k: nat): int
  {
    if k >= s then k - s else k + n - s
  }

  /** What worker() promises of the index r it picks from loads w, scanning
      from s: its load is minimal; every worker scanned before it (other than
      s) is strictly heavier; it replaces s only when strictly lighter or
      empty; and s keeps the pick with an empty load only if no other worker
      is empty. */
  predicate LeastLoaded(w: seq<Word>, s: nat, r: nat)
  {
    && s < |w| && r < |w|
    && (forall k :: 0 <= k < |w| ==> w[r] <= w[k])
    && (forall k :: 0 <= k < |w| && k != s && ScanPos(s, |w|, k) < ScanPos(s, |w|, r) ==> w[k] > w[r])
    && (r != s ==> w[r] < w[s] || w[r] == 0)
    && (r == s && w[s] == 0 ==> forall k :: 0 <= k < |w| && k != s ==> w[k] != 0)
  }

  /** At most one index meets the promise: worker() is determined by the loads
      and the start. */
  lemma LeastLoadedUnique(w: seq<Word>, s: nat, r1: nat, r2: nat)
    requires LeastLoaded(w, s, r1) && LeastLoaded(w, s, r2)
    ensures r1 == r2
  {
  }

  class Threadpool {
    /** The number of workers; fixed once constructed. */
    const size: nat
    /** current_scheduler_idx_val_ */
    var cursor: nat
    /** Each worker scheduler's lifecycle state. */
    var workers: seq<State>

    ghost predicate Valid()
      reads this
    {
      size >= 1 && cursor < size && |workers| == size
    }

    /** threadpool(worker_count) followed by init_: every worker thread runs
        its scheduler. */
    constructor (requested: nat, hardwareConcurrency: nat)
      ensures Valid()
      ensures size == WorkerCount(requested, hardwareConcurrency)
      ensures cursor == 0
      ensures workers == seq(size, _ => Running)
    {
      size := WorkerCount(requested, hardwareConcurrency);
      cursor := 0;
      workers := seq(WorkerCount(requested, hardwareConcurrency), _ => Running);
    }

    /** current_scheduler_idx_(): the cursor, which then moves on. */
    method CurrentSchedulerIdx() returns (idx: nat)
      requires Valid()
      modifies this`cursor
      ensures Valid()
      ensures idx == old(cursor)
      ensures cursor == Advance(old(cursor), size)
    {
      idx := cursor;
      if cursor + 1 < size {
        cursor := cursor + 1;
      } else {
        cursor := 0;
      }
    }

    /** worker(): the least loaded worker for the loads snapshot, scanning
        from the cursor. */
    method Worker(loads: seq<Word>) returns (r: nat)
      requires Valid() && |loads| == size
      modifies this`cursor
      ensures Valid()
      ensures cursor == Advance(old(cursor), size)
      ensures LeastLoaded(loads, old(cursor), r)
    {
      var start := CurrentSchedulerIdx();
      var least := loads[start];
      var found;
      least, r, found := Compare(loads, start + 1, size, least, start);
      if !found && start > 0 {
        var least0, r0 := least, r;
        least, r, found := Compare(loads, 0, start, least, r);
        assert LeastLoaded(loads, start, r) by {
          WrappedPass(loads, start, least0, r0, least, r, found);
        }
      } else {
        assert LeastLoaded(loads, start, r) by {
          if !found {
            assert start == 0;
            assert forall k :: 0 <= k < size ==> ScanPos(start, size, k) == k;
          }
        }
      }
    }

    /** The scan loop over lo .. hi-1, carrying the lightest load so far and
        its worker; an empty worker ends it. */
    static method Compare(w: seq<Word>, lo: nat, hi: nat, least0: Word, ret0: nat)
      returns (least: Word, ret: nat, found: bool)
      requires lo <= hi <= |w| && ret0 < |w| && least0 == w[ret0]
      ensures ret < |w| && least <= least0 && (!found ==> least == w[ret])
      ensures found ==> lo <= ret < hi && w[ret] == 0 && forall k :: lo <= k < ret ==> w[k] != 0
      ensures !found ==> forall k :: lo <= k < hi ==> w[k] != 0 && w[k] >= least
      ensures ret == ret0 || found || (lo <= ret < hi && least < least0 && forall k :: lo <= k < ret ==> w[k] > least)
    {
      least, ret, found := least0, ret0, false;
      var i := lo;
      while i < hi
        invariant lo <= i <= hi
        invariant ret < |w| && least == w[ret] && least <= least0
        invariant forall k :: lo <= k < i ==> w[k] != 0 && w[k] >= least
        invariant ret == ret0 || (lo <= ret < i && least < least0 && forall k :: lo <= k < ret ==> w[k] > least)
      {
        var cur := w[i];
        if cur != 0 {
          if cur < least {
            least := cur;
            ret := i;
          }
        } else {
          found := true;
          ret := i;
          return;
        }
        i := i + 1;
      }
    }

    /** get_state_impl(): the first worker's state stands for all. */
    method GetState() returns (st: State)
      requires Valid()
      ensures st == workers[0]
    {
      st := workers[0];
    }

    /** suspend_impl(): asks each worker in turn; after the first refusal (a
        halted worker) the rest are not asked. */
    method SuspendImpl() returns (ok: bool)
      requires Valid()
      modifies this`workers
      ensures Valid()
      ensures ok <==> forall k :: 0 <= k < size ==> old(workers)[k] != Halted
      ensures forall k :: 0 <= k < size ==>
        workers[k] == if k < FirstHalted(old(workers)) then Suspended else old(workers)[k]
    {
      ok := true;
      FirstHaltedSpec(old(workers));
      var i := 0;
      while i < size
        invariant 0 <= i <= size && |workers| == size
        invariant ok <==> i <= FirstHalted(old(workers))
        invariant forall k :: 0 <= k < size ==>
          workers[k] == if k < i && k < FirstHalted(old(workers)) then Suspended else old(workers)[k]
      {
        if ok {
          var (refused, next) := (SuspendNext(workers[i]).0, SuspendNext(workers[i]).1);
          ok := refused;
          workers := workers[i := next];
        }
        i := i + 1;
      }
    }

    /** resume_impl(): every worker is resumed. */
    method ResumeImpl()
      requires Valid()
      modifies this`workers
      ensures Valid()
      ensures forall k :: 0 <= k < size ==> workers[k] == ResumeNext(old(workers)[k])
    {
      var i := 0;
      while i < size
        invariant 0 <= i <= size && |workers| == size
        invariant forall k :: 0 <= k < size ==>
          workers[k] == if k < i then ResumeNext(old(workers)[k]) else old(workers)[k]
      {
        workers := workers[i := ResumeNext(workers[i])];
        i := i + 1;
      }
    }
  }

  /** The index of the first halted worker, or the pool size if none is. */
  function FirstHalted(ws: seq<State>): (h: nat)
    ensures h <= |ws|
  {
    if ws == [] then 0
    else if ws[0] == Halted then 0
    else 1 + FirstHalted(ws[1..])
  }

  lemma {:induction false} FirstHaltedSpec(ws: seq<State>)
    ensures forall k :: 0 <= k < FirstHalted(ws) ==> ws[k] != Halted
    ensures FirstHalted(ws) < |ws| ==> ws[FirstHalted(ws)] == Halted
  {
    if ws != [] && ws[0] != Halted {
      FirstHaltedSpec(ws[1..]);
    }
  }

  /** The second scan pass (0 .. s-1) completes the first (s+1 .. n-1) into
      the least-loaded pick. */
  lemma WrappedPass(w: seq<Word>, s: nat, least0: Word, r0: nat, least: Word, r: nat, found: bool)
    requires 0 < s < |w|
    requires r0 < |w| && least0 == w[r0] && least0 <= w[s]
    requires forall k :: s + 1 <= k < |w| ==> w[k] != 0 && w[k] >= least0
    requires r0 == s || (s + 1 <= r0 < |w| && least0 < w[s] && forall k :: s + 1 <= k < r0 ==> w[k] > least0)
    requires r < |w| && least <= least0 && (!found ==> least == w[r])
    requires found ==> 0 <= r < s && w[r] == 0 && forall k :: 0 <= k < r ==> w[k] != 0
    requires !found ==> forall k :: 0 <= k < s ==> w[k] != 0 && w[k] >= least
    requires r == r0 || found || (0 <= r < s && least < least0 && forall k :: 0 <= k < r ==> w[k] > least)
    ensures LeastLoaded(w, s, r)
  {
  }
}
