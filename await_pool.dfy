/** Model of the await threadpool's worker accounting
    (inc/mce/await.hpp, src/await.cpp).

    The pool keeps idle workers in a FIFO deque and counts every worker it
    has created and not yet discarded. Checking a worker out takes the front
    idle one or creates a new one; checking it back in keeps it only while
    the deque is below the minimum. Workers are identified by numbers; their
    threads and schedulers are not part of this model. */
module AwaitPool {

  import opened Wrappers

  type WorkerId = nat

  /** The minimum pool size: MCEMINAWAITPROCS when it is non-zero, else 1. */
  function MinWorkers(minAwaitProcs: nat): (m: nat)
    ensures m >= 1
    ensures minAwaitProcs != 0 ==> m == minAwaitProcs
  {
    if minAwaitProcs != 0 then minAwaitProcs else 1
  }

  /** The per-thread is-await flag starts false on every thread; only an
      await worker's thread sets it. */
  const InitialIsAwait: bool := false

  /** schedule() runs the callable inline unless the caller is a coroutine in
      a scheduler on a thread that is not an await worker. */
  function RunsInline(inScheduler: bool, isAwait: bool): (b: bool)
    ensures !b <==> inScheduler && !isAwait
  {
    !inScheduler || isAwait
  }

  /** An ordinary scheduler thread hands the callable to a worker; an await
      worker, or a caller outside any scheduler, runs it itself. */
  lemma ScheduleDecision(isAwait: bool)
    ensures !RunsInline(true, InitialIsAwait)
    ensures RunsInline(false, isAwait) && RunsInline(true, true)
  {
  }

  /** What a callable returns: a value, or nothing (void). */
  datatype Outcome = Value(v: int) | Void

  /** await(): the callable's result, or 0 for a void callable. */
  function AwaitValue(o: Outcome): (r: int)
    ensures o.Void? ==> r == 0
    ensures o.Value? ==> r == o.v
  {
    match o
    case Value(v) => v
    case Void => 0
  }

  class AwaitThreadpool {
    /** min_worker_cnt_ */
    const minWorkers: nat
    /** worker_cnt_ */
    var workerCnt: nat
    /** workers_: the idle workers, front first. */
    var pool: seq<WorkerId>
    /** The workers checked out and not yet checked in. */
    ghost var out: set<WorkerId>
    /** The id the next created worker gets. */
    var nextWorker: WorkerId

    /** worker_cnt_ counts the idle workers plus the checked-out ones; no
        worker is in two places, and the deque never exceeds the minimum. */
    ghost predicate Valid()
      reads this
    {
      && workerCnt == |pool| + |out|
      && |pool| <= minWorkers
      && (forall i, j :: 0 <= i < j < |pool| ==> pool[i] != pool[j])
      && (forall i :: 0 <= i < |pool| ==> pool[i] < nextWorker && pool[i] !in out)
      && (forall w :: w in out ==> w < nextWorker)
    }

    /** await_threadpool(): the minimum from MCEMINAWAITPROCS, and a deque
        filled with that many fresh workers. */
    constructor (minAwaitProcs: nat)
      ensures Valid()
      ensures minWorkers == MinWorkers(minAwaitProcs)
      ensures workerCnt == minWorkers && |pool| == minWorkers && out == {}
    {
      var m := MinWorkers(minAwaitProcs);
      minWorkers := m;
      workerCnt := m;
      out := {};
      var ws: seq<WorkerId> := [];
      var i := 0;
      while i < m
        invariant 0 <= i <= m && |ws| == i
        invariant forall j :: 0 <= j < i ==> ws[j] == j
      {
        ws := ws + [i];
        i := i + 1;
      }
      pool := ws;
      nextWorker := m;
    }

    /** await_threadpool(no_threads_t): no minimum, no workers. */
    constructor NoThreads()
      ensures Valid()
      ensures minWorkers == 0 && workerCnt == 0 && pool == [] && out == {}
    {
      minWorkers, workerCnt, pool, nextWorker := 0, 0, [], 0;
      out := {};
    }

    /** checkout_worker(): the front idle worker, count unchanged; with none
        idle, a new worker, counted. */
    method Checkout() returns (w: WorkerId)
      requires Valid()
      modifies this`workerCnt, this`pool, this`out, this`nextWorker
      ensures Valid()
      ensures old(pool) != [] ==> w == old(pool)[0] && pool == old(pool)[1..] && workerCnt == old(workerCnt)
      ensures old(pool) == [] ==> w == old(nextWorker) && pool == [] && workerCnt == old(workerCnt) + 1
      ensures w !in old(out) && out == old(out) + {w}
    {
      if pool != [] {
        w := pool[0];
        pool := pool[1..];
        assert forall i :: 0 <= i < |pool| ==> pool[i] == old(pool)[i + 1];
      } else {
        w := nextWorker;
        nextWorker := nextWorker + 1;
        workerCnt := workerCnt + 1;
      }
      out := out + {w};
    }

    /** checkin_worker(w): kept at the back while the deque is below the
        minimum; otherwise discarded and uncounted. */
    method Checkin(w: WorkerId)
      requires Valid() && w in out
      modifies this`workerCnt, this`pool, this`out
      ensures Valid()
      ensures out == old(out) - {w}
      ensures |old(pool)| < minWorkers ==> pool == old(pool) + [w] && workerCnt == old(workerCnt)
      ensures |old(pool)| >= minWorkers ==> pool == old(pool) && workerCnt == old(workerCnt) - 1
    {
      if |pool| < minWorkers {
        pool := pool + [w];
      } else {
        workerCnt := workerCnt - 1;
      }
      out := out - {w};
    }

    /** schedule(cb): inline, or on a worker checked out for the call and
        checked back in when the callable completes. The result is the
        worker used, if any. */
    method Schedule(inScheduler: bool, isAwait: bool) returns (used: Option<WorkerId>)
      requires Valid()
      modifies this`workerCnt, this`pool, this`out, this`nextWorker
      ensures Valid()
      ensures used.None? <==> RunsInline(inScheduler, isAwait)
      ensures used.None? ==> pool == old(pool) && workerCnt == old(workerCnt)
      ensures out == old(out)
      ensures used.Some? && old(pool) != [] ==>
        used.value == old(pool)[0] && pool == old(pool)[1..] + [old(pool)[0]] && workerCnt == old(workerCnt)
      ensures used.Some? && old(pool) == [] && minWorkers > 0 ==>
        pool == [used.value] && workerCnt == old(workerCnt) + 1
      ensures used.Some? && old(pool) == [] && minWorkers == 0 ==>
        pool == [] && workerCnt == old(workerCnt)
    {
      if RunsInline(inScheduler, isAwait) {
        used := None;
      } else {
        var w := Checkout();
        Checkin(w);
        used := Some(w);
      }
    }

    /** await(cb): schedule, then the callable's result or 0. */
    method Await(o: Outcome, inScheduler: bool, isAwait: bool) returns (r: int)
      requires Valid()
      modifies this`workerCnt, this`pool, this`out, this`nextWorker
      ensures Valid()
      ensures r == AwaitValue(o)
      ensures workerCnt == old(workerCnt) + (if !RunsInline(inScheduler, isAwait) && old(pool) == [] && minWorkers > 0 then 1 else 0)
    {
      var _ := Schedule(inScheduler, isAwait);
      r := AwaitValue(o);
    }
  }

  /** instance(): with MCE_DISABLE_DEFAULT_THREADS the no-threads pool,
      otherwise the pool with the configured minimum. */
  method Instance(disableDefaultThreads: bool, minAwaitProcs: nat) returns (p: AwaitThreadpool)
    ensures fresh(p) && p.Valid() && p.out == {}
    ensures disableDefaultThreads ==> p.minWorkers == 0 && p.workerCnt == 0 && p.pool == []
    ensures !disableDefaultThreads ==> p.minWorkers == MinWorkers(minAwaitProcs) && p.workerCnt == p.minWorkers && |p.pool| == p.minWorkers
  {
    if disableDefaultThreads {
      p := new AwaitThreadpool.NoThreads();
    } else {
      p := new AwaitThreadpool(minAwaitProcs);
    }
  }
}
