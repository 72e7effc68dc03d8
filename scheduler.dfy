/** Model of the scheduler's bookkeeping (inc/mce/scheduler.hpp).

    A scheduler owns a FIFO task queue of coroutines and a counter `scheduled`
    of the coroutines it is responsible for. Running a coroutine is one step
    whose outcome (it parked, it completed, or it yielded) is an input here,
    since the coroutine body is not part of this model. The lifecycle state
    machine (ready, running, suspended, halted) gates scheduling and the run
    loop. A load measurement packs the queue length and the counter into one
    64-bit word so that schedulers can be compared with a single `<`. */
module Scheduler {

  import opened Wrappers

  // ---------------------------------------------------------------------------
  // scheduler::measurement — two saturated half-words in one size_t
  // ---------------------------------------------------------------------------

  /** size_t on a 64-bit target. */
  const WordRange: nat := 0x1_0000_0000_0000_0000
  type Word = n: nat | n < WordRange

  /** One half-word: 2^32. Bit operations on the two disjoint halves of a
      word are written as multiplication, division and remainder by it. */
  const HalfRange: nat := 0x1_0000_0000
  /** right_mask: the largest half-word value. */
  const RightMask: nat := HalfRange - 1

  /** A load value; it converts to its weight for comparison. */
  datatype Measurement = Measurement(weight: Word)

  /** A count that does not fit in a half-word is clamped to the half-word's maximum. */
  function Saturate(n: Word): (r: nat)
    ensures r <= RightMask
    ensures n <= RightMask ==> r == n
    ensures n > RightMask ==> r == RightMask
  {
    if n > RightMask then RightMask else n
  }

  /** scheduled(): the low half-word (weight & right_mask). */
  function ScheduledOf(m: Measurement): Word
  {
    m.weight % HalfRange
  }

  /** enqueued(): the high half-word shifted down ((weight & left_mask) >> half_width). */
  function EnqueuedOf(m: Measurement): Word
  {
    m.weight / HalfRange
  }

  /** blocked(): size_t subtraction, which wraps below zero. */
  function BlockedOf(m: Measurement): Word
  {
    (ScheduledOf(m) - EnqueuedOf(m)) % WordRange
  }

  /** measurement(enqueued, scheduled): the saturated enqueued count in the
      high half, the saturated scheduled count in the low half. */
  function Measure(enqueued: Word, scheduled: Word): (m: Measurement)
    ensures EnqueuedOf(m) == Saturate(enqueued)
    ensures ScheduledOf(m) == Saturate(scheduled)
  {
    var w := Saturate(enqueued) * HalfRange + Saturate(scheduled);
    assert w / HalfRange == Saturate(enqueued) && w % HalfRange == Saturate(scheduled) by {
      HalvesSplit(Saturate(enqueued), Saturate(scheduled));
    }
    Measurement(w)
  }

  /** A high and a low half-word come back out of their word unchanged. */
  lemma HalvesSplit(hi: nat, lo: nat)
    requires hi <= RightMask && lo <= RightMask
    ensures hi * HalfRange + lo < WordRange
    ensures (hi * HalfRange + lo) / HalfRange == hi
    ensures (hi * HalfRange + lo) % HalfRange == lo
  {
  }

  /** Inputs that fit in a half-word come back unchanged, and blocked() is
      their difference, wrapped into size_t when more are enqueued than scheduled. */
  lemma MeasureRoundTrip(enqueued: Word, scheduled: Word)
    requires enqueued <= RightMask && scheduled <= RightMask
    ensures EnqueuedOf(Measure(enqueued, scheduled)) == enqueued
    ensures ScheduledOf(Measure(enqueued, scheduled)) == scheduled
    ensures enqueued <= scheduled ==> BlockedOf(Measure(enqueued, scheduled)) == scheduled - enqueued
    ensures enqueued > scheduled ==> BlockedOf(Measure(enqueued, scheduled)) == WordRange + scheduled - enqueued
  {
  }

  /** Comparison by weight is lexicographic: more enqueued is heavier, and
      scheduled breaks a tie. */
  lemma MeasureLexicographic(e1: Word, s1: Word, e2: Word, s2: Word)
    ensures Measure(e1, s1).weight < Measure(e2, s2).weight <==>
      Saturate(e1) < Saturate(e2) || (Saturate(e1) == Saturate(e2) && Saturate(s1) < Saturate(s2))
  {
  }

  /** The weight is zero exactly for an idle scheduler. */
  lemma MeasureZero(enqueued: Word, scheduled: Word)
    ensures Measure(enqueued, scheduled).weight == 0 <==> enqueued == 0 && scheduled == 0
  {
  }

  /** Wrap a count into size_t. */
  function ToWord(n: nat): Word
  {
    n % WordRange
  }

  // ---------------------------------------------------------------------------
  // lifecycle::state
  // ---------------------------------------------------------------------------

  datatype State = Ready | Running | Suspended | Halted

  /** The enumerators' order, used by `<`. */
  function Rank(s: State): nat
  {
    match s
    case Ready => 0
    case Running => 1
    case Suspended => 2
    case Halted => 3
  }

  /** can_continue_: state < suspended. */
  predicate CanContinue(s: State)
  {
    Rank(s) < Rank(Suspended)
  }

  lemma CanContinueExactly(s: State)
    ensures CanContinue(s) <==> s == Ready || s == Running
  {
  }

  /** suspend_impl: refused once halted, otherwise enter suspended. */
  function SuspendNext(s: State): (r: (bool, State))
    ensures r.0 <==> s != Halted
    ensures r.1 == (if s == Halted then Halted else Suspended)
  {
    if s == Halted then (false, s) else (true, Suspended)
  }

  /** resume_impl: only a suspended scheduler becomes ready again. */
  function ResumeNext(s: State): (r: State)
    ensures s == Suspended ==> r == Ready
    ensures s != Suspended ==> r == s
  {
    if s == Suspended then Ready else s
  }

  /** halt_impl: always halted. */
  function HaltNext(s: State): (r: State)
    ensures r == Halted
  {
    Halted
  }

  datatype Request = Suspend | Resume | Halt

  function Apply(s: State, q: Request): State
  {
    match q
    case Suspend => SuspendNext(s).1
    case Resume => ResumeNext(s)
    case Halt => HaltNext(s)
  }

  function ApplyAll(s: State, qs: seq<Request>): State
    decreases |qs|
  {
    if qs == [] then s else ApplyAll(Apply(s, qs[0]), qs[1..])
  }

  /** Halted is permanent: no sequence of requests leaves it. */
  lemma {:induction false} HaltedIsFinal(qs: seq<Request>)
    ensures ApplyAll(Halted, qs) == Halted
  {
    if qs != [] {
      HaltedIsFinal(qs[1..]);
    }
  }

  /** A halt anywhere in a sequence of requests leaves the scheduler halted. */
  lemma {:induction false} HaltWins(s: State, qs: seq<Request>)
    requires Halt in qs
    ensures ApplyAll(s, qs) == Halted
    decreases |qs|
  {
    if qs[0] == Halt {
      HaltedIsFinal(qs[1..]);
    } else {
      HaltWins(Apply(s, qs[0]), qs[1..]);
    }
  }

  // ---------------------------------------------------------------------------
  // Task-queue bookkeeping as values
  // ---------------------------------------------------------------------------

  /** A coroutine, by identity. */
  type Co = nat

  /** What running one coroutine until it gives control back did. */
  datatype Outcome = Parked | Completed | Yielded

  /** The counters the scheduler keeps: the task queue, `scheduled`, and the
      coroutines parked away from the queue (held by their park continuation). */
  datatype Tally = Tally(queue: seq<Co>, scheduled: nat, parked: multiset<Co>)

  /** The invariant every operation keeps, as written and corrected: each
      queued or parked coroutine is counted. */
  predicate Bounded(t: Tally)
  {
    |t.queue| + |t.parked| <= t.scheduled
  }

  /** The intended meaning of `scheduled` (measurement::scheduled counts "all
      scheduled coroutines, blocked or enqueued", and blocked() is scheduled
      minus enqueued): queued plus parked. */
  predicate Counted(t: Tally)
  {
    t.scheduled == |t.queue| + |t.parked|
  }

  /** The non-null coroutines of a schedule() call, in argument order. */
  function NonNull(cs: seq<Option<Co>>): seq<Co>
  {
    if cs == [] then []
    else NonNull(cs[..|cs| - 1]) + (if cs[|cs| - 1].Some? then [cs[|cs| - 1].value] else [])
  }

  /** Scheduling keeps exactly the non-null arguments, each once, in order. */
  lemma {:induction false} NonNullSpec(cs: seq<Option<Co>>)
    ensures |NonNull(cs)| <= |cs|
    ensures forall c :: c in NonNull(cs) <==> Some(c) in cs
    ensures (forall k :: 0 <= k < |cs| ==> cs[k].Some?) ==> |NonNull(cs)| == |cs|
  {
    if cs != [] {
      var init := cs[..|cs| - 1];
      NonNullSpec(init);
      assert cs == init + [cs[|cs| - 1]];
      if forall k :: 0 <= k < |cs| ==> cs[k].Some? {
        assert forall k :: 0 <= k < |init| ==> init[k].Some? by {
          forall k | 0 <= k < |init| ensures init[k].Some? { assert init[k] == cs[k]; }
        }
      }
    }
  }

  /** schedule_coroutine_ over the arguments. */
  function ScheduleTally(t: Tally, cs: seq<Option<Co>>): Tally
  {
    Tally(t.queue + NonNull(cs), t.scheduled + |NonNull(cs)|, t.parked)
  }

  /** One execute_co step: the front task is always popped; a park hands it to
      its continuation with `scheduled` unchanged, a completion decrements
      `scheduled`, and a yield re-appends it at the back. */
  function StepTally(t: Tally, o: Outcome): (r: Tally)
    requires t.queue != [] && Bounded(t)
    ensures Bounded(r)
  {
    var co := t.queue[0];
    match o
    case Parked => Tally(t.queue[1..], t.scheduled, t.parked + multiset{co})
    case Completed => Tally(t.queue[1..], t.scheduled - 1, t.parked)
    case Yielded => Tally(t.queue[1..] + [co], t.scheduled, t.parked)
  }

  /** A parked coroutine comes back through scheduler::schedule, as the
      source does it (scheduled_context::notify). */
  function UnparkAsWritten(t: Tally, co: Co): Tally
    requires co in t.parked
  {
    ScheduleTally(t.(parked := t.parked - multiset{co}), [Some(co)])
  }

  /** A parked coroutine returns to the back of the queue; it was counted
      while parked, so `scheduled` does not change. */
  function UnparkCorrected(t: Tally, co: Co): Tally
    requires co in t.parked
  {
    Tally(t.queue + [co], t.scheduled, t.parked - multiset{co})
  }

  /** Every operation keeps the queue within the count. */
  lemma BoundedPreserved(t: Tally, cs: seq<Option<Co>>, co: Co)
    requires Bounded(t)
    ensures Bounded(ScheduleTally(t, cs))
    ensures co in t.parked ==> Bounded(UnparkAsWritten(t, co)) && Bounded(UnparkCorrected(t, co))
  {
  }

  /** Scheduling, stepping and the corrected unpark keep `scheduled` equal to
      queued plus parked. */
  lemma CountedPreserved(t: Tally, cs: seq<Option<Co>>, o: Outcome, co: Co)
    requires Counted(t)
    ensures Counted(ScheduleTally(t, cs))
    ensures t.queue != [] ==> Counted(StepTally(t, o))
    ensures co in t.parked ==> Counted(UnparkCorrected(t, co))
  {
  }

  /** The unpark path as written counts the coroutine a second time. */
  lemma UnparkAsWrittenOvercounts(t: Tally, co: Co)
    requires Counted(t) && co in t.parked
    ensures var r := UnparkAsWritten(t, co);
      r.scheduled == |r.queue| + |r.parked| + 1
  {
    NonNullSpec([Some(co)]);
    assert NonNull([Some(co)]) == [co] by {
      assert [Some(co)][..0] == [];
    }
  }

  /** Schedule one coroutine, let it park, unpark it, let it complete: nothing
      is left, yet `scheduled` is 1 as written and 0 corrected. */
  lemma OvercountWitness()
    ensures var t0 := ScheduleTally(Tally([], 0, multiset{}), [Some(7)]);
      && t0 == Tally([7], 1, multiset{})
      && StepTally(t0, Parked) == Tally([], 1, multiset{7})
      && UnparkAsWritten(StepTally(t0, Parked), 7) == Tally([7], 2, multiset{})
      && StepTally(UnparkAsWritten(StepTally(t0, Parked), 7), Completed) == Tally([], 1, multiset{})
      && UnparkCorrected(StepTally(t0, Parked), 7) == Tally([7], 1, multiset{})
      && StepTally(UnparkCorrected(StepTally(t0, Parked), 7), Completed) == Tally([], 0, multiset{})
  {
    assert [Some(7)][..0] == [];
    assert NonNull([Some(7)]) == [7];
    assert multiset{7} - multiset{7} == multiset{};
  }

  /** A yield only rotates the queue: the same coroutines remain queued. */
  lemma YieldRotates(t: Tally)
    requires t.queue != [] && Bounded(t)
    ensures multiset(StepTally(t, Yielded).queue) == multiset(t.queue)
    ensures StepTally(t, Yielded).queue[|t.queue| - 1] == t.queue[0]
  {
    assert t.queue == [t.queue[0]] + t.queue[1..];
  }

  // ---------------------------------------------------------------------------
  // The scheduler object
  // ---------------------------------------------------------------------------

  /** What a call of run() reports: true after a suspend, false after a halt;
      Pending when the given steps ran out while the scheduler could still
      continue (the real loop would go on running or wait for tasks). */
  datatype RunResult = Resumable | Finished | Pending

  /** One coroutine run inside run(): the lifecycle requests it made on this
      scheduler, the coroutines it scheduled here, and how it gave control back.
      Within one step every request is applied before any spawn, so a
      coroutine that schedules another and then halts in the same run is
      modelled as two steps: the spawn, then the halt. */
  datatype Step = Step(requests: seq<Request>, spawned: seq<Option<Co>>, outcome: Outcome)

  class Scheduler {
    var state: State
    var scheduled: nat
    var taskQueue: seq<Co>
    /** Coroutines parked from this scheduler and not yet unparked. */
    ghost var parked: multiset<Co>

    ghost function Books(): Tally
      reads this
    {
      Tally(taskQueue, scheduled, parked)
    }

    ghost predicate Valid()
      reads this
    {
      Bounded(Books())
    }

    constructor ()
      ensures state == Ready && scheduled == 0 && taskQueue == [] && parked == multiset{}
      ensures Valid() && Counted(Books())
    {
      state, scheduled, taskQueue, parked := Ready, 0, [], multiset{};
    }

    method GetState() returns (s: State)
      ensures s == state
    {
      s := state;
    }

    method SuspendImpl() returns (ok: bool)
      modifies this`state
      ensures (ok, state) == SuspendNext(old(state))
    {
      if state == Halted {
        ok := false;
      } else {
        state := Suspended;
        ok := true;
      }
    }

    method ResumeImpl()
      modifies this`state
      ensures state == ResumeNext(old(state))
    {
      if state == Suspended {
        state := Ready;
      }
    }

    method HaltImpl()
      modifies this`state
      ensures state == Halted
    {
      state := Halted;
    }

    method Request(q: Request)
      modifies this`state
      ensures state == Apply(old(state), q)
    {
      match q {
        case Suspend => var _ := SuspendImpl();
        case Resume => ResumeImpl();
        case Halt => HaltImpl();
      }
    }

    /** measure(): the queue length and the counter, as size_t values. */
    method MeasureNow() returns (m: Measurement)
      ensures m == Measure(ToWord(|taskQueue|), ToWord(scheduled))
    {
      m := Measure(ToWord(|taskQueue|), ToWord(scheduled));
    }

    /** schedule(cs...): ignored once halted; otherwise every non-null
        coroutine goes to the back of the queue, in order, and is counted. */
    method Schedule(cs: seq<Option<Co>>)
      requires Valid()
      modifies this`taskQueue, this`scheduled
      ensures Valid()
      ensures old(state) == Halted ==> Books() == old(Books())
      ensures old(state) != Halted ==> Books() == ScheduleTally(old(Books()), cs)
    {
      if state != Halted {
        var i := 0;
        while i < |cs|
          invariant 0 <= i <= |cs|
          invariant taskQueue == old(taskQueue) + NonNull(cs[..i])
          invariant scheduled == old(scheduled) + |NonNull(cs[..i])|
        {
          assert cs[..i + 1][..i] == cs[..i];
          if cs[i].Some? {
            scheduled := scheduled + 1;
            taskQueue := taskQueue + [cs[i].value];
          }
          i := i + 1;
        }
        assert cs[..i] == cs;
      }
    }

    /** One execute_co step on the front task. A parked coroutine is returned:
        its park continuation now owns it. */
    method ExecuteStep(o: Outcome) returns (p: Option<Co>)
      requires Valid() && taskQueue != []
      modifies this`taskQueue, this`scheduled, this`parked
      ensures Valid()
      ensures Books() == StepTally(old(Books()), o)
      ensures p == (if o == Parked then Some(old(taskQueue)[0]) else None)
    {
      var co := taskQueue[0];
      p := None;
      match o {
        case Parked =>
          taskQueue := taskQueue[1..];
          parked := parked + multiset{co};
          p := Some(co);
        case Completed =>
          taskQueue := taskQueue[1..];
          scheduled := scheduled - 1;
        case Yielded =>
          taskQueue := taskQueue[1..] + [co];
      }
    }

    /** Unparking a coroutine parked from this scheduler: it re-enters the
        queue, unless the scheduler has halted. This is the corrected
        accounting (UnparkCorrected); the source's path goes through
        Schedule and counts it again (UnparkAsWritten). */
    method Unpark(co: Co)
      requires Valid() && co in parked
      modifies this`taskQueue, this`parked
      ensures Valid()
      ensures old(state) == Halted ==> Books() == old(Books()).(parked := old(parked) - multiset{co})
      ensures old(state) != Halted ==> Books() == UnparkCorrected(old(Books()), co)
    {
      parked := parked - multiset{co};
      if state != Halted {
        taskQueue := taskQueue + [co];
      }
    }

    /** run(): wait out a suspension, claim a ready scheduler, run tasks while
        the state allows, then either keep the tasks for a later run (after a
        suspend) or drop them (after a halt). */
    method Run(steps: seq<Step>) returns (r: RunResult)
      requires Valid()
      modifies this`state, this`taskQueue, this`scheduled, this`parked
      ensures Valid()
      ensures old(state) == Suspended ==> Books() == old(Books()) && state == Suspended
      ensures r == Pending <==> old(state) == Suspended || (old(state) == Ready && CanContinue(state))
      ensures r == Resumable <==> old(state) != Suspended && state == Suspended
      ensures r == Finished ==> taskQueue == [] && (state == Halted || old(state) == Running)
      ensures old(state) == Halted ==> state == Halted && r == Finished && scheduled == old(scheduled)
      ensures old(Counted(Books())) && r != Finished ==> Counted(Books())
    {
      if state == Suspended {
        // the real call blocks here until resumed
        return Pending;
      }
      if state == Ready {
        state := Running;
        var i := 0;
        while CanContinue(state) && taskQueue != [] && i < |steps|
          invariant Valid()
          invariant old(Counted(Books())) ==> Counted(Books())
          invariant 0 <= i <= |steps|
          decreases |steps| - i
        {
          var step := steps[i];
          ghost var b0 := Books();
          var j := 0;
          while j < |step.requests|
            invariant 0 <= j <= |step.requests|
            invariant Books() == b0
          {
            Request(step.requests[j]);
            j := j + 1;
          }
          ghost var before := Books();
          Schedule(step.spawned);
          assert taskQueue != [] && taskQueue[0] == before.queue[0] by {
            if state != Halted { assert taskQueue == before.queue + NonNull(step.spawned); }
          }
          assert old(Counted(Books())) ==> Counted(Books()) by {
            if old(Counted(Books())) {
              CountedPreserved(before, step.spawned, Yielded, 0);
            }
          }
          ghost var mid := Books();
          var _ := ExecuteStep(step.outcome);
          assert old(Counted(Books())) ==> Counted(Books()) by {
            if old(Counted(Books())) {
              CountedPreserved(mid, [], step.outcome, 0);
            }
          }
          i := i + 1;
        }
        if CanContinue(state) {
          return Pending;
        }
      }
      if state == Suspended {
        return Resumable;
      }
      taskQueue := [];
      return Finished;
    }
  }
}
