/** Model of what all channels share (inc/mce/base_channel.hpp): the result
    of a channel operation, the channel iterator, and the comparison
    operators on channel handles.

    A channel handle is compared by the address of its shared context; the
    model gives that address as a natural number, 0 for a handle without a
    context. The iterator reads from a channel whose successive receives
    are given as a script of their outcomes. */
module BaseChannel {

  import opened Wrappers

  // ---------------------------------------------------------------------------
  // result
  // ---------------------------------------------------------------------------

  /** The result of a channel operation. */
  datatype ChanResult = Closed | Success | Failure

  /** The enumerators' values: closed is 0 so that a loop over try_ calls
      stops on it. */
  function ResultValue(r: ChanResult): nat
  {
    match r
    case Closed => 0
    case Success => 1
    case Failure => 2
  }

  /** Conversion to bool, through the enumerator's value. */
  predicate ResultAsBool(r: ChanResult)
  {
    ResultValue(r) != 0
  }

  /** Only closed converts to false. */
  lemma ResultAsBoolExactly(r: ChanResult)
    ensures ResultAsBool(r) <==> r != Closed
  {
  }

  /** What a blocking send or recv returns: whether the operation succeeded. */
  predicate Succeeded(r: ChanResult)
  {
    r == Success
  }

  /** A blocking operation reports true only where the result converts to
      true, but a failure converts to true while the blocking call reports
      false. */
  lemma SucceededStrongerThanBool(r: ChanResult)
    ensures Succeeded(r) ==> ResultAsBool(r)
    ensures r == Failure ==> ResultAsBool(r) && !Succeeded(r)
  {
  }

  // ---------------------------------------------------------------------------
  // Parked requests
  // ---------------------------------------------------------------------------

  /** Identifies one parked send or receive. */
  type Ticket = nat

  /** How a parked request was resolved by another operation: a parked
      sender's value was taken (its send returns success), a parked receiver
      was handed a value (its recv returns success with it), or the channel
      closed under it (its operation returns closed). */
  datatype Notice<T> = SendTaken(sender: Ticket) | RecvGiven(receiver: Ticket, value: T) | ClosedOut(who: Ticket)

  /** The result the resolved operation returns when it resumes. */
  function NoticeResult<T>(n: Notice<T>): (r: ChanResult)
    ensures r != Failure
    ensures r == Closed <==> n.ClosedOut?
  {
    if n.ClosedOut? then Closed else Success
  }

  /** The notices that close sends to the given tickets, in order. */
  function ClosedNotices<T>(ts: seq<Ticket>): (ns: seq<Notice<T>>)
    ensures |ns| == |ts|
  {
    if ts == [] then [] else [ClosedOut(ts[0])] + ClosedNotices(ts[1..])
  }

  /** Each notice of a close names its ticket, in order. */
  lemma {:induction false} ClosedNoticesSpec<T>(ts: seq<Ticket>)
    ensures forall i :: 0 <= i < |ts| ==> ClosedNotices<T>(ts)[i] == ClosedOut(ts[i])
  {
    if ts != [] {
      var rest := ClosedNotices<T>(ts[1..]);
      ClosedNoticesSpec<T>(ts[1..]);
      assert ClosedNotices<T>(ts) == [ClosedOut(ts[0])] + rest;
      forall i | 1 <= i < |ts|
        ensures ClosedNotices<T>(ts)[i] == ClosedOut(ts[i])
      {
        assert rest[i - 1] == ClosedOut(ts[1..][i - 1]);
      }
    }
  }

  /** A parked sender and the value it is trying to send. */
  datatype ParkedSend<T> = ParkedSend(ticket: Ticket, value: T)

  function Values<T>(ps: seq<ParkedSend<T>>): (vs: seq<T>)
    ensures |vs| == |ps|
    ensures forall i :: 0 <= i < |ps| ==> vs[i] == ps[i].value
  {
    if ps == [] then [] else [ps[0].value] + Values(ps[1..])
  }

  function SendTickets<T>(ps: seq<ParkedSend<T>>): (ts: seq<Ticket>)
    ensures |ts| == |ps|
    ensures forall i :: 0 <= i < |ps| ==> ts[i] == ps[i].ticket
  {
    if ps == [] then [] else [ps[0].ticket] + SendTickets(ps[1..])
  }

  lemma ClosedSendersStep<T>(ps: seq<ParkedSend<T>>)
    requires ps != []
    ensures ClosedNotices<T>(SendTickets(ps)) == [ClosedOut(ps[0].ticket)] + ClosedNotices(SendTickets(ps[1..]))
  {
    assert SendTickets(ps)[1..] == SendTickets(ps[1..]);
  }

  /** What a send call does at once: return a result, or park. */
  datatype SendStep = SendReturned(r: ChanResult) | SendParked(ticket: Ticket)

  /** What a recv call does at once: return a result (with the value on
      success), or park. */
  datatype RecvStep<T> = RecvReturned(r: ChanResult, value: Option<T>) | RecvParked(ticket: Ticket)

  // ---------------------------------------------------------------------------
  // The iterator
  // ---------------------------------------------------------------------------

  /** The values an iteration yields from a script of receive outcomes: the
      received values, in order, up to the first failed receive. */
  function ValuesUntilFailure<T>(script: seq<Option<T>>): (vs: seq<T>)
    ensures |vs| <= |script|
    ensures forall i :: 0 <= i < |vs| ==> script[i] == Some(vs[i])
    ensures |vs| < |script| ==> script[|vs|] == None
  {
    if script == [] || script[0].None? then [] else [script[0].value] + ValuesUntilFailure(script[1..])
  }

  /** The receiving end that an iterator reads from: the outcomes of its next
      receives, Some(v) for a value and None for a failed receive. Once the
      script is used up every receive fails. */
  class Receiver<T> {
    var script: seq<Option<T>>

    constructor (script: seq<Option<T>>)
      ensures this.script == script
    {
      this.script := script;
    }

    method Recv() returns (v: Option<T>)
      modifies this
      ensures old(script) == [] ==> v == None && script == []
      ensures old(script) != [] ==> v == old(script)[0] && script == old(script)[1..]
    {
      if script == [] {
        v := None;
      } else {
        v := script[0];
        script := script[1..];
      }
    }
  }

  /** iterator_context: the channel, the last value received, and whether
      every receive so far succeeded. */
  class IteratorContext<T> {
    const bc: Receiver<T>
    var t: Option<T>
    var good: bool

    constructor (bc: Receiver<T>)
      ensures this.bc == bc && t == None && good
    {
      this.bc := bc;
      t := None;
      good := true;
    }

    /** increment(): receive only while good; a failed receive makes it
        false for good. */
    method Increment() returns (g: bool)
      modifies this, bc
      ensures g == good
      ensures !old(good) ==> !good && t == old(t) && bc.script == old(bc.script)
      ensures old(good) && (old(bc.script) == [] || old(bc.script)[0].None?) ==>
        !good && t == old(t) && bc.script == (if old(bc.script) == [] then [] else old(bc.script)[1..])
      ensures old(good) && old(bc.script) != [] && old(bc.script)[0].Some? ==>
        good && t == old(bc.script)[0] && bc.script == old(bc.script)[1..]
    {
      if good {
        var v := bc.Recv();
        if v.None? {
          good := false;
        } else {
          t := v;
        }
      }
      g := good;
    }
  }

  /** A channel iterator: a shared context, or none for end(). */
  class ChanIterator<T> {
    var ctx: IteratorContext?<T>

    /** end(): the iterator without a context. */
    constructor End()
      ensures ctx == null
    {
      ctx := null;
    }

    /** ==: the same context (or both without one). */
    method Equals(rhs: ChanIterator<T>) returns (b: bool)
      ensures b <==> ctx == rhs.ctx
    {
      b := ctx == rhs.ctx;
    }

    /** operator++: a failed increment drops the context, so the iterator
        then equals end(). */
    method Next()
      requires ctx != null
      modifies this, ctx, ctx.bc
      ensures Receives(old(ctx.good), old(ctx.bc.script)) ==>
        ctx == old(ctx) && ctx.good && ctx.t == old(ctx.bc.script)[0] && ctx.bc.script == old(ctx.bc.script)[1..]
      ensures !Receives(old(ctx.good), old(ctx.bc.script)) ==> ctx == null
      ensures |old(ctx).bc.script| <= |old(ctx.bc.script)|
    {
      var g := ctx.Increment();
      if !g {
        ctx := null;
      }
    }
  }

  /** Whether the next increment of a context in this state receives a value. */
  predicate Receives<T>(good: bool, script: seq<Option<T>>)
  {
    good && script != [] && script[0].Some?
  }

  /** begin(): a fresh context that has already received once. */
  method Begin<T>(bc: Receiver<T>) returns (it: ChanIterator<T>)
    modifies bc
    ensures fresh(it)
    ensures !Receives(true, old(bc.script)) ==> it.ctx == null
    ensures Receives(true, old(bc.script)) ==>
      it.ctx != null && fresh(it.ctx) && it.ctx.bc == bc && it.ctx.good &&
      it.ctx.t == old(bc.script)[0] && bc.script == old(bc.script)[1..]
  {
    it := new ChanIterator.End();
    it.ctx := new IteratorContext(bc);
    it.Next();
  }

  /** A range-for over a channel: the values it sees are the received values
      up to, and not including, the first failed receive. */
  method ForEach<T>(bc: Receiver<T>) returns (seen: seq<T>)
    modifies bc
    ensures seen == ValuesUntilFailure(old(bc.script))
  {
    var it := Begin(bc);
    seen := [];
    while it.ctx != null
      invariant fresh(it)
      invariant it.ctx != null ==> fresh(it.ctx) && it.ctx.bc == bc && it.ctx.good && it.ctx.t.Some?
      invariant it.ctx != null ==>
        ValuesUntilFailure(old(bc.script)) == seen + [it.ctx.t.value] + ValuesUntilFailure(bc.script)
      invariant it.ctx == null ==> seen == ValuesUntilFailure(old(bc.script))
      decreases |bc.script|, it.ctx != null
    {
      ghost var before := bc.script;
      ghost var s0 := seen;
      seen := seen + [it.ctx.t.value];
      it.Next();
      if it.ctx != null {
        assert ValuesUntilFailure(before) == [before[0].value] + ValuesUntilFailure(before[1..]);
        assert s0 + [seen[|seen| - 1]] + ([before[0].value] + ValuesUntilFailure(before[1..]))
          == seen + [it.ctx.t.value] + ValuesUntilFailure(bc.script);
      }
    }
  }

  // ---------------------------------------------------------------------------
  // channel_operators: comparisons of handles by context address
  // ---------------------------------------------------------------------------

  /** A handle's context address; 0 when it has none. */
  type Address = nat

  /** operator bool: the handle has a context. */
  predicate HasContext(a: Address)
  {
    a != 0
  }

  /** ==: both handles share the context. */
  predicate SameContext(a: Address, b: Address)
  {
    a == b
  }

  /** <, for lvalue and rvalue arguments alike. */
  predicate Less(a: Address, b: Address)
  {
    a < b
  }

  /** <= with an lvalue argument, as written: a strict comparison. */
  predicate LessEqAsWritten(a: Address, b: Address)
  {
    a < b
  }

  /** >= with an lvalue argument, as written: a strict comparison. */
  predicate GreaterEqAsWritten(a: Address, b: Address)
  {
    a > b
  }

  /** <= with an rvalue argument, and the intended <= for either. */
  predicate LessEq(a: Address, b: Address)
  {
    a <= b
  }

  /** >= with an rvalue argument, and the intended >= for either. */
  predicate GreaterEq(a: Address, b: Address)
  {
    a >= b
  }

  /** A handle and its copy share a context, yet the lvalue <= and >= say the
      handle is neither at most nor at least its copy, while the rvalue
      overloads say both. */
  lemma LvalueLessEqIsStrict(a: Address)
    ensures !LessEqAsWritten(a, a) && !GreaterEqAsWritten(a, a)
    ensures LessEq(a, a) && GreaterEq(a, a)
    ensures SameContext(a, a)
  {
  }

  /** The intended <= and >= agree with < and ==, and with each other. */
  lemma LessEqConsistent(a: Address, b: Address)
    ensures LessEq(a, b) <==> Less(a, b) || SameContext(a, b)
    ensures GreaterEq(a, b) <==> LessEq(b, a)
    ensures LessEq(a, b) && LessEq(b, a) ==> SameContext(a, b)
  {
  }

  /** The handle with no context is below every handle that has one. */
  lemma NoContextIsLeast(a: Address)
    ensures !HasContext(a) ==> forall b: Address :: LessEq(a, b)
    ensures HasContext(a) ==> Less(0, a)
  {
  }
}
