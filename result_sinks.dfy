/*
 * The single-fire result objects (UMOS_*AsyncResult). Each holds a
 * `bDidCallback` flag and a native callback; the first OnResult sets the
 * flag and forwards its arguments, every later call does nothing.
 *
 * The eleven result classes differ only in the payload they forward and in
 * whether they check that the callback is bound:
 *   AsyncResult                  payload ()              tolerates unbound
 *   SessionsFindSessionsResult   payload search results  tolerates unbound
 *   the nine others              their own payload       require bound
 * so one generic class stands for all of them.
 */
module ResultSinks {
  /** The arguments of one OnResult call: success flag, payload, error message. */
  datatype Args<T> = Args(success: bool, result: T, error: string)

  /** The observable state of a sink: the flag, whether the callback is bound,
      and every invocation the native callback has received. */
  datatype SinkState<T> = SinkState(didCallback: bool, bound: bool, received: seq<Args<T>>)

  /** A freshly created UObject: fields start zeroed. */
  function Fresh<T>(bound: bool): SinkState<T>
  {
    SinkState(false, bound, [])
  }

  /** One OnResult call. */
  function Step<T>(s: SinkState<T>, a: Args<T>): SinkState<T>
  {
    if s.didCallback then s
    else if s.bound then SinkState(true, s.bound, s.received + [a])
    else SinkState(true, s.bound, s.received)
  }

  /** A sequence of OnResult calls, in order. */
  function Replay<T>(s: SinkState<T>, calls: seq<Args<T>>): SinkState<T>
    decreases |calls|
  {
    if calls == [] then s else Replay(Step(s, calls[0]), calls[1..])
  }

  /** Once the flag is set, no further call changes anything. */
  lemma {:induction false} ReplayAfterFlag<T>(s: SinkState<T>, calls: seq<Args<T>>)
    requires s.didCallback
    ensures Replay(s, calls) == s
    decreases |calls|
  {
    if calls != [] {
      ReplayAfterFlag(Step(s, calls[0]), calls[1..]);
    }
  }

  /** Over any sequence of calls on a fresh sink the callback runs at most
      once, and when it runs it receives the first call's arguments; the flag
      is set as soon as there has been one call, bound or not. */
  lemma {:induction false} AtMostOnceWithFirstArgs<T>(bound: bool, calls: seq<Args<T>>)
    ensures |Replay(Fresh<T>(bound), calls).received| <= 1
    ensures Replay(Fresh<T>(bound), calls).didCallback <==> calls != []
    ensures Replay(Fresh<T>(bound), calls).received ==
              if calls != [] && bound then [calls[0]] else []
  {
    if calls != [] {
      ReplayAfterFlag(Step(Fresh<T>(bound), calls[0]), calls[1..]);
    }
  }

  /** The flag never returns to false. */
  lemma {:induction false} FlagIsMonotone<T>(s: SinkState<T>, calls: seq<Args<T>>)
    ensures s.didCallback ==> Replay(s, calls).didCallback
    ensures s.received <= Replay(s, calls).received
    decreases |calls|
  {
    if calls != [] {
      FlagIsMonotone(Step(s, calls[0]), calls[1..]);
    }
  }

  /**
   * One result object. `toleratesUnbound` distinguishes the two classes
   * whose OnResult checks IsBound() from the nine that call Execute
   * unconditionally (and so need a bound callback).
   */
  class Sink<T> {
    const toleratesUnbound: bool
    var didCallback: bool
    var bound: bool
    ghost var received: seq<Args<T>>

    ghost function State(): SinkState<T>
      reads this
    {
      SinkState(didCallback, bound, received)
    }

    constructor (toleratesUnbound: bool, bound: bool)
      ensures this.toleratesUnbound == toleratesUnbound
      ensures State() == Fresh(bound)
    {
      this.toleratesUnbound := toleratesUnbound;
      didCallback := false;
      this.bound := bound;
      received := [];
    }

    /** UMOS_*AsyncResult::OnResult. */
    method OnResult(a: Args<T>)
      requires toleratesUnbound || bound
      modifies this
      ensures State() == Step(old(State()), a)
      ensures didCallback
    {
      if !didCallback {
        didCallback := true;
        if bound {
          received := received + [a];
        }
      }
    }
  }
}
