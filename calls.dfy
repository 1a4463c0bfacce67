/*
 * The shape every asynchronous operation of the game-instance subsystem
 * shares. An operation either refuses at once (a guard failed: the backend
 * or one of its interfaces is missing), or it binds a handler on the
 * backend's completion event and then asks the backend to start. If the
 * start call reports failure the handler is cleared and the result sink is
 * told. Otherwise the backend later raises completion events; each one goes
 * through the handler, which first applies the call's own filter (session
 * name, local user number, target id, file name, read state), then checks
 * that the result sink still exists, then delivers and usually unbinds.
 *
 * The result sink is held weakly (TSoftObjectPtr); `sinkAlive` is whether it
 * still resolves. What a handler makes of one event is a pure function of
 * the event in each feature module; this class runs the shared steps.
 */
module Calls {
  import opened Wrappers
  import opened ResultSinks

  /** What the handler makes of one completion event. */
  datatype Reaction<T> =
    | Ignore                                   // not for this call: nothing happens
    | Deliver(args: Args<T>, unbind: bool)     // deliver (if the sink is alive), then maybe unbind

  /** How a failed start orders the delivery and the clearing of the handler.
      A per-call completion delegate has no handle to clear (`DeliverOnly`). */
  datatype ClearOrder = ClearThenDeliver | DeliverThenClear | DeliverOnly

  /** What an operation does when the backend's start call returns false. */
  datatype StartFailure<T> = StartFailure(args: Args<T>, order: ClearOrder)

  /** How an operation begins. */
  datatype Launch<T> =
    | Refuse(args: Args<T>)                         // a guard failed: deliver, bind nothing
    | Bind(onStartFailure: Option<StartFailure<T>>)  // bind the handler, then start;
                                                    // None: the start result is not checked

  /** The launch of an operation whose guard chain produced `refusal`: the
      refusal delivers `false` with the empty payload and binds nothing. */
  function GuardedLaunch<T>(refusal: Option<string>, empty: T, onStartFailure: Option<StartFailure<T>>): (l: Launch<T>)
    ensures l.Refuse? <==> refusal.Some?
    ensures refusal.Some? ==> l.args == Args(false, empty, refusal.value)
    ensures refusal.None? ==> l.onStartFailure == onStartFailure
  {
    if refusal.Some? then Refuse(Args(false, empty, refusal.value)) else Bind(onStartFailure)
  }

  /** The observable steps of one call, in order. */
  datatype Step<T> = Bound | Cleared | Delivered(args: Args<T>)

  /** The steps of a launch whose start call returned `started`. */
  function LaunchSteps<T>(l: Launch<T>, started: bool): (steps: seq<Step<T>>)
    ensures l.Refuse? ==> steps == [Delivered(l.args)]
    ensures l.Bind? ==> |steps| >= 1 && steps[0] == Bound
    ensures l.Bind? && (started || l.onStartFailure.None?) ==> steps == [Bound]
  {
    match l
    case Refuse(a) => [Delivered(a)]
    case Bind(None) => [Bound]
    case Bind(Some(f)) =>
      if started then [Bound]
      else match f.order
        case ClearThenDeliver => [Bound, Cleared, Delivered(f.args)]
        case DeliverThenClear => [Bound, Delivered(f.args), Cleared]
        case DeliverOnly => [Bound, Delivered(f.args)]
  }

  /** Whether the handler can still be reached by a completion after the
      launch: exactly when the launch did nothing but bind it. */
  function BoundAfterLaunch<T>(l: Launch<T>, started: bool): (b: bool)
    ensures b <==> LaunchSteps(l, started) == [Bound]
  {
    l.Bind? && (started || l.onStartFailure.None?)
  }

  /** The arguments a launch delivers, if any. */
  function LaunchDelivery<T>(l: Launch<T>, started: bool): (d: Option<Args<T>>)
    ensures d.Some? ==> Delivered(d.value) in LaunchSteps(l, started)
    ensures forall i :: 0 <= i < |LaunchSteps(l, started)| && LaunchSteps(l, started)[i].Delivered? ==>
              d == Some(LaunchSteps(l, started)[i].args)
  {
    match l
    case Refuse(a) => Some(a)
    case Bind(None) => None
    case Bind(Some(f)) => if started then None else Some(f.args)
  }

  /** The steps of one event, given the handler's reaction and whether the
      sink is still alive. A dead sink stops the handler before it delivers
      and before it unbinds. */
  function EventSteps<T>(r: Reaction<T>, sinkAlive: bool): (steps: seq<Step<T>>)
    ensures r.Ignore? || !sinkAlive ==> steps == []
    ensures r.Deliver? && sinkAlive ==> |steps| > 0 && steps[0] == Delivered(r.args) && (Cleared in steps <==> r.unbind)
  {
    match r
    case Ignore => []
    case Deliver(a, u) => if !sinkAlive then [] else [Delivered(a)] + (if u then [Cleared] else [])
  }

  /** One call in flight. */
  class Call<T> {
    var bound: bool           // the handler is bound on the completion event
    var sinkAlive: bool       // the weak pointer to the result sink resolves
    const sink: Sink<T>
    ghost var steps: seq<Step<T>>

    ghost predicate Valid()
      reads this, sink
    {
      sink.toleratesUnbound || sink.bound
    }

    constructor (sink: Sink<T>)
      requires sink.toleratesUnbound || sink.bound
      ensures this.sink == sink && !bound && sinkAlive && steps == [] && Valid()
    {
      this.sink := sink;
      bound, sinkAlive, steps := false, true, [];
    }

    /** The start of the operation; `started` is what the backend's start
        call returned. The sink passed in is used directly here, without the
        liveness check. */
    method Begin(l: Launch<T>, started: bool)
      requires Valid() && !bound && steps == []
      modifies this, sink
      ensures Valid() && sinkAlive == old(sinkAlive)
      ensures steps == LaunchSteps(l, started)
      ensures bound == BoundAfterLaunch(l, started)
      ensures LaunchDelivery(l, started).Some? ==> sink.State() == ResultSinks.Step(old(sink.State()), LaunchDelivery(l, started).value)
      ensures LaunchDelivery(l, started).None? ==> sink.State() == old(sink.State())
    {
      match l {
        case Refuse(a) =>
          sink.OnResult(a);
          steps := [Delivered(a)];
        case Bind(f) =>
          bound, steps := true, [Bound];
          if !started && f.Some? {
            match f.value.order {
              case ClearThenDeliver =>
                bound, steps := false, steps + [Cleared];
                sink.OnResult(f.value.args);
                steps := steps + [Delivered(f.value.args)];
              case DeliverThenClear =>
                sink.OnResult(f.value.args);
                steps := steps + [Delivered(f.value.args)];
                bound, steps := false, steps + [Cleared];
              case DeliverOnly =>
                bound := false;
                sink.OnResult(f.value.args);
                steps := steps + [Delivered(f.value.args)];
            }
          }
      }
    }

    /** One completion event reaching the bound handler. */
    method Handle(r: Reaction<T>)
      requires Valid() && bound
      modifies this, sink
      ensures Valid() && sinkAlive == old(sinkAlive)
      ensures steps == old(steps) + EventSteps(r, sinkAlive)
      ensures bound == !(r.Deliver? && sinkAlive && r.unbind)
      ensures r.Deliver? && sinkAlive ==> sink.State() == ResultSinks.Step(old(sink.State()), r.args)
      ensures !(r.Deliver? && sinkAlive) ==> sink.State() == old(sink.State())
    {
      match r {
        case Ignore =>
        case Deliver(a, u) =>
          if !sinkAlive {
            return;
          }
          sink.OnResult(a);
          steps := steps + [Delivered(a)];
          if u {
            bound, steps := false, steps + [Cleared];
          }
      }
    }

    /** The result sink is garbage collected. */
    method SinkGone()
      modifies this`sinkAlive
      ensures !sinkAlive
    {
      sinkAlive := false;
    }
  }

  // ---------------------------------------------------------------------
  // The reactions many operations share

  /** A per-call completion delegate (one handed to the start call itself)
      forwards the backend's outcome as it is; there is no handle to clear. */
  function Forward<T>(ok: bool, result: T, error: string): Reaction<T>
  {
    Deliver(Args(ok, result, error), false)
  }

  /** An FOnlineError: whether it succeeded, and its log string. */
  datatype OnlineError = OnlineError(succeeded: bool, logString: string)

  /** A per-call completion that carries an FOnlineError forwards its flag
      and its log string. */
  function ErrorForward(e: OnlineError): Reaction<()>
  {
    Forward(e.succeeded, (), e.logString)
  }

  /** A completion event that names the user it is about (a user id, or a
      local user number), with its outcome and message. */
  datatype UserEvent<K> = UserEvent(user: K, ok: bool, error: string)

  /** A handler bound on such an event: events about another user are
      ignored; an event about its own user forwards and unbinds. */
  function UserForward<K(==)>(user: K, ev: UserEvent<K>): Reaction<()>
  {
    if ev.user != user then Ignore else Deliver(Args(ev.ok, (), ev.error), true)
  }

  /** Two completions of a per-call delegate reaching a live sink that has
      not called back: the callback receives the first one's arguments and
      nothing of the second, and the handler is never unbound. */
  method ForwardTwice<T>(call: Call<T>, first: Args<T>, second: Args<T>)
    requires call.Valid() && call.bound && call.sinkAlive && !call.sink.didCallback
    modifies call, call.sink
    ensures call.Valid() && call.bound && call.sinkAlive
    ensures call.steps == old(call.steps) + [Delivered(first), Delivered(second)]
    ensures call.sink.didCallback && call.sink.bound == old(call.sink.bound)
    ensures call.sink.received == old(call.sink.received) + (if call.sink.bound then [first] else [])
  {
    call.Handle(Forward(first.success, first.result, first.error));
    call.Handle(Forward(second.success, second.result, second.error));
  }

  /** An event about another user leaves a UserForward handler bound and
      the sink untouched; the next event about its own user delivers that
      event's outcome and message, then unbinds. */
  method OtherUserThenOwn<K(==)>(call: Call<()>, user: K, other: UserEvent<K>, own: UserEvent<K>)
    requires call.Valid() && call.bound && call.sinkAlive
    requires other.user != user && own.user == user
    modifies call, call.sink
    ensures call.Valid() && !call.bound
    ensures call.steps == old(call.steps) + [Delivered(Args(own.ok, (), own.error)), Cleared]
    ensures call.sink.State() == ResultSinks.Step(old(call.sink.State()), Args(own.ok, (), own.error))
  {
    call.Handle(UserForward(user, other));
    assert call.bound && call.steps == old(call.steps) && call.sink.State() == old(call.sink.State());
    call.Handle(UserForward(user, own));
  }

  /** Whatever the event, a UserForward handler delivers only events about
      its user, and unbinds exactly when it delivers; a Forward never
      unbinds. */
  lemma ForwardSteps<K>(user: K, ev: UserEvent<K>, e: OnlineError, sinkAlive: bool)
    ensures EventSteps(UserForward(user, ev), sinkAlive) ==
              if ev.user == user && sinkAlive then [Delivered(Args(ev.ok, (), ev.error)), Cleared] else []
    ensures EventSteps(ErrorForward(e), sinkAlive) ==
              if sinkAlive then [Delivered(Args(e.succeeded, (), e.logString))] else []
  {
  }
}
