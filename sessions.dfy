/*
 * Session operations: find, create, join (alone or with the party the user
 * leads), start, end, destroy, register and unregister players, and the
 * session getters. Session names are FNames and session ids FStrings; both
 * are compared ignoring case.
 */
module Sessions {
  import opened Wrappers
  import opened ResultSinks
  import opened Calls
  import opened Online
  import opened Strings

  const Unsupported: string := "Online subsystem does not support sessions."
  const PartiesUnsupported: string := "Online subsystem does not support parties."
  const NoSuchSearchResult: string := "No such search result exists."
  const SearchFailed: string := "Session search failed."

  /** The guard chain every session operation shares. */
  function SessionGuard(env: Env): (m: Option<string>)
    requires CanCall(env, Reported)
    ensures m.None? <==> env.Some? && env.value.signedIn.Some? && Sessions in env.value.caps
    ensures env.Some? && env.value.signedIn.Some? && Sessions !in env.value.caps ==> m == Some(Unsupported)
  {
    Guard(env, Reported, [Need(Sessions, Unsupported)])
  }

  // ---------------------------------------------------------------------
  // Create, start, end, destroy, register and unregister

  /** The operations whose completion carries a session name and a flag. */
  datatype SessionOp = Create | Start | End | Destroy | RegisterPlayer | UnregisterPlayer

  function FailedMessage(op: SessionOp): string
  {
    match op
    case Create => "Create session operation failed."
    case Start => "Start session operation failed."
    case End => "End session operation failed."
    case Destroy => "Destroy session operation failed."
    case RegisterPlayer => "RegisterPlayer operation failed."
    case UnregisterPlayer => "UnregisterPlayer operation failed."
  }

  function StartFailedMessage(op: SessionOp): string
  {
    match op
    case Create => "CreateSession call failed to start."
    case Start => "StartSession call failed to start."
    case End => "EndSession call failed to start."
    case Destroy => "DestroySession call failed to start."
    case RegisterPlayer => "RegisterPlayer call failed to start."
    case UnregisterPlayer => "UnregisterPlayer call failed to start."
  }

  /** Every message names its operation: no two operations share a failure
      or a start-failure message, and no failure message is a start-failure
      message. */
  lemma MessagesIdentifyOp(a: SessionOp, b: SessionOp)
    ensures FailedMessage(a) == FailedMessage(b) ==> a == b
    ensures StartFailedMessage(a) == StartFailedMessage(b) ==> a == b
    ensures FailedMessage(a) != StartFailedMessage(b)
  {
    FailedMessagesDistinct(a, b);
    StartFailedMessagesDistinct(a, b);
    FailedIsNotStartFailed(a, b);
  }

  lemma FailedMessagesDistinct(a: SessionOp, b: SessionOp)
    ensures FailedMessage(a) == FailedMessage(b) ==> a == b
  {
  }

  lemma StartFailedMessagesDistinct(a: SessionOp, b: SessionOp)
    ensures StartFailedMessage(a) == StartFailedMessage(b) ==> a == b
  {
  }

  lemma FailedIsNotStartFailed(a: SessionOp, b: SessionOp)
    ensures FailedMessage(a) != StartFailedMessage(b)
  {
  }



  /** How a session operation begins. A failed start clears the handler
      after delivering, and delivers success. */
  function OpLaunch(env: Env, op: SessionOp): (l: Launch<()>)
    requires CanCall(env, Reported)
    ensures l.Refuse? <==> SessionGuard(env).Some?
    ensures l.Refuse? ==> !l.args.success && l.args.error == SessionGuard(env).value
    ensures l.Bind? ==> l.onStartFailure == Some(StartFailure(Args(true, (), StartFailedMessage(op)), DeliverThenClear))
  {
    GuardedLaunch(SessionGuard(env), (), Some(StartFailure(Args(true, (), StartFailedMessage(op)), DeliverThenClear)))
  }

  /** A completion event: the session it is about and whether it succeeded. */
  datatype Completion = Completion(sessionName: string, ok: bool)

  /** The handler of a session operation on one completion event. */
  function OpReaction(op: SessionOp, sessionName: string, ev: Completion): (r: Reaction<()>)
    ensures r.Ignore? <==> !SameName(ev.sessionName, sessionName)
    ensures r.Deliver? ==> r.unbind && r.args.success == ev.ok
    ensures r.Deliver? ==> (r.args.error == "" <==> ev.ok)
    ensures r.Deliver? && !ev.ok ==> r.args.error == FailedMessage(op)
  {
    if !SameName(ev.sessionName, sessionName) then Ignore
    else Deliver(Args(ev.ok, (), if ev.ok then "" else FailedMessage(op)), true)
  }

  /** Session names are FNames: an event whose session name differs from
      the call's only in case is taken all the same, by every session
      handler. */
  lemma EventNameCaseIgnored(op: SessionOp, sessionName: string, ev: Completion, join: JoinCompletion)
    ensures OpReaction(op, Folded(sessionName), ev) == OpReaction(op, sessionName, ev)
    ensures JoinReaction(Folded(sessionName), join) == JoinReaction(sessionName, join)
  {
    SameNameIsFoldedEquality(ev.sessionName, sessionName);
    SameNameIsFoldedEquality(ev.sessionName, Folded(sessionName));
    SameNameIsFoldedEquality(join.sessionName, sessionName);
    SameNameIsFoldedEquality(join.sessionName, Folded(sessionName));
    CaseDoesNotMatter(sessionName);
  }

  /** A session operation whose start call fails reports success to its
      sink, and leaves no handler bound. */
  lemma StartFailureReportsSuccess(env: Env, op: SessionOp)
    requires CanCall(env, Reported) && SessionGuard(env).None?
    ensures LaunchSteps(OpLaunch(env, op), false) ==
              [Bound, Delivered(Args(true, (), StartFailedMessage(op))), Cleared]
    ensures !BoundAfterLaunch(OpLaunch(env, op), false)
    ensures LaunchDelivery(OpLaunch(env, op), false) == Some(Args(true, (), StartFailedMessage(op)))
  {
  }

  /** A refused session operation binds nothing and reports failure. */
  lemma RefusalBindsNothing(env: Env, op: SessionOp, started: bool)
    requires CanCall(env, Reported) && SessionGuard(env).Some?
    ensures Bound !in LaunchSteps(OpLaunch(env, op), started)
    ensures LaunchDelivery(OpLaunch(env, op), started) == Some(Args(false, (), SessionGuard(env).value))
  {
  }

  // ---------------------------------------------------------------------
  // Find sessions

  /** The rows of a search whose session information is valid, in order. */
  function WithInfo(rows: seq<SearchRow>): seq<SearchRow>
  {
    if rows == [] then []
    else (if rows[0].hasInfo then [rows[0]] else []) + WithInfo(rows[1..])
  }

  lemma {:induction false} WithInfoAppend(rows: seq<SearchRow>, row: SearchRow)
    ensures WithInfo(rows + [row]) == WithInfo(rows) + (if row.hasInfo then [row] else [])
  {
    if rows != [] {
      assert (rows + [row])[1..] == rows[1..] + [row];
      WithInfoAppend(rows[1..], row);
    }
  }

  /** The refilled lists hold exactly the rows with valid session
      information, and no more of them than the search returned. */
  lemma {:induction false} WithInfoSelects(rows: seq<SearchRow>)
    ensures forall r :: r in WithInfo(rows) <==> r in rows && r.hasInfo
    ensures |WithInfo(rows)| <= |rows|
    ensures WithInfo(rows) == rows <==> forall i :: 0 <= i < |rows| ==> rows[i].hasInfo
  {
    if rows != [] {
      WithInfoSelects(rows[1..]);
      assert rows == [rows[0]] + rows[1..];
      if !rows[0].hasInfo {
        assert |WithInfo(rows)| < |rows|;
      }
    }
  }

  function FindLaunch(env: Env): (l: Launch<seq<SearchRow>>)
    requires CanCall(env, Reported)
    ensures l.Refuse? <==> SessionGuard(env).Some?
    ensures l.Refuse? ==> l.args == Args(false, [], SessionGuard(env).value)
    ensures l.Bind? ==> l.onStartFailure == Some(StartFailure(Args(true, [], "FindSessions call failed to start."), DeliverThenClear))
  {
    GuardedLaunch(SessionGuard(env), [], Some(StartFailure(Args(true, [], "FindSessions call failed to start."), DeliverThenClear)))
  }

  /** The find handler on one completion: events are taken only once the
      search has failed or finished. */
  function FindReaction(state: TaskState, rows: seq<SearchRow>): (r: Reaction<seq<SearchRow>>)
    ensures r.Ignore? <==> state != Failed && state != Done
    ensures state == Failed ==> r == Deliver(Args(false, [], SearchFailed), true)
    ensures state == Done ==> (r.Deliver? && r.unbind && r.args.success && r.args.error == "" &&
                               forall x :: x in r.args.result <==> x in rows && x.hasInfo)
  {
    WithInfoSelects(rows);
    match state
    case Failed => Deliver(Args(false, [], SearchFailed), true)
    case Done => Deliver(Args(true, WithInfo(rows), ""), true)
    case _ => Ignore
  }

  /** Empties both result caches and refills them with the rows that carry
      session information, in order. */
  method Refill(gi: GameInstance, rows: seq<SearchRow>)
    modifies gi`sessionResults, gi`cachedFindSessionResults
    ensures gi.sessionResults == WithInfo(rows) && gi.cachedFindSessionResults == WithInfo(rows)
  {
    gi.sessionResults, gi.cachedFindSessionResults := [], [];
    var i := 0;
    while i < |rows|
      invariant 0 <= i <= |rows|
      invariant gi.sessionResults == WithInfo(rows[..i]) && gi.cachedFindSessionResults == gi.sessionResults
    {
      WithInfoAppend(rows[..i], rows[i]);
      assert rows[..i + 1] == rows[..i] + [rows[i]];
      if rows[i].hasInfo {
        gi.sessionResults := gi.sessionResults + [rows[i]];
        gi.cachedFindSessionResults := gi.cachedFindSessionResults + [rows[i]];
      }
      i := i + 1;
    }
    assert rows[..i] == rows;
  }

  /** The find handler: on a finished search with a live sink both result
      caches are emptied and refilled with the rows that carry session
      information, and that list is delivered. */
  method HandleFind(gi: GameInstance, call: Call<seq<SearchRow>>, state: TaskState, rows: seq<SearchRow>)
    requires call.Valid() && call.bound
    modifies gi`sessionResults, gi`cachedFindSessionResults, call, call.sink
    ensures call.Valid() && call.sinkAlive == old(call.sinkAlive)
    ensures call.steps == old(call.steps) + EventSteps(FindReaction(state, rows), call.sinkAlive)
    ensures call.bound == !(state in {Failed, Done} && call.sinkAlive)
    ensures state == Done && call.sinkAlive ==>
              gi.sessionResults == WithInfo(rows) && gi.cachedFindSessionResults == WithInfo(rows) &&
              call.sink.State() == ResultSinks.Step(old(call.sink.State()), Args(true, gi.cachedFindSessionResults, ""))
    ensures !(state == Done && call.sinkAlive) ==>
              gi.sessionResults == old(gi.sessionResults) && gi.cachedFindSessionResults == old(gi.cachedFindSessionResults)
  {
    if state == Done && call.sinkAlive {
      Refill(gi, rows);
    }
    call.Handle(FindReaction(state, rows));
  }

  // ---------------------------------------------------------------------
  // Join session

  /** EOnJoinSessionCompleteResult. */
  datatype JoinResult = Success | SessionIsFull | SessionDoesNotExist | CouldNotRetrieveAddress | AlreadyInSession | UnknownError

  /** The message a failed join delivers: the failure's own name. */
  function JoinErrorName(r: JoinResult): (s: string)
    ensures s == "" <==> r == Success
  {
    match r
    case SessionIsFull => "SessionIsFull"
    case SessionDoesNotExist => "SessionDoesNotExist"
    case CouldNotRetrieveAddress => "CouldNotRetrieveAddress"
    case AlreadyInSession => "AlreadyInSession"
    case UnknownError => "UnknownError"
    case Success => ""
  }

  /** Different failures give different messages. */
  lemma JoinErrorNameInjective(a: JoinResult, b: JoinResult)
    ensures JoinErrorName(a) == JoinErrorName(b) ==> a == b
  {
  }

  /** The search row handed to the backend's join: the requested row when a
      cached search result has the same session id (FString `==`, ignoring
      case), otherwise a default-constructed row (None). */
  method SelectSession(cached: seq<SearchRow>, wanted: SearchRow) returns (selected: Option<SearchRow>)
    ensures selected.Some? <==> exists i :: 0 <= i < |cached| && SameName(cached[i].sessionId, wanted.sessionId)
    ensures selected.Some? ==> selected.value == wanted
  {
    for i := 0 to |cached|
      invariant forall j :: 0 <= j < i ==> !SameName(cached[j].sessionId, wanted.sessionId)
    {
      if SameName(cached[i].sessionId, wanted.sessionId) {
        return Some(wanted);
      }
    }
    return None;
  }

  const JoinStartFailed: string := "JoinSession call failed to start."

  function JoinLaunch(env: Env): (l: Launch<()>)
    requires CanCall(env, Reported)
    ensures l.Refuse? <==> SessionGuard(env).Some?
    ensures l.Refuse? ==> l.args == Args(false, (), SessionGuard(env).value)
    ensures l.Bind? ==> l.onStartFailure == Some(StartFailure(Args(true, (), JoinStartFailed), DeliverThenClear))
  {
    GuardedLaunch(SessionGuard(env), (), Some(StartFailure(Args(true, (), JoinStartFailed), DeliverThenClear)))
  }

  /** A join completion: the session it is about and its result. */
  datatype JoinCompletion = JoinCompletion(sessionName: string, result: JoinResult)

  /** The join handler: a matching event is delivered and unbinds, with
      success exactly for `Success` and the failure's name otherwise. */
  function JoinReaction(sessionName: string, ev: JoinCompletion): (r: Reaction<()>)
    ensures r.Ignore? <==> !SameName(ev.sessionName, sessionName)
    ensures r.Deliver? ==> r.unbind && (r.args.success <==> ev.result == Success)
    ensures r.Deliver? ==> r.args.error == JoinErrorName(ev.result)
  {
    if !SameName(ev.sessionName, sessionName) then Ignore
    else Deliver(Args(ev.result == Success, (), JoinErrorName(ev.result)), true)
  }

  // ---------------------------------------------------------------------
  // Join session with party

  /** The launch of a join with party: the session guard, then a search
      result without session information is refused. */
  function JoinWithPartyLaunch(env: Env, wanted: SearchRow): (l: Launch<()>)
    requires CanCall(env, Reported)
    ensures SessionGuard(env).Some? ==> l == Refuse(Args(false, (), SessionGuard(env).value))
    ensures SessionGuard(env).None? && !wanted.hasInfo ==> l == Refuse(Args(false, (), NoSuchSearchResult))
    ensures l.Bind? <==> SessionGuard(env).None? && wanted.hasInfo
    ensures l.Bind? ==> l.onStartFailure == Some(StartFailure(Args(true, (), JoinStartFailed), DeliverThenClear))
  {
    var refusal := if SessionGuard(env).Some? then SessionGuard(env)
                   else if !wanted.hasInfo then Some(NoSuchSearchResult) else None;
    GuardedLaunch(refusal, (), Some(StartFailure(Args(true, (), JoinStartFailed), DeliverThenClear)))
  }

  /** The join-with-party handler. A failed join is delivered as for a plain
      join; after a successful join a missing subsystem or party interface is
      delivered without unbinding; otherwise success is delivered and the
      handler unbinds. */
  function JoinWithPartyReaction(sessionName: string, ev: JoinCompletion, env: Env): (r: Reaction<()>)
    ensures ev.result != Success ==> r == JoinReaction(sessionName, ev)
    ensures r.Ignore? <==> !SameName(ev.sessionName, sessionName)
    ensures r.Deliver? && ev.result == Success && env.None? ==> r == Deliver(Args(false, (), NotAvailable), false)
    ensures r.Deliver? && ev.result == Success && env.Some? && Parties !in env.value.caps ==>
              r == Deliver(Args(false, (), PartiesUnsupported), false)
    ensures r.Deliver? && ev.result == Success && env.Some? && Parties in env.value.caps ==>
              r == Deliver(Args(true, (), ""), true)
  {
    if !SameName(ev.sessionName, sessionName) || ev.result != Success then JoinReaction(sessionName, ev)
    else if env.None? then Deliver(Args(false, (), NotAvailable), false)
    else if Parties !in env.value.caps then Deliver(Args(false, (), PartiesUnsupported), false)
    else Deliver(Args(true, (), ""), true)
  }

  /** The first of the joined parties that the user leads. */
  function FirstLed(joined: seq<string>, leads: set<string>): (p: Option<string>)
    ensures p.None? <==> forall i :: 0 <= i < |joined| ==> joined[i] !in leads
    ensures p.Some? ==> (exists i :: 0 <= i < |joined| && joined[i] == p.value && p.value in leads &&
                           forall j :: 0 <= j < i ==> joined[j] !in leads)
  {
    if joined == [] then None
    else if joined[0] in leads then Some(joined[0])
    else
      var rest := FirstLed(joined[1..], leads);
      assert forall i :: 1 <= i < |joined| ==> joined[i] == joined[1..][i - 1];
      if rest.Some? then
        var k :| 0 <= k < |joined[1..]| && joined[1..][k] == rest.value && rest.value in leads &&
                 forall j :: 0 <= j < k ==> joined[1..][j] !in leads;
        assert joined[k + 1] == rest.value && forall j :: 0 <= j < k + 1 ==> joined[j] !in leads;
        rest
      else rest
  }

  /** The selection loop over the joined parties, stopping at the first one
      the user leads. */
  method SelectLedParty(joined: seq<string>, leads: set<string>) returns (p: Option<string>)
    ensures p == FirstLed(joined, leads)
  {
    p := None;
    var i := 0;
    while i < |joined|
      invariant 0 <= i <= |joined|
      invariant FirstLed(joined, leads) == FirstLed(joined[i..], leads)
    {
      assert joined[i..][1..] == joined[i + 1..];
      if joined[i] in leads {
        p := Some(joined[i]);
        return;
      }
      i := i + 1;
    }
  }

  /** A party-data update: the party whose data is rewritten and the value
      written under JoinSessionIdFromParty. */
  datatype PartyAdvert = PartyAdvert(party: string, joinSessionId: string)

  /** The join-with-party handler on one event. `namedSession` is the id of
      the named session the backend holds after the join, `joined` the user's
      joined parties in order and `leads` those the user leads. When success
      is delivered and the user leads a party, the session id is cached and
      advertised in that party's data. */
  method HandleJoinWithParty(gi: GameInstance, call: Call<()>, sessionName: string, ev: JoinCompletion,
                             env: Env, namedSession: Option<string>, joined: seq<string>, leads: set<string>)
    returns (advert: Option<PartyAdvert>)
    requires call.Valid() && call.bound
    modifies gi`cachedLastPartySessionId, call, call.sink
    ensures call.Valid() && call.sinkAlive == old(call.sinkAlive)
    ensures call.steps == old(call.steps) + EventSteps(JoinWithPartyReaction(sessionName, ev, env), call.sinkAlive)
    ensures var r := JoinWithPartyReaction(sessionName, ev, env);
            call.bound == !(r.Deliver? && call.sinkAlive && r.unbind)
    ensures var r := JoinWithPartyReaction(sessionName, ev, env);
            r.Deliver? && call.sinkAlive ==> call.sink.State() == ResultSinks.Step(old(call.sink.State()), r.args)
    ensures var joinedOk := JoinWithPartyReaction(sessionName, ev, env) == Deliver(Args(true, (), ""), true) && call.sinkAlive;
            var sessionId := if namedSession.Some? then namedSession.value else "";
            if joinedOk && FirstLed(joined, leads).Some? then
              advert == Some(PartyAdvert(FirstLed(joined, leads).value, sessionId)) &&
              gi.cachedLastPartySessionId == sessionId
            else
              advert.None? && gi.cachedLastPartySessionId == old(gi.cachedLastPartySessionId)
  {
    advert := None;
    var r := JoinWithPartyReaction(sessionName, ev, env);
    if r == Deliver(Args(true, (), ""), true) && call.sinkAlive {
      var sessionId := if namedSession.Some? then namedSession.value else "";
      var party := SelectLedParty(joined, leads);
      if party.Some? {
        gi.cachedLastPartySessionId := sessionId;
        advert := Some(PartyAdvert(party.value, sessionId));
      }
    }
    call.Handle(r);
  }

  // ---------------------------------------------------------------------
  // Getters and the invite UI

  /** A session the backend holds under a name. The backend finds a named
      session by FName, which ignores case, so the model keys the named
      sessions by the case-folded name. */
  datatype NamedSession = NamedSession(id: string, registered: seq<string>)

  /** Whether the session getters can look at the named sessions. */
  predicate SessionsReadable(env: Env)
  {
    env.Some? && env.value.signedIn.Some? && Sessions in env.value.caps
  }

  /** The id of the named session, or "" when anything is missing. */
  function GetSessionId(env: Env, named: map<string, NamedSession>, sessionName: string): (id: string)
    requires CanCall(env, Reported)
    ensures SessionsReadable(env) && Folded(sessionName) in named ==> id == named[Folded(sessionName)].id
    ensures !(SessionsReadable(env) && Folded(sessionName) in named) ==> id == ""
  {
    var key := Folded(sessionName);
    if SessionsReadable(env) && key in named then named[key].id else ""
  }

  /** Names that differ only in case find the same named session. */
  lemma NamedLookupIgnoresCase(env: Env, named: map<string, NamedSession>, a: string, b: string)
    requires CanCall(env, Reported) && SameName(a, b)
    ensures GetSessionId(env, named, a) == GetSessionId(env, named, b)
  {
    SameNameIsFoldedEquality(a, b);
  }

  /** The players registered in the named session, in order, or none when
      anything is missing. */
  method GetRegisteredPlayerIds(env: Env, named: map<string, NamedSession>, sessionName: string)
    returns (ids: seq<string>)
    requires CanCall(env, Reported)
    ensures SessionsReadable(env) && Folded(sessionName) in named ==> ids == named[Folded(sessionName)].registered
    ensures !(SessionsReadable(env) && Folded(sessionName) in named) ==> ids == []
  {
    ids := [];
    var key := Folded(sessionName);
    if !(SessionsReadable(env) && key in named) {
      return;
    }
    var players := named[key].registered;
    for i := 0 to |players|
      invariant ids == players[..i]
    {
      ids := ids + [players[i]];
    }
  }

  /** The request to show the invite UI: the local user and session name, or
      nothing when the subsystem or its external UI is missing. */
  function InviteUIRequest(env: Env, localUserNum: int, sessionName: string): (req: Option<(int, string)>)
    ensures req.Some? <==> env.Some? && ExternalUI in env.value.caps
    ensures req.Some? ==> req.value == (localUserNum, sessionName)
  {
    if env.Some? && ExternalUI in env.value.caps then Some((localUserNum, sessionName)) else None
  }
}
