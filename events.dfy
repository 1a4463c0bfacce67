/*
 * The backend events the game instance listens to: friends-list and party
 * changes, which are passed on to the UI, and party data carrying the id
 * of a session the party leader joined, which the member follows.
 */
module Events {
  import opened Wrappers
  import opened Online
  import Sessions
  import Strings

  /** The handlers that can be registered. */
  datatype Handler =
    | FriendsChange
    | PartyJoined | PartyExited | PartyMemberJoined | PartyMemberExited | PartyInvitesChanged
    | PartyData

  /** The handlers registered at start-up: none without a subsystem; the
      friends handler when there is a friends interface; the party handlers
      when there is a party interface. */
  function RegisteredHandlers(env: Env): (hs: set<Handler>)
    ensures env.None? ==> hs == {}
    ensures FriendsChange in hs <==> env.Some? && Friends in env.value.caps
    ensures forall h :: h in hs && h != FriendsChange ==> env.Some? && Parties in env.value.caps
    ensures env.Some? && Parties in env.value.caps ==>
              {PartyJoined, PartyExited, PartyMemberJoined, PartyMemberExited, PartyInvitesChanged, PartyData} <= hs
  {
    if env.None? then {}
    else
      (if Friends in env.value.caps then {FriendsChange} else {}) +
      (if Parties in env.value.caps
       then {PartyJoined, PartyExited, PartyMemberJoined, PartyMemberExited, PartyInvitesChanged, PartyData}
       else {})
  }

  /** Whether a party event's user is this game instance's signed-in user;
      anything missing means no. */
  function IsForLocalUser(env: Env, userId: string): (b: bool)
    ensures b <==> SignedInUser(env) == Some(userId)
  {
    env.Some? && Identity in env.value.caps && env.value.signedIn == Some(userId)
  }

  /** A party-state event raises the UI notification only for the local user. */
  function RaisesPartiesStateChanged(env: Env, userId: string): (b: bool)
    ensures b <==> env.Some? && Identity in env.value.caps && env.value.signedIn == Some(userId)
  {
    IsForLocalUser(env, userId)
  }

  // ---------------------------------------------------------------------
  // Following the party into a session

  /** Whether party data with session id `sessionId` is new to the member:
      non-empty and different from the last one followed, under FString
      `!=`, which ignores case. */
  function IsNewSessionId(cached: string, sessionId: string): (b: bool)
    ensures b <==> sessionId != "" && !Strings.SameName(sessionId, cached)
  {
    sessionId != "" && !Strings.SameName(sessionId, cached)
  }

  /** Party data for the local user: a new session id is cached first, and
      then looked up, when the session interface exists and the id parses
      (`parses`). Returns whether the lookup was started. */
  method OnPartyData(gi: GameInstance, env: Env, userId: string, sessionId: string, parses: bool) returns (lookup: bool)
    modifies gi`cachedLastPartySessionId
    ensures (IsForLocalUser(env, userId) && IsNewSessionId(old(gi.cachedLastPartySessionId), sessionId)) ==>
              gi.cachedLastPartySessionId == sessionId
    ensures !(IsForLocalUser(env, userId) && IsNewSessionId(old(gi.cachedLastPartySessionId), sessionId)) ==>
              gi.cachedLastPartySessionId == old(gi.cachedLastPartySessionId)
    ensures lookup <==> (IsForLocalUser(env, userId) && IsNewSessionId(old(gi.cachedLastPartySessionId), sessionId) &&
                         Sessions in env.value.caps && parses)
  {
    lookup := false;
    if !IsForLocalUser(env, userId) {
      return;
    }
    if !IsNewSessionId(gi.cachedLastPartySessionId, sessionId) {
      return;
    }
    gi.cachedLastPartySessionId := sessionId;
    if env.None? || Sessions !in env.value.caps || !parses {
      return;
    }
    lookup := true;
  }

  /** The same party data twice in a row, the second time with the session
      id spelt in any case, starts at most one lookup: the second call always
      finds the id already cached or rejects it for the same reason as the
      first. */
  method SameDataTwice(gi: GameInstance, env: Env, userId: string, sessionId: string, again: string, parses: bool)
    returns (first: bool, second: bool)
    requires Strings.SameName(again, sessionId)
    modifies gi`cachedLastPartySessionId
    ensures !second
    ensures first ==> gi.cachedLastPartySessionId == sessionId
  {
    ghost var cached := gi.cachedLastPartySessionId;
    first := OnPartyData(gi, env, userId, sessionId, parses);
    Strings.SameNameIsFoldedEquality(again, sessionId);
    Strings.SameNameIsFoldedEquality(sessionId, cached);
    Strings.SameNameIsFoldedEquality(again, cached);
    Strings.SameNameIsFoldedEquality(again, gi.cachedLastPartySessionId);
    second := OnPartyData(gi, env, userId, again, parses);
  }

  /** The session name the follow-join uses. */
  const GameSession: string := "GameSession"

  /** The follow-join, once the session lookup succeeded: a handler bound on
      the join-complete event and the connect strings travelled to. */
  class FollowJoin {
    var bound: bool
    var travelledTo: seq<string>

    constructor ()
      ensures !bound && travelledTo == []
    {
      bound, travelledTo := false, [];
    }

    /** The lookup completed: nothing happens unless it found the session;
        then the handler is bound and the join started, and a failed start
        clears the handler again. */
    method Begin(found: bool, started: bool)
      requires !bound
      modifies this`bound
      ensures bound <==> found && started
    {
      if !found {
        return;
      }
      bound := true;
      if !started {
        bound := false;
      }
    }

    /** A join-complete event: only a successful join of the game session
        travels to its connect string and unbinds; anything else leaves the
        handler bound. */
    method Handle(sessionName: string, result: Sessions.JoinResult, connect: string)
      requires bound
      modifies this
      ensures bound <==> !FollowsJoin(sessionName, result)
      ensures travelledTo == old(travelledTo) + (if FollowsJoin(sessionName, result) then [connect] else [])
    {
      if !Strings.SameName(sessionName, GameSession) || result != Sessions.Success {
        return;
      }
      travelledTo := travelledTo + [connect];
      bound := false;
    }
  }

  /** Whether a join-complete event is the one the follow-join waits for. */
  function FollowsJoin(sessionName: string, result: Sessions.JoinResult): (b: bool)
    ensures b <==> Strings.SameName(sessionName, GameSession) && result == Sessions.Success
    ensures b ==> Sessions.JoinErrorName(result) == ""
  {
    Strings.SameName(sessionName, GameSession) && result == Sessions.Success
  }
}
