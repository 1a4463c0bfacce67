/*
 * What the feature operations see of the online subsystem, and the state the
 * game-instance subsystem keeps between calls.
 *
 * Every Execute* operation resolves the online subsystem for its world
 * (absent: "not available"), asserts that the identity interface exists,
 * checks that the local user is signed in (some operations report a missing
 * sign-in, others assert it), and then checks, in order, for the interfaces
 * it needs; the first one missing is reported with a fixed message.
 * Assertions (checkf) are preconditions here.
 */
module Online {
  import opened Wrappers

  /** The online-subsystem interfaces a feature can need. */
  datatype Capability =
    | Identity | Sessions | Friends | Parties | Users | UserCloud | TitleFile
    | Leaderboards | Store | Purchase | Entitlements | Achievements | Stats
    | Presence | Avatars | ExternalUI

  /** The online subsystem of the current world, as far as the guards and the
      identity getters look at it. */
  datatype Subsystem = Subsystem(
    caps: set<Capability>,                      // interfaces the subsystem provides
    signedIn: Option<string>,                   // the local user's id, when valid
    nickname: string,                           // the local user's nickname
    accounts: map<string, map<string, string>>) // user id -> attributes of that user's account

  /** None: no online subsystem for the world. */
  type Env = Option<Subsystem>

  const NotAvailable: string := "Online subsystem is not available."
  const NotSignedIn: string := "The local user is not signed in."

  /** How an operation treats a signed-out local user. */
  datatype SignInRule =
    | Reported   // delivers NotSignedIn
    | Asserted   // checkf: the caller must not call it signed out

  /** An interface an operation needs, with what it reports when it is missing. */
  datatype Need = Need(cap: Capability, unsupported: string)

  /** What the assertions of an operation's guard demand of its caller. */
  predicate CanCall(env: Env, rule: SignInRule)
  {
    env.Some? ==> Identity in env.value.caps && (rule == Asserted ==> env.value.signedIn.Some?)
  }

  /** The message of the first need the capabilities do not cover. */
  function FirstMissing(caps: set<Capability>, needs: seq<Need>): (m: Option<string>)
    ensures m.None? <==> forall i :: 0 <= i < |needs| ==> needs[i].cap in caps
    ensures m.Some? ==> (exists i :: 0 <= i < |needs| && needs[i].cap !in caps &&
                           m.value == needs[i].unsupported &&
                           forall j :: 0 <= j < i ==> needs[j].cap in caps)
  {
    if needs == [] then None
    else if needs[0].cap !in caps then Some(needs[0].unsupported)
    else
      var rest := FirstMissing(caps, needs[1..]);
      assert forall i :: 1 <= i < |needs| ==> needs[i] == needs[1..][i - 1];
      if rest.Some? then
        var k :| 0 <= k < |needs[1..]| && needs[1..][k].cap !in caps &&
                 rest.value == needs[1..][k].unsupported &&
                 forall j :: 0 <= j < k ==> needs[1..][j].cap in caps;
        assert needs[k + 1].cap !in caps && forall j :: 0 <= j < k + 1 ==> needs[j].cap in caps;
        rest
      else rest
  }

  /** The guard chain of an operation: Some(message) when it refuses. */
  function Guard(env: Env, rule: SignInRule, needs: seq<Need>): (m: Option<string>)
    requires CanCall(env, rule)
    ensures m.None? <==> (env.Some? && env.value.signedIn.Some? &&
                          forall i :: 0 <= i < |needs| ==> needs[i].cap in env.value.caps)
    ensures env.None? ==> m == Some(NotAvailable)
    ensures env.Some? && env.value.signedIn.None? ==> m == Some(NotSignedIn)
    ensures env.Some? && env.value.signedIn.Some? ==> m == FirstMissing(env.value.caps, needs)
  {
    if env.None? then Some(NotAvailable)
    else if env.value.signedIn.None? then Some(NotSignedIn)
    else FirstMissing(env.value.caps, needs)
  }

  /** The signed-in user's id when the subsystem and its identity interface
      exist, without asserting anything. */
  function SignedInUser(env: Env): (u: Option<string>)
    ensures u.Some? <==> env.Some? && Identity in env.value.caps && env.value.signedIn.Some?
    ensures u.Some? ==> u == env.value.signedIn
  {
    if env.Some? && Identity in env.value.caps then env.value.signedIn else None
  }

  /** The state of a search or read object the backend fills in
      (EOnlineAsyncTaskState). */
  datatype TaskState = NotStarted | InProgress | Done | Failed

  /** One row of a session search: its session id, whether its session
      information is valid, and its ping. */
  datatype SearchRow = SearchRow(sessionId: string, hasInfo: bool, ping: int)

  /** The fields of the game-instance subsystem that the operations update. */
  class GameInstance {
    const localUserNum: int
    var sessionResults: seq<SearchRow>
    var cachedFindSessionResults: seq<SearchRow>
    var cachedLastPartySessionId: string
    var isAttemptingLogin: bool

    constructor (localUserNum: int)
      ensures this.localUserNum == localUserNum
      ensures sessionResults == [] && cachedFindSessionResults == []
      ensures cachedLastPartySessionId == "" && !isAttemptingLogin
    {
      this.localUserNum := localUserNum;
      sessionResults, cachedFindSessionResults := [], [];
      cachedLastPartySessionId, isAttemptingLogin := "", false;
    }
  }
}
