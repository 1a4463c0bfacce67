/*
 * User lookups: a user's info by id, a user id by display name, and the
 * ids that external platform accounts map to.
 */
module Users {
  import opened Wrappers
  import opened ResultSinks
  import opened Calls
  import opened Online
  import opened Lists
  import Strings

  const Unsupported: string := "Online subsystem does not support user lookup."
  const TargetInvalid: string := "The target user ID is not valid."
  const QueryFailed: string := "User query failed."
  const NoUser: string := "GetUserInfo call did not return a user."
  const QueryStartFailed: string := "QueryUserInfo call failed to start."
  const MappingStartFailed: string := "QueryUserIdMapping call failed to start."
  const ExternalStartFailed: string := "QueryExternalIdMappings call failed to start."

  function UsersGuard(env: Env): (m: Option<string>)
    requires CanCall(env, Asserted)
    ensures m.None? <==> env.Some? && Users in env.value.caps
    ensures env.Some? && Users !in env.value.caps ==> m == Some(Unsupported)
  {
    Guard(env, Asserted, [Need(Users, Unsupported)])
  }

  // ---------------------------------------------------------------------
  // Query user info

  /** Querying a user by id: the guard, then the target id must parse
      (`target` is the parsed id, None when the string does not parse);
      a failed start delivers failure and clears the handler. */
  function QueryUserInfoLaunch(env: Env, target: Option<string>): (l: Launch<string>)
    requires CanCall(env, Asserted)
    ensures UsersGuard(env).Some? ==> l == Refuse(Args(false, "", UsersGuard(env).value))
    ensures UsersGuard(env).None? && target.None? ==> l == Refuse(Args(false, "", TargetInvalid))
    ensures l.Bind? <==> UsersGuard(env).None? && target.Some?
    ensures l.Bind? ==> l.onStartFailure == Some(StartFailure(Args(false, "", QueryStartFailed), DeliverThenClear))
  {
    var refusal := if UsersGuard(env).Some? then UsersGuard(env)
                   else if target.None? then Some(TargetInvalid) else None;
    GuardedLaunch(refusal, "", Some(StartFailure(Args(false, "", QueryStartFailed), DeliverThenClear)))
  }

  /** A shared reference to a parsed user id: the id and the identity of
      the object that holds it. Equality of `FUniqueNetIdRef`s compares the
      objects, not the ids they hold. */
  datatype UserIdRef = UserIdRef(instance: nat, id: string)

  /** Whether a list of references holds the very object `target` refers to. */
  predicate ListsObject(refs: seq<UserIdRef>, target: UserIdRef)
  {
    exists i :: 0 <= i < |refs| && refs[i].instance == target.instance
  }

  /** A query-complete event: references to the users it covers, and its
      outcome. */
  datatype QueryEvent = QueryEvent(userIds: seq<UserIdRef>, ok: bool)

  /** What the user interface knows of a user. */
  datatype UserInfo = UserInfo(id: string, displayName: string)

  /** The handler: an event is ours when its user list contains the
      reference the query was made with; `info` is what the info call then
      returns for the target. Every delivery unbinds. */
  function QueryUserInfoReaction(target: UserIdRef, ev: QueryEvent, info: Option<UserInfo>): (r: Reaction<string>)
    ensures r.Ignore? <==> forall i :: 0 <= i < |ev.userIds| ==> ev.userIds[i].instance != target.instance
    ensures r.Deliver? ==> r.unbind && (r.args.success <==> ev.ok && info.Some?)
    ensures r.Deliver? && !ev.ok ==> r.args == Args(false, "", QueryFailed)
    ensures r.Deliver? && ev.ok && info.None? ==> r.args == Args(false, "", NoUser)
    ensures r.Deliver? && r.args.success ==>
              r.args.error == "" && r.args.result == info.value.id + " = " + info.value.displayName
  {
    if !ListsObject(ev.userIds, target) then Ignore
    else if !ev.ok then Deliver(Args(false, "", QueryFailed), true)
    else if info.None? then Deliver(Args(false, "", NoUser), true)
    else Deliver(Args(true, info.value.id + " = " + info.value.displayName, ""), true)
  }

  /** The filter compares references: an event that hands back the
      reference the query was made with is taken, while one that lists the
      same id under another object is ignored, and the handler stays bound. */
  lemma {:induction false} ReactionMatchesReference(target: UserIdRef, other: UserIdRef, ok: bool, info: Option<UserInfo>)
    requires other.id == target.id && other.instance != target.instance
    ensures QueryUserInfoReaction(target, QueryEvent([target], ok), info).Deliver?
    ensures QueryUserInfoReaction(target, QueryEvent([other], ok), info).Ignore?
  {
    assert QueryEvent([target], ok).userIds[0] == target;
  }

  /** The success text puts the id before " = ", so the id can be read back
      whenever it does not itself contain " = ". */
  lemma InfoTextStartsWithId(u: UserInfo)
    ensures |u.id + " = " + u.displayName| >= |u.id| + 3
    ensures (u.id + " = " + u.displayName)[..|u.id|] == u.id
    ensures (u.id + " = " + u.displayName)[|u.id|..|u.id| + 3] == " = "
  {
  }

  // ---------------------------------------------------------------------
  // Query a user by display name

  /** A per-call delegate: a failed start delivers failure and nothing is
      left bound. */
  function QueryByDisplayNameLaunch(env: Env): (l: Launch<string>)
    requires CanCall(env, Asserted)
    ensures l.Refuse? <==> UsersGuard(env).Some?
    ensures l.Refuse? ==> l.args == Args(false, "", UsersGuard(env).value)
    ensures l.Bind? ==> l.onStartFailure == Some(StartFailure(Args(false, "", MappingStartFailed), DeliverOnly))
  {
    GuardedLaunch(UsersGuard(env), "", Some(StartFailure(Args(false, "", MappingStartFailed), DeliverOnly)))
  }

  /** The mapping result: the found id on success, the backend's error on
      failure, never both. */
  function DisplayNameReaction(ok: bool, foundUserId: string, error: string): (r: Reaction<string>)
    ensures r.Deliver? && !r.unbind && (r.args.success <==> ok)
    ensures ok ==> r.args.result == foundUserId && r.args.error == ""
    ensures !ok ==> r.args.result == "" && r.args.error == error
  {
    Deliver(Args(ok, if ok then foundUserId else "", if ok then "" else error), false)
  }

  // ---------------------------------------------------------------------
  // Query external ids

  /** A per-call delegate, as for the display-name lookup. */
  function QueryExternalIdsLaunch(env: Env): (l: Launch<string>)
    requires CanCall(env, Asserted)
    ensures l.Refuse? <==> UsersGuard(env).Some?
    ensures l.Refuse? ==> l.args == Args(false, "", UsersGuard(env).value)
    ensures l.Bind? ==> l.onStartFailure == Some(StartFailure(Args(false, "", ExternalStartFailed), DeliverOnly))
  {
    GuardedLaunch(UsersGuard(env), "", Some(StartFailure(Args(false, "", ExternalStartFailed), DeliverOnly)))
  }

  /** The ids the external ids mapped to, skipping those that did not map. */
  function ValidIds(found: seq<Option<string>>): seq<string>
  {
    Collect(found, (o: Option<string>) => o)
  }

  /** The mapping result: on success the valid found ids, one per line in
      order; on failure the empty text and the backend's error. */
  method ExternalIdsReaction(ok: bool, found: seq<Option<string>>, error: string) returns (r: Reaction<string>)
    ensures r.Deliver? && !r.unbind && (r.args.success <==> ok)
    ensures ok ==> r.args.result == Strings.Join(ValidIds(found), "\n") && r.args.error == ""
    ensures !ok ==> r.args.result == "" && r.args.error == error
  {
    var lines := CollectEach(found, (o: Option<string>) => o);
    r := Deliver(Args(ok, if ok then Strings.Join(lines, "\n") else "", if ok then "" else error), false);
  }

  /** Splitting the success text on line breaks gives back exactly the
      valid found ids, in order, when none is empty or holds a line break. */
  lemma {:induction false} ExternalIdsRecoverable(found: seq<Option<string>>)
    requires forall i :: 0 <= i < |found| && found[i].Some? ==> found[i].value != [] && '\n' !in found[i].value
    ensures Strings.SplitCulled(Strings.Join(ValidIds(found), "\n"), '\n') == ValidIds(found)
    ensures |ValidIds(found)| <= |found|
  {
    var ids := ValidIds(found);
    CollectMembers(found, (o: Option<string>) => o);
    forall i | 0 <= i < |ids|
      ensures ids[i] != [] && '\n' !in ids[i]
    {
      assert ids[i] in ids;
      var k :| 0 <= k < |found| && found[k] == Some(ids[i]);
    }
    Strings.SplitJoinRoundTrip(ids, '\n');
  }
}
