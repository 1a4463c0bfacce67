/*
 * Stats: query two fixed stats of the local user, and ingest one value.
 * Both complete through per-call delegates whose start is not checked.
 */
module Stats {
  import opened Wrappers
  import opened ResultSinks
  import opened Calls
  import opened Online

  const Unsupported: string := "Online subsystem does not support stats."
  const QueryFailed: string := "QueryStats call failed."

  function StatsGuard(env: Env): (m: Option<string>)
    requires CanCall(env, Asserted)
    ensures m.None? <==> env.Some? && Stats in env.value.caps
    ensures env.Some? && Stats !in env.value.caps ==> m == Some(Unsupported)
  {
    Guard(env, Asserted, [Need(Stats, Unsupported)])
  }

  /** The stats the query asks for, in order. */
  const QueryNames: seq<string> := ["TestLatest", "TestScore"]

  /** The query asks for the local user's stats only. */
  datatype StatsQuery = StatsQuery(userIds: seq<string>, statNames: seq<string>)

  function QueryRequest(userId: string): (q: StatsQuery)
    ensures q.userIds == [userId] && q.statNames == QueryNames && |q.statNames| == 2
    ensures "TestLatest" in q.statNames && "TestScore" in q.statNames
  {
    StatsQuery([userId], QueryNames)
  }

  function QueryLaunch(env: Env): (l: Launch<seq<StatState>>)
    requires CanCall(env, Asserted)
    ensures l.Refuse? <==> StatsGuard(env).Some?
    ensures l.Refuse? ==> l.args == Args(false, [], StatsGuard(env).value)
    ensures l.Bind? ==> l.onStartFailure.None?
  {
    GuardedLaunch(StatsGuard(env), [], None)
  }

  /** One stat as the result sink receives it. */
  datatype StatState = StatState(name: string, currentValue: int)

  /** The query's completion: `usersStats` holds one stats map per user the
      backend answered for. A failure, or an answer for no user, delivers
      the fixed message; otherwise the first user's stats are listed, one
      entry per stat, in the map's iteration order, and later users are not
      looked at. */
  method QueryReaction(ok: bool, usersStats: seq<map<string, int>>) returns (r: Reaction<seq<StatState>>)
    ensures r.Deliver? && !r.unbind && (r.args.success <==> ok && |usersStats| > 0)
    ensures !r.args.success ==> r.args == Args(false, [], QueryFailed)
    ensures r.args.success ==> r.args.error == "" && |r.args.result| == |usersStats[0]|
    ensures r.args.success ==> forall i :: 0 <= i < |r.args.result| ==>
              r.args.result[i].name in usersStats[0] &&
              r.args.result[i].currentValue == usersStats[0][r.args.result[i].name]
    ensures r.args.success ==> forall name :: name in usersStats[0] ==>
              exists i :: 0 <= i < |r.args.result| && r.args.result[i].name == name
    ensures r.args.success ==> forall i, j :: 0 <= i < j < |r.args.result| ==>
              r.args.result[i].name != r.args.result[j].name
  {
    if !ok || |usersStats| == 0 {
      return Deliver(Args(false, [], QueryFailed), false);
    }
    var stats := usersStats[0];
    var entries: seq<StatState> := [];
    var left := stats.Keys;
    while left != {}
      invariant left <= stats.Keys
      invariant |entries| + |left| == |stats|
      invariant forall i :: 0 <= i < |entries| ==>
                  entries[i].name in stats && entries[i].name !in left && entries[i].currentValue == stats[entries[i].name]
      invariant forall name :: name in stats && name !in left ==> exists i :: 0 <= i < |entries| && entries[i].name == name
      invariant forall i, j :: 0 <= i < j < |entries| ==> entries[i].name != entries[j].name
      decreases |left|
    {
      var name :| name in left;
      ghost var before := entries;
      entries := entries + [StatState(name, stats[name])];
      assert entries[|before|].name == name;
      assert forall i :: 0 <= i < |before| ==> entries[i] == before[i];
      left := left - {name};
    }
    return Deliver(Args(true, entries, ""), false);
  }

  // ---------------------------------------------------------------------
  // Ingest

  /** EOnlineStatModificationType. */
  datatype Modification = Unknown | Sum | Set | Largest | Smallest

  /** One stat update: the new value and how it combines with the old one. */
  datatype StatUpdate = StatUpdate(value: int, modification: Modification)

  /** The updates for one user. */
  datatype UserUpdate = UserUpdate(userId: string, stats: map<string, StatUpdate>)

  function IngestLaunch(env: Env): (l: Launch<()>)
    requires CanCall(env, Asserted)
    ensures l.Refuse? <==> StatsGuard(env).Some?
    ensures l.Refuse? ==> l.args == Args(false, (), StatsGuard(env).value)
    ensures l.Bind? ==> l.onStartFailure.None?
  {
    GuardedLaunch(StatsGuard(env), (), None)
  }

  /** The `(int32)` conversion of the ingested double: truncation toward
      zero. */
  function TruncateTowardZero(x: real): (n: int)
    ensures 0.0 <= x ==> n as real <= x < n as real + 1.0
    ensures x < 0.0 ==> n as real - 1.0 < x <= n as real
  {
    if x >= 0.0 then x.Floor else -((-x).Floor)
  }

  /** A whole number is sent as it is; any other value loses its fraction. */
  lemma TruncationKeepsWholeNumbers(n: int, x: real)
    ensures TruncateTowardZero(n as real) == n
    ensures TruncateTowardZero(x) as real == x <==> x.Floor as real == x
  {
    assert (n as real).Floor == n;
    assert -(n as real) == (-n) as real;
    assert (-(n as real)).Floor == -n;
    if x < 0.0 {
      var k := (-x).Floor;
      if x.Floor as real == x {
        assert -x == (-x.Floor) as real;
        assert k == -x.Floor;
      }
      if TruncateTowardZero(x) as real == x {
        assert x == (-k) as real;
        assert x.Floor == -k;
      }
    }
  }

  /** What ingesting `value` for `name` sends: a single update, for the
      local user, that sets that one stat to the value truncated toward
      zero. */
  function IngestUpdates(userId: string, name: string, value: real): (u: seq<UserUpdate>)
    ensures |u| == 1 && u[0].userId == userId
    ensures u[0].stats.Keys == {name} && u[0].stats[name] == StatUpdate(TruncateTowardZero(value), Set)
  {
    [UserUpdate(userId, map[name := StatUpdate(TruncateTowardZero(value), Set)])]
  }

  /** A user's stats after the backend applied updates that all set their
      stat. */
  function Applied(stats: map<string, int>, updates: map<string, StatUpdate>): map<string, int>
    requires forall n :: n in updates ==> updates[n].modification == Set
  {
    map n | n in stats.Keys + updates.Keys :: if n in updates then updates[n].value else stats[n]
  }

  /** What the backend answers a query with: the requested stats the user has. */
  function Requested(stats: map<string, int>): map<string, int>
  {
    map n | n in stats && n in QueryNames :: stats[n]
  }

  /** Ingesting a value for one of the queried stats and then querying
      reports that value truncated toward zero; the other queried stat is unchanged. */
  lemma IngestThenQuery(userId: string, stats: map<string, int>, name: string, value: real)
    requires name in QueryNames
    ensures forall n :: n in IngestUpdates(userId, name, value)[0].stats ==>
              IngestUpdates(userId, name, value)[0].stats[n].modification == Set
    ensures name in Requested(Applied(stats, IngestUpdates(userId, name, value)[0].stats))
    ensures Requested(Applied(stats, IngestUpdates(userId, name, value)[0].stats))[name] == TruncateTowardZero(value)
    ensures forall n :: n in QueryNames && n != name ==>
              (n in Requested(Applied(stats, IngestUpdates(userId, name, value)[0].stats)) <==> n in stats) &&
              (n in stats ==> Requested(Applied(stats, IngestUpdates(userId, name, value)[0].stats))[n] == stats[n])
  {
  }
}
