/*
 * Leaderboard queries: the global leaderboard around the top rank and the
 * leaderboard of the user's friends. The handler cannot tell its own read
 * from another's except by the state of the read object it owns: it takes
 * an event once that object has finished, one way or the other.
 */
module Leaderboards {
  import opened Wrappers
  import opened ResultSinks
  import opened Calls
  import opened Online

  /** The interface-missing message of both queries (it names friends). */
  const Unsupported: string := "Online subsystem does not support friends."
  const ReadFailed: string := "Leaderboard read failed."

  function LeaderboardsGuard(env: Env): (m: Option<string>)
    requires CanCall(env, Asserted)
    ensures m.None? <==> env.Some? && Leaderboards in env.value.caps
    ensures env.Some? && Leaderboards !in env.value.caps ==> m == Some(Unsupported)
  {
    Guard(env, Asserted, [Need(Leaderboards, Unsupported)])
  }

  /** The two queries. */
  datatype Board = Global | FriendsOnly

  /** The column a row's score is read from: a ranked search puts it in
      "Score", a friends search in the column named after the stat. */
  function ScoreColumn(b: Board): (c: string)
    ensures c == (if b == Global then "Score" else "TestScore")
  {
    match b
    case Global => "Score"
    case FriendsOnly => "TestScore"
  }

  /** What a failed start delivers: failure for the global query, but
      success for the friends query. */
  function BoardStartFailure(b: Board): (f: StartFailure<seq<LeaderboardEntry>>)
    ensures f.order == DeliverThenClear && f.args.result == []
    ensures f.args.success <==> b == FriendsOnly
    ensures f.args.error == (if b == Global then "ReadLeaderboardsAroundRank call failed to start."
                             else "ReadLeaderboardsForFriends call failed to start.")
  {
    match b
    case Global => StartFailure(Args(false, [], "ReadLeaderboardsAroundRank call failed to start."), DeliverThenClear)
    case FriendsOnly => StartFailure(Args(true, [], "ReadLeaderboardsForFriends call failed to start."), DeliverThenClear)
  }

  function QueryLaunch(env: Env, b: Board): (l: Launch<seq<LeaderboardEntry>>)
    requires CanCall(env, Asserted)
    ensures l.Refuse? <==> LeaderboardsGuard(env).Some?
    ensures l.Refuse? ==> l.args == Args(false, [], LeaderboardsGuard(env).value)
    ensures l.Bind? ==> l.onStartFailure == Some(BoardStartFailure(b))
  {
    GuardedLaunch(LeaderboardsGuard(env), [], Some(BoardStartFailure(b)))
  }

  /** A row of the read object: player id, nickname, rank and the integer
      columns. */
  datatype LeaderboardRow = LeaderboardRow(playerId: string, nickName: string, rank: int, columns: map<string, int>)

  /** An entry as the result sink receives it. */
  datatype LeaderboardEntry = LeaderboardEntry(playerName: string, rank: int, currentValue: int)

  /** The name shown for a row: its player id, " - ", its nickname. */
  function PlayerName(row: LeaderboardRow): string
  {
    row.playerId + " - " + row.nickName
  }

  /** The rows of a finished read all carry the board's column; looking a
      missing column up asserts. */
  predicate HasScores(b: Board, rows: seq<LeaderboardRow>)
  {
    forall i :: 0 <= i < |rows| ==> ScoreColumn(b) in rows[i].columns
  }

  /** The handler on a read-complete event, given the state of the read
      object and its rows: an unfinished read is not ours; a failed one
      delivers the fixed message; a finished one lists one entry per row in
      order. Every delivery unbinds. */
  method QueryReaction(b: Board, state: TaskState, rows: seq<LeaderboardRow>) returns (r: Reaction<seq<LeaderboardEntry>>)
    requires state == Done ==> HasScores(b, rows)
    ensures r.Ignore? <==> state != Done && state != Failed
    ensures r.Deliver? ==> r.unbind && (r.args.success <==> state == Done)
    ensures state == Failed ==> r == Deliver(Args(false, [], ReadFailed), true)
    ensures state == Done ==> r.args.error == "" && |r.args.result| == |rows|
    ensures state == Done ==> forall i :: 0 <= i < |rows| ==>
              r.args.result[i] == LeaderboardEntry(PlayerName(rows[i]), rows[i].rank, rows[i].columns[ScoreColumn(b)])
  {
    if state != Done && state != Failed {
      return Ignore;
    }
    if state == Failed {
      return Deliver(Args(false, [], ReadFailed), true);
    }
    var results: seq<LeaderboardEntry> := [];
    for i := 0 to |rows|
      invariant |results| == i
      invariant forall j :: 0 <= j < i ==>
                  results[j] == LeaderboardEntry(PlayerName(rows[j]), rows[j].rank, rows[j].columns[ScoreColumn(b)])
    {
      var score := rows[i].columns[ScoreColumn(b)];
      results := results + [LeaderboardEntry(PlayerName(rows[i]), rows[i].rank, score)];
    }
    return Deliver(Args(true, results, ""), true);
  }

  /** The player id can be read back from an entry's name: it is the part
      before the first " - " whenever the id holds no '-'. */
  lemma {:induction false} PlayerNameKeepsId(row: LeaderboardRow, k: nat)
    requires '-' !in row.playerId
    requires k + 3 <= |PlayerName(row)| && PlayerName(row)[k..k + 3] == " - "
    ensures k >= |row.playerId|
    ensures PlayerName(row)[..|row.playerId|] == row.playerId
  {
    var n := PlayerName(row);
    var id := row.playerId;
    assert n[k + 1] == '-' by { assert n[k..k + 3][1] == n[k + 1]; }
    assert forall j :: 0 <= j < |id| ==> n[j] == id[j];
    assert n[|id|] == ' ';
    assert forall j :: 0 <= j < |id| ==> id[j] != '-';
    if k < |id| {
      assert false;
    }
    assert n[..|row.playerId|] == row.playerId;
  }
}
