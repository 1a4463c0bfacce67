/*
 * Achievements: the query chains two backend calls (descriptions, then the
 * user's progress) and joins their caches; unlocking writes full progress
 * for one achievement. Both complete through per-call delegates, so no
 * handler is ever unbound. Progress is a real number here; an achievement
 * counts as unlocked from full progress, or within the engine's default
 * nearly-equal tolerance below it.
 */
module Achievements {
  import opened Wrappers
  import opened ResultSinks
  import opened Calls
  import opened Online
  import opened Lists

  const Unsupported: string := "Online subsystem does not support achievements."
  const DescriptionsFailed: string := "QueryAchievementDescriptions call failed."
  const StatesFailed: string := "QueryAchievements call failed."
  const CacheFailed: string := "GetCachedAchievements call failed."
  const WriteFailed: string := "WriteAchievements call failed."

  function AchievementsGuard(env: Env): (m: Option<string>)
    requires CanCall(env, Asserted)
    ensures m.None? <==> env.Some? && Achievements in env.value.caps
    ensures env.Some? && Achievements !in env.value.caps ==> m == Some(Unsupported)
  {
    Guard(env, Asserted, [Need(Achievements, Unsupported)])
  }

  /** The query starts with the descriptions call, whose start is not
      checked. */
  function QueryLaunch(env: Env): (l: Launch<seq<AchievementState>>)
    requires CanCall(env, Asserted)
    ensures l.Refuse? <==> AchievementsGuard(env).Some?
    ensures l.Refuse? ==> l.args == Args(false, [], AchievementsGuard(env).value)
    ensures l.Bind? ==> l.onStartFailure.None?
  {
    GuardedLaunch(AchievementsGuard(env), [], None)
  }

  /** The default tolerance of `FMath::IsNearlyEqual` on doubles. */
  const NearlyEqualTolerance: real := 1.0 / 100000000.0

  /** The unlock rule: progress above 100, or nearly equal to 100. */
  function Unlocked(progress: real): (b: bool)
    ensures b <==> progress >= 100.0 - NearlyEqualTolerance
  {
    progress > 100.0 || (-NearlyEqualTolerance <= progress - 100.0 <= NearlyEqualTolerance)
  }

  /** Full progress unlocks; a progress visibly short of it does not. */
  lemma UnlockedBoundary()
    ensures Unlocked(100.0) && Unlocked(100.0 - NearlyEqualTolerance)
    ensures !Unlocked(99.99)
  {
  }

  /** The user's cached progress on one achievement. */
  datatype CachedAchievement = CachedAchievement(id: string, progress: real)

  /** One achievement as the result sink receives it. */
  datatype AchievementState = AchievementState(id: string, displayName: string, progress: real, unlocked: bool)

  /** The state for a cached achievement, when its description (here: its
      title, from `titles`) is cached too. */
  function Describe(titles: map<string, string>): (f: CachedAchievement -> Option<AchievementState>)
    ensures forall a: CachedAchievement :: (f(a).Some? <==> a.id in titles)
    ensures forall a: CachedAchievement :: a.id in titles ==>
              f(a).value.id == a.id && f(a).value.displayName == titles[a.id] && f(a).value.progress == a.progress &&
              (f(a).value.unlocked <==> a.progress >= 100.0 - NearlyEqualTolerance)
  {
    (a: CachedAchievement) =>
      if a.id in titles then Some(AchievementState(a.id, titles[a.id], a.progress, Unlocked(a.progress))) else None
  }

  /** The outcome of the query chain: whether the second call was started,
      and what reached the sink. */
  datatype Chain = Chain(statesQueried: bool, delivered: Option<Args<seq<AchievementState>>>)

  /** The two completions of the query, in order. `firstAlive`/`secondAlive`
      are whether the sink still exists when each completes; `cached` is the
      user's cached progress (None: the cache lookup reports not found). */
  method QueryChain(firstAlive: bool, descriptionsOk: bool, secondAlive: bool, statesOk: bool,
                    cached: Option<seq<CachedAchievement>>, titles: map<string, string>)
    returns (c: Chain)
    ensures c.statesQueried <==> firstAlive && descriptionsOk
    ensures !firstAlive ==> c.delivered.None?
    ensures firstAlive && !descriptionsOk ==> c.delivered == Some(Args(false, [], DescriptionsFailed))
    ensures c.statesQueried && !secondAlive ==> c.delivered.None?
    ensures c.statesQueried && secondAlive && !statesOk ==> c.delivered == Some(Args(false, [], StatesFailed))
    ensures c.statesQueried && secondAlive && statesOk && cached.None? ==> c.delivered == Some(Args(false, [], CacheFailed))
    ensures c.statesQueried && secondAlive && statesOk && cached.Some? ==>
              c.delivered == Some(Args(true, Collect(cached.value, Describe(titles)), ""))
  {
    if !firstAlive {
      return Chain(false, None);
    }
    if !descriptionsOk {
      return Chain(false, Some(Args(false, [], DescriptionsFailed)));
    }
    if !secondAlive {
      return Chain(true, None);
    }
    if !statesOk {
      return Chain(true, Some(Args(false, [], StatesFailed)));
    }
    if cached.None? {
      return Chain(true, Some(Args(false, [], CacheFailed)));
    }
    var states := CollectEach(cached.value, Describe(titles));
    return Chain(true, Some(Args(true, states, "")));
  }

  /** The states delivered are exactly the cached achievements that have a
      description, with the description's title, no more of them than
      there are cached achievements. */
  lemma {:induction false} StatesJoinBothCaches(cached: seq<CachedAchievement>, titles: map<string, string>)
    ensures |Collect(cached, Describe(titles))| <= |cached|
    ensures forall s: AchievementState :: s in Collect(cached, Describe(titles)) <==>
              (s.id in titles && s.displayName == titles[s.id] && s.unlocked == Unlocked(s.progress) &&
               CachedAchievement(s.id, s.progress) in cached)
  {
    var f := Describe(titles);
    CollectMembers(cached, f);
    forall s: AchievementState
      ensures s in Collect(cached, f) <==>
                (s.id in titles && s.displayName == titles[s.id] && s.unlocked == Unlocked(s.progress) &&
                 CachedAchievement(s.id, s.progress) in cached)
    {
      if s.id in titles && s.displayName == titles[s.id] && s.unlocked == Unlocked(s.progress) &&
         CachedAchievement(s.id, s.progress) in cached {
        var i :| 0 <= i < |cached| && cached[i] == CachedAchievement(s.id, s.progress);
        assert f(cached[i]) == Some(s);
      }
    }
  }

  // ---------------------------------------------------------------------
  // Unlock

  function UnlockLaunch(env: Env): (l: Launch<()>)
    requires CanCall(env, Asserted)
    ensures l.Refuse? <==> AchievementsGuard(env).Some?
    ensures l.Refuse? ==> l.args == Args(false, (), AchievementsGuard(env).value)
    ensures l.Bind? ==> l.onStartFailure.None?
  {
    GuardedLaunch(AchievementsGuard(env), (), None)
  }

  /** The write object of an unlock: full progress on that achievement only. */
  function UnlockWrite(id: string): (w: map<string, real>)
    ensures w.Keys == {id} && w[id] == 100.0
  {
    map[id := 100.0]
  }

  function UnlockReaction(ok: bool): (r: Reaction<()>)
    ensures r.Deliver? && !r.unbind && (r.args.success <==> ok)
    ensures r.args.error == (if ok then "" else WriteFailed)
  {
    Deliver(Args(ok, (), if ok then "" else WriteFailed), false)
  }

  /** The cached progress after the backend applied a write object. */
  function Applied(cached: seq<CachedAchievement>, w: map<string, real>): (out: seq<CachedAchievement>)
    ensures |out| == |cached|
    ensures forall i :: 0 <= i < |cached| ==>
              out[i] == (if cached[i].id in w then CachedAchievement(cached[i].id, w[cached[i].id]) else cached[i])
  {
    if cached == [] then []
    else
      var a := cached[0];
      [if a.id in w then CachedAchievement(a.id, w[a.id]) else a] + Applied(cached[1..], w)
  }

  /** After an unlock has been applied, a later query reports that
      achievement unlocked (wherever it is listed); other achievements are
      reported as before. */
  lemma UnlockThenQuery(cached: seq<CachedAchievement>, titles: map<string, string>, id: string)
    ensures forall s: AchievementState :: s in Collect(Applied(cached, UnlockWrite(id)), Describe(titles)) && s.id == id ==>
              s.unlocked && s.progress == 100.0
    ensures forall s: AchievementState :: s.id != id ==>
              (s in Collect(Applied(cached, UnlockWrite(id)), Describe(titles)) <==>
               s in Collect(cached, Describe(titles)))
  {
    var after := Applied(cached, UnlockWrite(id));
    StatesJoinBothCaches(after, titles);
    StatesJoinBothCaches(cached, titles);
    forall s: AchievementState | s.id != id
      ensures CachedAchievement(s.id, s.progress) in after <==> CachedAchievement(s.id, s.progress) in cached
    {
      if CachedAchievement(s.id, s.progress) in after {
        var i :| 0 <= i < |after| && after[i] == CachedAchievement(s.id, s.progress);
        assert cached[i] == after[i];
      }
      if CachedAchievement(s.id, s.progress) in cached {
        var i :| 0 <= i < |cached| && cached[i] == CachedAchievement(s.id, s.progress);
        assert after[i] == cached[i];
      }
    }
    forall s: AchievementState | CachedAchievement(s.id, s.progress) in after && s.id == id
      ensures s.progress == 100.0
    {
      var i :| 0 <= i < |after| && after[i] == CachedAchievement(s.id, s.progress);
    }
  }
}
