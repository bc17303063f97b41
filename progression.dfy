/** XP, level and coin accounting for completing and reverting a quest
    (App.tsx:156-193). The two functions here are the reference the session's
    toggle handler is proved against. */
module Progression {
  import opened Types

  /** XP needed to leave level 1 (App.tsx:21). */
  const FirstThreshold: nat := 100

  /** `Math.floor(n * 1.5)` on a non-negative integer, without reals. */
  function NextThreshold(n: nat): (r: nat)
    ensures 2 * r <= 3 * n < 2 * r + 2
  {
    n + n / 2
  }

  /** The threshold a session shows at `level`, starting from FirstThreshold
      at level 1 and growing by half at every level-up. */
  function ThresholdAt(level: nat): (r: nat)
    ensures r >= FirstThreshold
  {
    if level <= 1 then FirstThreshold else NextThreshold(ThresholdAt(level - 1))
  }

  /** Lifetime XP spent to climb from level 1 to `level`. */
  function XpToReach(level: nat): nat {
    if level <= 1 then 0 else XpToReach(level - 1) + ThresholdAt(level - 1)
  }

  /** Lifetime XP that stats represent: the climbed levels plus the XP held
      at the current one. */
  function XpEarned(s: UserStats): nat {
    XpToReach(s.level) + s.currentXp
  }

  /** The shape every state of a session keeps: level at least 1, the
      threshold that belongs to the level, XP below it, at most 7 moods. */
  predicate StatsConsistent(s: UserStats) {
    s.level >= 1 && s.nextLevelXp == ThresholdAt(s.level) && s.currentXp < s.nextLevelXp
    && |s.moodHistory| <= 7
  }

  predicate LevelsUp(s: UserStats, t: Task) {
    s.currentXp + t.xp >= s.nextLevelXp
  }

  /** Stats after completing quest `t`: the reward is added, and at most one
      level-up subtracts the threshold and grows it by half. */
  function Completed(s: UserStats, t: Task): (r: UserStats)
    ensures r.coins == s.coins + t.coins
    ensures r.totalTasksCompleted == s.totalTasksCompleted + 1
    ensures !LevelsUp(s, t) ==>
      r.level == s.level && r.nextLevelXp == s.nextLevelXp && r.currentXp == s.currentXp + t.xp
    ensures LevelsUp(s, t) ==>
      r.level == s.level + 1 && r.currentXp + s.nextLevelXp == s.currentXp + t.xp
      && 2 * r.nextLevelXp <= 3 * s.nextLevelXp < 2 * r.nextLevelXp + 2
    ensures r.streakDays == s.streakDays && r.moodHistory == s.moodHistory && r.inventory == s.inventory
  {
    if LevelsUp(s, t) then
      s.(currentXp := s.currentXp + t.xp - s.nextLevelXp, coins := s.coins + t.coins,
         level := s.level + 1, nextLevelXp := NextThreshold(s.nextLevelXp),
         totalTasksCompleted := s.totalTasksCompleted + 1)
    else
      s.(currentXp := s.currentXp + t.xp, coins := s.coins + t.coins,
         totalTasksCompleted := s.totalTasksCompleted + 1)
  }

  /** `Math.max(0, a - b)` on naturals. */
  function FlooredSub(a: nat, b: nat): (r: nat)
    ensures r + b >= a && (r == 0 || r + b == a)
  {
    if a >= b then a - b else 0
  }

  /** Stats after un-ticking quest `t`: coins and the completed count go down,
      floored at zero; XP and level stay where they are. */
  function Reverted(s: UserStats, t: Task): (r: UserStats)
    ensures r.coins == (if s.coins >= t.coins then s.coins - t.coins else 0)
    ensures r.totalTasksCompleted == (if s.totalTasksCompleted >= 1 then s.totalTasksCompleted - 1 else 0)
    ensures r.(coins := s.coins, totalTasksCompleted := s.totalTasksCompleted) == s
  {
    s.(coins := FlooredSub(s.coins, t.coins),
       totalTasksCompleted := FlooredSub(s.totalTasksCompleted, 1))
  }

  /** Completion keeps consistent stats consistent exactly when the single
      level-up step suffices: the XP held plus the reward stays below the
      current threshold plus the next one. */
  lemma CompletionKeepsStatsConsistent(s: UserStats, t: Task)
    requires StatsConsistent(s)
    ensures StatsConsistent(Completed(s, t)) <==>
      s.currentXp + t.xp < s.nextLevelXp + NextThreshold(s.nextLevelXp)
  {
    var r := Completed(s, t);
    if LevelsUp(s, t) {
      assert r.nextLevelXp == ThresholdAt(s.level + 1);
    }
  }

  /** In particular a reward no larger than the current threshold always
      keeps the stats consistent. */
  lemma SmallRewardKeepsStatsConsistent(s: UserStats, t: Task)
    requires StatsConsistent(s) && t.xp <= s.nextLevelXp
    ensures StatsConsistent(Completed(s, t))
  {
    CompletionKeepsStatsConsistent(s, t);
  }

  /** Reverting never disturbs the XP side of the stats. */
  lemma RevertKeepsStatsConsistent(s: UserStats, t: Task)
    requires StatsConsistent(s)
    ensures StatsConsistent(Reverted(s, t)) && XpEarned(Reverted(s, t)) == XpEarned(s)
  {
  }

  /** Completing a quest adds exactly its reward to lifetime XP, with or
      without a level-up. */
  lemma CompletionEarnsReward(s: UserStats, t: Task)
    requires s.level >= 1 && s.nextLevelXp == ThresholdAt(s.level)
    ensures XpEarned(Completed(s, t)) == XpEarned(s) + t.xp
  {
    if LevelsUp(s, t) {
      assert XpToReach(s.level + 1) == XpToReach(s.level) + s.nextLevelXp;
    }
  }

  /** Ticking and un-ticking the same quest restores coins and the completed
      count, but keeps the XP the tick earned. */
  lemma ToggleTwiceKeepsXp(s: UserStats, t: Task)
    requires StatsConsistent(s)
    ensures var r := Reverted(Completed(s, t), t);
      r.coins == s.coins && r.totalTasksCompleted == s.totalTasksCompleted
      && XpEarned(r) == XpEarned(s) + t.xp
  {
    CompletionEarnsReward(s, t);
  }

  lemma {:induction false} XpToReachMonotone(a: nat, b: nat)
    requires 1 <= a <= b
    ensures XpToReach(a) + (if a < b then ThresholdAt(a) else 0) <= XpToReach(b)
    decreases b
  {
    if a < b {
      assert XpToReach(b) == XpToReach(b - 1) + ThresholdAt(b - 1);
      if a < b - 1 {
        XpToReachMonotone(a, b - 1);
      }
    }
  }

  /** In consistent stats the level and the XP held at it are determined by
      lifetime XP: two consistent states with equal lifetime XP are equal on
      both. */
  lemma LevelDeterminedByXp(s1: UserStats, s2: UserStats)
    requires StatsConsistent(s1) && StatsConsistent(s2)
    requires XpEarned(s1) == XpEarned(s2)
    ensures s1.level == s2.level && s1.currentXp == s2.currentXp
  {
    if s1.level < s2.level {
      XpToReachMonotone(s1.level, s2.level);
    } else if s2.level < s1.level {
      XpToReachMonotone(s2.level, s1.level);
    }
  }
}
