/** Worked cases of the reward engine: a level-up with carry-over, a refused
    purchase, a revert floored at zero and eight moods in a row. */
module Scenarios {
  import opened Types
  import Progression
  import Mood
  import Store

  function Stats(level: nat, currentXp: nat, nextLevelXp: nat, coins: nat): UserStats {
    UserStats(level, currentXp, nextLevelXp, coins, 1, 0, [], [])
  }

  function Quest(xp: nat, coins: nat): Task {
    Task("q", "", "", xp, coins, Exercise, Easy, false)
  }

  /** 90 of 100 XP plus a 20 XP quest: level 2 with 10 XP carried over, a
      150 XP threshold, and the quest's 5 coins. */
  lemma LevelUpCarriesOver()
    ensures var r := Progression.Completed(Stats(1, 90, 100, 0), Quest(20, 5));
      r.level == 2 && r.currentXp == 10 && r.nextLevelXp == 150 && r.coins == 5
  {
  }

  /** A 20-coin item with 15 coins in hand is refused. */
  lemma PurchaseRefused()
    ensures Store.Purchase(Stats(1, 0, 100, 15), StoreItem("x", "", 20, 2000, "", "")) == None
  {
  }

  /** Un-ticking a 10-coin quest with 3 coins in hand leaves 0 coins. */
  lemma RevertFloorsCoins()
    ensures Progression.Reverted(Stats(1, 0, 100, 3), Quest(5, 10).(completed := true)).coins == 0
  {
  }

  /** Eight moods from an empty history leave the last seven, oldest gone. */
  lemma EightMoods(e: seq<MoodEntry>)
    requires |e| == 8
    ensures Mood.RecordAll([], e) == e[1..]
  {
    Mood.RecordAllKeepsNewest([], e);
    assert [] + e == e;
  }
}
