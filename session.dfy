/** The session state of the app (App.tsx:17-36) and the handlers that change
    it: ticking a quest (App.tsx:144-197), recording a mood (App.tsx:199-212),
    buying from the store (App.tsx:214-223) and the badge re-evaluation
    effect (App.tsx:98-109). */
module Session {
  import opened Types
  import Decimal
  import Catalog
  import Progression
  import Mood
  import Store
  import BadgeEval

  /** The streak a session starts with and keeps: no handler changes it. */
  const InitialStreak: nat := 1

  /** The stats a fresh session starts with (App.tsx:18-27). They are
      consistent, unlock no badge, and every catalog reward is below the first
      threshold. */
  function InitialStats(): (s: UserStats)
    ensures Progression.StatsConsistent(s)
    ensures s.level == 1 && s.currentXp == 0 && s.coins == 0 && s.totalTasksCompleted == 0
    ensures s.moodHistory == [] && s.inventory == [] && s.streakDays == InitialStreak
    ensures forall i :: 0 <= i < |Catalog.InitialTasks()| ==> Catalog.InitialTasks()[i].xp < s.nextLevelXp
    ensures forall i :: 0 <= i < |Catalog.Badges()| ==> !Catalog.Holds(Catalog.Badges()[i].condition, s)
  {
    UserStats(1, 0, Progression.FirstThreshold, 0, InitialStreak, 0, [], [])
  }

  /** `tasks.findIndex(t => t.id === id)`: the first position holding `id`,
      or -1 when there is none. */
  function IndexOf(tasks: seq<Task>, id: string): (i: int)
    ensures -1 <= i < |tasks|
    ensures i == -1 <==> forall j :: 0 <= j < |tasks| ==> tasks[j].id != id
    ensures i >= 0 ==> tasks[i].id == id && forall j :: 0 <= j < i ==> tasks[j].id != id
  {
    if tasks == [] then -1
    else if tasks[0].id == id then 0
    else
      var k := IndexOf(tasks[1..], id);
      if k < 0 then -1 else k + 1
  }

  /** How many of `tasks` are ticked. */
  function CompletedCount(tasks: seq<Task>): nat {
    if tasks == [] then 0 else (if tasks[0].completed then 1 else 0) + CompletedCount(tasks[1..])
  }

  /** A list with no ticked task counts zero. */
  lemma {:induction false} CountNoneTicked(tasks: seq<Task>)
    requires forall i :: 0 <= i < |tasks| ==> !tasks[i].completed
    ensures CompletedCount(tasks) == 0
  {
    if tasks != [] {
      CountNoneTicked(tasks[1..]);
    }
  }

  /** Setting one task's flag moves the count by exactly that flag's change. */
  lemma {:induction false} CountAfterSet(tasks: seq<Task>, i: nat, v: bool)
    requires i < |tasks|
    ensures CompletedCount(tasks[i := tasks[i].(completed := v)]) + (if tasks[i].completed then 1 else 0)
         == CompletedCount(tasks) + (if v then 1 else 0)
  {
    var u := tasks[i := tasks[i].(completed := v)];
    if i == 0 {
      assert u[1..] == tasks[1..];
    } else {
      assert u[1..] == tasks[1..][i - 1 := tasks[i].(completed := v)];
      CountAfterSet(tasks[1..], i - 1, v);
    }
  }

  // The chat texts the handlers append, as the source writes them.

  const LevelUpPrefix: string := "축하합니다! 레벨 "
  const LevelUpSuffix: string := "로 성장하셨네요! 당신의 꾸준함이 빛을 발하고 있어요. 🌟"
  const MoodReplyPrefix: string := "오늘의 기분을 기록해주셔서 고마워요. 기분이 "
  const MoodReplyGood: string := "좋으시다니 다행이에요!"
  const MoodReplyLow: string := "조금 힘드신가요? 쉬어가도 괜찮아요."
  const WelcomeText: string := "안녕하세요! 당신의 성장을 돕는 도담입니다. 오늘 하루, 아주 작은 일부터 시작해볼까요?"

  function LevelUpText(level: nat): string {
    LevelUpPrefix + Decimal.DecimalString(level) + LevelUpSuffix
  }

  /** The congratulation a level-up appends; its id is the clock's reading
      in decimal, like `Date.now().toString()`. */
  function LevelUpMessage(level: nat, now: nat): (m: Message)
    ensures m.role == Model && m.timestamp == now && m.text == LevelUpText(level)
    ensures Decimal.Canonical(m.id) && Decimal.DecimalValue(m.id) == now
  {
    Decimal.DecimalRoundTrip(now);
    Message(Decimal.DecimalString(now), Model, LevelUpText(level), now)
  }

  /** The level-up text names the new level: the digits between its fixed
      prefix and suffix read back as that level, so two levels never share a
      text. */
  lemma LevelUpTextNamesLevel(level: nat)
    ensures var text := LevelUpText(level);
      |text| > |LevelUpPrefix| + |LevelUpSuffix|
      && text[..|LevelUpPrefix|] == LevelUpPrefix
      && Decimal.AllDigits(text[|LevelUpPrefix|..|text| - |LevelUpSuffix|])
      && Decimal.DecimalValue(text[|LevelUpPrefix|..|text| - |LevelUpSuffix|]) == level
  {
    var digits := Decimal.DecimalString(level);
    var text := LevelUpText(level);
    assert text[|LevelUpPrefix|..|text| - |LevelUpSuffix|] == digits;
    Decimal.DecimalRoundTrip(level);
  }

  function MoodReplyText(score: int): string {
    MoodReplyPrefix + (if score >= 3 then MoodReplyGood else MoodReplyLow)
  }

  /** The reply to a mood entry branches on `score >= 3` and on nothing
      else: two scores get the same reply exactly when they fall on the same
      side of 3. */
  lemma MoodReplyBranches(a: int, b: int)
    ensures MoodReplyText(a) == MoodReplyText(b) <==> (a >= 3 <==> b >= 3)
  {
    if (a >= 3) != (b >= 3) {
      assert MoodReplyText(a)[|MoodReplyPrefix|] != MoodReplyText(b)[|MoodReplyPrefix|];
    }
  }

  function MoodReplyMessage(score: int, now: nat): (m: Message)
    ensures m.role == Model && m.timestamp == now && m.text == MoodReplyText(score)
    ensures Decimal.Canonical(m.id) && Decimal.DecimalValue(m.id) == now
  {
    Decimal.DecimalRoundTrip(now);
    Message(Decimal.DecimalString(now), Model, MoodReplyText(score), now)
  }

  /** The greeting a session starts with. Its id is not a decimal string, so
      it never clashes with the id of a message stamped by the clock. */
  function WelcomeMessage(now: nat): (m: Message)
    ensures m.role == Model && m.timestamp == now && m.text == WelcomeText
    ensures forall n: nat :: m.id != Decimal.DecimalString(n)
  {
    var id := "welcome";
    assert !Decimal.IsDigit(id[0]);
    Message(id, Model, WelcomeText, now)
  }

  /** Every unlocked badge with a streak condition meets it under the current
      streak. Since no handler moves the streak, this keeps such badges locked
      for as long as the streak is too short. */
  predicate StreakBadgesJustified(s: UserStats, badges: seq<Badge>) {
    forall i :: 0 <= i < |badges| && badges[i].unlocked && badges[i].condition.StreakAtLeast? ==>
      Catalog.Holds(badges[i].condition, s)
  }

  /** What every state of a session satisfies: consistent stats, rewards
      that fit the first threshold, a completed count that matches the ticked
      quests, a streak that no handler ever moves off its initial value, and
      no streak badge unlocked without reason. */
  predicate Consistent(s: UserStats, tasks: seq<Task>, badges: seq<Badge>) {
    Progression.StatsConsistent(s)
    && (forall i :: 0 <= i < |tasks| ==> tasks[i].xp <= Progression.FirstThreshold)
    && CompletedCount(tasks) == s.totalTasksCompleted
    && s.streakDays == InitialStreak
    && StreakBadgesJustified(s, badges)
  }

  /** In a consistent session the catalog's three-day-streak badge is never
      unlocked: the streak stays at 1. */
  lemma StreakBadgeStaysLocked(s: UserStats, tasks: seq<Task>, badges: seq<Badge>, i: nat)
    requires Consistent(s, tasks, badges)
    requires i < |badges| && badges[i].condition == Catalog.Badges()[1].condition
    ensures !badges[i].unlocked
  {
    assert !Catalog.Holds(Catalog.Badges()[1].condition, s);
  }

  /** Stats after toggling quest `t`: un-ticking when it is ticked, ticking
      otherwise. */
  function Toggled(s: UserStats, t: Task): (r: UserStats)
    ensures t.completed ==> r.coins <= s.coins && r.totalTasksCompleted <= s.totalTasksCompleted
    ensures !t.completed ==> r.coins == s.coins + t.coins && r.totalTasksCompleted == s.totalTasksCompleted + 1
  {
    if t.completed then Progression.Reverted(s, t) else Progression.Completed(s, t)
  }

  /** A toggle that ticks adds exactly the quest's XP to lifetime XP; one that
      un-ticks leaves lifetime XP as it was. */
  lemma ToggledXp(s: UserStats, t: Task)
    requires s.level >= 1 && s.nextLevelXp == Progression.ThresholdAt(s.level)
    ensures Progression.XpEarned(Toggled(s, t)) == Progression.XpEarned(s) + (if t.completed then 0 else t.xp)
  {
    if !t.completed {
      Progression.CompletionEarnsReward(s, t);
    }
  }

  /** The task list with the flag of the task at `i` flipped and every other
      task as it was. */
  function FlipAt(tasks: seq<Task>, i: nat): (r: seq<Task>)
    requires i < |tasks|
    ensures |r| == |tasks| && r[i] == tasks[i].(completed := !tasks[i].completed)
    ensures forall j :: 0 <= j < |r| && j != i ==> r[j] == tasks[j]
  {
    tasks[i := tasks[i].(completed := !tasks[i].completed)]
  }

  /** The messages a toggle of `t` appends: one congratulation naming the new
      level when ticking levels up, none otherwise. */
  function ToggleNotes(s: UserStats, t: Task, now: nat): (ms: seq<Message>)
    ensures |ms| <= 1
    ensures |ms| == 1 <==> !t.completed && Progression.LevelsUp(s, t)
    ensures |ms| == 1 ==> ms[0] == LevelUpMessage(s.level + 1, now)
  {
    if !t.completed && Progression.LevelsUp(s, t) then [LevelUpMessage(s.level + 1, now)] else []
  }

  /** Toggling any quest of a consistent session keeps it consistent. When a
      quest is un-ticked the completed count drops by exactly one, so the
      floor at zero never fires. */
  lemma ToggleKeepsConsistent(s: UserStats, tasks: seq<Task>, badges: seq<Badge>, i: nat)
    requires Consistent(s, tasks, badges) && i < |tasks|
    ensures Consistent(Toggled(s, tasks[i]), FlipAt(tasks, i), badges)
    ensures tasks[i].completed ==> Toggled(s, tasks[i]).totalTasksCompleted + 1 == s.totalTasksCompleted
  {
    var t := tasks[i];
    CountAfterSet(tasks, i, !t.completed);
    if t.completed {
      Progression.RevertKeepsStatsConsistent(s, t);
    } else {
      Progression.SmallRewardKeepsStatsConsistent(s, t);
    }
  }

  /** Re-evaluating the badges of a consistent session keeps it consistent. */
  lemma ReevaluateKeepsConsistent(s: UserStats, tasks: seq<Task>, badges: seq<Badge>)
    requires Consistent(s, tasks, badges)
    ensures Consistent(s, tasks, BadgeEval.Reevaluate(s, badges))
  {
    var r := BadgeEval.Reevaluate(s, badges);
    forall i | 0 <= i < |r| && r[i].unlocked && r[i].condition.StreakAtLeast?
      ensures Catalog.Holds(r[i].condition, s)
    {
      assert r[i].(unlocked := badges[i].unlocked) == badges[i];
    }
  }

  /** A fresh session is consistent: nothing ticked and nothing counted,
      every catalog reward within the first threshold, every badge locked. */
  lemma InitialSessionConsistent()
    ensures Consistent(InitialStats(), Catalog.InitialTasks(), Catalog.Badges())
  {
    CountNoneTicked(Catalog.InitialTasks());
  }

  class Session {
    var stats: UserStats
    var tasks: seq<Task>
    var messages: seq<Message>
    var badges: seq<Badge>

    ghost predicate Valid()
      reads this
    {
      Consistent(stats, tasks, badges)
    }

    /** A fresh session; `now` stands for `Date.now()` at start-up. */
    constructor (now: nat)
      ensures Valid()
      ensures stats == InitialStats() && tasks == Catalog.InitialTasks()
      ensures messages == [WelcomeMessage(now)] && badges == Catalog.Badges()
    {
      InitialSessionConsistent();
      stats := InitialStats();
      tasks := Catalog.InitialTasks();
      messages := [WelcomeMessage(now)];
      badges := Catalog.Badges();
    }

    /** Ticks or un-ticks the first quest with id `id`. Ticking earns its
        reward and, on a level-up, appends one congratulation naming the new
        level; un-ticking takes back coins and the count but not XP. An
        unknown id changes nothing. */
    method ToggleTask(id: string, now: nat)
      modifies this
      ensures badges == old(badges)
      ensures old(Valid()) ==> Valid()
      ensures IndexOf(old(tasks), id) == -1 ==>
        tasks == old(tasks) && stats == old(stats) && messages == old(messages)
      ensures IndexOf(old(tasks), id) >= 0 ==>
        var i := IndexOf(old(tasks), id);
        tasks == FlipAt(old(tasks), i)
        && stats == Toggled(old(stats), old(tasks)[i])
        && messages == old(messages) + ToggleNotes(old(stats), old(tasks)[i], now)
    {
      var taskIndex := IndexOf(tasks, id);
      if taskIndex == -1 {
        return;
      }
      var task := tasks[taskIndex];
      var isCompleting := !task.completed;
      if Valid() {
        ToggleKeepsConsistent(stats, tasks, badges, taskIndex);
      }
      tasks := tasks[taskIndex := task.(completed := isCompleting)];
      if isCompleting {
        EarnReward(task, now);
      } else {
        TakeBackReward(task);
      }
    }

    /** The ticking branch of the toggle: adds the reward and applies at most
        one level-up, appending its congratulation. */
    method EarnReward(task: Task, now: nat)
      requires !task.completed
      modifies this`stats, this`messages
      ensures stats == Progression.Completed(old(stats), task)
      ensures messages == old(messages) + ToggleNotes(old(stats), task, now)
    {
      ghost var before, notes := stats, ToggleNotes(stats, task, now);
      var newXp := stats.currentXp + task.xp;
      var newCoins := stats.coins + task.coins;
      var newLevel := stats.level;
      var newNextXp := stats.nextLevelXp;
      if newXp >= stats.nextLevelXp {
        newXp := newXp - stats.nextLevelXp;
        newLevel := newLevel + 1;
        newNextXp := Progression.NextThreshold(stats.nextLevelXp);
        assert notes == [LevelUpMessage(newLevel, now)];
        messages := messages + [LevelUpMessage(newLevel, now)];
      } else {
        assert notes == [];
      }
      stats := stats.(currentXp := newXp, coins := newCoins, level := newLevel,
                      nextLevelXp := newNextXp, totalTasksCompleted := stats.totalTasksCompleted + 1);
      assert stats == Progression.Completed(before, task);
    }

    /** The un-ticking branch of the toggle: takes back the coins and one
        completion, each floored at zero. */
    method TakeBackReward(task: Task)
      modifies this`stats
      ensures stats == Progression.Reverted(old(stats), task)
    {
      stats := stats.(coins := Progression.FlooredSub(stats.coins, task.coins),
                      totalTasksCompleted := Progression.FlooredSub(stats.totalTasksCompleted, 1));
    }

    /** Records today's mood (keeping the newest seven) and appends the reply
        whose tone follows the score. `today` stands for the localized date. */
    method SubmitMood(score: int, today: string, now: nat)
      modifies this
      ensures old(Valid()) ==> Valid()
      ensures stats == old(stats).(moodHistory := Mood.RecordMood(old(stats).moodHistory, MoodEntry(today, score)))
      ensures messages == old(messages) + [MoodReplyMessage(score, now)]
      ensures tasks == old(tasks) && badges == old(badges)
    {
      stats := stats.(moodHistory := Mood.RecordMood(stats.moodHistory, MoodEntry(today, score)));
      messages := messages + [MoodReplyMessage(score, now)];
    }

    /** Buys `item` when the balance covers its price and reports whether it
        did; otherwise nothing changes. */
    method BuyItem(item: StoreItem) returns (bought: bool)
      modifies this
      ensures bought <==> Store.CanAfford(old(stats), item)
      ensures Store.Purchase(old(stats), item) == if bought then Some(stats) else None
      ensures !bought ==> stats == old(stats)
      ensures old(Valid()) ==> Valid()
      ensures tasks == old(tasks) && messages == old(messages) && badges == old(badges)
    {
      if Store.CanAfford(stats, item) {
        stats := stats.(coins := stats.coins - item.price, inventory := stats.inventory + [item.id]);
        bought := true;
      } else {
        bought := false;
      }
    }

    /** The badge effect: re-evaluates every badge against the current stats
        and stores the list only when some flag changed. */
    method CheckBadges()
      modifies this
      ensures badges == BadgeEval.Reevaluate(old(stats), old(badges))
      ensures stats == old(stats) && tasks == old(tasks) && messages == old(messages)
      ensures old(Valid()) ==> Valid()
    {
      var newBadges := BadgeEval.Reevaluate(stats, badges);
      if old(Valid()) {
        ReevaluateKeepsConsistent(stats, tasks, badges);
      }
      if newBadges != badges {
        badges := newBadges;
      }
    }
  }
}
