/** Record shapes of the habit app (types.ts). Numbers that the app only ever
    holds as non-negative integers (XP, coins, levels, counts, prices,
    millisecond timestamps) are `nat`; the mood score is whatever the caller
    passes, so it stays an `int`. */
module Types {

  datatype Option<T> = None | Some(value: T)

  datatype Difficulty = Easy | Medium | Hard

  datatype TaskCategory = Exercise | Study | Hobby | Lifestyle

  /** A quest: catalog fields plus the one mutable flag `completed`. */
  datatype Task = Task(
    id: string,
    title: string,
    description: string,
    xp: nat,
    coins: nat,
    category: TaskCategory,
    difficulty: Difficulty,
    completed: bool)

  datatype Role = User | Model

  datatype Message = Message(id: string, role: Role, text: string, timestamp: nat)

  /** One entry of the rolling mood history: a display date and a 1-5 score. */
  datatype MoodEntry = MoodEntry(date: string, score: int)

  datatype UserStats = UserStats(
    level: nat,
    currentXp: nat,
    nextLevelXp: nat,
    coins: nat,
    streakDays: nat,
    totalTasksCompleted: nat,
    moodHistory: seq<MoodEntry>,
    inventory: seq<string>)

  /** The kinds of unlock predicate the badge catalog uses, in place of the
      closures `(stats) => ...` the source stores in each badge. */
  datatype Condition =
    | CompletedAtLeast(tasks: nat)
    | StreakAtLeast(days: nat)
    | CoinsAtLeast(amount: nat)
    | InventoryNonEmpty

  datatype Badge = Badge(
    id: string,
    name: string,
    description: string,
    icon: string,
    unlocked: bool,
    condition: Condition)

  /** A store item; `price` is in coins, `priceKrw` is a display-only value. */
  datatype StoreItem = StoreItem(
    id: string,
    name: string,
    price: nat,
    priceKrw: nat,
    icon: string,
    description: string)
}
