# Reward and progression engine of the Doyak habit app

The app turns small self-care quests into a game. Ticking a quest earns XP and
coins. XP fills a level bar whose threshold grows by half at every level-up.
Coins buy items in a store. A mood log keeps the last seven recorded scores.
Badges unlock when the stats first meet their condition and never lock again.

This project models that engine as it is written in `App.tsx` and `constants.ts`:

- `types.dfy` has the record shapes of `types.ts`. Badge conditions are a datatype of condition kinds instead of closures.
- `catalog.dfy` has the three catalogs (quests, store items, badges) and the interpreter `Catalog.Holds` for badge conditions.
- `progression.dfy` has the XP/coin/level arithmetic of ticking and un-ticking a quest. It also has the lifetime-XP view (`XpEarned`) against which completion is checked: completion adds exactly the quest's reward.
- `mood.dfy` has the seven-entry rolling history.
- `store.dfy` has the guarded purchase and a ledger over runs of purchases.
- `badges.dfy` has badge re-evaluation (monotone, justified, idempotent).
- `decimal.dfy` has the decimal rendering of numbers used in message texts and ids.
- `session.dfy` has the `Session` class. Its fields are `stats`, `tasks`, `messages` and `badges`. It has one method per handler and one for the badge effect. Each method is proved against the functions above. The handler methods (`ToggleTask`, `SubmitMood`, `BuyItem`, `CheckBadges`) keep the session invariant `Consistent`; the two branch helpers `EarnReward` and `TakeBackReward` only state their effect on the stats and messages.
- `scenarios.dfy` has four worked cases.

Clocks and dates are parameters: `now` stands for `Date.now()` and `today` for the localized weekday string.

Facts the proofs bring out:

- In every session state, `totalTasksCompleted` equals the number of ticked quests. So the `Math.max(0, …)` floor on the count never fires.
- No handler ever changes `streakDays` from its initial 1. So the three-day-streak badge `b2` can never unlock within a session.
- Un-ticking keeps XP. So ticking and un-ticking one quest repeatedly raises lifetime XP by its reward each round, with coins and count back where they were (`Progression.ToggleTwiceKeepsXp`). This is modelled as the code does it.
- Ticking applies at most one level-up step, so the invariant `currentXp < nextLevelXp` survives a completion exactly when the held XP plus the reward stays below the current threshold plus the next one (`Progression.CompletionKeepsStatsConsistent`). Every catalog quest rewards at most 50 XP, and thresholds start at 100 and never shrink, so the catalog always stays within that bound. A reward that brings the held XP to the current threshold plus the next one, or beyond, leaves XP at or above the new threshold.

Two behaviours of the handlers that the model keeps as written:

- A refused purchase silently does nothing (App.tsx:215-222); `BuyItem` reports `false`.
- The handler does not range-check the mood score (App.tsx:199-203), so the model has no precondition on it.

## Model

| member | source | states |
|---|---|---|
| Catalog.InitialTasks | constants.ts:3-98 | nine quests, all open, each with positive coins and 1-50 XP (one at 50) |
| Catalog.StoreItems | constants.ts:100-149 | six items, positive prices, priceKrw = price * 100 for each |
| Catalog.Badges | constants.ts:151-184 | four badges b1-b4, all locked; b1 iff one quest done, b2 iff streak >= 3, b3 iff coins >= 100, b4 iff inventory non-empty |
| Catalog.Holds | constants.ts:158-182 | the badge conditions: at least n completed quests, at least n streak days, at least n coins, a non-empty inventory |
| Catalog.HoldsUpwardClosed | constants.ts:158-182 | every condition stays met when completions, streak and coins do not drop and the inventory stays non-empty |
| Catalog.CatalogIdsDistinct | constants.ts:3-184 | ids are unique within the quest, item and badge catalogs |
| Session.InitialStats | App.tsx:18-27 | the start stats are consistent (level 1, 0 of 100 XP, no coins, empty history and inventory), unlock no catalog badge, and every catalog reward is below the first threshold |
| Decimal.DecimalString | App.tsx:170-172 | a number's string form is canonical (digits, no leading zero) and is one character long exactly for numbers below ten |
| Decimal.DecimalRoundTrip | App.tsx:170-172 | parsing the rendered decimal gives the number back |
| Decimal.DecimalStringInjective | App.tsx:170-172 | distinct numbers render to distinct strings |
| Decimal.RenderParsed | App.tsx:170-172 | every canonical digit string is the rendering of its value (round trip in the other direction) |
| Progression.NextThreshold | App.tsx:167 | the grown threshold r is floor(1.5 n): 2r <= 3n < 2r + 2 |
| Progression.ThresholdAt | App.tsx:21 | the threshold at any level is at least the first threshold, 100 |
| Progression.Completed | App.tsx:158-184 | completion adds the coins and one to the count; below the threshold it adds the XP and keeps level and threshold; at or over it, exactly one level-up: level + 1, XP minus old threshold, threshold floor(1.5 x old); streak, moods and inventory untouched |
| Progression.FlooredSub | App.tsx:190-191 | Math.max(0, a - b): never negative, equal to a - b unless that is negative |
| Progression.Reverted | App.tsx:188-192 | un-ticking lowers coins and count floored at zero and changes no other field (XP and level kept) |
| Progression.CompletionKeepsStatsConsistent | App.tsx:158-167 | from consistent stats, completion keeps them consistent iff held XP + reward < threshold + next threshold (the one level-up step suffices) |
| Progression.SmallRewardKeepsStatsConsistent | App.tsx:158-167 | a reward no larger than the current threshold always keeps the stats consistent |
| Progression.RevertKeepsStatsConsistent | App.tsx:188-192 | un-ticking keeps the stats consistent and lifetime XP unchanged |
| Progression.CompletionEarnsReward | App.tsx:158-167 | completion raises lifetime XP by exactly the quest's XP, with or without a level-up |
| Progression.ToggleTwiceKeepsXp | App.tsx:156-193 | tick then un-tick restores coins and count but keeps the earned XP |
| Progression.XpToReachMonotone | App.tsx:164-167 | lifetime XP needed to reach a level grows with the level by at least each threshold |
| Progression.LevelDeterminedByXp | App.tsx:164-167 | consistent stats with equal lifetime XP have equal level and current XP |
| Mood.Newest | App.tsx:203 | slice(-n) for n > 0: a suffix of the input of length min(n, len), i.e. the last min(n, len) elements in order |
| Mood.RecordMood | App.tsx:203 | the new history has 1 to 7 entries, ends with the new entry, and equals the newest 7 of old history plus the entry |
| Mood.NewestOfNewest | App.tsx:203 | truncating before appending keeps the same newest n as truncating after |
| Mood.RecordAllKeepsNewest | App.tsx:203 | any non-empty run of recordings leaves the newest 7 of all entries: oldest evicted first, newest last |
| Store.Purchase | App.tsx:214-220 | goes through iff coins >= price; then coins drop by the price, the id is appended exactly once, nothing else changes |
| Store.PurchaseLedger | App.tsx:215-220 | over any run of attempts, final coins + cost of accepted items = starting coins, no other field but inventory changes |
| Store.InventoryLedger | App.tsx:215-220 | over any run of attempts, inventory grows by exactly the accepted items' ids in order |
| BadgeEval.Reevaluated | App.tsx:99-104 | one badge after re-evaluation: unlocked iff it was unlocked or its condition holds now; nothing but the flag changes |
| BadgeEval.Reevaluate | App.tsx:99-104 | an unlocked badge stays unlocked, a badge unlocks only when its condition holds, every badge whose condition holds is unlocked, only the flag changes |
| BadgeEval.ReevaluateIdempotent | App.tsx:99-108 | re-evaluating twice against the same stats equals re-evaluating once |
| BadgeEval.UnlockedAlongIff | App.tsx:98-109 | after re-evaluation at each stats snapshot, a badge is unlocked iff it started unlocked or its condition held at some snapshot |
| BadgeEval.CatalogBadgesAlong | constants.ts:151-184 | from the catalog, b1/b2/b3/b4 are unlocked after a run iff some snapshot had a completed quest / 3-day streak / 100 coins / non-empty inventory |
| Session.IndexOf | App.tsx:146-147 | findIndex: -1 iff no task has the id, else the first position holding it |
| Session.CountNoneTicked | constants.ts:3-98 | a task list with nothing ticked counts zero |
| Session.Toggled | App.tsx:156-193 | toggling a ticked quest never raises coins or count; toggling an open one adds its coins and one to the count |
| Session.ToggledXp | App.tsx:156-193 | a tick adds exactly the quest's XP to lifetime XP, an un-tick leaves lifetime XP unchanged |
| Session.WelcomeMessage | App.tsx:28-35 | the greeting has role model, the clock as timestamp, the welcome text, and an id that is no decimal string, so it never clashes with a clock-stamped id |
| Session.FlipAt | App.tsx:152-153 | the copied list has the same length, the task at the index with its flag flipped, and every other task unchanged |
| Session.CountAfterSet | App.tsx:152-153 | writing one task's flag moves the ticked count by exactly the flag's change |
| Session.ToggleNotes | App.tsx:164-175 | a toggle appends at most one message; exactly one iff ticking reaches the threshold, and then it is the level-up message for the new level |
| Session.LevelUpMessage | App.tsx:169-174 | the level-up message has role model, the clock as timestamp, a decimal id that parses to the clock, and the level-up text |
| Session.LevelUpTextNamesLevel | App.tsx:172 | the level-up text is the fixed prefix, then digits that parse back to the new level, then the fixed suffix |
| Session.MoodReplyBranches | App.tsx:209 | two scores get the same reply iff both are >= 3 or both are below 3 |
| Session.MoodReplyMessage | App.tsx:206-211 | the mood reply has role model, the clock as timestamp and id, and the score-dependent text |
| Session.ToggleKeepsConsistent | App.tsx:144-197 | toggling any quest keeps the session consistent (count = ticked quests, XP below threshold); un-ticking lowers the count by exactly one |
| Session.ReevaluateKeepsConsistent | App.tsx:98-109 | re-evaluation keeps the session consistent: no streak badge is unlocked unless its condition holds |
| Session.StreakBadgeStaysLocked | constants.ts:166 | in a consistent session a badge with the catalog's three-day-streak condition is locked, because the streak stays 1 |
| Session.InitialSessionConsistent | App.tsx:17-36 | the initial stats, quest catalog and badge catalog together form a consistent session |
| Session.Session.constructor | App.tsx:17-36 | a new session holds the initial stats, catalog quests and badges, and the welcome message, and is consistent |
| Session.Session.ToggleTask | App.tsx:144-197 | unknown id: nothing changes; else only the first matching quest flips (FlipAt), stats become Completed or Reverted, the messages gain ToggleNotes; badges untouched; consistency is kept |
| Session.Session.EarnReward | App.tsx:157-185 | the step-by-step completion update yields Completed of the old stats and appends ToggleNotes |
| Session.Session.TakeBackReward | App.tsx:188-192 | the revert update yields Reverted of the old stats |
| Session.Session.SubmitMood | App.tsx:199-212 | history becomes RecordMood of the old one, one reply message is appended, nothing else changes, consistency is kept |
| Session.Session.BuyItem | App.tsx:214-223 | reports success iff coins >= price; the new stats are Purchase's result; a refusal changes nothing; consistency is kept |
| Session.Session.CheckBadges | App.tsx:98-109 | badges become Reevaluate of the current stats; nothing else changes; consistency is kept |
| Scenarios.LevelUpCarriesOver | App.tsx:158-167 | 90/100 XP plus a 20 XP, 5 coin quest gives level 2, 10/150 XP, 5 coins |
| Scenarios.PurchaseRefused | App.tsx:215 | a 20-coin item with 15 coins is refused |
| Scenarios.RevertFloorsCoins | App.tsx:190 | un-ticking a 10-coin quest with 3 coins leaves 0 |
| Scenarios.EightMoods | App.tsx:203 | eight moods from empty leave the last seven |

## Left out

- API-key bootstrap and manual key entry (App.tsx:42-73, 113-142): host and browser I/O.
- localStorage load, save and reset (App.tsx:76-95, 225-233): persistence with `JSON.parse`. Badges are not persisted, so monotonicity is a within-session property. The session invariant assumes the state was built by the handlers, not loaded from storage.
- The chat: `components/ChatInterface.tsx`, `services/geminiService.ts` and the `SYSTEM_INSTRUCTION` constant (constants.ts:186-199). They are asynchronous network code. The model covers only the messages the handlers themselves append.
- Clock and date values: `Date.now()` and `toLocaleDateString` are the parameters `now` and `today`. Two messages made in the same millisecond get the same id in the source, and in the model too. Each handler reads `Date.now()` twice, once for the message id and once for its timestamp (App.tsx:170/173, 207/210); the model uses one `now` for both, so it does not capture the two readings differing by a millisecond.
- React scheduling: the model runs each handler to completion, one at a time. It does not model the stats update and message append nested inside the task-list updater, or updaters run twice in development mode. `handleBuyItem` checks the balance of the rendered state and then debits the updater's state; the model treats these as the same state.
- JavaScript numbers are doubles; the model uses unbounded naturals. `Math.floor(n * 1.5)` equals `n + n / 2` only while values stay in the exactly representable range.
- Display-only arithmetic: the completion percentage (App.tsx:357) and the XP bar width (App.tsx:271).
- Presentational components (`QuestCard`, `StatsView`, `StoreView`), `alert`/`confirm` dialogs, the mood modal's visibility flag and the render tree. StoreView's `canBuy` repeats the guard of App.tsx:215.
- The optional `isCustom` flag of a task (types.ts:23): no code in the core sets or reads it.
