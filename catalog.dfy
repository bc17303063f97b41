/** The static catalogs (constants.ts): the quests a session starts with, the
    store's items and the badges with their unlock conditions. */
module Catalog {
  import opened Types

  /** Evaluates a badge's unlock condition against the current stats; one case
      per predicate shape used by the badge catalog. */
  function Holds(c: Condition, s: UserStats): (r: bool)
    ensures c.CompletedAtLeast? ==> (r <==> s.totalTasksCompleted >= c.tasks)
    ensures c.StreakAtLeast? ==> (r <==> s.streakDays >= c.days)
    ensures c.CoinsAtLeast? ==> (r <==> s.coins >= c.amount)
    ensures c.InventoryNonEmpty? ==> (r <==> s.inventory != [])
  {
    match c
    case CompletedAtLeast(n) => s.totalTasksCompleted >= n
    case StreakAtLeast(n) => s.streakDays >= n
    case CoinsAtLeast(n) => s.coins >= n
    case InventoryNonEmpty => |s.inventory| > 0
  }

  /** Every condition is upward closed: stats that have at least as many
      completions, streak days and coins, and a non-empty inventory whenever
      the first one has, meet every condition the first one meets. */
  lemma HoldsUpwardClosed(c: Condition, s1: UserStats, s2: UserStats)
    requires s1.totalTasksCompleted <= s2.totalTasksCompleted
    requires s1.streakDays <= s2.streakDays && s1.coins <= s2.coins
    requires s1.inventory != [] ==> s2.inventory != []
    ensures Holds(c, s1) ==> Holds(c, s2)
  {
  }

  /** The nine starting quests. All start open, all reward some XP and some
      coins, and no reward exceeds 50 XP. */
  function InitialTasks(): (ts: seq<Task>)
    ensures |ts| == 9
    ensures forall i :: 0 <= i < |ts| ==> !ts[i].completed
    ensures forall i :: 0 <= i < |ts| ==> 0 < ts[i].xp <= 50 && ts[i].coins > 0
    ensures exists i :: 0 <= i < |ts| && ts[i].xp == 50
  {
    var ts := [
      Task("t1", "아침 햇살 맞기", "창문을 열고 1분 동안 햇빛을 느껴보세요.", 10, 1, Lifestyle, Easy, false),
      Task("e1", "기지개 켜기", "굳어있는 몸을 쭉 펴보세요.", 15, 2, Exercise, Easy, false),
      Task("e2", "동네 한 바퀴 (15분)", "좋아하는 음악을 들으며 가볍게 걸어요.", 50, 10, Exercise, Hard, false),
      Task("e3", "스쿼트 10회", "천천히 정확한 자세로 10번만!", 30, 5, Exercise, Medium, false),
      Task("s1", "책상 정리하기", "공부나 작업을 위해 책상 위 물건 3개 정리.", 20, 3, Study, Easy, false),
      Task("s2", "책 2페이지 읽기", "부담 없이 딱 2페이지만 읽어보세요.", 30, 5, Study, Medium, false),
      Task("s3", "영단어 3개 외우기", "오늘의 단어 3개만 기억해볼까요?", 40, 7, Study, Medium, false),
      Task("h1", "좋아하는 노래 듣기", "나만의 힐링 곡을 감상하며 멍때리기.", 15, 2, Hobby, Easy, false),
      Task("h2", "낙서하기", "종이에 아무 그림이나 자유롭게 그려보세요.", 25, 4, Hobby, Easy, false)
    ];
    assert ts[2].xp == 50;
    ts
  }

  /** The six store items. Every price is positive and follows the
      1 coin = 100 KRW convention. */
  function StoreItems(): (items: seq<StoreItem>)
    ensures |items| == 6
    ensures forall i :: 0 <= i < |items| ==> items[i].price > 0 && items[i].priceKrw == items[i].price * 100
  {
    [
      StoreItem("item1", "바나나맛 우유", 15, 1500, "🍌", "달콤한 바나나 우유 한 잔의 여유"),
      StoreItem("item2", "컵라면", 12, 1200, "🍜", "출출할 때 생각나는 맛"),
      StoreItem("item3", "아이스 아메리카노", 20, 2000, "☕", "시원한 커피 수혈"),
      StoreItem("item4", "편의점 김밥", 25, 2500, "🍙", "든든한 한 끼 식사"),
      StoreItem("item5", "초콜릿 바", 10, 1000, "🍫", "당 떨어질 때 필수"),
      StoreItem("item6", "문화상품권 5천원", 50, 5000, "🎫", "문화 생활을 위한 선물")
    ]
  }

  /** The four badges b1-b4, all locked at first. Their conditions: b1 needs one
      completed quest, b2 a three-day streak, b3 a hundred coins, b4 a
      non-empty inventory. */
  function Badges(): (bs: seq<Badge>)
    ensures |bs| == 4
    ensures forall i :: 0 <= i < |bs| ==> !bs[i].unlocked
    ensures bs[0].id == "b1" && forall s :: Holds(bs[0].condition, s) <==> s.totalTasksCompleted >= 1
    ensures bs[1].id == "b2" && forall s :: Holds(bs[1].condition, s) <==> s.streakDays >= 3
    ensures bs[2].id == "b3" && forall s :: Holds(bs[2].condition, s) <==> s.coins >= 100
    ensures bs[3].id == "b4" && forall s :: Holds(bs[3].condition, s) <==> s.inventory != []
  {
    [
      Badge("b1", "첫 걸음", "첫 번째 퀘스트를 완료했습니다.", "🌱", false, CompletedAtLeast(1)),
      Badge("b2", "작심삼일 극복", "3일 연속으로 앱을 방문했습니다.", "🔥", false, StreakAtLeast(3)),
      Badge("b3", "부자 되세요", "100 코인을 모았습니다.", "💰", false, CoinsAtLeast(100)),
      Badge("b4", "쇼핑왕", "상점에서 아이템을 구매했습니다.", "🛍️", false, InventoryNonEmpty)
    ]
  }

  /** Ids are unique within each catalog. */
  lemma CatalogIdsDistinct()
    ensures var ts := InitialTasks(); forall i, j :: 0 <= i < j < |ts| ==> ts[i].id != ts[j].id
    ensures var items := StoreItems(); forall i, j :: 0 <= i < j < |items| ==> items[i].id != items[j].id
    ensures var bs := Badges(); forall i, j :: 0 <= i < j < |bs| ==> bs[i].id != bs[j].id
  {
  }
}
