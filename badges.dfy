/** Badge re-evaluation, the effect that runs after every change of the stats
    (App.tsx:98-109): each locked badge whose condition now holds becomes
    unlocked; unlocked badges are left alone. */
module BadgeEval {
  import opened Types
  import Catalog

  /** One badge after re-evaluation against `s`. */
  function Reevaluated(b: Badge, s: UserStats): (r: Badge)
    ensures r.unlocked <==> b.unlocked || Catalog.Holds(b.condition, s)
    ensures r.(unlocked := b.unlocked) == b
  {
    if !b.unlocked && Catalog.Holds(b.condition, s) then b.(unlocked := true) else b
  }

  /** The badge list after re-evaluation against `s`: a badge ends up unlocked
      exactly when it was already unlocked or its condition holds now, and
      nothing but the flag ever changes. */
  function Reevaluate(s: UserStats, badges: seq<Badge>): (r: seq<Badge>)
    ensures |r| == |badges|
    ensures forall i :: 0 <= i < |r| ==> (badges[i].unlocked ==> r[i].unlocked)
    ensures forall i :: 0 <= i < |r| ==>
      (r[i].unlocked && !badges[i].unlocked ==> Catalog.Holds(badges[i].condition, s))
    ensures forall i :: 0 <= i < |r| ==> (Catalog.Holds(badges[i].condition, s) ==> r[i].unlocked)
    ensures forall i :: 0 <= i < |r| ==> r[i].(unlocked := badges[i].unlocked) == badges[i]
  {
    seq(|badges|, i requires 0 <= i < |badges| => Reevaluated(badges[i], s))
  }

  /** Re-evaluating twice against the same stats changes nothing more. */
  lemma ReevaluateIdempotent(s: UserStats, badges: seq<Badge>)
    ensures Reevaluate(s, Reevaluate(s, badges)) == Reevaluate(s, badges)
  {
    var once := Reevaluate(s, badges);
    var twice := Reevaluate(s, once);
    forall i | 0 <= i < |once| ensures twice[i] == once[i] {
      assert once[i].(unlocked := badges[i].unlocked) == badges[i];
    }
  }

  /** Re-evaluation after each snapshot of the stats, in order. */
  function ReevaluateAlong(snapshots: seq<UserStats>, badges: seq<Badge>): seq<Badge>
    decreases |snapshots|
  {
    if snapshots == [] then badges
    else ReevaluateAlong(snapshots[1..], Reevaluate(snapshots[0], badges))
  }

  /** Along any run of stats changes a badge is unlocked at the end exactly
      when it was unlocked at the start or its condition held at some
      snapshot: flags only rise, and only for a reason. */
  lemma {:induction false} UnlockedAlongIff(snapshots: seq<UserStats>, badges: seq<Badge>, i: nat)
    requires i < |badges|
    ensures |ReevaluateAlong(snapshots, badges)| == |badges|
    ensures ReevaluateAlong(snapshots, badges)[i].(unlocked := badges[i].unlocked) == badges[i]
    ensures ReevaluateAlong(snapshots, badges)[i].unlocked <==>
      badges[i].unlocked || exists k :: 0 <= k < |snapshots| && Catalog.Holds(badges[i].condition, snapshots[k])
    decreases |snapshots|
  {
    if snapshots != [] {
      var next := Reevaluate(snapshots[0], badges);
      UnlockedAlongIff(snapshots[1..], next, i);
      assert next[i].condition == badges[i].condition;
      if exists k :: 0 <= k < |snapshots[1..]| && Catalog.Holds(badges[i].condition, snapshots[1..][k]) {
        var k :| 0 <= k < |snapshots[1..]| && Catalog.Holds(badges[i].condition, snapshots[1..][k]);
        assert snapshots[1..][k] == snapshots[k + 1];
      }
      if exists k :: 0 <= k < |snapshots| && Catalog.Holds(badges[i].condition, snapshots[k]) {
        var k :| 0 <= k < |snapshots| && Catalog.Holds(badges[i].condition, snapshots[k]);
        if k > 0 {
          assert snapshots[k] == snapshots[1..][k - 1];
        }
      }
    }
  }

  /** Starting from the catalog, each badge is unlocked after a run of stats
      changes exactly when some snapshot met its condition: a completed quest,
      a three-day streak, a hundred coins, a non-empty inventory. */
  lemma CatalogBadgesAlong(snapshots: seq<UserStats>)
    ensures var r := ReevaluateAlong(snapshots, Catalog.Badges());
      |r| == 4
      && (r[0].unlocked <==> exists k :: 0 <= k < |snapshots| && snapshots[k].totalTasksCompleted >= 1)
      && (r[1].unlocked <==> exists k :: 0 <= k < |snapshots| && snapshots[k].streakDays >= 3)
      && (r[2].unlocked <==> exists k :: 0 <= k < |snapshots| && snapshots[k].coins >= 100)
      && (r[3].unlocked <==> exists k :: 0 <= k < |snapshots| && snapshots[k].inventory != [])
  {
    var bs := Catalog.Badges();
    UnlockedAlongIff(snapshots, bs, 0);
    UnlockedAlongIff(snapshots, bs, 1);
    UnlockedAlongIff(snapshots, bs, 2);
    UnlockedAlongIff(snapshots, bs, 3);
  }
}
