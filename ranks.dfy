/** Tier resolution: the rank a point total earns, by a descending scan of the threshold table. */
module Ranks {
  import opened Wrappers

  /** A rank tier; the display gradient, icon and colour are presentation and are not kept. */
  datatype RankTier = RankTier(name: string, min: nat)

  const RankTiers: seq<RankTier> := [
    RankTier("Novice", 0), RankTier("Classic", 100), RankTier("Warrior", 500),
    RankTier("King", 1500), RankTier("Emperor", 4500), RankTier("God", 15000),
    RankTier("Immortal", 50000), RankTier("Celestial", 150000), RankTier("Eternal", 500000),
    RankTier("Void", 1000000), RankTier("Singularity", 5000000), RankTier("Multiverse", 25000000),
    RankTier("Omnipotent", 100000000)
  ]

  /** Index of the tier whose minimum gates ascension (`RANK_TIERS[4]`, Emperor). */
  const AscensionTier: nat := 4

  ghost predicate StrictlyIncreasing(tiers: seq<RankTier>) {
    forall i, j :: 0 <= i < j < |tiers| ==> tiers[i].min < tiers[j].min
  }

  lemma {:induction false} TableIsStrictlyIncreasing()
    ensures StrictlyIncreasing(RankTiers)
    ensures RankTiers[0].min == 0
    ensures RankTiers[AscensionTier].min == 4500
    ensures RankTiers[|RankTiers| - 1].min == 100000000
  {
    forall i, j | 0 <= i < j < |RankTiers| ensures RankTiers[i].min < RankTiers[j].min {
      AdjacentIncreasing(i, j);
    }
  }

  lemma {:induction false} AdjacentIncreasing(i: nat, j: nat)
    requires i < j < |RankTiers|
    ensures RankTiers[i].min < RankTiers[j].min
    decreases j - i
  {
    if i + 1 < j { AdjacentIncreasing(i + 1, j); }
  }

  /** `[...tiers].reverse().find(t => points >= t.min)` over the first `k` tiers: the LAST index below `k`
      whose minimum is at most `points`. */
  function LastAtMost(tiers: seq<RankTier>, points: int, k: nat): (r: Option<nat>)
    requires k <= |tiers|
    ensures r.Some? ==> r.value < k && tiers[r.value].min <= points
                        && forall j :: r.value < j < k ==> points < tiers[j].min
    ensures r.None? ==> forall j :: 0 <= j < k ==> points < tiers[j].min
  {
    if k == 0 then None
    else if tiers[k - 1].min <= points then Some(k - 1)
    else LastAtMost(tiers, points, k - 1)
  }

  /** `currentRank`: the last tier reached, or tier 0 when none is, as an index into `RankTiers`. */
  function CurrentRank(points: int): (i: nat)
    ensures i < |RankTiers|
    ensures points >= 0 ==> RankTiers[i].min <= points
    ensures points < 0 ==> i == 0
    ensures forall j :: i < j < |RankTiers| ==> points < RankTiers[j].min
  {
    match LastAtMost(RankTiers, points, |RankTiers|)
    case Some(i) => i
    case None => 0
  }

  /** Because the table is strictly increasing, the resolved tier is the unique band holding `points`:
      its minimum is reached and the next tier's minimum (if any) is not. */
  lemma RankIsUniqueBand(points: nat, i: nat)
    requires i < |RankTiers|
    ensures CurrentRank(points) == i <==>
            RankTiers[i].min <= points && (i + 1 == |RankTiers| || points < RankTiers[i + 1].min)
  {
    TableIsStrictlyIncreasing();
  }

  /** More points never resolve to a lower tier. */
  lemma RankIsMonotone(p: int, q: int)
    requires p <= q
    ensures CurrentRank(p) <= CurrentRank(q)
  {
  }
}
