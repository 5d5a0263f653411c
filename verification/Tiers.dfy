/** The tier table: which tier a bond reaches and how much capital a tier may hold. */
module Tiers {
  import opened Types

  predicate Increasing(t: TierTable) {
    t[0] < t[1] < t[2]
  }

  /** Highest of the first `n` tiers whose threshold `bond` reaches, 0 when it reaches none. */
  function TierWithin(bonds: TierTable, bond: u64, n: nat): (tier: u8)
    requires n <= TIER_COUNT
    ensures tier <= n
  {
    if n == 0 then 0
    else if bond >= bonds[n - 1] then n
    else TierWithin(bonds, bond, n - 1)
  }

  function TierForBond(bonds: TierTable, bond: u64): (tier: u8)
    ensures tier <= TIER_COUNT
  {
    TierWithin(bonds, bond, TIER_COUNT)
  }

  function CeilingForTier(ceilings: TierTable, tier: u8): u64 {
    if tier == 0 || tier > TIER_COUNT then 0 else ceilings[tier - 1]
  }

  function ValidateTierShape(bonds: TierTable, ceilings: TierTable): Outcome {
    if !Increasing(bonds) then Fail(TierBondsNotIncreasing)
    else if !Increasing(ceilings) then Fail(TierCeilingsNotIncreasing)
    else Pass
  }

  function ValidateTiers(c: Config): Outcome {
    if ValidateTierShape(c.tierBonds, c.tierCeilings).Fail? then ValidateTierShape(c.tierBonds, c.tierCeilings)
    else if c.unbondPeriod <= 0 then Fail(InvalidUnbondPeriod)
    else Pass
  }

  /** The source's loop: the last threshold reached wins. */
  method ComputeTier(bonds: TierTable, bond: u64) returns (tier: u8)
    ensures tier == TierForBond(bonds, bond)
  {
    tier := 0;
    for i := 0 to TIER_COUNT
      invariant tier == TierWithin(bonds, bond, i)
    {
      if bond >= bonds[i] {
        tier := i + 1;
      }
    }
  }

  /** On an increasing table, reaching tier `k` is the same as covering its threshold. */
  lemma {:induction false} TierReached(bonds: TierTable, bond: u64, k: nat)
    requires Increasing(bonds) && 1 <= k <= TIER_COUNT
    ensures TierForBond(bonds, bond) >= k <==> bond >= bonds[k - 1]
  {
    assert TierForBond(bonds, bond) == if bond >= bonds[2] then 3 else TierWithin(bonds, bond, 2);
    assert TierWithin(bonds, bond, 2) == if bond >= bonds[1] then 2 else TierWithin(bonds, bond, 1);
    assert TierWithin(bonds, bond, 1) == if bond >= bonds[0] then 1 else 0;
  }

  lemma TierMonotone(bonds: TierTable, less: u64, more: u64)
    requires Increasing(bonds) && less <= more
    ensures TierForBond(bonds, less) <= TierForBond(bonds, more)
  {
    var k := TierForBond(bonds, less);
    if k > 0 {
      TierReached(bonds, less, k);
      TierReached(bonds, more, k);
    }
  }

  lemma CeilingMonotone(ceilings: TierTable, lower: u8, higher: u8)
    requires Increasing(ceilings) && lower <= higher <= TIER_COUNT
    ensures CeilingForTier(ceilings, lower) <= CeilingForTier(ceilings, higher)
  {
  }

  /** The cheapest tier whose ceiling covers `aum`; `TIER_COUNT + 1` when none does. */
  function LeastCoveringTier(ceilings: TierTable, aum: u64): (k: nat)
    ensures k <= TIER_COUNT ==> CeilingForTier(ceilings, k) >= aum
    ensures forall j: u8 | j < k && j <= TIER_COUNT :: CeilingForTier(ceilings, j) < aum
  {
    if aum == 0 then 0
    else if ceilings[0] >= aum then 1
    else if ceilings[1] >= aum then 2
    else if ceilings[2] >= aum then 3
    else TIER_COUNT + 1
  }

  /** A bond covers `aum` exactly when it reaches the threshold of the least covering tier. */
  lemma CoverageThreshold(bonds: TierTable, ceilings: TierTable, bond: u64, aum: u64)
    requires Increasing(bonds) && Increasing(ceilings)
    ensures CeilingForTier(ceilings, TierForBond(bonds, bond)) >= aum <==>
            var k := LeastCoveringTier(ceilings, aum);
            k == 0 || (k <= TIER_COUNT && bond >= bonds[k - 1])
  {
    var k := LeastCoveringTier(ceilings, aum);
    var tier := TierForBond(bonds, bond);
    if 1 <= k <= TIER_COUNT {
      TierReached(bonds, bond, k);
      if tier >= k {
        CeilingMonotone(ceilings, k, tier);
      }
    }
  }
}
