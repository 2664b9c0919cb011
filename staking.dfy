/** Simple interest on staked in-game money: 1% of the stored principal per
    whole ten-second unit since the last stake. */
module Staking {

  const StakeUnitMs: nat := 10 * 1000
  const InterestPercentPerUnit: nat := 1

  /** `get_your_staked_money`: nothing when never staked or nothing staked,
      otherwise the principal plus its accrued interest (integer division). */
  function StakedValue(principal: nat, lastStaked: nat, now: nat): (v: nat)
    requires lastStaked <= now
    ensures lastStaked == 0 || principal == 0 ==> v == 0
    ensures lastStaked > 0 && principal > 0 ==> principal <= v
    ensures lastStaked > 0 && now - lastStaked < StakeUnitMs ==> v == principal
  {
    if lastStaked == 0 || principal == 0 then 0
    else
      var units := (now - lastStaked) / StakeUnitMs;
      principal + principal * (units * InterestPercentPerUnit) / 100
  }

  /** After `n` full units and a fraction of one, the value is
      principal + principal * n / 100. */
  lemma StakedValueAfterUnits(principal: nat, lastStaked: nat, n: nat, k: nat)
    requires lastStaked > 0 && principal > 0 && k < StakeUnitMs
    ensures StakedValue(principal, lastStaked, lastStaked + n * StakeUnitMs + k) == principal + principal * n / 100
  {
  }

  /** The value only grows while the stake is left alone. */
  lemma StakedValueMonotone(principal: nat, lastStaked: nat, t1: nat, t2: nat)
    requires lastStaked <= t1 <= t2
    ensures StakedValue(principal, lastStaked, t1) <= StakedValue(principal, lastStaked, t2)
  {
    if lastStaked > 0 && principal > 0 {
      var u1, u2 := (t1 - lastStaked) / StakeUnitMs, (t2 - lastStaked) / StakeUnitMs;
      assert u1 <= u2;
      assert principal * u1 <= principal * u2;
      assert principal * u1 / 100 <= principal * u2 / 100;
    }
  }
}
