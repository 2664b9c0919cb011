/** The pet status engine on values: lazy decay of a stored snapshot, the
    total score, the three condition tiers, and the feeding outcomes. */
module PetStatus {
  import opened Types

  const MinuteMs: nat := 60 * 1000
  const DecayPerMinute: nat := 5

  const ZeroStatus := Status(0, 0, 0)
  /** `set_full_status`. */
  const FullStatus := Status(0, 100, 100)
  /** `set_death_status`. */
  const DeathStatus := Status(80, 0, 0)

  /** The bound of the pseudo-random draw of `eat_an_apple`: a value in [0, 100]. */
  const DrawMax: nat := 100

  /** u32 `saturating_sub`, also the `if a > b { a - b } else { 0 }` of `change_some_status`. */
  function SaturatingSub(a: nat, b: nat): (r: nat)
    ensures r <= a
    ensures a >= b ==> r + b == a
    ensures a <= b ==> r == 0
  {
    if a > b then a - b else 0
  }

  /** The decay accumulated since `lastEaten`: 5 per whole minute elapsed. */
  function DecayAmount(lastEaten: nat, now: nat): (d: nat)
    requires lastEaten <= now
    ensures d % DecayPerMinute == 0
    ensures (d / DecayPerMinute) * MinuteMs <= now - lastEaten < (d / DecayPerMinute + 1) * MinuteMs
  {
    ((now - lastEaten) / MinuteMs) * DecayPerMinute
  }

  /** Whole minutes elapsed never decrease as the clock advances. */
  lemma DecayAmountMonotone(lastEaten: nat, t1: nat, t2: nat)
    requires lastEaten <= t1 <= t2
    ensures DecayAmount(lastEaten, t1) <= DecayAmount(lastEaten, t2)
  {
  }

  /** The snapshot aged to `now`: hunger grows by the decay, health and
      happiness shrink by it and stop at zero. */
  function Decayed(stored: Status, lastEaten: nat, now: nat): (r: Status)
    requires lastEaten <= now
    ensures r.hungry >= stored.hungry && r.health <= stored.health && r.happy <= stored.happy
    ensures r.hungry - stored.hungry == DecayAmount(lastEaten, now)
    ensures r.health == 0 || r.health + DecayAmount(lastEaten, now) == stored.health
    ensures r.happy == 0 || r.happy + DecayAmount(lastEaten, now) == stored.happy
    ensures stored.health >= DecayAmount(lastEaten, now) ==> r.health + DecayAmount(lastEaten, now) == stored.health
    ensures stored.happy >= DecayAmount(lastEaten, now) ==> r.happy + DecayAmount(lastEaten, now) == stored.happy
    ensures now - lastEaten < MinuteMs ==> r == stored
  {
    var d := DecayAmount(lastEaten, now);
    Status(stored.hungry + d, SaturatingSub(stored.health, d), SaturatingSub(stored.happy, d))
  }

  /** Decay is monotonic in time: a later reading is never less hungry and
      never healthier or happier. */
  lemma DecayedMonotone(stored: Status, lastEaten: nat, t1: nat, t2: nat)
    requires lastEaten <= t1 <= t2
    ensures Decayed(stored, lastEaten, t1).hungry <= Decayed(stored, lastEaten, t2).hungry
    ensures Decayed(stored, lastEaten, t2).health <= Decayed(stored, lastEaten, t1).health
    ensures Decayed(stored, lastEaten, t2).happy <= Decayed(stored, lastEaten, t1).happy
  {
    DecayAmountMonotone(lastEaten, t1, t2);
  }

  /** `get_total_status` on a status: max(0, health + happy - hungry). */
  function TotalStatus(s: Status): (t: nat)
    ensures t >= s.health + s.happy - s.hungry
    ensures t == 0 || t == s.health + s.happy - s.hungry
  {
    var total := s.health + s.happy - s.hungry;
    if total > 0 then total else 0
  }

  /** `get_condition` on a total: 0 (bad) below 100, 1 (normal) below 200, else 2 (good). */
  function Condition(total: nat): (c: nat)
    ensures c <= 2
    ensures c == 0 <==> total < 100
    ensures c == 2 <==> 200 <= total
  {
    if total < 100 then 0 else if total < 200 then 1 else 2
  }

  /** The total, and so the condition tier, can only fall as time passes. */
  lemma ConditionNonIncreasing(stored: Status, lastEaten: nat, t1: nat, t2: nat)
    requires lastEaten <= t1 <= t2
    ensures TotalStatus(Decayed(stored, lastEaten, t2)) <= TotalStatus(Decayed(stored, lastEaten, t1))
    ensures Condition(TotalStatus(Decayed(stored, lastEaten, t2))) <= Condition(TotalStatus(Decayed(stored, lastEaten, t1)))
  {
    DecayedMonotone(stored, lastEaten, t1, t2);
  }

  /** `change_some_status(number)` applied to a status: hunger lowered by
      `number` down to zero, health and happiness raised by `number`. */
  function ChangedBy(s: Status, number: nat): (r: Status)
    ensures r.hungry <= s.hungry && s.health <= r.health && s.happy <= r.happy
    ensures r.health - s.health == r.happy - s.happy == number
    ensures r.hungry == 0 || r.hungry + number == s.hungry
    ensures s.hungry >= number ==> r.hungry + number == s.hungry
  {
    Status(SaturatingSub(s.hungry, number), s.health + number, s.happy + number)
  }

  /** A status change never lowers the total score. */
  lemma ChangedByRaisesTotal(s: Status, number: nat)
    ensures TotalStatus(s) <= TotalStatus(ChangedBy(s, number))
  {
  }

  /** Which of the four outcomes of feeding a draw selects. */
  datatype FeedBranch = PlusThirty | Full | Lucky | Death

  function BranchOf(draw: nat): (b: FeedBranch)
    ensures b == PlusThirty <==> draw < 25
    ensures b == Full <==> 25 <= draw < 50
    ensures b == Lucky <==> 50 <= draw < 75
    ensures b == Death <==> 75 <= draw
  {
    if draw < 25 then PlusThirty
    else if draw < 50 then Full
    else if draw < 75 then Lucky
    else Death
  }

  /** The two branches that go through `set_status`, which requires the token to exist. */
  predicate GoesThroughSetStatus(b: FeedBranch) {
    b == Full || b == Death
  }

  /** The stored status after a feeding whose draw is `draw`, from the
      current status `current` at the moment of feeding. */
  function FeedResult(current: Status, draw: nat): (r: Status)
    ensures draw < 25 ==> r == ChangedBy(current, 30)
    ensures 25 <= draw < 50 ==> r == FullStatus
    ensures 50 <= draw < 75 ==> r == ChangedBy(current, 50)
    ensures 75 <= draw ==> r == DeathStatus
  {
    match BranchOf(draw)
    case PlusThirty => ChangedBy(current, 30)
    case Full => FullStatus
    case Lucky => ChangedBy(current, 50)
    case Death => DeathStatus
  }

  /** The keccak output byte reduced to the draw range: `byte % (max_value + 1)`,
      with `max_value + 1` not overflowing a u8. */
  function ReduceDraw(b: Byte, maxValue: nat): (r: nat)
    requires maxValue < 255
    ensures r <= maxValue
    ensures b as int <= maxValue ==> r == b as int
  {
    var v: int := b as int;
    var m: int := maxValue + 1;
    ModBelow(v, m);
    v % m
  }

  /** The remainder lies below the divisor, and a value already below it is its own remainder. */
  lemma ModBelow(v: int, m: int)
    requires 0 <= v && 0 < m
    ensures 0 <= v % m < m
    ensures v < m ==> v % m == v
  {
  }
}
