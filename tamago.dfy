/** The example pet contract: three u32 gauges and the time of the last
    feeding, changed only by `feed`, which acts at most once per five
    minutes. */
module Tamago {
  import opened PetStatus

  const U32Max: nat := 0xFFFF_FFFF
  /** `FIVE_MINUTES`, in seconds, and the same span in milliseconds. */
  const FiveMinutesSeconds: nat := 5 * 60
  const FiveMinutesMs: nat := FiveMinutesSeconds * 1000

  predicate IsU32(x: nat) {
    x <= U32Max
  }

  /** u32 `saturating_add`: the sum, capped at the largest u32. */
  function SaturatingAdd32(a: nat, b: nat): (r: nat)
    requires IsU32(a)
    ensures IsU32(r) && a <= r
    ensures a + b <= U32Max ==> r == a + b
    ensures a + b > U32Max ==> r == U32Max
  {
    if a + b <= U32Max then a + b else U32Max
  }

  datatype Pet = Pet(hunger: nat, happiness: nat, health: nat, lastFed: nat)

  predicate PetValid(p: Pet) {
    IsU32(p.hunger) && IsU32(p.happiness) && IsU32(p.health)
  }

  /** Whether at least five minutes have elapsed since the last feeding. */
  predicate FeedingDue(p: Pet, now: nat)
    requires p.lastFed <= now
  {
    now - p.lastFed >= FiveMinutesMs
  }

  /** `feed` on values: when due, hunger drops by 20, happiness rises by 10
      and health by 5, all saturating, and the feeding time is recorded;
      otherwise nothing changes. */
  function Fed(p: Pet, now: nat): (r: Pet)
    requires PetValid(p) && p.lastFed <= now
    ensures PetValid(r)
    ensures r == p <==> !FeedingDue(p, now)
    ensures FeedingDue(p, now) ==>
              && r.lastFed == now
              && r.hunger == SaturatingSub(p.hunger, 20)
              && r.happiness == SaturatingAdd32(p.happiness, 10)
              && r.health == SaturatingAdd32(p.health, 5)
  {
    if FeedingDue(p, now) then
      Pet(SaturatingSub(p.hunger, 20), SaturatingAdd32(p.happiness, 10),
          SaturatingAdd32(p.health, 5), now)
    else p
  }

  /** A feeding never makes the pet hungrier, sadder or less healthy, and
      never moves the recorded feeding time back. */
  lemma FedMonotone(p: Pet, now: nat)
    requires PetValid(p) && p.lastFed <= now
    ensures Fed(p, now).hunger <= p.hunger
    ensures p.happiness <= Fed(p, now).happiness && p.health <= Fed(p, now).health
    ensures p.lastFed <= Fed(p, now).lastFed <= now
  {
  }

  /** A second feeding at the same moment does nothing: the first one
      closed the five-minute window. */
  lemma FedTwiceSameTime(p: Pet, now: nat)
    requires PetValid(p) && p.lastFed <= now
    ensures Fed(Fed(p, now), now) == Fed(p, now)
  {
  }

  /** Feeding again is possible five minutes after the last feeding, and not sooner. */
  lemma FedAgainAfterFiveMinutes(p: Pet, t1: nat, t2: nat)
    requires PetValid(p) && p.lastFed <= t1 <= t2
    requires FeedingDue(p, t1)
    ensures Fed(Fed(p, t1), t2) != Fed(p, t1) <==> t2 - t1 >= FiveMinutesMs
  {
  }

  /** The contract storage of the example. The catalog and access-control
      storage it embeds are not part of this model. */
  class CatalogContract {
    var hunger: nat
    var happiness: nat
    var health: nat
    var lastFed: nat

    ghost predicate Valid()
      reads this
    {
      PetValid(State())
    }

    /** The gauges and the feeding time as a value. */
    function State(): (p: Pet)
      reads this
      ensures p.hunger == hunger && p.happiness == happiness && p.health == health && p.lastFed == lastFed
    {
      Pet(hunger, happiness, health, lastFed)
    }

    /** The default storage: every gauge and the feeding time zero. */
    constructor ()
      ensures Valid() && State() == Pet(0, 0, 0, 0)
    {
      hunger, happiness, health, lastFed := 0, 0, 0, 0;
    }

    /** `feed`, with the block timestamp `now`. */
    method Feed(now: nat)
      requires Valid() && lastFed <= now
      modifies this
      ensures Valid()
      ensures State() == Fed(old(State()), now)
    {
      var sinceLastFed := now - lastFed;
      if sinceLastFed >= FiveMinutesMs {
        hunger := SaturatingSub(hunger, 20);
        happiness := SaturatingAdd32(happiness, 10);
        health := SaturatingAdd32(health, 5);
        lastFed := now;
      }
    }

    /** `get_happiness`. */
    function GetHappiness(): (h: nat)
      reads this
      requires Valid()
      ensures IsU32(h) && h == State().happiness
    {
      happiness
    }

    /** `get_last_fed`. */
    function GetLastFed(): (t: nat)
      reads this
      ensures t == State().lastFed
    {
      lastFed
    }
  }
}
