/** The elapsed-time gates built on the block timestamp (milliseconds). */
module TimeGate {

  const MsPerSecond: nat := 1000

  /** The threshold `five_minutes_has_passed` passes to `has_passed`: sixty
      seconds, whatever the name says. */
  const FiveMinutesCheckSeconds: nat := 60

  const OneDaySeconds: nat := 60 * 60 * 24

  /** `has_passed(check_time, last_time)`: the time since `lastTime` is
      strictly longer than `checkSeconds` seconds. The u64 subtraction
      `now - lastTime` is only meaningful when the clock has not gone back. */
  function HasPassed(checkSeconds: nat, lastTime: nat, now: nat): (r: bool)
    requires lastTime <= now
    ensures r <==> now > lastTime + checkSeconds * MsPerSecond
    ensures r ==> now > lastTime
  {
    now - lastTime > checkSeconds * MsPerSecond
  }

  /** `five_minutes_has_passed`: more than 60 000 ms since `lastTime`. */
  function FiveMinutesHasPassed(lastTime: nat, now: nat): (r: bool)
    requires lastTime <= now
    ensures r <==> now - lastTime > 60000
  {
    HasPassed(FiveMinutesCheckSeconds, lastTime, now)
  }

  /** `one_day_has_passed`: more than 86 400 000 ms since `lastTime`. */
  function OneDayHasPassed(lastTime: nat, now: nat): (r: bool)
    requires lastTime <= now
    ensures r <==> now - lastTime > 86400000
  {
    HasPassed(OneDaySeconds, lastTime, now)
  }

  /** A gate that has opened stays open as the clock advances, and a gate
      reset to the present is closed. */
  lemma HasPassedMonotone(checkSeconds: nat, lastTime: nat, t1: nat, t2: nat)
    requires lastTime <= t1 <= t2
    ensures HasPassed(checkSeconds, lastTime, t1) ==> HasPassed(checkSeconds, lastTime, t2)
    ensures !HasPassed(checkSeconds, t2, t2)
  {
  }
}
