/** Clock arithmetic. Times and durations count nanoseconds. */
module Times {
  import opened Outcomes

  const SECOND: nat := 1_000_000_000
  const DAY: nat := 86_400 * SECOND

  /** Steady clock readings are below this value. */
  const INSTANT_LIMIT: nat := 0x1_0000_0000_0000_0000 * SECOND

  function AddInstant(instant: nat, duration: nat): Option<nat> {
    if instant + duration >= INSTANT_LIMIT then None else Some(instant + duration)
  }

  /** Latest representable system time, from the Unix epoch (a Windows FILETIME). */
  const TIME_LIMIT: int := 0x7FFF_FFFF_FFFF_FFFF * 100 - 11_644_473_600 * SECOND

  function AddDuration(time: int, duration: nat): Option<int> {
    if time + duration > TIME_LIMIT then None else Some(time + duration)
  }
}
