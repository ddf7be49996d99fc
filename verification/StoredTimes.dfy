/**
 Times of keys and plans as the state file keeps them (internal/policy/state_database.go): whole milliseconds of Unix
 time, with zero for "no time". Instants are nanoseconds since Go's zero time, which itself stands for "no time".
 */
module StoredTimes {
  import UsageWindows

  const MILLISECOND: int := 1_000_000

  /** 1970-01-01T00:00:00Z. */
  const EPOCH: int := 62_135_596_800 * UsageWindows.SECOND

  /** `timeToMillis`: rounded down, also before 1970. */
  function TimeToMillis(t: int): int { if t == 0 then 0 else (t - EPOCH) / MILLISECOND }

  function MillisToTime(ms: int): int { if ms == 0 then 0 else EPOCH + ms * MILLISECOND }

  /** What is read back after `t` was written. */
  function StoredTime(t: int): int { MillisToTime(TimeToMillis(t)) }

  /** Absent, or a whole millisecond other than the first one of 1970. */
  predicate Lasts(t: int) { t == 0 || (t % MILLISECOND == 0 && t != EPOCH) }

  /**
   In one of the two milliseconds that read as "no time": the first one of 1970, which is written as zero, and the
   first one of year 1, which is written as another number and read as Go's zero time.
   */
  predicate Vanishes(t: int) { EPOCH <= t < EPOCH + MILLISECOND || 0 < t < MILLISECOND }

  lemma {:induction false} StoredTimeIs(t: int)
    ensures StoredTime(t) == t <==> Lasts(t)
    ensures StoredTime(t) == 0 <==> t == 0 || Vanishes(t)
    ensures !Vanishes(t) ==> StoredTime(t) <= t < StoredTime(t) + MILLISECOND
    ensures Lasts(StoredTime(t))
  {
    if t != 0 {
      var ms := TimeToMillis(t);
      assert t - EPOCH == ms * MILLISECOND + (t - EPOCH) % MILLISECOND;
      assert EPOCH == 62_135_596_800_000 * MILLISECOND;
    }
  }
}
