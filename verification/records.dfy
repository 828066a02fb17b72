/** Log records as handed over by the syslog listener, and the conversion of
    their timestamps to the millisecond resolution of CloudWatch Logs. */
module Records {

  const MinInt64: int := -0x8000_0000_0000_0000
  const MaxInt64: int := 0x7FFF_FFFF_FFFF_FFFF

  /** Go's `int64`. */
  type Int64 = x: int | MinInt64 <= x <= MaxInt64

  /** `int64(time.Millisecond)`: nanoseconds per millisecond. */
  const NanosPerMilli: int := 1_000_000

  /** One parsed syslog entry (`format.LogParts`). The entry's `time.Time` is
      represented by its `UnixNano` value; `extra` stands for every other
      parsed field, kept opaque. */
  datatype Record = Record(timestampNs: Int64, content: string, extra: map<string, string>)

  /** `makeMilliTimestamp`: Unix nanoseconds to Unix milliseconds with Go's
      integer division, which truncates toward zero. */
  function MakeMilliTimestamp(unixNano: Int64): (ms: Int64)
    ensures 0 <= unixNano ==> 0 <= ms * 1_000_000 <= unixNano < ms * 1_000_000 + 1_000_000
    ensures unixNano < 0 ==> ms * 1_000_000 - 1_000_000 < unixNano <= ms * 1_000_000 <= 0
  {
    if unixNano >= 0 then unixNano / NanosPerMilli else -((-(unixNano as int)) / NanosPerMilli)
  }

  /** The truncation bounds above single out exactly one millisecond value. */
  lemma MilliTimestampUnique(unixNano: Int64, ms: int)
    requires 0 <= unixNano ==> 0 <= ms * 1_000_000 <= unixNano < ms * 1_000_000 + 1_000_000
    requires unixNano < 0 ==> ms * 1_000_000 - 1_000_000 < unixNano <= ms * 1_000_000 <= 0
    ensures ms == MakeMilliTimestamp(unixNano)
  {
  }

  /** Converting to milliseconds never reverses the order of two instants. */
  lemma MilliTimestampMonotone(t1: Int64, t2: Int64)
    requires t1 <= t2
    ensures MakeMilliTimestamp(t1) <= MakeMilliTimestamp(t2)
  {
  }

  /** Before the epoch the conversion rounds up: -1 ns is 0 ms, where a
      floor division (and Dafny's own `/`) would give -1 ms. */
  lemma MilliTimestampTruncatesTowardZero()
    ensures MakeMilliTimestamp(-1) == 0
    ensures MakeMilliTimestamp(-1_000_001) == -1
    ensures MakeMilliTimestamp(1_999_999) == 1
  {
  }
}
