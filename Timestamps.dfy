/**
 * The timestamp style of the timed formatter: the `TimestampType` enum and
 * the process-wide `TIMESTAMP_TYPE` that `set_timestamp_type` overwrites.
 */
module Timestamps {
  /** Which timestamp the timed formatter prints. */
  datatype TimestampType = SystemTimeMillis | LocalRfc3339 | UtcRfc3339

  /** The global `TIMESTAMP_TYPE`, which starts as `SystemTimeMillis`. */
  class TimestampSetting {
    var timestampType: TimestampType

    constructor ()
      ensures timestampType == SystemTimeMillis
    {
      timestampType := SystemTimeMillis;
    }

    /** `set_timestamp_type`: overwrites the global choice and nothing else. */
    method SetTimestampType(t: TimestampType)
      modifies this
      ensures timestampType == t
    {
      timestampType := t;
    }
  }

  /**
   * The current instant as the three renderings the timed formatter can
   * print: millisecond system time, RFC 3339 in the local zone and RFC 3339
   * in UTC. Reading the clock happens outside the model.
   */
  datatype Clock = Clock(millis: string, localRfc3339: string, utcRfc3339: string)

  /** The rendering of the current instant selected by `t`. */
  function RenderTime(t: TimestampType, clock: Clock): (time: string)
    ensures time in {clock.millis, clock.localRfc3339, clock.utcRfc3339}
  {
    match t
    case SystemTimeMillis => clock.millis
    case LocalRfc3339 => clock.localRfc3339
    case UtcRfc3339 => clock.utcRfc3339
  }
}
