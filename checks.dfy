/** The part of the check parameters that configuration fills in. */
module Checks {

  /** time.Duration: a signed 64-bit count of nanoseconds. */
  type Duration = d: int | -0x8000_0000_0000_0000 <= d < 0x8000_0000_0000_0000

  const Second: Duration := 1_000_000_000
  const Minute: Duration := 60 * Second

  /**
   * CheckParam as configuration produces it: the latency budget of one run,
   * the interval between runs, and the configuration name of the target.
   */
  datatype CheckParam = CheckParam(latency: Duration, period: Duration, envName: string)
}
