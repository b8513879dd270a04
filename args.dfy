/**
 * The checks both main() functions apply to the already-parsed options
 * before any client or server object is configured. Parsing itself
 * (boost::program_options, --help, usage text) is not part of this model.
 */
module Args {
  import opened Common

  /** What the client's main() hands to the client object. */
  datatype ClientConfig = ClientConfig(quota: Option<Uint64>, intervalMs: nat)

  /** Either a configuration to run with, or an early exit status. */
  datatype Checked<T> = Run(config: T) | Exit(status: int)

  /** The quota that a parsed, non-negative --count becomes (a static_cast to uint64_t). */
  function QuotaOf(count: Option<Int64>): Option<Uint64>
    requires count.Some? ==> count.value >= 0
  {
    if count.None? then None else Some(count.value)
  }

  /**
   * Client main(): a negative --count is rejected first, then a
   * non-positive --interval (which always has a value, 1000 by default).
   */
  function CheckClientArgs(count: Option<Int64>, intervalMs: Int64): (r: Checked<ClientConfig>)
    ensures r.Exit? <==> (count.Some? && count.value < 0) || intervalMs <= 0
    ensures r.Exit? ==> r.status == ExitUsage
    ensures r.Run? ==> r.config.quota.Some? == count.Some?
    ensures r.Run? && count.Some? ==> r.config.quota.value == count.value < 0x8000_0000_0000_0000
    ensures r.Run? ==> 0 < r.config.intervalMs == intervalMs
  {
    if count.Some? && count.value < 0 then Exit(ExitUsage)
    else if intervalMs <= 0 then Exit(ExitUsage)
    else Run(ClientConfig(QuotaOf(count), intervalMs))
  }

  /** Server main(): only --count is checked; a negative value is rejected. */
  function CheckServerArgs(count: Option<Int64>): (r: Checked<Option<Uint64>>)
    ensures r.Exit? <==> count.Some? && count.value < 0
    ensures r.Exit? ==> r.status == ExitUsage
    ensures r.Run? ==> r.config.Some? == count.Some?
    ensures r.Run? && count.Some? ==> r.config.value == count.value < 0x8000_0000_0000_0000
  {
    if count.Some? && count.value < 0 then Exit(ExitUsage)
    else Run(QuotaOf(count))
  }
}
